// Who is banned, over whole runs: nobody but registered participants who did
// not sign in time or whose coin the node reported spent - and all of those.
module Attribution {
  import opened Base
  import opened Transactions
  import opened World
  import opened Ownership
  import opened Rounds
  import opened Blame
  import opened Canonical
  import opened Assembly
  import opened RoundInvariant
  import opened SigningRound
  import opened Protocol
  import opened Changes
  import opened Lifecycle
  import Outpoints

  // -- registrations and signatures in the history ---------------------------------

  predicate RegistrationOf(e: Event, id: RoundId, u: string) {
    e.Registered? && e.id == id && e.utxo == u
  }

  predicate SignatureOf(e: Event, id: RoundId, u: string) {
    e.Signed? && e.id == id && e.utxo == u
  }

  ghost predicate HasRegistered(log: seq<Event>, last: nat, id: RoundId, u: string) {
    exists k :: 0 <= k < last && k < |log| && RegistrationOf(log[k], id, u)
  }

  ghost predicate HasSigned(log: seq<Event>, last: nat, id: RoundId, u: string) {
    exists k :: 0 <= k < last && k < |log| && SignatureOf(log[k], id, u)
  }

  // Two sets of keys are what the history up to `last` says.
  ghost predicate Matches(log: seq<Event>, last: nat, id: RoundId, joined: set<string>, signed: set<string>) {
    && (forall u :: u in joined <==> HasRegistered(log, last, id, u))
    && (forall u :: u in signed <==> HasSigned(log, last, id, u))
  }

  // -- fair endings --------------------------------------------------------------------

  // The bans of one ending are exactly what its cause justifies.
  ghost predicate Fair(log: seq<Event>, i: nat) {
    i < |log| && log[i].Ended? ==>
      && Matches(log, i, log[i].id, log[i].registered, log[i].signers)
      && FairBans(log[i])
  }

  ghost predicate FairBans(e: Event)
    requires e.Ended?
  {
    match e.cause
    case QuorumFailed | MissingOutputs => e.banned == {} && e.signers == {}
    case SigningTimedOut => e.banned == e.registered - e.signers
    case BroadcastSucceeded | WatchdogFired => e.banned == {} && e.signers == e.registered
    case BroadcastFailed(outpoints, answers) =>
      && e.signers == e.registered
      && |answers| == |outpoints|
      && e.banned <= e.registered
      && (forall u :: u in e.banned <==> ReportedSpent(outpoints, answers, 0, u))
  }

  ghost predicate AllFair(log: seq<Event>) {
    forall i :: 0 <= i < |log| ==> Fair(log, i)
  }

  ghost predicate Accounted(s: System) {
    AllFair(s.log) && Matches(s.log, |s.log|, s.round.id, Joined(s.round), SignedBy(s.round))
  }

  // -- growth of the log ------------------------------------------------------------------

  lemma RegisteredStays(log: seq<Event>, e: Event, last: nat, id: RoundId, u: string)
    requires last <= |log|
    ensures HasRegistered(log + [e], last, id, u) <==> HasRegistered(log, last, id, u)
    ensures HasSigned(log + [e], last, id, u) <==> HasSigned(log, last, id, u)
  {
    if HasRegistered(log, last, id, u) {
      var k :| 0 <= k < last && k < |log| && RegistrationOf(log[k], id, u);
      assert RegistrationOf((log + [e])[k], id, u);
    }
    if HasSigned(log, last, id, u) {
      var k :| 0 <= k < last && k < |log| && SignatureOf(log[k], id, u);
      assert SignatureOf((log + [e])[k], id, u);
    }
  }

  lemma FairStays(log: seq<Event>, e: Event, i: nat)
    requires i < |log| && Fair(log, i)
    ensures Fair(log + [e], i)
  {
    hide FairBans, HasRegistered, HasSigned;
    assert (log + [e])[i] == log[i];
    if log[i].Ended? {
      forall u {
        RegisteredStays(log, e, i, log[i].id, u);
      }
    }
  }

  lemma AllFairStays(log: seq<Event>, e: Event)
    requires AllFair(log) && Fair(log + [e], |log|)
    ensures AllFair(log + [e])
  {
    hide Fair;
    forall i | 0 <= i < |log + [e]| ensures Fair(log + [e], i) {
      if i < |log| {
        FairStays(log, e, i);
      }
    }
  }

  // One more event of the round.
  lemma MatchesGrows(log: seq<Event>, e: Event, id: RoundId, joined: set<string>, signed: set<string>)
    requires Matches(log, |log|, id, joined, signed)
    ensures Matches(log + [e], |log| + 1, id,
              if e.Registered? && e.id == id then joined + {e.utxo} else joined,
              if e.Signed? && e.id == id then signed + {e.utxo} else signed)
  {
    hide HasRegistered, HasSigned;
    forall u
      ensures HasRegistered(log + [e], |log| + 1, id, u) <==>
              HasRegistered(log, |log|, id, u) || RegistrationOf(e, id, u)
      ensures HasSigned(log + [e], |log| + 1, id, u) <==> HasSigned(log, |log|, id, u) || SignatureOf(e, id, u)
    {
      NewestEvent(log, e, id, u);
    }
  }

  lemma NewestEvent(log: seq<Event>, e: Event, id: RoundId, u: string)
    ensures HasRegistered(log + [e], |log| + 1, id, u) <==>
            HasRegistered(log, |log|, id, u) || RegistrationOf(e, id, u)
    ensures HasSigned(log + [e], |log| + 1, id, u) <==> HasSigned(log, |log|, id, u) || SignatureOf(e, id, u)
  {
    RegisteredStays(log, e, |log|, id, u);
    assert (log + [e])[|log|] == e;
  }

  // A round nobody has heard of has nobody in it.
  lemma UnheardOf(log: seq<Event>, id: RoundId)
    requires forall i :: 0 <= i < |log| ==> log[i].id != id
    ensures Matches(log, |log|, id, {}, {})
  {
  }

  // -- endings are fair ---------------------------------------------------------------------

  // Before signing nobody has signed; in flight everybody has.
  lemma SignersByPhase(env: Env, r: Round)
    requires env.cfg.bip.AllowsSomething() && RoundOk(env, r)
    ensures r.phase in {InputReg, OutputReg} ==> SignedBy(r) == {}
    ensures r.phase == Broadcast ==> SignedBy(r) == Joined(r)
  {
    hide InputsOk, OutputsOk, SigsOk, CompleteOnlyOverCeiling, Canon;
  }

  lemma JoinedParse(env: Env, r: Round, u: string)
    requires env.cfg.bip.AllowsSomething() && RoundOk(env, r) && u in Joined(r)
    ensures Outpoints.Parse(u).Some?
  {
    hide OutputsOk, SigningOk, CountsOk, Outpoints.Parse, Outpoints.Render, RegistrationFloor;
    assert InputOk(env, u, r.inner.value.inputs[u]);
  }

  lemma RevalidationIsFair(env: Env, r: Round, outpoints: seq<string>, answers: seq<RpcAnswer>)
    requires env.cfg.bip.AllowsSomething() && RoundOk(env, r)
    requires |answers| == |outpoints| && (set u | u in outpoints) == Joined(r)
    ensures forall u :: u in Revalidate(outpoints, answers, 0) <==> ReportedSpent(outpoints, answers, 0, u)
    ensures forall u :: u in Revalidate(outpoints, answers, 0) ==> u in Joined(r)
  {
    hide RoundOk, Revalidate, Outpoints.Parse, Asked;
    forall k | 0 <= k < |outpoints| ensures Outpoints.Parse(outpoints[k]).Some? {
      assert outpoints[k] in set v | v in outpoints;
      JoinedParse(env, r, outpoints[k]);
    }
    forall u ensures u in Revalidate(outpoints, answers, 0) <==> ReportedSpent(outpoints, answers, 0, u)
      ensures u in Revalidate(outpoints, answers, 0) ==> u in Joined(r)
    {
      RevalidationIsExact(outpoints, answers, 0, u);
      assert u in outpoints ==> u in set v | v in outpoints;
    }
  }

  lemma EndingIsFair(env: Env, s: System, e: Event, after: Accounts)
    requires env.cfg.bip.AllowsSomething() && RoundOk(env, s.round)
    requires Judged(env, s, e, after)
    ensures FairBans(e)
  {
    hide RoundOk, Revalidate, ReportedSpent, SigningTimeoutVerdict, BroadcastFailureVerdict;
    SignersByPhase(env, s.round);
    if e.cause.BroadcastFailed? {
      RevalidationIsFair(env, s.round, e.cause.outpoints, e.cause.answers);
    }
  }

  // -- the changes --------------------------------------------------------------------------

  lemma GrowthKeepsAccounted(s: System, t: System, e: Event)
    requires Accounted(s) && !e.Ended? && e.id == s.round.id == t.round.id && t.log == s.log + [e]
    requires Joined(t.round) == (if e.Registered? then Joined(s.round) + {e.utxo} else Joined(s.round))
    requires SignedBy(t.round) == (if e.Signed? then SignedBy(s.round) + {e.utxo} else SignedBy(s.round))
    ensures Accounted(t)
  {
    hide AllFair, Matches;
    NotEnded(t.log, |s.log|);
    AllFairStays(s.log, e);
    MatchesGrows(s.log, e, s.round.id, Joined(s.round), SignedBy(s.round));
  }

  lemma NotEnded(log: seq<Event>, i: nat)
    requires i < |log| && !log[i].Ended?
    ensures Fair(log, i)
  {
  }

  lemma EndKeepsAccounted(env: Env, s: System, t: System)
    requires env.cfg.bip.AllowsSomething() && RoundOk(env, s.round)
    requires Accounted(s) && Lived(s) && Ends(env, s, t)
    ensures Accounted(t)
  {
    hide RoundOk, AllFair, FairBans, SigningTimeoutVerdict, BroadcastFailureVerdict, Revalidate, HasRegistered,
      HasSigned, Ordered, Current;
    var e := t.log[|s.log|];
    assert t.log == s.log + [e];
    EndingIsFair(env, s, e, t.accounts);
    forall u {
      RegisteredStays(s.log, e, |s.log|, e.id, u);
    }
    assert Fair(t.log, |s.log|);
    AllFairStays(s.log, e);
    UnheardOf(t.log, t.round.id);
  }

  lemma SignKeepsAccounted(env: Env, s: System, t: System)
    requires Accounted(s) && Signs(env, s, t)
    ensures Accounted(t)
  {
    hide Accounted, InSigning, WithSig, SignedTx, FullySigned, Witnesses;
    var psbt: Psbt, key: string, e: Event :| SignsWith(env, s, t, psbt, key, e);
    SigningIsLive(env, s, t, psbt, key, e);
    SignedKeys(s.round, t.round, key, e.sig);
    var mid := t.(log := s.log + [e]);
    GrowthKeepsAccounted(s, mid, e);
    if t.round.phase == Broadcast {
      GrowthKeepsAccounted(mid, t, t.log[|s.log| + 1]);
    }
  }

  lemma SignedKeys(r: Round, after: Round, key: string, sig: Bytes)
    requires r.inner.Some? && after.inner == WithSig(r, key, sig).inner
    ensures Joined(after) == Joined(r) && SignedBy(after) == SignedBy(r) + {key}
  {
  }

  lemma ChangeKeepsAccounted(env: Env, s: System, t: System)
    requires env.cfg.bip.AllowsSomething() && RoundOk(env, s.round)
    requires Accounted(s) && Lived(s) && Change(env, s, t)
    ensures Accounted(t)
  {
    hide RoundOk, Accounted, Signs, Ends, InSigning, Lived;
    if Quiet(s, t) {
      SameAccounted(s, t);
    } else if Installs(s, t) {
      EmptyWhileIdle(env, s.round);
      GrowthKeepsAccounted(s, t, t.log[|s.log|]);
    } else if Progresses(env, s, t) {
      SignersByPhase(env, s.round);
      if t.log == s.log {
        SameAccounted(s, t);
      } else {
        GrowthKeepsAccounted(s, t, t.log[|s.log|]);
      }
    } else if Shows(env, s, t) {
      GrowthKeepsAccounted(s, t, t.log[|s.log|]);
    } else if Signs(env, s, t) {
      SignKeepsAccounted(env, s, t);
    } else {
      EndKeepsAccounted(env, s, t);
    }
  }

  lemma SameAccounted(s: System, t: System)
    requires Accounted(s) && t.log == s.log && t.round.id == s.round.id
    requires Joined(t.round) == Joined(s.round) && SignedBy(t.round) == SignedBy(s.round)
    ensures Accounted(t)
  {
    hide AllFair, Matches;
  }

  lemma EmptyWhileIdle(env: Env, r: Round)
    requires env.cfg.bip.AllowsSomething() && RoundOk(env, r) && r.phase == Idle
    ensures Joined(r) == {} && SignedBy(r) == {}
  {
  }
}
