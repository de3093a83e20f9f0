// When exactly the coin of an input request is banned, once it has passed its
// ban check: through an ending no earlier than that of the round it began in.
module RequestBans {
  import opened Base
  import opened Transactions
  import opened World
  import opened Ownership
  import opened Rounds
  import opened BanStore
  import opened Blame
  import opened Assembly
  import opened SigningRound
  import opened Protocol
  import opened Changes
  import opened Steps
  import opened Lifecycle
  import opened OneTransaction
  import opened Attribution
  import opened Reckoning
  import opened Runs
  import opened Progress
  import Fees
  import Outpoints

  // -- bans of the meantime ------------------------------------------------------------

  // Round `id` has ended at or before position `last`.
  ghost predicate EndedBy(log: seq<Event>, id: RoundId, last: nat) {
    exists i :: 0 <= i <= last && i < |log| && log[i].Ended? && log[i].id == id
  }

  ghost predicate BansHash(env: Env, e: Event, hash: Hash) {
    e.Ended? && exists u :: u in e.banned && env.sha(u) == hash
  }

  // The ending at j bans this hash, and is that of round `start` or a later one.
  ghost predicate BansAfter(env: Env, log: seq<Event>, j: nat, start: RoundId, hash: Hash) {
    j < |log| && log[j].Ended? && BansHash(env, log[j], hash) && EndedBy(log, start, j)
  }

  // Some such ban still lasts at `now`.
  ghost predicate BannedMeanwhile(env: Env, log: seq<Event>, start: RoundId, hash: Hash, now: nat) {
    exists j: nat :: BansAfter(env, log, j, start, hash) && now < log[j].time + env.cfg.banDurationSecs
  }

  // -- the invariant -----------------------------------------------------------------------

  ghost predicate Began(s: System, start: RoundId) {
    start == s.round.id || EndedBy(s.log, start, |s.log|)
  }

  // An entry still in force was written in the meantime.
  ghost predicate OnlyMeanwhile(env: Env, s: System, start: RoundId, hash: Hash) {
    hash in s.accounts.bans && s.now < s.accounts.bans[hash].expiresAt ==>
      WrittenMeanwhile(env, s.log, start, hash, s.accounts.bans[hash].expiresAt)
  }

  ghost predicate WrittenMeanwhile(env: Env, log: seq<Event>, start: RoundId, hash: Hash, end: nat) {
    exists j: nat :: BansAfter(env, log, j, start, hash) && end == log[j].time + env.cfg.banDurationSecs
  }

  function HashOf(env: Env, op: OutPoint): Hash {
    env.sha(Outpoints.Render(op))
  }

  ghost predicate RequestDeserves(env: Env, s: System, task: Task) {
    task.InputRequest? ==>
      && Began(s, task.startRound)
      && (task.stage != Arrived ==> OnlyMeanwhile(env, s, task.startRound, HashOf(env, task.op)))
  }

  ghost predicate RequestsDeserve(env: Env, s: System) {
    forall tid :: tid in s.tasks ==> RequestDeserves(env, s, s.tasks[tid])
  }

  // -- growth of the history -----------------------------------------------------------------

  lemma EndedStays(log: seq<Event>, more: seq<Event>, id: RoundId, last: nat, later: nat)
    requires EndedBy(log, id, last) && last <= later
    ensures EndedBy(log + more, id, later)
  {
    var i :| 0 <= i <= last && i < |log| && log[i].Ended? && log[i].id == id;
    assert (log + more)[i] == log[i];
  }

  lemma WrittenStays(env: Env, log: seq<Event>, more: seq<Event>, start: RoundId, hash: Hash, end: nat)
    requires WrittenMeanwhile(env, log, start, hash, end)
    ensures WrittenMeanwhile(env, log + more, start, hash, end)
  {
    hide EndedBy, BansHash;
    var j: nat :| BansAfter(env, log, j, start, hash) && end == log[j].time + env.cfg.banDurationSecs;
    EndedStays(log, more, start, j, j);
    assert (log + more)[j] == log[j];
    assert BansAfter(env, log + more, j, start, hash);
  }

  // Whatever happens, what a request deserves it goes on deserving.
  lemma HistoryKeepsRequest(env: Env, s: System, t: System, start: RoundId, hash: Hash)
    requires Began(s, start) && s.log <= t.log && s.now <= t.now
    requires t.round.id == s.round.id && t.accounts == s.accounts
    ensures Began(t, start)
    ensures OnlyMeanwhile(env, s, start, hash) ==> OnlyMeanwhile(env, t, start, hash)
  {
    hide EndedBy, WrittenMeanwhile;
    var more := t.log[|s.log|..];
    assert t.log == s.log + more;
    if start != s.round.id {
      EndedStays(s.log, more, start, |s.log|, |t.log|);
    }
    if hash in s.accounts.bans && WrittenMeanwhile(env, s.log, start, hash, s.accounts.bans[hash].expiresAt) {
      WrittenStays(env, s.log, more, start, hash, s.accounts.bans[hash].expiresAt);
    }
  }

  lemma NewestEnding(env: Env, log: seq<Event>, e: Event, start: RoundId, hash: Hash)
    requires e.Ended? && (start == e.id || EndedBy(log, start, |log|))
    ensures EndedBy(log + [e], start, |log| + 1)
    ensures BansHash(env, e, hash) ==>
              WrittenMeanwhile(env, log + [e], start, hash, e.time + env.cfg.banDurationSecs)
  {
    hide BansHash;
    assert (log + [e])[|log|] == e;
    if start == e.id {
      assert EndedBy(log + [e], start, |log|);
    } else {
      EndedStays(log, [e], start, |log|, |log|);
    }
    assert BansHash(env, e, hash) ==> BansAfter(env, log + [e], |log|, start, hash);
  }

  lemma EndingKeepsRequest(env: Env, s: System, t: System, start: RoundId, hash: Hash)
    requires Began(s, start) && Ends(env, s, t)
    ensures Began(t, start)
    ensures OnlyMeanwhile(env, s, start, hash) ==> OnlyMeanwhile(env, t, start, hash)
  {
    hide Judged, EndedBy, WrittenMeanwhile, BanAll;
    var e := t.log[|s.log|];
    assert t.log == s.log + [e];
    JudgedIsEnding(env, s, e, t.accounts);
    JudgedAccounts(env, s, e, t.accounts);
    NewestEnding(env, s.log, e, start, hash);
    NewOrOld(env, s.accounts.bans, e, hash);
    if hash in s.accounts.bans && WrittenMeanwhile(env, s.log, start, hash, s.accounts.bans[hash].expiresAt) {
      WrittenStays(env, s.log, [e], start, hash, s.accounts.bans[hash].expiresAt);
    }
  }

  lemma JudgedIsEnding(env: Env, s: System, e: Event, after: Accounts)
    requires Judged(env, s, e, after)
    ensures e.Ended? && e.id == s.round.id && e.time == s.now
  {
    hide Revalidate, SigningTimeoutVerdict, BroadcastFailureVerdict;
  }

  // After an ending an entry is its own or the old one.
  lemma NewOrOld(env: Env, bans: BanMap, e: Event, hash: Hash)
    requires e.Ended?
    ensures var after := BanAll(env, bans, e.banned, e.time);
            hash in after ==>
              if BansHash(env, e, hash) then after[hash].expiresAt == e.time + env.cfg.banDurationSecs
              else hash in bans && after[hash] == bans[hash]
  {
    BanAllBans(env, bans, e.banned, e.time);
  }

  lemma ChangeKeepsRequest(env: Env, s: System, t: System, start: RoundId, hash: Hash)
    requires Began(s, start) && Change(env, s, t)
    ensures Began(t, start)
    ensures OnlyMeanwhile(env, s, start, hash) ==> OnlyMeanwhile(env, t, start, hash)
  {
    hide Began, OnlyMeanwhile, Judged, InSigning, SoundSigned, FullySigned, SignedTx, Joined, SignedBy;
    if Ends(env, s, t) {
      EndingKeepsRequest(env, s, t, start, hash);
    } else {
      ChangeKeepsLog(env, s, t);
      HistoryKeepsRequest(env, s, t, start, hash);
    }
  }

  // -- where requests come from -----------------------------------------------------------------

  // A request of the next state is new, or an old one, just checked or checked before.
  ghost predicate ComesFrom(env: Env, s: System, t: System, tid: nat)
    requires tid in t.tasks
  {
    t.tasks[tid].InputRequest? ==>
      || (t.tasks[tid].stage == Arrived && t.tasks[tid].startRound == s.round.id)
      || (&& tid in s.tasks && s.tasks[tid].InputRequest?
          && s.tasks[tid].op == t.tasks[tid].op && s.tasks[tid].startRound == t.tasks[tid].startRound
          && (s.tasks[tid].stage == Arrived ==> t.tasks[tid].stage == Arrived || !BannedNow(env, s, s.tasks[tid].op)))
  }

  lemma RestMakesNoRequests(env: Env, s: System, act: Label)
    requires env.cfg.bip.AllowsSomething() && !OfRequest(act)
    ensures var t := Step(env, s, act);
            forall tid :: tid in t.tasks && t.tasks[tid].InputRequest? ==>
              tid in s.tasks && t.tasks[tid] == s.tasks[tid]
  {
    hide AcceptInput, CheckBan, SnapshotInputs, CheckCoin, CommitRequest, PostOutput, PostSign, GetTx, OrdersFit,
      Revalidate, BroadcastFailureVerdict, SignedEvent, AssembledEvent, Outpoints.Parse, Enumerates, Install,
      Transition, ViaBlame, CanTransition, Joined, SignedBy, NonSigners, SigningTimeoutVerdict, OutputTimeout,
      InputTimeout;
  }

  lemma RequestStepsCome(env: Env, s: System, act: Label)
    requires env.cfg.bip.AllowsSomething() && OfRequest(act)
    ensures var t := Step(env, s, act); forall tid :: tid in t.tasks ==> ComesFrom(env, s, t, tid)
  {
    hide CommitInput, BannedNow, ValidateUtxo, RegistrationFloor, Outpoints.Parse, Outpoints.Render,
      Fees.EstimateFeeShare, RegisteredOutpoints;
  }

  lemma StepsCome(env: Env, s: System, act: Label)
    requires env.cfg.bip.AllowsSomething()
    ensures var t := Step(env, s, act); forall tid :: tid in t.tasks ==> ComesFrom(env, s, t, tid)
  {
    hide Step, BannedNow;
    if OfRequest(act) {
      RequestStepsCome(env, s, act);
    } else {
      RestMakesNoRequests(env, s, act);
    }
  }

  lemma UnbannedDeserves(env: Env, s: System, op: OutPoint, start: RoundId)
    requires !BannedNow(env, s, op)
    ensures OnlyMeanwhile(env, s, start, HashOf(env, op))
  {
    hide Outpoints.Render;
  }

  lemma StepKeepsDeserving(env: Env, s: System, act: Label)
    requires Sane(env.cfg) && Core(env, s) && RequestsDeserve(env, s)
    ensures RequestsDeserve(env, Step(env, s, act))
  {
    hide Step, Core, Change, Began, OnlyMeanwhile, BannedNow, HashOf;
    var t := Step(env, s, act);
    StepIsChange(env, s, act);
    StepsCome(env, s, act);
    forall tid | tid in t.tasks ensures RequestDeserves(env, t, t.tasks[tid]) {
      if t.tasks[tid].InputRequest? {
        var InputRequest(_, op, start, _) := t.tasks[tid];
        assert ComesFrom(env, s, t, tid);
        if tid in s.tasks {
          assert RequestDeserves(env, s, s.tasks[tid]);
        }
        if !BannedNow(env, s, op) {
          UnbannedDeserves(env, s, op, start);
        }
        BeganHere(s, start);
        ChangeKeepsRequest(env, s, t, start, HashOf(env, op));
      }
    }
  }

  lemma BeganHere(s: System, start: RoundId)
    ensures start == s.round.id ==> Began(s, start)
  {
  }

  lemma {:induction false} RunIsDeserving(env: Env, boot: Boot, acts: seq<Label>)
    requires Sane(env.cfg)
    ensures RequestsDeserve(env, Run(env, boot, acts))
    decreases |acts|
  {
    hide Core, Step, RequestDeserves;
    if acts != [] {
      RunIsDeserving(env, boot, acts[..|acts| - 1]);
      RunIsSound(env, boot, acts[..|acts| - 1]);
      StepKeepsDeserving(env, Run(env, boot, acts[..|acts| - 1]), acts[|acts| - 1]);
    }
  }

  // -- the exact condition ------------------------------------------------------------------------

  lemma ExactlyMeanwhile(env: Env, s: System, op: OutPoint, start: RoundId)
    requires OnlyMeanwhile(env, s, start, HashOf(env, op)) && Kept(env, s.log, s.accounts.bans)
    ensures BannedNow(env, s, op) <==> BannedMeanwhile(env, s.log, start, HashOf(env, op), s.now)
  {
    hide Outpoints.Render, EndedBy;
    var hash := HashOf(env, op);
    if BannedNow(env, s, op) {
      var j: nat :| BansAfter(env, s.log, j, start, hash)
        && s.accounts.bans[hash].expiresAt == s.log[j].time + env.cfg.banDurationSecs;
      assert s.now < s.log[j].time + env.cfg.banDurationSecs;
    }
    if BannedMeanwhile(env, s.log, start, hash, s.now) {
      var j: nat :| BansAfter(env, s.log, j, start, hash) && s.now < s.log[j].time + env.cfg.banDurationSecs;
      var u :| u in s.log[j].banned && env.sha(u) == hash;
      assert BannedSince(env, s.accounts.bans, u, s.log[j].time);
    }
  }

  // In every reachable state the coin of a request past its ban check is banned
  // exactly if an ending of the round the request began in, or of a later one,
  // banned its hash and that ban still lasts.
  lemma RequestIsBannedExactly(env: Env, boot: Boot, acts: seq<Label>, tid: nat)
    requires Sane(env.cfg)
    requires tid in Run(env, boot, acts).tasks && Run(env, boot, acts).tasks[tid].InputRequest?
    requires Run(env, boot, acts).tasks[tid].stage != Arrived
    ensures var s := Run(env, boot, acts);
            BannedNow(env, s, s.tasks[tid].op)
            <==> BannedMeanwhile(env, s.log, s.tasks[tid].startRound, HashOf(env, s.tasks[tid].op), s.now)
  {
    hide Run, Core, Lived, OneTx, Accounted, AdmittedUnbanned, Kept, Traced, LatestPause, PausesRespected,
      PausesCalledFor, CounterIsStreak, Began, OnlyMeanwhile, BannedNow, BannedMeanwhile, HashOf;
    var s := Run(env, boot, acts);
    RunKeepsInvariant(env, boot, acts);
    RunIsDeserving(env, boot, acts);
    assert RequestDeserves(env, s, s.tasks[tid]);
    ExactlyMeanwhile(env, s, s.tasks[tid].op, s.tasks[tid].startRound);
  }

  // -- registrations in the history ------------------------------------------------------------------

  ghost predicate ExactAt(env: Env, log: seq<Event>, i: nat)
    requires i < |log|
  {
    log[i].Registered? ==>
      (log[i].wasBanned <==>
       BannedMeanwhile(env, log[..i], log[i].startRound, env.sha(log[i].utxo), log[i].time))
  }

  ghost predicate AllExact(env: Env, log: seq<Event>) {
    forall i :: 0 <= i < |log| ==> ExactAt(env, log, i)
  }

  lemma AllExactGrows(env: Env, log: seq<Event>, more: seq<Event>)
    requires AllExact(env, log)
    requires forall i :: |log| <= i < |log + more| ==> ExactAt(env, log + more, i)
    ensures AllExact(env, log + more)
  {
    hide BannedMeanwhile;
    forall i | 0 <= i < |log + more| ensures ExactAt(env, log + more, i) {
      if i < |log| {
        assert (log + more)[..i] == log[..i];
        assert ExactAt(env, log, i);
      }
    }
  }

  lemma OthersRegisterNobody(env: Env, s: System, act: Label)
    requires env.cfg.bip.AllowsSomething() && !act.InputCommits?
    ensures var t := Step(env, s, act);
            s.log <= t.log && forall k :: |s.log| <= k < |t.log| ==> !t.log[k].Registered?
  {
    hide CommitRequest, PostOutput, PostSign, GetTx, OrdersFit, BannedNow, ValidateUtxo, RegistrationFloor, Revalidate,
      BroadcastFailureVerdict, Outpoints.Parse, Outpoints.Render, Enumerates, Install, Transition, ViaBlame,
      CanTransition, Joined, SignedBy, RegisteredOutpoints, NonSigners, SigningTimeoutVerdict, OutputTimeout,
      InputTimeout, BuildCanonical, Position, Fees.EstimateFeeShare;
  }

  lemma CommitRegisters(env: Env, s: System, tid: nat)
    ensures var t := CommitRequest(env, s, tid);
            t.log == s.log
            || (&& tid in s.tasks && s.tasks[tid].InputRequest? && s.tasks[tid].stage != Arrived
                && |t.log| == |s.log| + 1 && t.log[..|s.log|] == s.log
                && var e := t.log[|s.log|];
                   && e.Registered? && e.time == s.now && e.utxo == Outpoints.Render(s.tasks[tid].op)
                   && e.startRound == s.tasks[tid].startRound && e.wasBanned == BannedNow(env, s, s.tasks[tid].op)
                   && e.id == s.round.id && e.form == s.tasks[tid].form
                   && s.tasks[tid].stage == Validated(e.coin, e.provenFor))
  {
    hide CommitInput, Outpoints.Render, BannedNow;
  }

  lemma CommitDispatch(env: Env, s: System, act: Label)
    requires env.cfg.bip.AllowsSomething() && act.InputCommits?
    ensures Step(env, s, act) == CommitRequest(env, s, act.tid)
  {
    hide CommitRequest;
  }

  lemma StepKeepsExact(env: Env, s: System, act: Label)
    requires env.cfg.bip.AllowsSomething() && AllExact(env, s.log)
    requires RequestsDeserve(env, s) && Kept(env, s.log, s.accounts.bans)
    ensures AllExact(env, Step(env, s, act).log)
  {
    hide Step, CommitRequest, BannedMeanwhile, Kept, BannedNow, OnlyMeanwhile, Began, Outpoints.Render;
    var t := Step(env, s, act);
    if act.InputCommits? {
      CommitDispatch(env, s, act);
      CommitRegisters(env, s, act.tid);
      if t.log != s.log {
        var task := s.tasks[act.tid];
        assert RequestDeserves(env, s, task);
        ExactlyMeanwhile(env, s, task.op, task.startRound);
        assert t.log == s.log + [t.log[|s.log|]];
        AllExactGrows(env, s.log, [t.log[|s.log|]]);
      }
    } else {
      OthersRegisterNobody(env, s, act);
      var more := t.log[|s.log|..];
      assert t.log == s.log + more;
      AllExactGrows(env, s.log, more);
    }
  }

  // In every run a coin is banned at the moment of its registration exactly if
  // an ending no earlier than that of the round its request began in banned
  // its hash and that ban still lasted. A request that stays within its round
  // is the case without such an ending.
  lemma {:induction false} RegistrationsAreExact(env: Env, boot: Boot, acts: seq<Label>)
    requires Sane(env.cfg)
    ensures AllExact(env, Run(env, boot, acts).log)
    decreases |acts|
  {
    hide Core, Step, ExactAt, RequestDeserves, Lived, OneTx, Accounted, AdmittedUnbanned, Traced, Kept, LatestPause,
      PausesRespected, PausesCalledFor, CounterIsStreak;
    if acts != [] {
      var before := acts[..|acts| - 1];
      RegistrationsAreExact(env, boot, before);
      RunKeepsInvariant(env, boot, before);
      RunIsDeserving(env, boot, before);
      StepKeepsExact(env, Run(env, boot, before), acts[|acts| - 1]);
    }
  }

  // Before an event of a round no ending of it has been: within one round the
  // condition fails, and nobody is banned.
  lemma SameRoundIsTheSpecialCase(env: Env, log: seq<Event>, i: nat, hash: Hash, now: nat)
    requires Ordered(log) && i < |log|
    ensures !BannedMeanwhile(env, log[..i], log[i].id, hash, now)
  {
    hide InstalledBy, BansHash;
  }
}
