// One transaction per round: what clients are shown, what signatures are
// verified against and what is assembled are the same thing.
module OneTransaction {
  import opened Base
  import opened Transactions
  import opened World
  import opened Rounds
  import opened Canonical
  import opened Assembly
  import opened RoundInvariant
  import opened SigningRound
  import opened Protocol
  import opened Changes
  import opened Lifecycle
  import Outpoints

  // Events that carry the transaction of their round.
  predicate Carries(e: Event) {
    e.Shown? || e.Signed? || e.Assembled?
  }

  ghost predicate Agreed(log: seq<Event>) {
    forall i, j :: 0 <= i < j < |log| && Carries(log[i]) && Carries(log[j]) && log[i].id == log[j].id ==>
      log[i].psbt == log[j].psbt
  }

  // All events of the current round carry this very transaction.
  ghost predicate AllCarry(log: seq<Event>, id: RoundId, psbt: Option<Psbt>) {
    forall i :: 0 <= i < |log| && Carries(log[i]) && log[i].id == id ==> Some(log[i].psbt) == psbt
  }

  // A recorded signature, verified when it was recorded against the round's
  // transaction, at the input of its own outpoint.
  predicate Verified(env: Env, e: Event) {
    e.Signed? ==>
      && e.index < |e.psbt.unsigned.inputs|
      && Outpoints.Render(e.psbt.unsigned.inputs[e.index].previousOutput) == e.utxo
      && Witnesses(env, e.psbt, e.index, e.scriptType, e.sig)
  }

  // A signature recorded in round `id` that decodes to this witness and was
  // verified against `psbt` at input `index`.
  ghost predicate Vouches(env: Env, log: seq<Event>, id: RoundId, psbt: Psbt, index: nat, stack: Witness) {
    exists k :: 0 <= k < |log| && VouchesAt(env, log[k], id, psbt, index, stack)
  }

  predicate VouchesAt(env: Env, e: Event, id: RoundId, psbt: Psbt, index: nat, stack: Witness) {
    && e.Signed? && e.id == id && e.psbt == psbt && e.index == index
    && env.decodeWitness(e.sig) == Some(stack)
    && env.verifyWitness(psbt.unsigned, psbt.inputs, index, e.scriptType, stack)
  }

  // The assembled transaction is the round's transaction plus witnesses, each
  // of them vouched for.
  ghost predicate Faithful(env: Env, log: seq<Event>, e: Event) {
    e.Assembled? ==>
      && Strip(e.tx) == e.psbt.unsigned
      && |e.tx.inputs| == |e.psbt.inputs|
      && (forall i :: 0 <= i < |e.tx.inputs| ==> Vouches(env, log, e.id, e.psbt, i, e.tx.inputs[i].stack))
      && forall i :: 0 <= i < |e.tx.inputs| ==> RightlyScripted(env, e, i)
  }

  ghost predicate RightlyScripted(env: Env, e: Event, i: nat)
    requires e.Assembled? && i < |e.tx.inputs| == |e.psbt.inputs|
  {
    && e.psbt.inputs[i].witnessUtxo.Some?
    && RightScript(env, e.psbt.inputs[i].witnessUtxo.value.scriptPubkey, e.tx.inputs[i])
  }

  // Every signature on record was verified in this round.
  ghost predicate OnRecord(log: seq<Event>, r: Round) {
    r.inner.Some? ==>
      forall key :: key in r.inner.value.sigs ==> SignedIn(log, r.id, key, r.inner.value.sigs[key])
  }

  ghost predicate SignedIn(log: seq<Event>, id: RoundId, key: string, sig: Bytes) {
    exists k :: 0 <= k < |log| && log[k].Signed? && log[k].id == id && log[k].utxo == key && log[k].sig == sig
  }

  ghost function TxOf(env: Env, r: Round): Option<Psbt> {
    if r.inner.Some? && Signable(r.phase) then Canon(env, r.inner.value.inputs, r.inner.value.outputs) else None
  }

  ghost predicate AllVerified(env: Env, log: seq<Event>) {
    forall i :: 0 <= i < |log| ==> Verified(env, log[i])
  }

  ghost predicate AllFaithful(env: Env, log: seq<Event>) {
    forall i :: 0 <= i < |log| ==> Faithful(env, log, log[i])
  }

  // A round in flight has been assembled.
  ghost predicate InFlight(log: seq<Event>, r: Round) {
    r.phase == Broadcast ==> exists k :: 0 <= k < |log| && log[k].Assembled? && log[k].id == r.id
  }

  ghost predicate OneTx(env: Env, s: System) {
    && Agreed(s.log)
    && AllCarry(s.log, s.round.id, TxOf(env, s.round))
    && AllVerified(env, s.log)
    && AllFaithful(env, s.log)
    && OnRecord(s.log, s.round)
    && InFlight(s.log, s.round)
  }

  // -- events that carry nothing ---------------------------------------------------

  lemma VouchesLater(env: Env, log: seq<Event>, more: seq<Event>, id: RoundId, psbt: Psbt, index: nat, stack: Witness)
    requires Vouches(env, log, id, psbt, index, stack)
    ensures Vouches(env, log + more, id, psbt, index, stack)
  {
    hide VouchesAt;
    var k :| 0 <= k < |log| && VouchesAt(env, log[k], id, psbt, index, stack);
    assert (log + more)[k] == log[k];
  }

  lemma FaithfulLater(env: Env, log: seq<Event>, more: seq<Event>, e: Event)
    requires Faithful(env, log, e)
    ensures Faithful(env, log + more, e)
  {
    hide Vouches, RightlyScripted;
    if e.Assembled? {
      forall i | 0 <= i < |e.tx.inputs| ensures Vouches(env, log + more, e.id, e.psbt, i, e.tx.inputs[i].stack) {
        VouchesLater(env, log, more, e.id, e.psbt, i, e.tx.inputs[i].stack);
      }
    }
  }

  lemma AllFaithfulLater(env: Env, log: seq<Event>, e: Event)
    requires AllFaithful(env, log) && Faithful(env, log + [e], e)
    ensures AllFaithful(env, log + [e])
  {
    hide Faithful;
    forall i | 0 <= i < |log + [e]| ensures Faithful(env, log + [e], (log + [e])[i]) {
      if i < |log| {
        FaithfulLater(env, log, [e], log[i]);
      }
    }
  }

  lemma SignedLater(log: seq<Event>, more: seq<Event>, id: RoundId, key: string, sig: Bytes)
    requires SignedIn(log, id, key, sig)
    ensures SignedIn(log + more, id, key, sig)
  {
    var k :| 0 <= k < |log| && log[k].Signed? && log[k].id == id && log[k].utxo == key && log[k].sig == sig;
    assert (log + more)[k] == log[k];
  }

  lemma OnRecordLater(log: seq<Event>, more: seq<Event>, r: Round)
    requires OnRecord(log, r)
    ensures OnRecord(log + more, r)
  {
    hide SignedIn;
    if r.inner.Some? {
      forall key | key in r.inner.value.sigs ensures SignedIn(log + more, r.id, key, r.inner.value.sigs[key]) {
        SignedLater(log, more, r.id, key, r.inner.value.sigs[key]);
      }
    }
  }

  // The log grows by an event that carries nothing.
  lemma PlainEvent(env: Env, log: seq<Event>, e: Event, id: RoundId, psbt: Option<Psbt>)
    requires Agreed(log) && AllCarry(log, id, psbt) && AllVerified(env, log) && AllFaithful(env, log)
    requires !Carries(e)
    ensures Agreed(log + [e]) && AllCarry(log + [e], id, psbt)
    ensures AllVerified(env, log + [e]) && AllFaithful(env, log + [e])
  {
    hide Vouches, Outpoints.Render, Witnesses;
    AllFaithfulLater(env, log, e);
  }

  // The log grows by an event that carries the current round's transaction.
  lemma CarryingEvent(env: Env, log: seq<Event>, e: Event, id: RoundId, psbt: Psbt)
    requires Agreed(log) && AllCarry(log, id, Some(psbt)) && AllVerified(env, log) && AllFaithful(env, log)
    requires Carries(e) && e.id == id && e.psbt == psbt
    requires Verified(env, e) && Faithful(env, log + [e], e)
    ensures Agreed(log + [e]) && AllCarry(log + [e], id, Some(psbt))
    ensures AllVerified(env, log + [e]) && AllFaithful(env, log + [e])
  {
    hide Verified, Faithful;
    AllFaithfulLater(env, log, e);
  }

  // -- assembly -------------------------------------------------------------------

  // Outpoints are distinct: a signature recorded for an input's outpoint was
  // verified at that very input.
  lemma OneIndexPerKey(psbt: Psbt, inputs: map<string, RegisteredInput>, i: nat, j: nat)
    requires SpendsExactly(psbt, inputs)
    requires i < |psbt.unsigned.inputs| && j < |psbt.unsigned.inputs|
    requires KeyAt(psbt, i) == KeyAt(psbt, j)
    ensures i == j
  {
    hide Outpoints.Render, Pristine;
    Outpoints.RenderIsInjective(psbt.unsigned.inputs[i].previousOutput, psbt.unsigned.inputs[j].previousOutput);
  }

  // The signature on record for an input vouches for its witness.
  lemma RecordVouches(
    env: Env, log: seq<Event>, r: Round, psbt: Psbt, inputs: map<string, RegisteredInput>, i: nat, sig: Bytes)
    requires SpendsExactly(psbt, inputs) && i < |psbt.unsigned.inputs|
    requires AllCarry(log, r.id, Some(psbt)) && AllVerified(env, log)
    requires SignedIn(log, r.id, KeyAt(psbt, i), sig)
    requires env.decodeWitness(sig).Some?
    ensures Vouches(env, log, r.id, psbt, i, env.decodeWitness(sig).value)
  {
    hide Outpoints.Render, SpendsExactly;
    var k :| 0 <= k < |log| && log[k].Signed? && log[k].id == r.id && log[k].utxo == KeyAt(psbt, i)
      && log[k].sig == sig;
    assert Verified(env, log[k]);
    OneIndexPerKey(psbt, inputs, log[k].index, i);
    assert VouchesAt(env, log[k], r.id, psbt, i, env.decodeWitness(sig).value);
  }

  lemma AssemblyIsFaithful(env: Env, log: seq<Event>, r: Round, psbt: Psbt)
    requires r.inner.Some? && SpendsExactly(psbt, r.inner.value.inputs)
    requires psbt.unsigned == Strip(psbt.unsigned)
    requires AllCarry(log, r.id, Some(psbt)) && AllVerified(env, log) && OnRecord(log, r)
    requires FullySigned(env, psbt, r.inner.value.sigs)
    ensures Faithful(env, log + [Assembled(r.id, psbt, SignedTx(env, psbt, r.inner.value.sigs))],
              Assembled(r.id, psbt, SignedTx(env, psbt, r.inner.value.sigs)))
  {
    hide SignedTx, Vouches, Outpoints.Render, SignedIn, Strip, AllCarry, AllVerified, Pristine, RightScript;
    var sigs := r.inner.value.sigs;
    var e := Assembled(r.id, psbt, SignedTx(env, psbt, sigs));
    SignedTxIsCanonical(env, psbt, sigs);
    forall i | 0 <= i < |e.tx.inputs| ensures Vouches(env, log + [e], r.id, psbt, i, e.tx.inputs[i].stack) {
      RecordVouches(env, log, r, psbt, r.inner.value.inputs, i, sigs[KeyAt(psbt, i)]);
      VouchesLater(env, log, [e], r.id, psbt, i, e.tx.inputs[i].stack);
    }
  }

  // -- the changes ------------------------------------------------------------------

  lemma InstallKeepsOneTx(env: Env, s: System, t: System)
    requires OneTx(env, s) && Installs(s, t)
    ensures OneTx(env, t)
  {
    hide AllVerified, AllFaithful, Agreed;
    PlainEvent(env, s.log, t.log[|s.log|], s.round.id, None);
  }

  lemma ProgressKeepsOneTx(env: Env, s: System, t: System)
    requires OneTx(env, s) && Progresses(env, s, t)
    ensures OneTx(env, t)
  {
    hide AllVerified, AllFaithful, Agreed, Canon;
    assert AllCarry(s.log, t.round.id, TxOf(env, t.round));
    if t.log != s.log {
      PlainEvent(env, s.log, t.log[|s.log|], t.round.id, TxOf(env, t.round));
    }
  }

  lemma ShowKeepsOneTx(env: Env, s: System, t: System)
    requires OneTx(env, s) && Shows(env, s, t)
    ensures OneTx(env, t)
  {
    hide AllVerified, AllFaithful, Agreed, AllCarry, OnRecord, SpendsExactly, SigsOk, InputsOk, Funded, Strip, Canon;
    var psbt: Psbt :| InSigning(env, s.round, psbt) && t.log == s.log + [Shown(s.round.id, psbt)];
    CarryingEvent(env, s.log, Shown(s.round.id, psbt), s.round.id, psbt);
    OnRecordLater(s.log, [Shown(s.round.id, psbt)], s.round);
  }

  lemma EndKeepsOneTx(env: Env, s: System, t: System)
    requires OneTx(env, s) && Lived(s) && Ends(env, s, t)
    ensures OneTx(env, t)
  {
    hide AllVerified, AllFaithful, Agreed, Canon, Ordered, Current;
    var e := t.log[|s.log|];
    assert t.log == s.log + [e];
    assert AllCarry(s.log, t.round.id, None);
    PlainEvent(env, s.log, e, t.round.id, None);
  }

  lemma NewSignatureOnRecord(log: seq<Event>, r: Round, key: string, e: Event)
    requires OnRecord(log, r) && r.inner.Some?
    requires e.Signed? && e.id == r.id && e.utxo == key
    ensures OnRecord(log + [e], WithSig(r, key, e.sig))
  {
    hide SignedIn;
    var sigs := r.inner.value.sigs[key := e.sig];
    forall k | k in sigs ensures SignedIn(log + [e], r.id, k, sigs[k]) {
      if k == key {
        NewestSigned(log, e);
      } else {
        SignedLater(log, [e], r.id, k, r.inner.value.sigs[k]);
      }
    }
  }

  lemma NewestSigned(log: seq<Event>, e: Event)
    requires e.Signed?
    ensures SignedIn(log + [e], e.id, e.utxo, e.sig)
  {
    assert (log + [e])[|log|] == e;
  }

  // A recorded signature alone.
  lemma RecordingKeepsOneTx(env: Env, log: seq<Event>, r: Round, psbt: Psbt, key: string, e: Event)
    requires Agreed(log) && AllCarry(log, r.id, Some(psbt)) && AllVerified(env, log) && AllFaithful(env, log)
    requires OnRecord(log, r) && r.inner.Some?
    requires SoundSigned(env, r, psbt, key, e)
    ensures Agreed(log + [e]) && AllCarry(log + [e], r.id, Some(psbt))
    ensures AllVerified(env, log + [e]) && AllFaithful(env, log + [e])
    ensures OnRecord(log + [e], WithSig(r, key, e.sig))
  {
    hide Agreed, AllCarry, AllVerified, AllFaithful, OnRecord, WithSig, Outpoints.Render, Witnesses;
    CarryingEvent(env, log, e, r.id, psbt);
    NewSignatureOnRecord(log, r, key, e);
  }

  lemma SigningTx(env: Env, r: Round, psbt: Psbt)
    requires InSigning(env, r, psbt)
    ensures r.inner.Some? && TxOf(env, r) == Some(psbt)
    ensures SpendsExactly(psbt, r.inner.value.inputs) && psbt.unsigned == Strip(psbt.unsigned)
  {
    hide Canon, SpendsExactly, Strip, Funded, SigsOk, InputsOk;
  }

  lemma SameTxOf(env: Env, r: Round, key: string, sig: Bytes, phase: Phase)
    requires Signable(r.phase) && Signable(phase)
    ensures TxOf(env, WithSig(r, key, sig).(phase := phase)) == TxOf(env, r)
  {
    hide Canon;
  }

  lemma RecordIgnoresPhase(log: seq<Event>, r: Round, phase: Phase)
    requires OnRecord(log, r)
    ensures OnRecord(log, r.(phase := phase))
  {
    hide SignedIn;
  }

  // The assembly that follows the last signature.
  lemma AssemblyKeepsOneTx(env: Env, log: seq<Event>, r: Round, psbt: Psbt)
    requires Agreed(log) && AllCarry(log, r.id, Some(psbt)) && AllVerified(env, log) && AllFaithful(env, log)
    requires OnRecord(log, r) && r.inner.Some? && r.phase == Broadcast
    requires SpendsExactly(psbt, r.inner.value.inputs) && psbt.unsigned == Strip(psbt.unsigned)
    requires FullySigned(env, psbt, r.inner.value.sigs)
    ensures var e := Assembled(r.id, psbt, SignedTx(env, psbt, r.inner.value.sigs));
            && Agreed(log + [e]) && AllCarry(log + [e], r.id, Some(psbt))
            && AllVerified(env, log + [e]) && AllFaithful(env, log + [e])
            && OnRecord(log + [e], r) && InFlight(log + [e], r)
  {
    hide Agreed, AllCarry, AllVerified, AllFaithful, OnRecord, SignedTx, FullySigned, SpendsExactly, Strip, Faithful;
    var e := Assembled(r.id, psbt, SignedTx(env, psbt, r.inner.value.sigs));
    AssemblyIsFaithful(env, log, r, psbt);
    CarryingEvent(env, log, e, r.id, psbt);
    OnRecordLater(log, [e], r);
    assert (log + [e])[|log|] == e;
  }

  lemma SignKeepsOneTx(env: Env, s: System, t: System)
    requires OneTx(env, s) && Signs(env, s, t)
    ensures OneTx(env, t)
  {
    hide Agreed, AllCarry, AllVerified, AllFaithful, OnRecord, InSigning, SoundSigned, WithSig, TxOf, SignedTx,
      FullySigned, SpendsExactly, Strip;
    var psbt: Psbt, key: string, e: Event :| SignsWith(env, s, t, psbt, key, e);
    SigningIsLive(env, s, t, psbt, key, e);
    SigningTx(env, s.round, psbt);
    RecordingKeepsOneTx(env, s.log, s.round, psbt, key, e);
    SameTxOf(env, s.round, key, e.sig, t.round.phase);
    RecordIgnoresPhase(s.log + [e], WithSig(s.round, key, e.sig), t.round.phase);
    if t.round.phase == Broadcast {
      WithSigKeepsInputs(s.round, key, e.sig);
      AssemblyKeepsOneTx(env, s.log + [e], t.round, psbt);
    }
  }

  lemma ChangeKeepsOneTx(env: Env, s: System, t: System)
    requires OneTx(env, s) && Lived(s) && Change(env, s, t)
    ensures OneTx(env, t)
  {
    hide OneTx, Lived, Installs, Progresses, Shows, Signs, Ends;
    if Quiet(s, t) {
      QuietKeepsOneTx(env, s, t);
    } else if Installs(s, t) {
      InstallKeepsOneTx(env, s, t);
    } else if Progresses(env, s, t) {
      ProgressKeepsOneTx(env, s, t);
    } else if Shows(env, s, t) {
      ShowKeepsOneTx(env, s, t);
    } else if Signs(env, s, t) {
      SignKeepsOneTx(env, s, t);
    } else {
      EndKeepsOneTx(env, s, t);
    }
  }

  lemma QuietKeepsOneTx(env: Env, s: System, t: System)
    requires OneTx(env, s) && Quiet(s, t)
    ensures OneTx(env, t)
  {
    hide Agreed, AllCarry, AllVerified, AllFaithful, OnRecord, InFlight, TxOf;
  }

  lemma StartHasOneTx(env: Env, boot: Boot)
    ensures OneTx(env, Start(boot))
  {
  }
}
