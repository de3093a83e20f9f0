// Every step of the protocol is one of six kinds of change to the shared
// state. Invariants over whole runs are proved once per kind.
module Changes {
  import opened Base
  import opened Transactions
  import opened World
  import opened Ownership
  import opened Rounds
  import opened Blame
  import opened RoundInvariant
  import opened Assembly
  import opened SigningRound
  import opened Protocol
  import Outpoints

  // How far a round still has to go.
  function Rank(phase: Phase): nat {
    match phase
    case Idle => 5
    case InputReg => 4
    case OutputReg => 3
    case Signing => 2
    case Broadcast => 1
    case Blame => 0
  }

  // -- tasks -----------------------------------------------------------------------

  // A coin worth the floor, owned by whoever sent the form.
  ghost predicate DetailsOk(env: Env, form: InputForm, op: OutPoint, details: UtxoDetails, provenFor: RoundId)
    requires env.cfg.bip.AllowsSomething()
  {
    && details.valueSats >= RegistrationFloor(env.cfg)
    && env.cfg.bip.Allows(details.scriptType)
    && env.parseAddress(form.changeAddress).Some?
    && form.proof.Some? && Proven(env, details.script, details.scriptType, form.proof.value, op, provenFor)
  }

  // The form names this outpoint, and brings a blinded message of a modulus' length.
  predicate FormOk(form: InputForm, op: OutPoint, stage: Stage) {
    && Outpoints.Parse(form.utxo) == Some(op)
    && (stage != Arrived ==> form.blinded.Some? && |form.blinded.value| in {256, 512})
  }

  // A timer was armed for a phase the round had reached; a finalize task holds
  // exactly the registered outpoints; an input request past its ban check in
  // this very round is still not banned.
  ghost predicate TaskOk(env: Env, s: System, task: Task)
    requires env.cfg.bip.AllowsSomething()
  {
    match task
    case Timer(phase, id) =>
      id in s.used && (id == s.round.id ==> Rank(s.round.phase) <= Rank(phase) <= 4)
    case Finalize(id, _, outpoints) =>
      id in s.used && (id == s.round.id ==>
        s.round.phase == Broadcast && s.round.inner.Some?
        && Enumerates(outpoints, s.round.inner.value.inputs.Keys))
    case InputRequest(form, op, startRound, stage) =>
      && startRound in s.used
      && FormOk(form, op, stage)
      && (stage.Snapshotted? ==> stage.round in s.used)
      && (stage.Validated? ==> stage.provenFor in s.used && DetailsOk(env, form, op, stage.details, stage.provenFor))
      && (stage != Arrived && startRound == s.round.id ==> !BannedNow(env, s, op))
  }

  ghost predicate TasksOk(env: Env, s: System)
    requires env.cfg.bip.AllowsSomething()
  {
    forall tid :: tid in s.tasks ==> TaskOk(env, s, s.tasks[tid])
  }

  // -- the monitor ------------------------------------------------------------------

  // What the monitor remembers is no newer than the round; a round id it is
  // about to start was seen unpaused.
  predicate PcOk(s: System) {
    match s.monitor.pc
    case Waiting => true
    case Saw(phase, id) => id in s.used && (id == s.round.id ==> Rank(s.round.phase) <= Rank(phase))
    case PauseLoaded(id, until) =>
      id in s.used && (id == s.round.id && s.round.phase == Idle ==> until == s.accounts.pausedUntil)
    case Generating(id) =>
      id in s.used && (id == s.round.id && s.round.phase == Idle ==> s.accounts.pausedUntil <= s.now)
  }

  // -- moves --------------------------------------------------------------------------

  // The shared state only moves on: ids are never reused, time and rank are
  // monotone, and accounts change only when the round id does.
  predicate Moves(s: System, t: System) {
    && s.used <= t.used
    && s.now <= t.now
    && t.round.id in t.used
    && (|| (&& t.round.id == s.round.id
            && Rank(t.round.phase) <= Rank(s.round.phase)
            && t.accounts == s.accounts
            && (s.round.phase == Broadcast ==> t.round == s.round))
        || t.round.id !in s.used)
  }

  lemma MovedTaskOk(env: Env, s: System, t: System, task: Task)
    requires env.cfg.bip.AllowsSomething()
    requires Moves(s, t) && TaskOk(env, s, task)
    ensures TaskOk(env, t, task)
  {
    hide Outpoints.Render, DetailsOk, FormOk;
  }

  lemma MovedTasksOk(env: Env, s: System, t: System)
    requires env.cfg.bip.AllowsSomething()
    requires Moves(s, t) && TasksOk(env, s)
    requires forall tid :: tid in t.tasks ==> tid in s.tasks && t.tasks[tid] == s.tasks[tid]
    ensures TasksOk(env, t)
  {
    hide TaskOk, Moves;
    forall tid | tid in t.tasks ensures TaskOk(env, t, t.tasks[tid]) {
      MovedTaskOk(env, s, t, s.tasks[tid]);
    }
  }

  lemma MovedTasksPlusOne(env: Env, s: System, t: System, tid: nat)
    requires env.cfg.bip.AllowsSomething()
    requires Moves(s, t) && TasksOk(env, s)
    requires tid in t.tasks && TaskOk(env, t, t.tasks[tid])
    requires forall k :: k in t.tasks && k != tid ==> k in s.tasks && t.tasks[k] == s.tasks[k]
    ensures TasksOk(env, t)
  {
    hide TaskOk, Moves;
    forall k | k in t.tasks ensures TaskOk(env, t, t.tasks[k]) {
      if k != tid {
        MovedTaskOk(env, s, t, s.tasks[k]);
      }
    }
  }

  lemma MovedPcOk(s: System, t: System)
    requires Moves(s, t) && PcOk(s)
    requires t.monitor.pc == s.monitor.pc
    ensures PcOk(t)
  {
  }

  // -- the six kinds of change ------------------------------------------------------------

  // Accounts, ids and time stay.
  predicate Undisturbed(s: System, t: System) {
    t.accounts == s.accounts && t.used == s.used && t.now == s.now
  }

  predicate Quiet(s: System, t: System) {
    t.round == s.round && t.accounts == s.accounts && t.used == s.used && t.log == s.log && s.now <= t.now
  }

  // An idle round is started, no earlier than the pause allows.
  predicate Installs(s: System, t: System) {
    && Undisturbed(s, t)
    && s.round.phase == Idle && t.round.phase == InputReg && t.round.id == s.round.id
    && t.round.inner.Some? && Joined(t.round) == {}
    && (var Inner(key, secret, _, _, _, _) := t.round.inner.value;
        && t.round.inner == Some(Inner(key, secret, map[], {}, [], map[]))
        && t.log == s.log + [Installed(s.round.id, s.now, s.accounts.pausedUntil, key)])
    && s.accounts.pausedUntil <= s.now
  }

  // Registration goes on: nobody has signed yet.
  ghost predicate Progresses(env: Env, s: System, t: System) {
    && Undisturbed(s, t)
    && s.round.phase in {InputReg, OutputReg} && s.round.inner.Some?
    && t.round.phase in {InputReg, OutputReg, Signing} && Rank(t.round.phase) <= Rank(s.round.phase)
    && t.round.id == s.round.id
    && t.round.inner.Some? && t.round.inner.value.sigs == map[]
    && (Advances(s, t) || Admits(env, s, t) || Redeems(env, s, t))
  }

  predicate Advances(s: System, t: System) {
    t.log == s.log && t.round.inner == s.round.inner && Joined(t.round) == Joined(s.round)
  }

  // An input joins the round.
  ghost predicate Admits(env: Env, s: System, t: System)
    requires s.round.inner.Some?
  {
    exists e: Event :: AdmitsAs(env, s, t, e)
  }

  ghost predicate AdmitsAs(env: Env, s: System, t: System, e: Event)
    requires s.round.inner.Some?
  {
    && SoundRegistration(env, s, e)
    && t.log == s.log + [e]
    && t.round.inner == WithInput(s.round.inner.value, e)
    && Joined(t.round) == Joined(s.round) + {e.utxo}
  }

  function WithInput(inner: Inner, e: Event): Option<Inner> {
    if e.Registered? then Some(inner.(inputs := inner.inputs[e.utxo := EntryOf(e)])) else None
  }

  // What the round keeps of a registration.
  function EntryOf(e: Event): RegisteredInput
    requires e.Registered?
  {
    RegisteredInput(e.utxo, e.form.changeAddress, e.coin.script, e.coin.valueSats, e.coin.scriptType)
  }

  ghost predicate SoundRegistration(env: Env, s: System, e: Event)
    requires s.round.inner.Some?
  {
    && e.Registered? && e.id == s.round.id && e.startRound in s.used && (e.startRound == e.id ==> !e.wasBanned)
    && e.utxo !in s.round.inner.value.inputs
    && SoundRequest(env, e) && e.provenFor in s.used
    && SoundReply(env, s.round.inner.value, e)
  }

  // The form asked for this outpoint, its coin was checked, and its proof held.
  ghost predicate SoundRequest(env: Env, e: Event)
    requires e.Registered?
  {
    var op := Outpoints.Parse(e.form.utxo);
    && env.cfg.bip.AllowsSomething()
    && op.Some? && e.utxo == Outpoints.Render(op.value)
    && e.form.blinded.Some? && |e.form.blinded.value| in {256, 512}
    && DetailsOk(env, e.form, op.value, e.coin, e.provenFor)
  }

  // The answer carries the round's signature on the blinded message and the
  // session token of this outpoint.
  predicate SoundReply(env: Env, inner: Inner, e: Event)
    requires e.Registered?
  {
    var op := Outpoints.Parse(e.form.utxo);
    && op.Some? && e.form.blinded.Some?
    && env.blindSign(inner.key, e.form.blinded.value) == Some(e.reply.blindSignature)
    && e.reply.sessionToken == env.sessionToken(inner.secret, op.value)
  }

  // An output joins the round.
  ghost predicate Redeems(env: Env, s: System, t: System)
    requires s.round.inner.Some?
  {
    exists output: OutputRequest :: RedeemsAs(env, s, t, output)
  }

  ghost predicate RedeemsAs(env: Env, s: System, t: System, output: OutputRequest)
    requires s.round.inner.Some?
  {
    var inner := s.round.inner.value;
    && Redeemable(env, inner.key, output) && output.token !in inner.redeemed
    && t.log == s.log + [Redeemed(s.round.id, output)]
    && t.round.inner == Some(inner.(
         redeemed := inner.redeemed + {output.token},
         outputs := inner.outputs + [RegisteredOutput(output.address, output.amountSats)]))
    && Joined(t.round) == Joined(s.round)
  }

  // A client is shown the round's transaction.
  ghost predicate Shows(env: Env, s: System, t: System) {
    && Undisturbed(s, t) && t.round == s.round && s.round.phase == Signing && s.round.inner.Some?
    && exists psbt: Psbt :: InSigning(env, s.round, psbt) && t.log == s.log + [Shown(s.round.id, psbt)]
  }

  // The event of a signature recorded against `psbt`.
  predicate SoundSigned(env: Env, r: Round, psbt: Psbt, key: string, e: Event) {
    && e.Signed? && e.id == r.id && e.psbt == psbt && e.utxo == key
    && e.index < |psbt.unsigned.inputs|
    && Outpoints.Render(psbt.unsigned.inputs[e.index].previousOutput) == key
    && Witnesses(env, psbt, e.index, e.scriptType, e.sig)
    && r.inner.Some? && key in r.inner.value.inputs && e.scriptType == r.inner.value.inputs[key].scriptType
  }

  function SigsOf(r: Round): map<string, Bytes> {
    if r.inner.Some? then r.inner.value.sigs else map[]
  }

  ghost predicate SignsWith(env: Env, s: System, t: System, psbt: Psbt, key: string, e: Event) {
    && InSigning(env, s.round, psbt)
    && SoundSigned(env, s.round, psbt, key, e)
    && t.round.inner == WithSig(s.round, key, e.sig).inner
    && key !in SigsOf(s.round)
    && t.round == WithSig(s.round, key, e.sig).(phase := t.round.phase)
    && ((t.round.phase == Signing && t.log == s.log + [e])
        || (&& t.round.phase == Broadcast
            && SignedBy(t.round) == Joined(t.round)
            && FullySigned(env, psbt, SigsOf(t.round))
            && t.log == s.log + [e] + [Assembled(s.round.id, psbt, SignedTx(env, psbt, SigsOf(t.round)))]))
  }

  // A signature is recorded and, when it is the last, the transaction assembled.
  ghost predicate Signs(env: Env, s: System, t: System) {
    && Undisturbed(s, t)
    && exists psbt: Psbt, key: string, e: Event :: SignsWith(env, s, t, psbt, key, e)
  }

  // How each cause of an ending judges.
  predicate Judged(env: Env, s: System, e: Event, after: Accounts) {
    && e.Ended? && e.id == s.round.id && e.time == s.now
    && e.registered == Joined(s.round) && e.signers == SignedBy(s.round)
    && match e.cause
       case QuorumFailed => s.round.phase == InputReg && e.banned == {} && Verdict(after, e.armed) == Unjudged(s)
       case MissingOutputs => s.round.phase == OutputReg && e.banned == {} && Verdict(after, e.armed) == Unjudged(s)
       case SigningTimedOut =>
         && s.round.phase == Signing
         && e.banned == e.registered - e.signers
         && Verdict(after, e.armed) == SigningTimeoutVerdict(env, s.accounts, e.banned, s.now)
       case BroadcastSucceeded =>
         s.round.phase == Broadcast && e.banned == {} && Verdict(after, e.armed) == BroadcastSuccessVerdict(s.accounts)
       case BroadcastFailed(outpoints, answers) =>
         && s.round.phase == Broadcast
         && |answers| == |outpoints|
         && (set u | u in outpoints) == e.registered
         && e.banned == (set u | u in Revalidate(outpoints, answers, 0))
         && Verdict(after, e.armed) == BroadcastFailureVerdict(env, s.accounts, e.banned, s.now)
       case WatchdogFired =>
         s.round.phase == Broadcast && e.banned == {} && Verdict(after, e.armed) == Unjudged(s)
  }

  // The live round ends, and a fresh idle one takes its place.
  predicate Ends(env: Env, s: System, t: System) {
    && s.round.phase in {InputReg, OutputReg, Signing, Broadcast} && s.round.inner.Some?
    && t.now == s.now
    && t.round == NewIdle(t.round.id) && t.round.id !in s.used && t.used == s.used + {t.round.id}
    && |t.log| == |s.log| + 1 && t.log[..|s.log|] == s.log
    && Judged(env, s, t.log[|s.log|], t.accounts)
  }

  ghost predicate Change(env: Env, s: System, t: System) {
    || Quiet(s, t)
    || Installs(s, t)
    || Progresses(env, s, t)
    || Shows(env, s, t)
    || Signs(env, s, t)
    || Ends(env, s, t)
  }

  lemma ChangesMove(env: Env, s: System, t: System)
    requires s.round.id in s.used
    requires Change(env, s, t)
    ensures Moves(s, t)
  {
    hide Judged, FullySigned, SignedTx, Collecting, SoundSigned, Outpoints.Render, Admits, Redeems;
  }

  // Apart from signatures, a change adds at most one event; only an ending ends.
  lemma OneEventAtMost(env: Env, s: System, t: System)
    requires Change(env, s, t) && !Signs(env, s, t) && t.log != s.log
    ensures |t.log| == |s.log| + 1 && t.log == s.log + [t.log[|s.log|]]
    ensures !Ends(env, s, t) ==> t.accounts == s.accounts && !t.log[|s.log|].Ended?
  {
    hide Signs, InSigning, Judged, Joined, SoundRequest, SoundReply, Redeemable;
  }
}
