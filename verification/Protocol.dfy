// The coordinator as a protocol: shared state, tasks in flight, and one
// atomic step for every critical section. Labels carry all nondeterminism:
// the interleaving, the requests, the node's answers, the fresh ids, the
// order in which hash maps are iterated and the passing of time.
module Protocol {
  import opened Base
  import opened Fees
  import opened Transactions
  import opened World
  import opened Ownership
  import opened Rounds
  import opened BanStore
  import opened Blame
  import Outpoints

  // -- tasks in flight ---------------------------------------------------------

  datatype InputForm = InputForm(
    utxo: string, proof: Option<OwnershipProof>, blinded: Option<Bytes>, changeAddress: string)

  // How far an input request has got outside the write lock.
  datatype Stage =
    | Arrived
    | Unbanned
    | Snapshotted(registered: set<OutPoint>, round: RoundId)
    | Validated(details: UtxoDetails, provenFor: RoundId)

  datatype Task =
    | Timer(phase: Phase, round: RoundId)
    | Finalize(round: RoundId, tx: Tx, outpoints: seq<string>)
    | InputRequest(form: InputForm, op: OutPoint, startRound: RoundId, stage: Stage)

  // The phase monitor between two polls.
  datatype MonitorPc =
    | Waiting
    | Saw(phase: Phase, round: RoundId)
    | PauseLoaded(round: RoundId, until: nat)
    | Generating(round: RoundId)

  datatype Monitor = Monitor(pc: MonitorPc, lastIdle: Option<RoundId>, lastArmed: map<Phase, RoundId>)

  // -- history -------------------------------------------------------------------

  datatype Cause =
    | QuorumFailed
    | MissingOutputs
    | SigningTimedOut
    | BroadcastSucceeded
    | BroadcastFailed(outpoints: seq<string>, answers: seq<RpcAnswer>)
    | WatchdogFired

  datatype Event =
    | Installed(id: RoundId, time: nat, pausedUntil: nat, key: Key)
    | Registered(id: RoundId, time: nat, utxo: string, startRound: RoundId, wasBanned: bool, form: InputForm,
        coin: UtxoDetails, provenFor: RoundId, reply: Registration)
    | Redeemed(id: RoundId, output: OutputRequest)
    | Shown(id: RoundId, psbt: Psbt)
    | Signed(id: RoundId, psbt: Psbt, utxo: string, index: nat, scriptType: ScriptType, sig: Bytes)
    | Assembled(id: RoundId, psbt: Psbt, tx: Tx)
    | Ended(id: RoundId, time: nat, cause: Cause, registered: set<string>, signers: set<string>,
        banned: set<string>, armed: Option<nat>)

  datatype System = System(
    now: nat,
    round: Round,
    accounts: Accounts,
    monitor: Monitor,
    tasks: map<nat, Task>,
    used: set<RoundId>,
    log: seq<Event>)

  // A process start: an idle round and the bans loaded from the file.
  datatype Boot = Boot(now: nat, id: RoundId, bans: BanMap)

  function Start(boot: Boot): System {
    System(boot.now, NewIdle(boot.id), Accounts(boot.bans, 0, 0), Monitor(Waiting, None, map[]), map[], {boot.id}, [])
  }

  // -- steps -----------------------------------------------------------------------

  datatype BroadcastResult = Sent | NotSent(answers: seq<RpcAnswer>)

  datatype Label =
    | Tick(secs: nat)
    | MonitorPolls
    | MonitorActs(tid: nat)
    | MonitorReadsClock
    | KeygenEnds(material: Option<(Key, Secret)>)
    | TimerFires(tid: nat, newId: RoundId)
    | InputArrives(tid: nat, form: InputForm)
    | InputBanCheck(tid: nat)
    | InputSnapshot(tid: nat)
    | InputValidate(tid: nat, answer: TxOutAnswer)
    | InputCommits(tid: nat)
    | OutputPosted(output: OutputRequest)
    | TxFetched(order: seq<string>)
    | SignPosted(submission: SignRequest, orders: SignOrders, tid: nat)
    | FinalizeEnds(tid: nat, result: BroadcastResult, newId: RoundId)
    | FinalizeDies(tid: nat)

  function Drop(s: System, tid: nat): System {
    s.(tasks := s.tasks - {tid})
  }

  function Rest(s: System): System {
    s.(monitor := s.monitor.(pc := Waiting))
  }

  // Under the read lock, the phase and id are read together.
  function PollPhase(s: System): System {
    if s.monitor.pc != Waiting then s
    else s.(monitor := s.monitor.(pc := Saw(s.round.phase, s.round.id)))
  }

  // An unhandled idle round makes the monitor load the pause; an unarmed
  // active phase gets its timer, and Broadcast its watchdog.
  function ArmOrPause(s: System, tid: nat): System {
    match s.monitor.pc
    case Saw(phase, id) =>
      if phase == Idle then
        if s.monitor.lastIdle == Some(id) then Rest(s)
        else s.(monitor := s.monitor.(pc := PauseLoaded(id, s.accounts.pausedUntil)))
      else if phase == Blame || (phase in s.monitor.lastArmed && s.monitor.lastArmed[phase] == id) then Rest(s)
      else if tid in s.tasks then s
      else
        Rest(s.(
          monitor := s.monitor.(lastArmed := s.monitor.lastArmed[phase := id]),
          tasks := s.tasks[tid := Timer(phase, id)]))
    case _ => s
  }

  function ReadClock(s: System): System {
    match s.monitor.pc
    case PauseLoaded(id, until) =>
      if s.now < until then Rest(s)
      else s.(monitor := s.monitor.(pc := Generating(id), lastIdle := Some(id)))
    case _ => s
  }

  // Key material arrives; installed only if the same round is still idle.
  function FinishKeygen(s: System, material: Option<(Key, Secret)>): System {
    match s.monitor.pc
    case Generating(id) =>
      (match material
      case None => Rest(s.(monitor := s.monitor.(lastIdle := None)))
      case Some((key, secret)) =>
        if s.round.phase != Idle || s.round.id != id then Rest(s)
        else
          Rest(s.(
            round := Install(s.round, key, secret),
            log := s.log + [Installed(id, s.now, s.accounts.pausedUntil, key)])))
    case _ => s
  }

  function Joined(r: Round): set<string> {
    if r.inner.Some? then r.inner.value.inputs.Keys else {}
  }

  function SignedBy(r: Round): set<string> {
    if r.inner.Some? then r.inner.value.sigs.Keys else {}
  }

  // The round ends: what happened is recorded and a fresh id taken.
  function End(s: System, after: Round, verdict: Verdict, cause: Cause, banned: set<string>): System {
    s.(
      round := after,
      accounts := verdict.accounts,
      used := s.used + {after.id},
      log := s.log + [Ended(s.round.id, s.now, cause, Joined(s.round), SignedBy(s.round), banned, verdict.armed)])
  }

  function Unjudged(s: System): Verdict {
    Verdict(s.accounts, None)
  }

  // A timer or the watchdog of the live round and phase.
  function LiveTimer(env: Env, s: System, phase: Phase, newId: RoundId): System {
    match phase
    case InputReg =>
      var after := InputTimeout(env, s.round, newId);
      if after.phase == Idle then End(s, after, Unjudged(s), QuorumFailed, {}) else s.(round := after)
    case OutputReg =>
      var after := OutputTimeout(s.round, newId);
      if after.phase == Idle then End(s, after, Unjudged(s), MissingOutputs, {}) else s.(round := after)
    case Signing =>
      var nonSigners := NonSigners(s.round);
      End(s, ViaBlame(s.round, newId), SigningTimeoutVerdict(env, s.accounts, nonSigners, s.now), SigningTimedOut,
        nonSigners)
    case Broadcast => End(s, Transition(s.round, Idle, newId), Unjudged(s), WatchdogFired, {})
    case _ => s
  }

  function FireTimer(env: Env, s: System, tid: nat, newId: RoundId): System {
    if tid !in s.tasks || !s.tasks[tid].Timer? || newId in s.used then s
    else
      var Timer(phase, id) := s.tasks[tid];
      if s.round.id != id || s.round.phase != phase then Drop(s, tid)
      else LiveTimer(env, Drop(s, tid), phase, newId)
  }

  // -- input requests ------------------------------------------------------------

  function WithStage(s: System, tid: nat, stage: Stage): System
    requires tid in s.tasks && s.tasks[tid].InputRequest?
  {
    s.(tasks := s.tasks[tid := s.tasks[tid].(stage := stage)])
  }

  predicate AtStage(s: System, tid: nat) {
    tid in s.tasks && s.tasks[tid].InputRequest?
  }

  // First phase check, and the outpoint parsed from whatever spelling was sent.
  function AcceptInput(s: System, tid: nat, form: InputForm): System {
    if tid in s.tasks || s.round.phase != InputReg then s
    else
      match Outpoints.Parse(form.utxo)
      case None => s
      case Some(op) => s.(tasks := s.tasks[tid := InputRequest(form, op, s.round.id, Arrived)])
  }

  predicate BannedNow(env: Env, s: System, op: OutPoint) {
    Banned(s.accounts.bans, env.sha(Outpoints.Render(op)), s.now)
  }

  function CheckBan(env: Env, s: System, tid: nat): System {
    if !AtStage(s, tid) || s.tasks[tid].stage != Arrived then s
    else
      var form := s.tasks[tid].form;
      if BannedNow(env, s, s.tasks[tid].op) then Drop(s, tid)
      else if form.blinded == None || |form.blinded.value| !in {256, 512} || form.proof == None then Drop(s, tid)
      else WithStage(s, tid, Unbanned)
  }

  function RegisteredOutpoints(r: Round): set<OutPoint> {
    if r.inner == None then {}
    else set k | k in r.inner.value.inputs && Outpoints.Parse(k).Some? :: Outpoints.Parse(k).value
  }

  function SnapshotInputs(s: System, tid: nat): System {
    if !AtStage(s, tid) || s.tasks[tid].stage != Unbanned then s
    else
      WithStage(s, tid, Snapshotted(RegisteredOutpoints(s.round), s.round.id))
  }

  // Off the lock: the node's answer, the ownership proof, the change address.
  function CheckCoin(env: Env, s: System, tid: nat, answer: TxOutAnswer): System
    requires env.cfg.bip.AllowsSomething()
  {
    if !AtStage(s, tid) || !s.tasks[tid].stage.Snapshotted? || s.tasks[tid].form.proof == None then s
    else
      var InputRequest(form, op, _, Snapshotted(registered, round)) := s.tasks[tid];
      var feeShare := EstimateFeeShare(env.cfg.bip, env.cfg.minParticipants, env.cfg.feeRate);
      match ValidateUtxo(env, op, registered, feeShare, form.proof.value, round, answer)
      case Err(_) => Drop(s, tid)
      case Ok(details) =>
        if env.parseAddress(form.changeAddress) == None then Drop(s, tid)
        else WithStage(s, tid, Validated(details, round))
  }

  function CommitRequest(env: Env, s: System, tid: nat): System {
    if !AtStage(s, tid) || !s.tasks[tid].stage.Validated? || s.tasks[tid].form.blinded == None then s
    else
      var InputRequest(form, op, startRound, Validated(details, provenFor)) := s.tasks[tid];
      match CommitInput(env, s.round, op, form.blinded.value, form.changeAddress, details)
      case Err(_) => Drop(s, tid)
      case Ok((after, reply)) =>
        Drop(s, tid).(
          round := after,
          log := s.log + [Registered(s.round.id, s.now, Outpoints.Render(op), startRound, BannedNow(env, s, op), form,
                            details, provenFor, reply)])
  }

  // -- outputs, display and signatures ------------------------------------------------

  function TakeOutput(env: Env, s: System, req: OutputRequest): System {
    match PostOutput(env, s.round, req)
    case Err(_) => s
    case Ok(after) => s.(round := after, log := s.log + [Redeemed(s.round.id, req)])
  }

  ghost function ShowTx(env: Env, s: System, order: seq<string>): System {
    if s.round.inner == None || !Enumerates(order, s.round.inner.value.inputs.Keys) then s
    else
      match GetTx(env, s.round, order)
      case None => s
      case Some(psbt) => s.(log := s.log + [Shown(s.round.id, psbt)])
  }

  // What a call that recorded a signature had verified it against: the build
  // of that very call.
  function SignedEvent(env: Env, r: Round, op: OutPoint, sig: Bytes, order: seq<string>): seq<Event>
    requires r.inner.Some? ==> forall i :: 0 <= i < |order| ==> order[i] in r.inner.value.inputs
  {
    if r.inner == None || Outpoints.Render(op) !in r.inner.value.inputs then []
    else
      match BuildCanonical(env, r.inner.value.inputs, r.inner.value.outputs, order)
      case None => []
      case Some(psbt) =>
        match Position(psbt.unsigned.inputs, op)
        case None => []
        case Some(index) =>
          [Signed(r.id, psbt, Outpoints.Render(op), index, r.inner.value.inputs[Outpoints.Render(op)].scriptType, sig)]
  }

  // What an assembly started from: the build of that very call.
  function AssembledEvent(env: Env, r: Round, order: seq<string>, outcome: SignOutcome): seq<Event>
    requires r.inner.Some? ==> forall i :: 0 <= i < |order| ==> order[i] in r.inner.value.inputs
  {
    if !outcome.ReadyToBroadcast? || r.inner == None then []
    else
      match BuildCanonical(env, r.inner.value.inputs, r.inner.value.outputs, order)
      case None => []
      case Some(psbt) => [Assembled(r.id, psbt, outcome.tx)]
  }

  ghost function TakeSignature(env: Env, s: System, req: SignRequest, orders: SignOrders, tid: nat): System {
    if tid in s.tasks || !OrdersFit(s.round, orders) || Outpoints.Parse(req.utxo) == None then s
    else
      var (after, outcome) := PostSign(env, s.round, req, orders);
      if after == s.round then s
      else
        var op := Outpoints.Parse(req.utxo).value;
        var events := SignedEvent(env, s.round, op, req.signature, orders.verify)
                      + AssembledEvent(env, s.round, orders.assemble, outcome);
        s.(
          round := after,
          log := s.log + events,
          tasks := if outcome.ReadyToBroadcast?
                   then s.tasks[tid := Finalize(s.round.id, outcome.tx, outcome.outpoints)] else s.tasks)
  }

  // -- finalize ------------------------------------------------------------------------

  // Only a round still in flight under the same id is touched.
  function FinishFinalize(env: Env, s: System, tid: nat, result: BroadcastResult, newId: RoundId): System {
    if tid !in s.tasks || !s.tasks[tid].Finalize? || newId in s.used then s
    else
      var Finalize(id, _, outpoints) := s.tasks[tid];
      if result.NotSent? && |result.answers| != |outpoints| then s
      else if s.round.id != id || s.round.phase != Broadcast then Drop(s, tid)
      else
        match result
        case Sent =>
          End(Drop(s, tid), Transition(s.round, Idle, newId), BroadcastSuccessVerdict(s.accounts), BroadcastSucceeded,
            {})
        case NotSent(answers) =>
          var spent := set u | u in Revalidate(outpoints, answers, 0);
          End(Drop(s, tid), ViaBlame(s.round, newId), BroadcastFailureVerdict(env, s.accounts, spent, s.now),
            BroadcastFailed(outpoints, answers), spent)
  }

  // A finalize task that never completes.
  function LoseFinalize(s: System, tid: nat): System {
    if tid in s.tasks && s.tasks[tid].Finalize? then Drop(s, tid) else s
  }

  ghost function Step(env: Env, s: System, act: Label): System
    requires env.cfg.bip.AllowsSomething()
  {
    match act
    case Tick(secs) => s.(now := s.now + secs)
    case MonitorPolls => PollPhase(s)
    case MonitorActs(tid) => ArmOrPause(s, tid)
    case MonitorReadsClock => ReadClock(s)
    case KeygenEnds(material) => FinishKeygen(s, material)
    case TimerFires(tid, newId) => FireTimer(env, s, tid, newId)
    case InputArrives(tid, form) => AcceptInput(s, tid, form)
    case InputBanCheck(tid) => CheckBan(env, s, tid)
    case InputSnapshot(tid) => SnapshotInputs(s, tid)
    case InputValidate(tid, answer) => CheckCoin(env, s, tid, answer)
    case InputCommits(tid) => CommitRequest(env, s, tid)
    case OutputPosted(req) => TakeOutput(env, s, req)
    case TxFetched(order) => ShowTx(env, s, order)
    case SignPosted(req, orders, tid) => TakeSignature(env, s, req, orders, tid)
    case FinalizeEnds(tid, result, newId) => FinishFinalize(env, s, tid, result, newId)
    case FinalizeDies(tid) => LoseFinalize(s, tid)
  }

  // The state after a whole run from a process start.
  ghost function Run(env: Env, boot: Boot, acts: seq<Label>): System
    requires env.cfg.bip.AllowsSomething()
  {
    if acts == [] then Start(boot) else Step(env, Run(env, boot, acts[..|acts| - 1]), acts[|acts| - 1])
  }
}
