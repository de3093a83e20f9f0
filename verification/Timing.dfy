// Time: how long an honest finalize takes at worst, and why the broadcast
// watchdog never gets there first.
module Timing {
  import opened Base
  import opened Config
  import opened Fees
  import opened Transactions
  import opened World
  import opened Ownership
  import opened Rounds
  import opened Blame
  import opened Canonical
  import opened RoundInvariant
  import opened SigningRound
  import opened Protocol
  import opened Changes
  import opened Steps
  import opened Runs
  import opened Results
  import opened Progress
  import Outpoints

  // -- one finalize ----------------------------------------------------------------

  const RPC_TIMEOUT_SECS := 10

  // How the node answers one finalize, how long each call takes it, and how
  // long the task waits in all: for the scheduler, and for the lock at its end.
  datatype Plan = Plan(
    testSecs: nat, accepted: bool, sendSecs: nat, sent: bool, answers: seq<RpcAnswer>, answerSecs: seq<nat>,
    waitSecs: nat)

  // Every call returns within its own timeout.
  predicate CallsInTime(plan: Plan, outpoints: seq<string>) {
    && plan.testSecs <= RPC_TIMEOUT_SECS && plan.sendSecs <= RPC_TIMEOUT_SECS
    && |plan.answers| == |plan.answerSecs| == |outpoints|
    && forall i :: 0 <= i < |plan.answerSecs| ==> plan.answerSecs[i] <= RPC_TIMEOUT_SECS
  }

  // What the delay of the watchdog leaves a round of this size for waiting.
  function WaitingRoom(c: CoordinatorConfig, participants: nat): int {
    WatchdogSecs(c) - 2 * RPC_TIMEOUT_SECS - RPC_TIMEOUT_SECS * participants
  }

  // And there is room for the waiting.
  predicate InTime(c: CoordinatorConfig, plan: Plan, outpoints: seq<string>) {
    CallsInTime(plan, outpoints) && plan.waitSecs < WaitingRoom(c, |outpoints|)
  }

  // Time spent in the re-validation loop, call by call, until it stops.
  function RevalidationSecs(outpoints: seq<string>, answers: seq<RpcAnswer>, secs: seq<nat>, errors: nat): nat
    requires |answers| == |secs| == |outpoints|
  {
    if outpoints == [] then 0
    else if Outpoints.Parse(outpoints[0]) == None then RevalidationSecs(outpoints[1..], answers[1..], secs[1..], errors)
    else
      match answers[0]
      case Failed =>
        if errors + 1 >= MAX_CONSECUTIVE_RPC_ERRORS then secs[0]
        else secs[0] + RevalidationSecs(outpoints[1..], answers[1..], secs[1..], errors + 1)
      case _ => secs[0] + RevalidationSecs(outpoints[1..], answers[1..], secs[1..], 0)
  }

  // The mempool test, the submission if accepted, the re-validation if not sent.
  function FinalizeSecs(plan: Plan, outpoints: seq<string>): nat
    requires CallsInTime(plan, outpoints)
  {
    var check := RevalidationSecs(outpoints, plan.answers, plan.answerSecs, 0);
    plan.waitSecs + plan.testSecs + if !plan.accepted then check else plan.sendSecs + if plan.sent then 0 else check
  }

  lemma {:induction false} RevalidationIsBounded(
    outpoints: seq<string>, answers: seq<RpcAnswer>, secs: seq<nat>, errors: nat)
    requires |answers| == |secs| == |outpoints|
    requires forall i :: 0 <= i < |secs| ==> secs[i] <= RPC_TIMEOUT_SECS
    ensures RevalidationSecs(outpoints, answers, secs, errors) <= 10 * |outpoints|
  {
    hide Outpoints.Parse;
    if outpoints != [] {
      RevalidationIsBounded(outpoints[1..], answers[1..], secs[1..], errors);
      RevalidationIsBounded(outpoints[1..], answers[1..], secs[1..], errors + 1);
      RevalidationIsBounded(outpoints[1..], answers[1..], secs[1..], 0);
    }
  }

  // A node that is slow but answers every call reaches the bound.
  lemma {:induction false} BoundIsReached(outpoints: seq<string>, answers: seq<RpcAnswer>, secs: seq<nat>)
    requires |answers| == |secs| == |outpoints|
    requires forall i :: 0 <= i < |outpoints| ==>
               secs[i] == RPC_TIMEOUT_SECS && answers[i] != Failed && Outpoints.Parse(outpoints[i]).Some?
    ensures RevalidationSecs(outpoints, answers, secs, 0) == 10 * |outpoints|
  {
    hide Outpoints.Parse;
    if outpoints != [] {
      BoundIsReached(outpoints[1..], answers[1..], secs[1..]);
    }
  }

  // The worst honest finalize ends before the watchdog of any valid configuration.
  lemma FinalizeBeatsWatchdog(c: CoordinatorConfig, plan: Plan, outpoints: seq<string>)
    requires Sane(c) && InTime(c, plan, outpoints)
    ensures FinalizeSecs(plan, outpoints) <= 20 + 10 * |outpoints| + plan.waitSecs < WatchdogSecs(c)
    ensures WatchdogSecs(c) == 30 + 15 * c.maxParticipants
  {
    RevalidationIsBounded(outpoints, plan.answers, plan.answerSecs, 0);
  }

  // The margin holds up to 357 participants; beyond, the cap would bite.
  lemma MarginIsExact(c: CoordinatorConfig)
    ensures 20 + 10 * c.maxParticipants < WatchdogSecs(c) <==> c.maxParticipants <= 357
  {
  }

  // There is room for every allowed size of round, and most for the smallest.
  lemma EveryRoundHasRoom(c: CoordinatorConfig, participants: nat)
    requires Sane(c) && participants <= c.maxParticipants
    ensures WaitingRoom(c, participants) ==
            10 + 5 * c.maxParticipants + 10 * (c.maxParticipants - participants)
  {
  }

  // -- the timed protocol ------------------------------------------------------------

  // When each task was spawned, and when each finalize task is done.
  datatype TimedSystem = TimedSystem(sys: System, born: map<nat, nat>, due: map<nat, nat>)

  // One step, with the node's plan for a finalize task it may spawn.
  datatype TimedStep = TimedStep(act: Label, plan: Plan)

  // A finalize task is due when its calls and its waiting are done.
  function DueAt(plan: Plan, task: Task, now: nat): nat {
    if task.Finalize? && CallsInTime(plan, task.outpoints) then now + FinalizeSecs(plan, task.outpoints) else now
  }

  ghost function Advance(env: Env, ts: TimedSystem, step: TimedStep): TimedSystem
    requires env.cfg.bip.AllowsSomething()
  {
    var s, t := ts.sys, Step(env, ts.sys, step.act);
    TimedSystem(
      t,
      map tid | tid in t.tasks :: if tid in s.tasks && tid in ts.born then ts.born[tid] else s.now,
      map tid | tid in t.tasks ::
        if tid in s.tasks && tid in ts.due then ts.due[tid] else DueAt(step.plan, t.tasks[tid], s.now))
  }

  // The node keeps to its timeouts, no finalize task dies or idles past its
  // due time, and no watchdog fires early. Nothing else is assumed of time.
  ghost predicate CallsPunctual(env: Env, ts: TimedSystem, step: TimedStep)
    requires env.cfg.bip.AllowsSomething()
  {
    match step.act
    case Tick(secs) =>
      forall tid :: tid in ts.sys.tasks && ts.sys.tasks[tid].Finalize? ==> DueBy(ts, tid, ts.sys.now + secs)
    case TimerFires(tid, _) =>
      tid in ts.sys.tasks && ts.sys.tasks[tid].Timer? && ts.sys.tasks[tid].phase == Broadcast ==>
        tid in ts.born && ts.sys.now >= ts.born[tid] + WatchdogSecs(env.cfg)
    case FinalizeDies(_) => false
    case SignPosted(_, orders, _) => CallsInTime(step.plan, orders.snapshot)
    case _ => true
  }

  // And no finalize task waits beyond its room.
  ghost predicate Punctual(env: Env, ts: TimedSystem, step: TimedStep)
    requires env.cfg.bip.AllowsSomething()
  {
    && CallsPunctual(env, ts, step)
    && (step.act.SignPosted? ==> step.plan.waitSecs < WaitingRoom(env.cfg, |step.act.orders.snapshot|))
  }

  predicate DueBy(ts: TimedSystem, tid: nat, time: nat) {
    tid in ts.due && time <= ts.due[tid]
  }

  ghost function TimedRun(env: Env, boot: Boot, steps: seq<TimedStep>): TimedSystem
    requires env.cfg.bip.AllowsSomething()
  {
    if steps == [] then TimedSystem(Start(boot), map[], map[])
    else Advance(env, TimedRun(env, boot, steps[..|steps| - 1]), steps[|steps| - 1])
  }

  ghost predicate PunctualRun(env: Env, boot: Boot, steps: seq<TimedStep>)
    requires env.cfg.bip.AllowsSomething()
  {
    forall i :: 0 <= i < |steps| ==> Punctual(env, TimedRun(env, boot, steps[..i]), steps[i])
  }

  // -- the invariant ------------------------------------------------------------------

  // Task `f` is the live round's finalize, not overdue, and older than every
  // watchdog of the round.
  ghost predicate Guarded(env: Env, ts: TimedSystem, f: nat) {
    && f in ts.sys.tasks && ts.sys.tasks[f].Finalize? && ts.sys.tasks[f].round == ts.sys.round.id
    && f in ts.born && f in ts.due
    && ts.sys.now <= ts.due[f] && ts.due[f] < ts.born[f] + WatchdogSecs(env.cfg)
    && forall tid :: tid in ts.sys.tasks && ts.sys.tasks[tid] == Timer(Broadcast, ts.sys.round.id) ==>
         Younger(ts, f, tid)
  }

  predicate Younger(ts: TimedSystem, f: nat, tid: nat) {
    f in ts.born && tid in ts.born && ts.born[f] <= ts.born[tid]
  }

  ghost predicate Clocked(env: Env, ts: TimedSystem) {
    && (forall tid :: tid in ts.sys.tasks ==> BornBy(ts, tid))
    && (ts.sys.round.phase == Broadcast ==> exists f :: Guarded(env, ts, f))
  }

  predicate BornBy(ts: TimedSystem, tid: nat) {
    tid in ts.born && tid in ts.due && ts.born[tid] <= ts.sys.now
  }

  // No watchdog of the round can fire while its finalize is under way.
  lemma WatchdogWaits(env: Env, ts: TimedSystem, tid: nat, newId: RoundId, plan: Plan)
    requires env.cfg.bip.AllowsSomething() && Clocked(env, ts)
    requires Punctual(env, ts, TimedStep(TimerFires(tid, newId), plan))
    requires tid in ts.sys.tasks
    ensures ts.sys.round.phase == Broadcast ==> ts.sys.tasks[tid] != Timer(Broadcast, ts.sys.round.id)
  {
    hide WatchdogSecs;
    if ts.sys.round.phase == Broadcast {
      var f :| Guarded(env, ts, f);
      assert ts.sys.tasks[tid] == Timer(Broadcast, ts.sys.round.id) ==> Younger(ts, f, tid);
    }
  }

  // -- what a step does to tasks and time --------------------------------------------

  // Timers and finalize tasks never change; a live finalize goes only with its round.
  ghost predicate Evolves(s: System, t: System) {
    && (forall tid :: tid in t.tasks && tid in s.tasks && !t.tasks[tid].InputRequest? ==> t.tasks[tid] == s.tasks[tid])
    && (forall f :: f in s.tasks && s.tasks[f].Finalize? && s.tasks[f].round == s.round.id == t.round.id ==>
          f in t.tasks && t.tasks[f] == s.tasks[f])
  }

  lemma StepEvolves(env: Env, s: System, act: Label)
    requires env.cfg.bip.AllowsSomething()
    requires s.round.phase == Broadcast && s.round.id in s.used && !act.FinalizeDies?
    ensures Evolves(s, Step(env, s, act))
  {
    hide Step;
    if OfRequest(act) {
      RequestsKeepWork(env, s, act);
    } else {
      RestEvolve(env, s, act);
    }
  }

  lemma RestEvolve(env: Env, s: System, act: Label)
    requires env.cfg.bip.AllowsSomething()
    requires s.round.phase == Broadcast && s.round.id in s.used && !act.FinalizeDies?
    requires !OfRequest(act)
    ensures Evolves(s, Step(env, s, act))
  {
    hide AcceptInput, CheckBan, SnapshotInputs, CheckCoin, CommitRequest, PostOutput, PostSign, GetTx, OrdersFit,
      Revalidate, BroadcastFailureVerdict, SignedEvent, AssembledEvent, Outpoints.Parse, Enumerates, Install,
      Joined, SignedBy, NonSigners, SigningTimeoutVerdict, OutputTimeout, InputTimeout;
  }

  lemma OnlyTicksTakeTime(env: Env, s: System, act: Label)
    requires env.cfg.bip.AllowsSomething() && !act.Tick?
    ensures Step(env, s, act).now == s.now
  {
    hide CommitInput, PostOutput, PostSign, GetTx, OrdersFit, BannedNow, ValidateUtxo, RegistrationFloor, Revalidate,
      BroadcastFailureVerdict, SignedEvent, AssembledEvent, Outpoints.Parse, Outpoints.Render, Enumerates, Install,
      Transition, ViaBlame, EstimateFeeShare, CanTransition, Joined, SignedBy;
  }

  // A round goes in flight only by a signature, together with its finalize task.
  ghost predicate TakesOff(s: System, t: System, act: Label) {
    && act.SignPosted? && act.tid !in s.tasks && OrdersFit(s.round, act.orders)
    && s.round.phase == Signing && s.round.inner.Some? && t.round.id == s.round.id
    && act.tid in t.tasks && t.tasks[act.tid].Finalize?
    && t.tasks[act.tid].round == s.round.id && t.tasks[act.tid].outpoints == act.orders.snapshot
    && forall tid :: tid in t.tasks && tid != act.tid ==> tid in s.tasks && t.tasks[tid] == s.tasks[tid]
  }

  lemma TakeOffSpawnsFinalize(env: Env, s: System, act: Label)
    requires act.SignPosted? && s.round.phase != Broadcast
    requires TakeSignature(env, s, act.submission, act.orders, act.tid).round.phase == Broadcast
    ensures TakesOff(s, TakeSignature(env, s, act.submission, act.orders, act.tid), act)
  {
    hide BuildCanonical, AssembleFinal, Outpoints.Render, Outpoints.Parse, VerifyInputSignature, Position, Enumerates,
      SignedEvent, AssembledEvent;
  }

  lemma OthersStayGrounded(env: Env, s: System, act: Label)
    requires env.cfg.bip.AllowsSomething() && !act.SignPosted?
    ensures Step(env, s, act).round.phase == Broadcast ==> s.round.phase == Broadcast
  {
    hide RegisterOutputLogic, PostSign, GetTx, OrdersFit, BannedNow, ValidateUtxo, RegistrationFloor,
      Revalidate, BroadcastFailureVerdict, SigningTimeoutVerdict, SignedEvent, AssembledEvent, Outpoints.Parse,
      Outpoints.Render, Enumerates, EstimateFeeShare, Joined, SignedBy, NonSigners;
  }

  // -- keeping the invariant ---------------------------------------------------------

  lemma BirthsKept(env: Env, ts: TimedSystem, step: TimedStep)
    requires env.cfg.bip.AllowsSomething()
    requires forall tid :: tid in ts.sys.tasks ==> BornBy(ts, tid)
    requires ts.sys.now <= Step(env, ts.sys, step.act).now
    ensures forall tid :: tid in Advance(env, ts, step).sys.tasks ==> BornBy(Advance(env, ts, step), tid)
  {
    hide Step, DueAt;
  }

  // The finalize in place stays in place and on time.
  lemma StaysGuarded(env: Env, ts: TimedSystem, step: TimedStep, f: nat)
    requires env.cfg.bip.AllowsSomething()
    requires Guarded(env, ts, f) && forall tid :: tid in ts.sys.tasks ==> BornBy(ts, tid)
    requires Evolves(ts.sys, Step(env, ts.sys, step.act))
    requires Step(env, ts.sys, step.act).round.id == ts.sys.round.id
    requires Step(env, ts.sys, step.act).now <= ts.due[f]
    ensures Guarded(env, Advance(env, ts, step), f)
  {
    hide Step, DueAt, WatchdogSecs;
    var after := Advance(env, ts, step);
    forall tid | tid in after.sys.tasks && after.sys.tasks[tid] == Timer(Broadcast, after.sys.round.id)
      ensures Younger(after, f, tid)
    {
      assert BornBy(ts, f);
      if tid in ts.sys.tasks {
        assert Younger(ts, f, tid);
      }
    }
  }

  // A finalize just spawned is on time, and no watchdog of its round exists yet.
  lemma BecomesGuarded(env: Env, ts: TimedSystem, step: TimedStep)
    requires Sane(env.cfg) && Core(env, ts.sys)
    requires TakesOff(ts.sys, Step(env, ts.sys, step.act), step.act)
    requires InTime(env.cfg, step.plan, step.act.orders.snapshot)
    requires |step.act.orders.snapshot| <= env.cfg.maxParticipants
    requires Step(env, ts.sys, step.act).now == ts.sys.now
    ensures Guarded(env, Advance(env, ts, step), step.act.tid)
  {
    hide Step, Core, WatchdogSecs, FinalizeSecs, OrdersFit, WaitingRoom;
    var after := Advance(env, ts, step);
    FinalizeBeatsWatchdog(env.cfg, step.plan, step.act.orders.snapshot);
    NoWatchdogYet(env, ts.sys);
  }

  lemma NoWatchdogYet(env: Env, s: System)
    requires env.cfg.bip.AllowsSomething() && Core(env, s) && s.round.phase == Signing
    ensures forall tid :: tid in s.tasks ==> s.tasks[tid] != Timer(Broadcast, s.round.id)
  {
    hide RoundOk, PcOk;
    forall tid | tid in s.tasks ensures s.tasks[tid] != Timer(Broadcast, s.round.id) {
      assert TaskOk(env, s, s.tasks[tid]);
    }
  }

  lemma SnapshotFits(env: Env, r: Round, orders: SignOrders)
    requires env.cfg.bip.AllowsSomething() && RoundOk(env, r) && r.inner.Some? && OrdersFit(r, orders)
    ensures |orders.snapshot| <= env.cfg.maxParticipants
  {
    hide InputsOk, OutputsOk, SigningOk, Enumerates;
    FittingOrders(r, orders);
    EnumerationLength(orders.snapshot, r.inner.value.inputs.Keys);
    assert |r.inner.value.inputs.Keys| == |r.inner.value.inputs|;
  }

  lemma StepGuards(env: Env, ts: TimedSystem, step: TimedStep) returns (f: nat)
    requires Sane(env.cfg) && Core(env, ts.sys) && Clocked(env, ts) && Punctual(env, ts, step)
    requires Step(env, ts.sys, step.act).round.phase == Broadcast
    ensures Guarded(env, Advance(env, ts, step), f)
  {
    hide Step, Core, RoundOk, Change, WatchdogSecs, Guarded, Punctual, InTime, TakesOff, Evolves, OrdersFit;
    var s, act := ts.sys, step.act;
    CoreRoundOk(env, s);
    StepIsChange(env, s, act);
    ChangeLowersRank(env, s, Step(env, s, act));
    StepTakesTime(env, ts, step);
    if s.round.phase == Broadcast {
      f :| Guarded(env, ts, f);
      StepEvolvesPunctually(env, ts, step);
      PunctualIsNotOverdue(env, ts, step, f);
      StaysGuarded(env, ts, step, f);
    } else {
      OnlySignaturesTakeOff(env, ts, step);
      f := act.tid;
      BecomesGuarded(env, ts, step);
    }
  }

  lemma StepTakesTime(env: Env, ts: TimedSystem, step: TimedStep)
    requires env.cfg.bip.AllowsSomething()
    ensures Step(env, ts.sys, step.act).now >= ts.sys.now
    ensures !step.act.Tick? ==> Step(env, ts.sys, step.act).now == ts.sys.now
  {
    if !step.act.Tick? {
      hide Step;
      OnlyTicksTakeTime(env, ts.sys, step.act);
    }
  }

  lemma StepEvolvesPunctually(env: Env, ts: TimedSystem, step: TimedStep)
    requires env.cfg.bip.AllowsSomething() && Core(env, ts.sys) && Punctual(env, ts, step)
    requires ts.sys.round.phase == Broadcast
    ensures Evolves(ts.sys, Step(env, ts.sys, step.act))
  {
    hide Step, Evolves, RoundOk, WatchdogSecs;
    CoreRoundOk(env, ts.sys);
    StepEvolves(env, ts.sys, step.act);
  }

  lemma PunctualIsNotOverdue(env: Env, ts: TimedSystem, step: TimedStep, f: nat)
    requires env.cfg.bip.AllowsSomething() && Guarded(env, ts, f) && Punctual(env, ts, step)
    ensures Step(env, ts.sys, step.act).now <= ts.due[f]
  {
    if step.act.Tick? {
      hide Younger;
      assert DueBy(ts, f, ts.sys.now + step.act.secs);
    } else {
      hide Step, Younger;
      OnlyTicksTakeTime(env, ts.sys, step.act);
    }
  }

  lemma OnlySignaturesTakeOff(env: Env, ts: TimedSystem, step: TimedStep)
    requires Sane(env.cfg) && Core(env, ts.sys) && Punctual(env, ts, step)
    requires ts.sys.round.phase != Broadcast && Step(env, ts.sys, step.act).round.phase == Broadcast
    ensures step.act.SignPosted? && TakesOff(ts.sys, Step(env, ts.sys, step.act), step.act)
    ensures InTime(env.cfg, step.plan, step.act.orders.snapshot)
    ensures |step.act.orders.snapshot| <= env.cfg.maxParticipants
  {
    hide Step, Core, TakeSignature, CallsInTime, OrdersFit, RoundOk, WatchdogSecs;
    if !step.act.SignPosted? {
      OthersStayGrounded(env, ts.sys, step.act);
    }
    SignatureStep(env, ts.sys, step.act);
    TakeOffSpawnsFinalize(env, ts.sys, step.act);
    CoreRoundOk(env, ts.sys);
    SnapshotFits(env, ts.sys.round, step.act.orders);
  }

  lemma AdvanceKeepsClocked(env: Env, ts: TimedSystem, step: TimedStep)
    requires Sane(env.cfg) && Core(env, ts.sys) && Clocked(env, ts) && Punctual(env, ts, step)
    ensures Clocked(env, Advance(env, ts, step)) && Core(env, Advance(env, ts, step).sys)
  {
    hide Step, Core, Change, Guarded, Punctual, BornBy;
    StepTakesTime(env, ts, step);
    BirthsKept(env, ts, step);
    StepIsChange(env, ts.sys, step.act);
    SteppedCore(env, ts.sys, Step(env, ts.sys, step.act));
    if Step(env, ts.sys, step.act).round.phase == Broadcast {
      var f := StepGuards(env, ts, step);
    }
  }

  lemma {:induction false} TimedRunIsClocked(env: Env, boot: Boot, steps: seq<TimedStep>)
    requires Sane(env.cfg) && PunctualRun(env, boot, steps)
    ensures Clocked(env, TimedRun(env, boot, steps)) && Core(env, TimedRun(env, boot, steps).sys)
    decreases |steps|
  {
    hide Core, Clocked, Punctual, Advance;
    if steps == [] {
      StartIsClocked(env, boot);
    } else {
      var before := steps[..|steps| - 1];
      PrefixIsPunctual(env, boot, steps);
      TimedRunIsClocked(env, boot, before);
      AdvanceKeepsClocked(env, TimedRun(env, boot, before), steps[|steps| - 1]);
    }
  }

  lemma StartIsClocked(env: Env, boot: Boot)
    requires Sane(env.cfg)
    ensures Clocked(env, TimedSystem(Start(boot), map[], map[])) && Core(env, Start(boot))
  {
    hide Core;
    StartIsSound(env, boot);
  }

  lemma PrefixIsPunctual(env: Env, boot: Boot, steps: seq<TimedStep>)
    requires env.cfg.bip.AllowsSomething()
    requires steps != [] && PunctualRun(env, boot, steps)
    ensures PunctualRun(env, boot, steps[..|steps| - 1])
    ensures Punctual(env, TimedRun(env, boot, steps[..|steps| - 1]), steps[|steps| - 1])
  {
    hide TimedRun, Punctual;
    var before := steps[..|steps| - 1];
    forall i | 0 <= i < |before| ensures Punctual(env, TimedRun(env, boot, before[..i]), before[i]) {
      assert before[..i] == steps[..i];
    }
  }

  // -- the result ------------------------------------------------------------------

  ghost predicate NeverPreempted(log: seq<Event>) {
    forall i :: 0 <= i < |log| && log[i].Ended? ==> log[i].cause != WatchdogFired
  }

  // Only a live watchdog ends a round that way.
  lemma OnlyWatchdogsPreempt(env: Env, s: System, act: Label)
    requires env.cfg.bip.AllowsSomething() && NeverPreempted(s.log)
    requires act.TimerFires? && act.tid in s.tasks ==> s.tasks[act.tid] != Timer(Broadcast, s.round.id)
    ensures NeverPreempted(Step(env, s, act).log)
  {
    if act.TimerFires? {
      hide Step, FireTimer;
      TimerStep(env, s, act);
      OtherTimersPreemptNothing(env, s, act.tid, act.newId);
    } else if act.SignPosted? {
      hide Step, TakeSignature;
      SignatureStep(env, s, act);
      SignaturesPreemptNothing(env, s, act.submission, act.orders, act.tid);
    } else {
      hide Step;
      OtherStepsPreemptNothing(env, s, act);
    }
  }

  lemma SignaturesPreemptNothing(env: Env, s: System, req: SignRequest, orders: SignOrders, tid: nat)
    requires NeverPreempted(s.log)
    ensures NeverPreempted(TakeSignature(env, s, req, orders, tid).log)
  {
    hide PostSign, OrdersFit, Outpoints.Parse, Outpoints.Render, BuildCanonical, Position;
  }

  lemma OtherTimersPreemptNothing(env: Env, s: System, tid: nat, newId: RoundId)
    requires NeverPreempted(s.log)
    requires tid in s.tasks ==> s.tasks[tid] != Timer(Broadcast, s.round.id)
    ensures NeverPreempted(FireTimer(env, s, tid, newId).log)
  {
    hide OutputTimeout, InputTimeout, NonSigners, SigningTimeoutVerdict, Joined, SignedBy, ViaBlame, Transition;
  }

  lemma OtherStepsPreemptNothing(env: Env, s: System, act: Label)
    requires env.cfg.bip.AllowsSomething() && NeverPreempted(s.log)
    requires !act.TimerFires? && !act.SignPosted?
    ensures NeverPreempted(Step(env, s, act).log)
  {
    hide FireTimer, TakeSignature, CommitInput, PostOutput, PostSign, GetTx, OrdersFit, BannedNow, ValidateUtxo,
      RegistrationFloor, Revalidate, BroadcastFailureVerdict, Outpoints.Parse, Outpoints.Render, Enumerates, Install,
      EstimateFeeShare, Joined, SignedBy, RegisteredOutpoints, ViaBlame, Transition;
  }

  lemma NoLiveWatchdog(env: Env, ts: TimedSystem, step: TimedStep)
    requires env.cfg.bip.AllowsSomething() && Core(env, ts.sys) && Clocked(env, ts) && Punctual(env, ts, step)
    requires step.act.TimerFires? && step.act.tid in ts.sys.tasks
    ensures ts.sys.tasks[step.act.tid] != Timer(Broadcast, ts.sys.round.id)
  {
    hide RoundOk, PcOk, Clocked, Punctual;
    WatchdogWaits(env, ts, step.act.tid, step.act.newId, step.plan);
    assert TaskOk(env, ts.sys, ts.sys.tasks[step.act.tid]);
    NeverBlame(env, ts.sys.round);
  }

  lemma AdvanceNeverPreempts(env: Env, ts: TimedSystem, step: TimedStep)
    requires env.cfg.bip.AllowsSomething() && Core(env, ts.sys) && Clocked(env, ts) && Punctual(env, ts, step)
    requires NeverPreempted(ts.sys.log)
    ensures NeverPreempted(Step(env, ts.sys, step.act).log)
  {
    hide Core, Clocked, Punctual, Step, NeverPreempted;
    if step.act.TimerFires? && step.act.tid in ts.sys.tasks {
      NoLiveWatchdog(env, ts, step);
    }
    OnlyWatchdogsPreempt(env, ts.sys, step.act);
  }

  // While the node keeps to its timeouts, no finalize task waits beyond its room
  // and none dies, no round is ever ended by the watchdog.
  lemma {:induction false} WatchdogNeverPreempts(env: Env, boot: Boot, steps: seq<TimedStep>)
    requires Sane(env.cfg) && PunctualRun(env, boot, steps)
    ensures NeverPreempted(TimedRun(env, boot, steps).sys.log)
    decreases |steps|
  {
    hide Core, Clocked, Punctual, Step, NeverPreempted;
    if steps == [] {
      NothingPreempted();
    } else {
      var before := steps[..|steps| - 1];
      PrefixIsPunctual(env, boot, steps);
      TimedRunIsClocked(env, boot, before);
      WatchdogNeverPreempts(env, boot, before);
      AdvanceNeverPreempts(env, TimedRun(env, boot, before), steps[|steps| - 1]);
    }
  }

  lemma NothingPreempted()
    ensures NeverPreempted([])
  {
  }

  // A timed run is a run: dropping the clocks gives the protocol's own.
  lemma {:induction false} TimedRunIsRun(env: Env, boot: Boot, steps: seq<TimedStep>)
    requires env.cfg.bip.AllowsSomething()
    ensures TimedRun(env, boot, steps).sys == Run(env, boot, Acts(steps))
    decreases |steps|
  {
    hide Step;
    if steps != [] {
      TimedRunIsRun(env, boot, steps[..|steps| - 1]);
      assert Acts(steps)[..|steps| - 1] == Acts(steps[..|steps| - 1]);
    }
  }

  function Acts(steps: seq<TimedStep>): seq<Label> {
    seq(|steps|, i requires 0 <= i < |steps| => steps[i].act)
  }

  // -- finalize tasks decide ---------------------------------------------------------------

  // There is at most one finalize task, and it is the live round's.
  ghost predicate Sole(s: System) {
    forall f :: f in s.tasks && s.tasks[f].Finalize? ==> IsSole(s, f)
  }

  ghost predicate IsSole(s: System, f: nat)
    requires f in s.tasks && s.tasks[f].Finalize?
  {
    && s.round.phase == Broadcast && s.tasks[f].round == s.round.id
    && forall g :: g in s.tasks && s.tasks[g].Finalize? ==> g == f
  }

  lemma FlightsEndTheirOwnWay(env: Env, s: System, act: Label)
    requires env.cfg.bip.AllowsSomething() && s.round.phase == Broadcast
    requires !act.TimerFires? && !act.FinalizeEnds?
    ensures Step(env, s, act).round == s.round
  {
    hide RegisterInput, RegisterOutputLogic, ProcessSign, GetTx, OrdersFit, BannedNow, ValidateUtxo, RegistrationFloor,
      SignedEvent, AssembledEvent, Outpoints.Parse, Outpoints.Render, Enumerates, EstimateFeeShare, Joined, SignedBy,
      NonSigners, RegisteredOutpoints, FireTimer, FinishFinalize;
  }

  lemma FinalizeGoes(env: Env, s: System, act: Label)
    requires env.cfg.bip.AllowsSomething() && act.FinalizeEnds?
    ensures var t := Step(env, s, act); t.round == s.round || t.tasks == s.tasks - {act.tid}
    ensures Step(env, s, act) == FinishFinalize(env, s, act.tid, act.result, act.newId)
    ensures Step(env, s, act).round != s.round ==> act.tid in s.tasks && s.tasks[act.tid].Finalize?
  {
    hide Revalidate, BroadcastFailureVerdict, Joined, SignedBy, ViaBlame, Transition;
  }

  lemma UnsignedAddsNoFinalize(env: Env, s: System, act: Label)
    requires act.SignPosted?
    requires TakeSignature(env, s, act.submission, act.orders, act.tid).round.phase != Broadcast
             || s.round.phase == Broadcast
    ensures var t := TakeSignature(env, s, act.submission, act.orders, act.tid); t.tasks == s.tasks
  {
    hide BuildCanonical, AssembleFinal, Outpoints.Render, Outpoints.Parse, VerifyInputSignature, Position, Enumerates,
      SignedEvent, AssembledEvent;
  }

  // The finalize tasks of the next state, once the round is under way in another way.
  lemma FinalizeTasksStay(env: Env, ts: TimedSystem, step: TimedStep)
    requires Sane(env.cfg) && Core(env, ts.sys) && Clocked(env, ts) && Punctual(env, ts, step) && Sole(ts.sys)
    requires ts.sys.round.phase == Broadcast
    ensures Sole(Step(env, ts.sys, step.act))
  {
    hide Step, Core, Clocked, Punctual, TakeSignature, FireTimer;
    var s, t := ts.sys, Step(env, ts.sys, step.act);
    if step.act.SignPosted? {
      SignatureStep(env, s, step.act);
      UnsignedAddsNoFinalize(env, s, step.act);
      FlightsEndTheirOwnWay(env, s, step.act);
    } else {
      OthersMakeNoFinalize(env, s, step.act);
      if step.act.FinalizeEnds? {
        FinalizeGoes(env, s, step.act);
      } else if step.act.TimerFires? {
        TimerStep(env, s, step.act);
        if step.act.tid in s.tasks {
          NoLiveWatchdog(env, ts, step);
        }
        StaleTimer(env, s, step.act.tid, step.act.newId);
      } else {
        FlightsEndTheirOwnWay(env, s, step.act);
      }
    }
  }

  lemma AdvanceKeepsSole(env: Env, ts: TimedSystem, step: TimedStep)
    requires Sane(env.cfg) && Core(env, ts.sys) && Clocked(env, ts) && Punctual(env, ts, step) && Sole(ts.sys)
    ensures Sole(Step(env, ts.sys, step.act))
  {
    hide Step, Core, Clocked, Punctual, TakeSignature, OrdersFit, InTime;
    var s, t := ts.sys, Step(env, ts.sys, step.act);
    if s.round.phase == Broadcast {
      FinalizeTasksStay(env, ts, step);
    } else if t.round.phase == Broadcast {
      OnlySignaturesTakeOff(env, ts, step);
    } else if step.act.SignPosted? {
      SignatureStep(env, s, step.act);
      UnsignedAddsNoFinalize(env, s, step.act);
    } else {
      OthersMakeNoFinalize(env, s, step.act);
    }
  }

  lemma {:induction false} TimedRunIsSole(env: Env, boot: Boot, steps: seq<TimedStep>)
    requires Sane(env.cfg) && PunctualRun(env, boot, steps)
    ensures Sole(TimedRun(env, boot, steps).sys)
    decreases |steps|
  {
    hide Core, Clocked, Punctual, Step, IsSole;
    if steps != [] {
      var before := steps[..|steps| - 1];
      PrefixIsPunctual(env, boot, steps);
      TimedRunIsClocked(env, boot, before);
      TimedRunIsSole(env, boot, before);
      AdvanceKeepsSole(env, TimedRun(env, boot, before), steps[|steps| - 1]);
    }
  }

  // The ending a finalize makes of its round.
  ghost predicate Decides(s: System, t: System, tid: nat, result: BroadcastResult)
    requires tid in s.tasks && s.tasks[tid].Finalize?
  {
    && |t.log| == |s.log| + 1 && t.log[..|s.log|] == s.log
    && var e := t.log[|s.log|];
       && e.Ended? && e.id == s.tasks[tid].round
       && match result
          case Sent => e.cause == BroadcastSucceeded
          case NotSent(answers) =>
            && e.cause == BroadcastFailed(s.tasks[tid].outpoints, answers)
            && |answers| == |s.tasks[tid].outpoints|
            && e.banned == set u | u in Revalidate(s.tasks[tid].outpoints, answers, 0)
  }

  lemma LiveFinalizeDecides(env: Env, s: System, tid: nat, result: BroadcastResult, newId: RoundId)
    requires LiveFinalize(s, tid, result, newId)
    ensures Decides(s, FinishFinalize(env, s, tid, result, newId), tid, result)
  {
    hide BroadcastFailureVerdict, Revalidate, Joined, SignedBy;
    assert FinishFinalize(env, s, tid, result, newId).log[..|s.log|] == s.log;
  }

  // While nobody waits too long, every finalize that completes ends its own
  // round, with the cause and the bans its own calls justify.
  lemma EveryFinalizeDecides(
    env: Env, boot: Boot, steps: seq<TimedStep>, tid: nat, result: BroadcastResult, newId: RoundId)
    requires Sane(env.cfg) && PunctualRun(env, boot, steps)
    requires var s := TimedRun(env, boot, steps).sys;
             && tid in s.tasks && s.tasks[tid].Finalize? && newId !in s.used
             && (result.NotSent? ==> |result.answers| == |s.tasks[tid].outpoints|)
    ensures var s := TimedRun(env, boot, steps).sys;
            Decides(s, Step(env, s, FinalizeEnds(tid, result, newId)), tid, result)
  {
    hide TimedRun, Step, FinishFinalize, Decides;
    var s := TimedRun(env, boot, steps).sys;
    TimedRunIsSole(env, boot, steps);
    assert IsSole(s, tid);
    FinalizeGoes(env, s, FinalizeEnds(tid, result, newId));
    LiveFinalizeDecides(env, s, tid, result, newId);
  }
}
