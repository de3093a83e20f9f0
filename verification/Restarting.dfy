// The engine never falls asleep: the monitor never takes an idle round for
// handled before it has been started, so every idle round can be started.
module Restarting {
  import opened Base
  import opened Fees
  import opened World
  import opened Ownership
  import opened Rounds
  import opened Blame
  import opened RoundInvariant
  import opened Protocol
  import opened Changes
  import opened Steps
  import opened Progress
  import opened Timing
  import Outpoints

  // An idle round marked as handled is being started this very moment.
  ghost predicate Remembered(s: System) {
    match s.monitor.lastIdle
    case None => true
    case Some(id) =>
      && id in s.used
      && (s.round.phase == Idle && s.round.id == id ==> s.monitor.pc == Generating(id))
  }

  predicate MonitorStep(act: Label) {
    act.MonitorPolls? || act.MonitorActs? || act.MonitorReadsClock? || act.KeygenEnds?
  }

  lemma OthersLeaveMonitor(env: Env, s: System, act: Label)
    requires env.cfg.bip.AllowsSomething() && !MonitorStep(act)
    ensures Step(env, s, act).monitor == s.monitor
  {
    hide CommitInput, PostOutput, PostSign, GetTx, OrdersFit, BannedNow, ValidateUtxo, RegistrationFloor, Revalidate,
      BroadcastFailureVerdict, SignedEvent, AssembledEvent, Outpoints.Parse, Outpoints.Render, Enumerates, Install,
      Transition, ViaBlame, EstimateFeeShare, CanTransition, Joined, SignedBy, RegisteredOutpoints, NonSigners,
      SigningTimeoutVerdict, OutputTimeout, InputTimeout;
  }

  lemma MovesKeepRemembered(s: System, t: System)
    requires Remembered(s) && Moves(s, t) && t.monitor == s.monitor
    ensures Remembered(t)
  {
  }

  lemma MonitorKeepsRemembered(env: Env, s: System, act: Label)
    requires env.cfg.bip.AllowsSomething() && Remembered(s) && PcOk(s) && MonitorStep(act)
    ensures Remembered(Step(env, s, act))
  {
    hide PollPhase, ArmOrPause, ReadClock, FinishKeygen, Remembered, PcOk;
    match act
    case MonitorPolls => PollKeepsRemembered(s);
    case MonitorActs(tid) => ActKeepsRemembered(s, tid);
    case MonitorReadsClock => ClockKeepsRemembered(s);
    case KeygenEnds(material) => KeygenKeepsRemembered(s, material);
  }

  lemma PollKeepsRemembered(s: System)
    requires Remembered(s)
    ensures Remembered(PollPhase(s))
  {
  }

  lemma ActKeepsRemembered(s: System, tid: nat)
    requires Remembered(s)
    ensures Remembered(ArmOrPause(s, tid))
  {
  }

  lemma ClockKeepsRemembered(s: System)
    requires Remembered(s) && PcOk(s)
    ensures Remembered(ReadClock(s))
  {
  }

  lemma KeygenKeepsRemembered(s: System, material: Option<(Key, Secret)>)
    requires Remembered(s)
    ensures Remembered(FinishKeygen(s, material))
  {
  }

  lemma StepKeepsRemembered(env: Env, s: System, act: Label)
    requires Sane(env.cfg) && Core(env, s) && Remembered(s)
    ensures Remembered(Step(env, s, act))
  {
    hide Step, RoundOk, TasksOk, PcOk, Remembered, Change, Moves;
    if MonitorStep(act) {
      MonitorKeepsRemembered(env, s, act);
    } else {
      OthersLeaveMonitor(env, s, act);
      StepIsChange(env, s, act);
      ChangesMove(env, s, Step(env, s, act));
      MovesKeepRemembered(s, Step(env, s, act));
    }
  }

  lemma {:induction false} RunIsRemembered(env: Env, boot: Boot, acts: seq<Label>)
    requires Sane(env.cfg)
    ensures Remembered(Run(env, boot, acts))
    decreases |acts|
  {
    hide Core, Step, Remembered;
    if acts == [] {
      StartIsRemembered(boot);
    } else {
      RunIsRemembered(env, boot, acts[..|acts| - 1]);
      RunIsSound(env, boot, acts[..|acts| - 1]);
      StepKeepsRemembered(env, Run(env, boot, acts[..|acts| - 1]), acts[|acts| - 1]);
    }
  }

  lemma StartIsRemembered(boot: Boot)
    ensures Remembered(Start(boot))
  {
  }

  // -- starting an idle round --------------------------------------------------------

  // The monitor, the clock and the key generator, nobody else.
  predicate Starter(act: Label) {
    MonitorStep(act) || act.Tick?
  }

  // Steps until the idle round is started.
  function ToStart(s: System): nat {
    match s.monitor.pc
    case Generating(id) => if id == s.round.id then 1 else 6
    case PauseLoaded(id, until) => if id != s.round.id then 7 else if s.now < until then 3 else 2
    case Saw(phase, id) => if phase == Idle && id == s.round.id then 4 else 8
    case Waiting => 5
  }

  // One step brings the start one nearer, or is the start.
  lemma StarterNears(env: Env, s: System, key: Key, secret: Secret) returns (act: Label)
    requires env.cfg.bip.AllowsSomething() && Remembered(s) && PcOk(s) && s.round.phase == Idle
    ensures Starter(act) && (s.accounts.pausedUntil <= s.now ==> !act.Tick?)
    ensures var t := Step(env, s, act);
            if ToStart(s) == 1 then t.round == Install(s.round, key, secret)
            else t.round == s.round && ToStart(t) < ToStart(s)
  {
    match s.monitor.pc
    case Waiting => act := MonitorPolls;
    case Saw(_, _) =>
      var tid := Unused(s.tasks.Keys);
      act := MonitorActs(tid);
    case PauseLoaded(id, until) =>
      act := if id == s.round.id && s.now < until then Tick(until - s.now) else MonitorReadsClock;
    case Generating(id) => act := KeygenEnds(if id == s.round.id then Some((key, secret)) else None);
  }

  lemma {:induction false} StartFrom(env: Env, s: System, key: Key, secret: Secret) returns (more: seq<Label>)
    requires Sane(env.cfg) && Core(env, s) && Remembered(s) && s.round.phase == Idle
    ensures |more| <= ToStart(s) && forall i :: 0 <= i < |more| ==> Starter(more[i])
    ensures Exec(env, s, more).round == Install(s.round, key, secret) && Steady(s, Exec(env, s, more))
    ensures s.accounts.pausedUntil <= s.now ==>
              Exec(env, s, more).now == s.now && forall i :: 0 <= i < |more| ==> MonitorStep(more[i])
    decreases ToStart(s)
  {
    hide Core, Step, Exec, Change, Remembered, Install, RoundOk, KeepsRequests, PcOk;
    CorePcOk(env, s);
    var act := StarterNears(env, s, key, secret);
    var t := Step(env, s, act);
    var rest := [];
    ExecNothing(env, t);
    ItselfSteady(t);
    InstallKeepsId(s.round, key, secret);
    SameRoundIsSteady(env, s, act);
    if !act.Tick? {
      OnlyTicksTakeTime(env, s, act);
    }
    if ToStart(s) != 1 {
      StepIsChange(env, s, act);
      SteppedCore(env, s, t);
      StepKeepsRemembered(env, s, act);
      rest := StartFrom(env, t, key, secret);
    }
    ExecFirst(env, s, act, rest);
    SteadyChain(s, t, Exec(env, t, rest));
    more := [act] + rest;
  }

  lemma CorePcOk(env: Env, s: System)
    requires env.cfg.bip.AllowsSomething() && Core(env, s)
    ensures PcOk(s)
  {
    hide RoundOk, TasksOk, PcOk;
  }

  lemma InstallKeepsId(r: Round, key: Key, secret: Secret)
    ensures Install(r, key, secret).id == r.id
  {
  }

  lemma AtMostEight(s: System)
    ensures 1 <= ToStart(s) <= 8
  {
  }

  // From every reachable idle state at most eight steps of the monitor, the
  // clock and the key generator start that very round.
  lemma EveryIdleRoundCanStart(env: Env, boot: Boot, acts: seq<Label>, key: Key, secret: Secret)
    returns (more: seq<Label>)
    requires Sane(env.cfg) && Run(env, boot, acts).round.phase == Idle
    ensures |more| <= 8 && forall i :: 0 <= i < |more| ==> Starter(more[i])
    ensures Run(env, boot, acts + more).round == Install(Run(env, boot, acts).round, key, secret)
  {
    hide Run, Exec, Core, Remembered, Install;
    RunIsSound(env, boot, acts);
    RunIsRemembered(env, boot, acts);
    AtMostEight(Run(env, boot, acts));
    more := StartFrom(env, Run(env, boot, acts), key, secret);
    RunThenExec(env, boot, acts, more);
  }
}
