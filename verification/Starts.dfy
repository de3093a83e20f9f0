// Every round starts in time: with a monitor that keeps moving and key
// generation that succeeds within a known time, an idle round is started soon
// after its beginning or after the pause, whichever is later.
module Starts {
  import opened Base
  import opened Transactions
  import opened World
  import opened Rounds
  import opened RoundInvariant
  import opened Assembly
  import opened SigningRound
  import opened Protocol
  import opened Changes
  import opened Steps
  import opened Reckoning
  import opened Lifecycle
  import opened Timing
  import opened Restarting

  // -- limits -----------------------------------------------------------------------

  // What is assumed of the monitor: the longest it rests between two of its
  // own steps, and the longest key generation takes.
  datatype Pace = Pace(poll: nat, keygen: nat)

  function StepWithin(pc: MonitorPc, pace: Pace): nat {
    if pc.Generating? then pace.keygen else pace.poll
  }

  // Time the monitor needs at most to start the idle round, from this point of
  // its loop, once the pause is over.
  function Left(s: System, pace: Pace): nat {
    var Pace(poll, keygen) := pace;
    match s.monitor.pc
    case Generating(id) => if id == s.round.id then keygen else 3 * poll + 2 * keygen
    case PauseLoaded(id, _) => if id == s.round.id then poll + keygen else 4 * poll + 2 * keygen
    case Saw(phase, id) =>
      if phase == Idle && id == s.round.id then 2 * poll + keygen else 5 * poll + 2 * keygen
    case Waiting => 3 * poll + keygen
  }

  function StartLimit(pace: Pace): nat {
    5 * pace.poll + 2 * pace.keygen
  }

  lemma LeftIsLimited(s: System, pace: Pace)
    ensures StepWithin(s.monitor.pc, pace) <= Left(s, pace) <= StartLimit(pace)
  {
  }

  // -- the brisk protocol ----------------------------------------------------------------

  // When the current round id was taken, and when the monitor last moved.
  datatype Waking = Waking(sys: System, since: nat, moved: nat)

  ghost function Wake(env: Env, w: Waking, act: Label): Waking
    requires env.cfg.bip.AllowsSomething()
  {
    var s, t := w.sys, Step(env, w.sys, act);
    Waking(
      t,
      if t.round.id == s.round.id then w.since else s.now,
      if t.monitor.pc == s.monitor.pc then w.moved else s.now)
  }

  // Time does not pass the monitor's next step, and key generation succeeds.
  predicate Brisk(w: Waking, act: Label, pace: Pace) {
    && (act.Tick? ==> w.sys.now + act.secs <= w.moved + StepWithin(w.sys.monitor.pc, pace))
    && act != KeygenEnds(None)
  }

  ghost function WakingRun(env: Env, boot: Boot, acts: seq<Label>): Waking
    requires env.cfg.bip.AllowsSomething()
  {
    if acts == [] then Waking(Start(boot), boot.now, boot.now)
    else Wake(env, WakingRun(env, boot, acts[..|acts| - 1]), acts[|acts| - 1])
  }

  ghost predicate BriskRun(env: Env, boot: Boot, acts: seq<Label>, pace: Pace)
    requires env.cfg.bip.AllowsSomething()
  {
    forall i :: 0 <= i < |acts| ==> Brisk(WakingRun(env, boot, acts[..i]), acts[i], pace)
  }

  lemma {:induction false} WakingRunIsRun(env: Env, boot: Boot, acts: seq<Label>)
    requires env.cfg.bip.AllowsSomething()
    ensures WakingRun(env, boot, acts).sys == Run(env, boot, acts)
    decreases |acts|
  {
    hide Step;
    if acts != [] {
      WakingRunIsRun(env, boot, acts[..|acts| - 1]);
    }
  }

  // -- the invariant ---------------------------------------------------------------------------

  function Later(a: nat, b: nat): nat {
    if a < b then b else a
  }

  predicate Awake(w: Waking, pace: Pace) {
    && w.moved <= w.sys.now <= w.moved + StepWithin(w.sys.monitor.pc, pace)
    && (w.sys.round.phase == Idle ==>
          w.moved + Left(w.sys, pace) <= Later(w.since, w.sys.accounts.pausedUntil) + StartLimit(pace))
  }

  lemma AwakeIsWithinLimit(w: Waking, pace: Pace)
    requires Awake(w, pace) && w.sys.round.phase == Idle
    ensures w.sys.now <= Later(w.since, w.sys.accounts.pausedUntil) + StartLimit(pace)
  {
    LeftIsLimited(w.sys, pace);
  }

  // Over the pause, each move of the monitor brings the start nearer by the
  // time it may have taken.
  predicate Nears(s: System, t: System, pace: Pace) {
    t.round.phase == Idle && t.monitor.pc != s.monitor.pc ==>
      t.round == s.round && Left(t, pace) + StepWithin(s.monitor.pc, pace) <= Left(s, pace)
  }

  lemma MovesNear(env: Env, s: System, act: Label, pace: Pace)
    requires env.cfg.bip.AllowsSomething() && PcOk(s) && Remembered(s) && MonitorStep(act) && act != KeygenEnds(None)
    requires s.round.phase == Idle && s.accounts.pausedUntil <= s.now
    ensures Nears(s, Step(env, s, act), pace)
  {
    hide PollPhase, ArmOrPause, ReadClock, FinishKeygen, Remembered, PcOk, Nears;
    match act
    case MonitorPolls => PollNears(s, pace);
    case MonitorActs(tid) => ActNears(s, tid, pace);
    case MonitorReadsClock => ClockNears(s, pace);
    case KeygenEnds(material) => KeygenNears(s, material, pace);
  }

  lemma PollNears(s: System, pace: Pace)
    requires s.round.phase == Idle
    ensures Nears(s, PollPhase(s), pace)
  {
  }

  lemma ActNears(s: System, tid: nat, pace: Pace)
    requires Remembered(s) && s.round.phase == Idle
    ensures Nears(s, ArmOrPause(s, tid), pace)
  {
  }

  lemma ClockNears(s: System, pace: Pace)
    requires PcOk(s) && s.round.phase == Idle && s.accounts.pausedUntil <= s.now
    ensures Nears(s, ReadClock(s), pace)
  {
  }

  lemma KeygenNears(s: System, material: Option<(Key, Secret)>, pace: Pace)
    requires s.round.phase == Idle && material.Some?
    ensures Nears(s, FinishKeygen(s, material), pace)
  {
  }

  lemma MonitorTakesNoTime(env: Env, s: System, act: Label)
    requires env.cfg.bip.AllowsSomething() && MonitorStep(act)
    ensures Step(env, s, act).now == s.now && Step(env, s, act).accounts == s.accounts
    ensures Step(env, s, act).round.id == s.round.id
    ensures s.round.phase != Idle ==> Step(env, s, act).round.phase != Idle
  {
  }

  lemma MonitorStaysAwake(env: Env, w: Waking, act: Label, pace: Pace)
    requires env.cfg.bip.AllowsSomething() && PcOk(w.sys) && Remembered(w.sys) && MonitorStep(act)
    requires Awake(w, pace) && Brisk(w, act, pace)
    ensures Awake(Wake(env, w, act), pace)
  {
    hide Step, PcOk, Remembered, Left, StepWithin, StartLimit;
    var s, t := w.sys, Step(env, w.sys, act);
    MonitorTakesNoTime(env, s, act);
    LeftIsLimited(t, pace);
    if s.round.phase == Idle && s.accounts.pausedUntil <= s.now {
      MovesNear(env, s, act, pace);
    }
    SameLeft(s, t, pace);
  }

  lemma SameLeft(s: System, t: System, pace: Pace)
    ensures t.monitor.pc == s.monitor.pc && t.round.id == s.round.id ==> Left(t, pace) == Left(s, pace)
  {
  }

  lemma OthersStayAwake(env: Env, w: Waking, act: Label, pace: Pace)
    requires Sane(env.cfg) && Core(env, w.sys) && !MonitorStep(act)
    requires Awake(w, pace) && Brisk(w, act, pace)
    ensures Awake(Wake(env, w, act), pace)
  {
    hide Step, Core, Change, RoundOk, Left, StepWithin, StartLimit;
    var s, t := w.sys, Step(env, w.sys, act);
    OthersLeaveMonitor(env, s, act);
    CoreRoundOk(env, s);
    StepIsChange(env, s, act);
    ChangesMove(env, s, t);
    LeftIsLimited(t, pace);
    SameLeft(s, t, pace);
    IdleStays(s, t);
    if act.Tick? {
      TickIs(env, s, act);
    } else {
      OnlyTicksTakeTime(env, s, act);
    }
  }

  lemma TickIs(env: Env, s: System, act: Label)
    requires env.cfg.bip.AllowsSomething() && act.Tick?
    ensures Step(env, s, act) == s.(now := s.now + act.secs)
  {
  }

  // Under one id no round becomes idle.
  lemma IdleStays(s: System, t: System)
    requires Moves(s, t) && s.round.id in s.used
    ensures t.round.id == s.round.id ==> t.accounts == s.accounts
    ensures t.round.id == s.round.id && t.round.phase == Idle ==> s.round.phase == Idle
  {
  }

  // -- the history ------------------------------------------------------------------------------

  // The time of the last ending, or of the start.
  function LastEnding(log: seq<Event>, start: nat): nat {
    if log == [] then start
    else if log[|log| - 1].Ended? then log[|log| - 1].time
    else LastEnding(log[..|log| - 1], start)
  }

  lemma LastEndingOfAppended(log: seq<Event>, e: Event, start: nat)
    ensures LastEnding(log + [e], start) == if e.Ended? then e.time else LastEnding(log, start)
  {
    assert (log + [e])[..|log|] == log;
  }

  lemma ChangeKeepsSince(env: Env, s: System, t: System, start: nat, since: nat)
    requires s.round.id in s.used && Change(env, s, t) && since == LastEnding(s.log, start)
    ensures LastEnding(t.log, start) == if t.round.id == s.round.id then since else s.now
  {
    hide LastEnding, InSigning, Judged, Joined, SignedBy, FullySigned, SignedTx;
    if Signs(env, s, t) {
      var psbt: Psbt, key: string, e: Event :| SignsWith(env, s, t, psbt, key, e);
      SigningIsLive(env, s, t, psbt, key, e);
      LastEndingOfAppended(s.log, e, start);
      if t.round.phase == Broadcast {
        LastEndingOfAppended(s.log + [e], t.log[|s.log| + 1], start);
      }
    } else if t.log != s.log {
      assert t.log == s.log + [t.log[|s.log|]];
      LastEndingOfAppended(s.log, t.log[|s.log|], start);
      if Ends(env, s, t) {
        JudgedAccounts(env, s, t.log[|s.log|], t.accounts);
      }
    }
  }

  // -- main result ----------------------------------------------------------------------------------

  ghost predicate Woken(env: Env, w: Waking, pace: Pace, start: nat)
    requires env.cfg.bip.AllowsSomething()
  {
    Core(env, w.sys) && Remembered(w.sys) && Awake(w, pace) && w.since == LastEnding(w.sys.log, start)
  }

  lemma WakeKeepsAll(env: Env, w: Waking, act: Label, pace: Pace, start: nat)
    requires Sane(env.cfg) && Woken(env, w, pace, start) && Brisk(w, act, pace)
    ensures Woken(env, Wake(env, w, act), pace, start)
  {
    hide Step, Core, Change, RoundOk, Remembered, PcOk, Awake, Brisk, LastEnding;
    StepIsChange(env, w.sys, act);
    SteppedCore(env, w.sys, Step(env, w.sys, act));
    CoreRoundOk(env, w.sys);
    CorePcOk(env, w.sys);
    StepKeepsRemembered(env, w.sys, act);
    ChangeKeepsSince(env, w.sys, Step(env, w.sys, act), start, w.since);
    if MonitorStep(act) {
      MonitorStaysAwake(env, w, act, pace);
    } else {
      OthersStayAwake(env, w, act, pace);
    }
  }

  lemma {:induction false} BriskRunKeepsAll(env: Env, boot: Boot, acts: seq<Label>, pace: Pace)
    requires Sane(env.cfg) && BriskRun(env, boot, acts, pace)
    ensures Woken(env, WakingRun(env, boot, acts), pace, boot.now)
    decreases |acts|
  {
    hide Woken, Brisk, Wake;
    if acts == [] {
      StartIsWoken(env, boot, pace);
    } else {
      var before := acts[..|acts| - 1];
      assert forall i :: 0 <= i < |before| ==> before[..i] == acts[..i];
      BriskRunKeepsAll(env, boot, before, pace);
      WakeKeepsAll(env, WakingRun(env, boot, before), acts[|acts| - 1], pace, boot.now);
    }
  }

  lemma StartIsWoken(env: Env, boot: Boot, pace: Pace)
    requires Sane(env.cfg)
    ensures Woken(env, Waking(Start(boot), boot.now, boot.now), pace, boot.now)
  {
    hide Core;
    StartIsSound(env, boot);
  }

  // While the monitor rests no longer than `poll` and keys are ready within
  // `keygen`, a round is idle no longer than 5 polls and 2 key generations after
  // the last ending or the pause, whichever is later.
  lemma EveryRoundStartsInTime(env: Env, boot: Boot, acts: seq<Label>, pace: Pace)
    requires Sane(env.cfg) && BriskRun(env, boot, acts, pace)
    ensures var s := Run(env, boot, acts);
            s.round.phase == Idle ==>
              s.now <= Later(LastEnding(s.log, boot.now), s.accounts.pausedUntil) + StartLimit(pace)
  {
    hide Run, WakingRun, Core, Remembered, Awake, LastEnding, StartLimit;
    BriskRunKeepsAll(env, boot, acts, pace);
    WakingRunIsRun(env, boot, acts);
    if Run(env, boot, acts).round.phase == Idle {
      AwakeIsWithinLimit(WakingRun(env, boot, acts), pace);
    }
  }
}
