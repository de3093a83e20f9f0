// Runs that show where the bounds bite: a round that sits in Signing with every
// signature in, and one that the watchdog takes from a finalize that waited
// one second too long.
module Exhibits {
  import opened Base
  import opened Config
  import opened World
  import opened Rounds
  import opened Blame
  import opened RoundInvariant
  import opened Protocol
  import opened Changes
  import opened Steps
  import opened Runs
  import opened Results
  import opened Progress
  import opened Timing
  import opened Restarting
  import opened HonestRounds
  import opened Permissive
  import opened Counting
  import Canonical
  import Ownership
  import Outpoints

  // -- over the ceiling ------------------------------------------------------------------

  // Where the fee-rate ceiling refuses every transaction, a round of any
  // allowed size comes to sit in Signing with all its signatures recorded.
  lemma SomeRoundSitsOverCeiling(c: CoordinatorConfig, n: nat) returns (acts: seq<Label>)
    requires Sane(c) && c.minParticipants <= n <= c.maxParticipants
    ensures var r := Run(EnvFor(c, false), FRESH_BOOT, acts).round;
            r.phase == Signing && |Joined(r)| == n && SignedBy(r) == Joined(r)
  {
    hide EnvFor, CastFor, GoodCast, NobodyIsBanned, SignedBefore, Ready, CeilingOf, Exec;
    var env, cast := EnvFor(c, false), CastFor(c, n);
    StartIsReady(env, FRESH_BOOT);
    CastIsGood(c, false, n, 0, [], 0);
    NobodyBannedYet(env, cast);
    var tid;
    acts, tid := SignaturesFrom(env, Start(FRESH_BOOT), 0, [], cast, false);
    RunThenExec(env, FRESH_BOOT, [], acts);
    assert [] + acts == acts;
    AllHaveSigned(c, n);
  }

  lemma NobodyBannedYet(env: Env, cast: seq<Player>)
    ensures NobodyIsBanned(env, Start(FRESH_BOOT), cast)
  {
  }

  lemma AllHaveSigned(c: CoordinatorConfig, n: nat)
    requires Sane(c) && n <= 100
    ensures var r := SignedBefore(0, 0, [], CastFor(c, n), n, false);
            r.phase == Signing && |Joined(r)| == n && SignedBy(r) == Joined(r)
  {
    hide PlayerFor, Distinct, CastInputs, CastSigs;
    var cast := CastFor(c, n);
    CastIsDistinct(c, n);
    CastSize(cast);
    assert cast[..n] == cast;
    assert |CastInputs(cast).Keys| == |CastInputs(cast)|;
  }

  // -- a second too long -------------------------------------------------------------------

  // The slowest node that answers, and a wait of so many seconds.
  function SlowPlan(n: nat, waitSecs: nat): Plan {
    Plan(RPC_TIMEOUT_SECS, true, RPC_TIMEOUT_SECS, false, seq(n, _ => Unspent), seq(n, _ => RPC_TIMEOUT_SECS), waitSecs)
  }

  lemma SlowPlanTakes(outpoints: seq<string>, waitSecs: nat)
    requires forall i :: 0 <= i < |outpoints| ==> Outpoints.Parse(outpoints[i]).Some?
    ensures CallsInTime(SlowPlan(|outpoints|, waitSecs), outpoints)
    ensures FinalizeSecs(SlowPlan(|outpoints|, waitSecs), outpoints) == waitSecs + 20 + RPC_TIMEOUT_SECS * |outpoints|
  {
    hide Outpoints.Parse;
    var plan := SlowPlan(|outpoints|, waitSecs);
    BoundIsReached(outpoints, plan.answers, plan.answerSecs);
  }

  function WithPlan(acts: seq<Label>, plan: Plan): seq<TimedStep> {
    seq(|acts|, i requires 0 <= i < |acts| => TimedStep(acts[i], plan))
  }

  // A calm run keeps every rule of time but the room for waiting.
  ghost predicate CallsPunctualRun(env: Env, boot: Boot, steps: seq<TimedStep>)
    requires env.cfg.bip.AllowsSomething()
  {
    forall i :: 0 <= i < |steps| ==> CallsPunctual(env, TimedRun(env, boot, steps[..i]), steps[i])
  }

  lemma CalmIsPunctual(env: Env, ts: TimedSystem, act: Label, n: nat, waitSecs: nat)
    requires env.cfg.bip.AllowsSomething() && Calm(act, n)
    ensures CallsPunctual(env, ts, TimedStep(act, SlowPlan(n, waitSecs)))
  {
  }

  lemma CalmRunIsPunctual(env: Env, boot: Boot, acts: seq<Label>, n: nat, waitSecs: nat)
    requires env.cfg.bip.AllowsSomething() && AllCalm(acts, n)
    ensures CallsPunctualRun(env, boot, WithPlan(acts, SlowPlan(n, waitSecs)))
  {
    hide TimedRun, CallsPunctual, Calm, SlowPlan;
    var steps := WithPlan(acts, SlowPlan(n, waitSecs));
    forall i | 0 <= i < |steps| ensures CallsPunctual(env, TimedRun(env, boot, steps[..i]), steps[i]) {
      CalmIsPunctual(env, TimedRun(env, boot, steps[..i]), acts[i], n, waitSecs);
    }
  }

  lemma PlansKeepActs(acts: seq<Label>, plan: Plan)
    ensures Acts(WithPlan(acts, plan)) == acts
  {
  }

  // -- the clocks of a calm run ----------------------------------------------------------------

  // No time has passed: every task is newborn, and the one finalize task is due
  // when its plan says.
  ghost predicate Newborn(ts: TimedSystem, plan: Plan, now: nat) {
    && ts.sys.now == now
    && (forall tid :: tid in ts.sys.tasks ==> BornNow(ts, tid, now))
    && (forall f :: f in ts.sys.tasks && ts.sys.tasks[f].Finalize? ==> DueAsPlanned(ts, f, plan, now))
    && Sole(ts.sys)
  }

  predicate BornNow(ts: TimedSystem, tid: nat, now: nat) {
    tid in ts.born && tid in ts.due && ts.born[tid] == now
  }

  predicate DueAsPlanned(ts: TimedSystem, f: nat, plan: Plan, now: nat)
    requires f in ts.sys.tasks
  {
    f in ts.due && ts.due[f] == DueAt(plan, ts.sys.tasks[f], now)
  }

  lemma CalmTakesNoTime(env: Env, s: System, act: Label, n: nat)
    requires env.cfg.bip.AllowsSomething() && Calm(act, n)
    ensures Step(env, s, act).now == s.now
  {
    hide Step;
    OnlyTicksTakeTime(env, s, act);
  }

  // Finalize tasks are old or just spawned.
  lemma CalmFinalizeTasks(env: Env, s: System, act: Label, n: nat)
    requires Sane(env.cfg) && Core(env, s) && Sole(s) && Calm(act, n)
    ensures Sole(Step(env, s, act))
    ensures var t := Step(env, s, act);
            forall f :: f in t.tasks && t.tasks[f].Finalize? && f in s.tasks ==> t.tasks[f] == s.tasks[f]
  {
    hide Step, Core, TakeSignature, OrdersFit;
    var t := Step(env, s, act);
    if act.SignPosted? {
      SignatureStep(env, s, act);
      if s.round.phase != Broadcast && t.round.phase == Broadcast {
        TakeOffSpawnsFinalize(env, s, act);
      } else {
        UnsignedAddsNoFinalize(env, s, act);
        if s.round.phase == Broadcast {
          FlightsEndTheirOwnWay(env, s, act);
        }
      }
    } else {
      OthersMakeNoFinalize(env, s, act);
      if s.round.phase == Broadcast {
        FlightsEndTheirOwnWay(env, s, act);
      }
    }
  }

  lemma CalmKeepsNewborn(env: Env, ts: TimedSystem, act: Label, n: nat, plan: Plan, now: nat)
    requires Sane(env.cfg) && Core(env, ts.sys) && Newborn(ts, plan, now) && Calm(act, n)
    ensures Newborn(Advance(env, ts, TimedStep(act, plan)), plan, now)
    ensures Core(env, Advance(env, ts, TimedStep(act, plan)).sys)
  {
    hide Step, Core, Change, Sole, DueAt, Calm;
    CalmTakesNoTime(env, ts.sys, act, n);
    CalmFinalizeTasks(env, ts.sys, act, n);
    StepIsChange(env, ts.sys, act);
    SteppedCore(env, ts.sys, Step(env, ts.sys, act));
    var after := Advance(env, ts, TimedStep(act, plan));
    forall f | f in after.sys.tasks && after.sys.tasks[f].Finalize? ensures DueAsPlanned(after, f, plan, now) {
      if f in ts.sys.tasks {
        assert DueAsPlanned(ts, f, plan, now);
      }
    }
    forall tid | tid in after.sys.tasks ensures BornNow(after, tid, now) {
      if tid in ts.sys.tasks {
        assert BornNow(ts, tid, now);
      }
    }
  }

  lemma {:induction false} CalmRunIsNewborn(env: Env, boot: Boot, acts: seq<Label>, n: nat, plan: Plan)
    requires Sane(env.cfg) && AllCalm(acts, n)
    ensures Newborn(TimedRun(env, boot, WithPlan(acts, plan)), plan, boot.now)
    ensures Core(env, TimedRun(env, boot, WithPlan(acts, plan)).sys)
    decreases |acts|
  {
    hide Core, Newborn, Advance, Calm;
    if acts == [] {
      StartIsNewborn(env, boot, plan);
    } else {
      var before := acts[..|acts| - 1];
      CalmRunIsNewborn(env, boot, before, n, plan);
      assert WithPlan(acts, plan)[..|acts| - 1] == WithPlan(before, plan);
      CalmKeepsNewborn(env, TimedRun(env, boot, WithPlan(before, plan)), acts[|acts| - 1], n, plan, boot.now);
    }
  }

  lemma StartIsNewborn(env: Env, boot: Boot, plan: Plan)
    requires Sane(env.cfg)
    ensures Newborn(TimedSystem(Start(boot), map[], map[]), plan, boot.now) && Core(env, Start(boot))
  {
    hide Core;
    StartIsSound(env, boot);
  }

  // -- the watchdog is armed and fires ------------------------------------------------------------

  // The monitor arms the current phase in a few calm steps.
  lemma {:induction false} MonitorArms(env: Env, s: System, n: nat) returns (more: seq<Label>)
    requires Sane(env.cfg) && Ready(env, s) && s.round.phase != Idle
    ensures var t := Exec(env, s, more);
            t.round == s.round && Steady(s, t) && HasTimer(t.tasks, t.round.phase, t.round.id)
    ensures AllCalm(more, n)
    decreases Distance(s)
  {
    hide Core, Covered, Remembered, Exec, Step, HasTimer, Steady, Distance, RoundOk;
    if HasTimer(s.tasks, s.round.phase, s.round.id) {
      more := [];
      ExecNothing(env, s);
      ItselfSteady(s);
    } else {
      var act := MonitorNears(env, s);
      SameRoundIsSteady(env, s, act);
      ExecOne(env, s, act);
      ExecIsReady(env, s, [act]);
      var rest := MonitorArms(env, Step(env, s, act), n);
      ExecFirst(env, s, act, rest);
      SteadyChain(s, Step(env, s, act), Exec(env, Step(env, s, act), rest));
      more := [act] + rest;
    }
  }

  // A full round in flight, its watchdog armed, and all of it at the start of time.
  lemma CalmFlight(c: CoordinatorConfig) returns (acts: seq<Label>)
    requires Sane(c)
    ensures AllCalm(acts, c.maxParticipants)
    ensures var s := Run(EnvFor(c, true), FRESH_BOOT, acts);
            && Core(EnvFor(c, true), s) && s.round.phase == Broadcast && s.round.inner.Some?
            && |s.round.inner.value.inputs| == c.maxParticipants
            && HasTimer(s.tasks, Broadcast, s.round.id)
  {
    hide EnvFor, CastFor, GoodCast, NobodyIsBanned, SignedBefore, Core, Covered, Remembered, CeilingOf, Exec, Calm,
      HasTimer, HasFinalize;
    var env, n := EnvFor(c, true), c.maxParticipants;
    var cast := CastFor(c, n);
    StartIsReady(env, FRESH_BOOT);
    CastIsGood(c, true, n, 0, [], 0);
    NobodyBannedYet(env, cast);
    var signs, tid := SignaturesFrom(env, Start(FRESH_BOOT), 0, [], cast, true);
    FlightIsFull(c, n);
    var arms := MonitorArms(env, Exec(env, Start(FRESH_BOOT), signs), n);
    acts := signs + arms;
    CalmTogether(signs, arms, n);
    ExecConcat(env, Start(FRESH_BOOT), signs, arms);
    RunThenExec(env, FRESH_BOOT, [], acts);
    ExecIsReady(env, Start(FRESH_BOOT), acts);
    assert [] + acts == acts;
  }

  lemma FlightIsFull(c: CoordinatorConfig, n: nat)
    requires Sane(c) && n <= 100
    ensures var r := SignedBefore(0, 0, [], CastFor(c, n), n, true);
            r.phase == Broadcast && r.inner.Some? && |r.inner.value.inputs| == n
  {
    hide PlayerFor, Distinct, CastInputs, CastSigs;
    CastIsDistinct(c, n);
    CastSize(CastFor(c, n));
  }

  // The finalize of the round in flight is due after its calls and its waiting.
  lemma FlightIsDue(env: Env, ts: TimedSystem, waitSecs: nat, now: nat, f: nat)
    requires env.cfg.bip.AllowsSomething() && Core(env, ts.sys) && ts.sys.round.inner.Some?
    requires var n := |ts.sys.round.inner.value.inputs|; Newborn(ts, SlowPlan(n, waitSecs), now)
    requires f in ts.sys.tasks && ts.sys.tasks[f].Finalize?
    ensures f in ts.due
            && ts.due[f] == now + waitSecs + 20 + RPC_TIMEOUT_SECS * |ts.sys.round.inner.value.inputs|
  {
    hide RoundOk, PcOk, SlowPlan, FinalizeSecs, CallsInTime, Outpoints.Parse;
    var s := ts.sys;
    assert IsSole(s, f) && TaskOk(env, s, s.tasks[f]);
    assert DueAsPlanned(ts, f, SlowPlan(|s.round.inner.value.inputs|, waitSecs), now);
    var outpoints := s.tasks[f].outpoints;
    EnumerationLength(outpoints, s.round.inner.value.inputs.Keys);
    assert |s.round.inner.value.inputs.Keys| == |s.round.inner.value.inputs|;
    forall i | 0 <= i < |outpoints| ensures Outpoints.Parse(outpoints[i]).Some? {
      RegisteredParses(env, s.round, outpoints[i]);
    }
    SlowPlanTakes(outpoints, waitSecs);
  }

  lemma RegisteredParses(env: Env, r: Round, u: string)
    requires env.cfg.bip.AllowsSomething() && RoundOk(env, r) && r.inner.Some? && u in r.inner.value.inputs
    ensures Outpoints.Parse(u).Some?
  {
    hide Outpoints.Parse, Outpoints.Render, Canonical.OutputsOk, CountsOk, SigningOk, Ownership.RegistrationFloor;
    assert Canonical.InputOk(env, u, r.inner.value.inputs[u]);
  }

  lemma OneMoreStep(env: Env, boot: Boot, steps: seq<TimedStep>, step: TimedStep)
    requires env.cfg.bip.AllowsSomething() && CallsPunctualRun(env, boot, steps)
    requires CallsPunctual(env, TimedRun(env, boot, steps), step)
    ensures CallsPunctualRun(env, boot, steps + [step])
    ensures TimedRun(env, boot, steps + [step]) == Advance(env, TimedRun(env, boot, steps), step)
  {
    hide CallsPunctual, Advance;
    var more := steps + [step];
    assert more[..|steps|] == steps;
    forall i | 0 <= i < |more| ensures CallsPunctual(env, TimedRun(env, boot, more[..i]), more[i]) {
      if i < |steps| {
        assert more[..i] == steps[..i];
      }
    }
  }

  // Time may pass until the finalize is due, which is when the watchdog is.
  lemma TickIsPunctual(env: Env, ts: TimedSystem, waitSecs: nat, plan: Plan)
    requires env.cfg.bip.AllowsSomething() && Core(env, ts.sys) && ts.sys.round.inner.Some?
    requires var n := |ts.sys.round.inner.value.inputs|;
             && Newborn(ts, SlowPlan(n, waitSecs), ts.sys.now)
             && waitSecs + 20 + RPC_TIMEOUT_SECS * n == WatchdogSecs(env.cfg)
    ensures CallsPunctual(env, ts, TimedStep(Tick(WatchdogSecs(env.cfg)), plan))
  {
    hide Core, WatchdogSecs, SlowPlan, Newborn;
    forall f | f in ts.sys.tasks && ts.sys.tasks[f].Finalize? ensures DueBy(ts, f, ts.sys.now + WatchdogSecs(env.cfg)) {
      FlightIsDue(env, ts, waitSecs, ts.sys.now, f);
    }
  }

  lemma AfterTheTick(env: Env, ts: TimedSystem, secs: nat, plan: Plan, now: nat, w: nat)
    requires env.cfg.bip.AllowsSomething() && w in ts.sys.tasks && BornNow(ts, w, now)
    ensures var after := Advance(env, ts, TimedStep(Tick(secs), plan));
            && after.sys == ts.sys.(now := ts.sys.now + secs)
            && w in after.born && after.born[w] == now
  {
  }

  lemma WatchdogBites(env: Env, s: System, w: nat, newId: RoundId)
    requires w in s.tasks && s.tasks[w] == Timer(Broadcast, s.round.id) && s.round.phase == Broadcast
    requires newId !in s.used
    ensures var log := FireTimer(env, s, w, newId).log;
            log != [] && log[|log| - 1].Ended? && log[|log| - 1].cause == WatchdogFired
  {
  }

  ghost predicate AllWait(steps: seq<TimedStep>, waitSecs: int) {
    forall i :: 0 <= i < |steps| ==> steps[i].plan.waitSecs == waitSecs
  }

  // The room for waiting is exact: where the finalize of a full round waits for
  // just as long as the room is wide, and every other rule of time is kept,
  // some run ends the round by the watchdog.
  lemma WatchdogOvertakes(c: CoordinatorConfig) returns (steps: seq<TimedStep>)
    requires Sane(c)
    ensures CallsPunctualRun(EnvFor(c, true), FRESH_BOOT, steps) && AllWait(steps, WaitingRoom(c, c.maxParticipants))
    ensures var log := TimedRun(EnvFor(c, true), FRESH_BOOT, steps).sys.log;
            log != [] && log[|log| - 1].Ended? && log[|log| - 1].cause == WatchdogFired
  {
    hide EnvFor, Core, CallsPunctual, CallsPunctualRun, TimedRun, Advance, Run, AllCalm, Newborn, SlowPlan, FireTimer,
      WatchdogSecs;
    EveryRoundHasRoom(c, c.maxParticipants);
    var env, n, wait := EnvFor(c, true), c.maxParticipants, WaitingRoom(c, c.maxParticipants);
    var plan := SlowPlan(n, wait);
    SlowPlanWaits(n, wait);
    var acts := CalmFlight(c);
    var calm := WithPlan(acts, plan);
    CalmRunIsPunctual(env, FRESH_BOOT, acts, n, wait);
    CalmRunIsNewborn(env, FRESH_BOOT, acts, n, plan);
    TimedRunIsRun(env, FRESH_BOOT, calm);
    PlansKeepActs(acts, plan);
    var ts := TimedRun(env, FRESH_BOOT, calm);
    NewbornFacts(ts, plan, 0);
    var w :| w in ts.sys.tasks && ts.sys.tasks[w] == Timer(Broadcast, ts.sys.round.id);
    var tick := TimedStep(Tick(WatchdogSecs(c)), plan);
    TickIsPunctual(env, ts, wait, plan);
    OneMoreStep(env, FRESH_BOOT, calm, tick);
    AfterTheTick(env, ts, WatchdogSecs(c), plan, 0, w);
    var later := TimedRun(env, FRESH_BOOT, calm + [tick]);
    var newId := Unused(later.sys.used);
    var fire := TimedStep(TimerFires(w, newId), plan);
    FiringIsPunctual(env, later, fire);
    OneMoreStep(env, FRESH_BOOT, calm + [tick], fire);
    AdvanceFires(env, later, w, newId, plan);
    WatchdogBites(env, later.sys, w, newId);
    steps := calm + [tick] + [fire];
  }

  lemma SlowPlanWaits(n: nat, waitSecs: nat)
    ensures SlowPlan(n, waitSecs).waitSecs == waitSecs
  {
  }

  lemma NewbornFacts(ts: TimedSystem, plan: Plan, now: nat)
    requires Newborn(ts, plan, now)
    ensures ts.sys.now == now && forall tid :: tid in ts.sys.tasks ==> BornNow(ts, tid, now)
  {
    hide Sole;
  }

  lemma FiringIsPunctual(env: Env, ts: TimedSystem, step: TimedStep)
    requires env.cfg.bip.AllowsSomething() && step.act.TimerFires? && step.act.tid in ts.born
    requires ts.sys.now >= ts.born[step.act.tid] + WatchdogSecs(env.cfg)
    ensures CallsPunctual(env, ts, step)
  {
    hide WatchdogSecs;
  }

  lemma AdvanceFires(env: Env, ts: TimedSystem, w: nat, newId: RoundId, plan: Plan)
    requires env.cfg.bip.AllowsSomething()
    ensures Advance(env, ts, TimedStep(TimerFires(w, newId), plan)).sys == FireTimer(env, ts.sys, w, newId)
  {
    hide Step, FireTimer, DueAt;
    TimerStep(env, ts.sys, TimerFires(w, newId));
  }
}
