// No round is ever stuck: from every reachable state, whatever the clients
// and the node do not do, the monitor and its timers alone can end it.
module Progress {
  import opened Base
  import opened World
  import opened Rounds
  import opened Blame
  import opened Assembly
  import opened RoundInvariant
  import opened SigningRound
  import opened Protocol
  import opened Changes
  import opened Steps
  import opened Results
  import Outpoints

  // -- timers in place -----------------------------------------------------------

  predicate HasTimer(tasks: map<nat, Task>, phase: Phase, id: RoundId) {
    exists tid :: tid in tasks && tasks[tid] == Timer(phase, id)
  }

  // The monitor armed only phases the round had reached; if it believes the
  // current phase armed, the timer is there.
  ghost predicate Covered(s: System) {
    forall p :: p in s.monitor.lastArmed ==> CoveredAt(s, p, s.monitor.lastArmed[p])
  }

  ghost predicate CoveredAt(s: System, p: Phase, id: RoundId) {
    && id in s.used
    && (id == s.round.id ==> Rank(s.round.phase) <= Rank(p))
    && (id == s.round.id && p == s.round.phase ==> HasTimer(s.tasks, p, id))
  }

  // No timer is lost but by firing, and nobody but the monitor arms.
  ghost predicate KeepsTimers(s: System, t: System) {
    && t.monitor.lastArmed == s.monitor.lastArmed
    && forall tid :: tid in s.tasks && s.tasks[tid].Timer? ==> tid in t.tasks && t.tasks[tid] == s.tasks[tid]
  }

  lemma KeepingTimersCovers(s: System, t: System)
    requires Covered(s) && KeepsTimers(s, t) && Moves(s, t)
    ensures Covered(t)
  {
    hide Moves, HasTimer;
    forall p | p in t.monitor.lastArmed ensures CoveredAt(t, p, t.monitor.lastArmed[p]) {
      assert CoveredAt(s, p, s.monitor.lastArmed[p]);
      CoverMoves(s, t, p, s.monitor.lastArmed[p]);
    }
  }

  lemma CoverMoves(s: System, t: System, p: Phase, id: RoundId)
    requires CoveredAt(s, p, id) && KeepsTimers(s, t) && Moves(s, t)
    ensures CoveredAt(t, p, id)
  {
    if id == t.round.id && p == t.round.phase {
      var tid :| tid in s.tasks && s.tasks[tid] == Timer(p, id);
      assert t.tasks[tid] == Timer(p, id);
    }
  }

  lemma OthersKeepTimers(env: Env, s: System, act: Label)
    requires env.cfg.bip.AllowsSomething()
    requires !act.MonitorActs? && !act.TimerFires?
    ensures KeepsTimers(s, Step(env, s, act))
  {
    hide Step;
    if OfRequest(act) {
      RequestsKeepWork(env, s, act);
    } else {
      RestKeepTimers(env, s, act);
    }
  }

  lemma RestKeepTimers(env: Env, s: System, act: Label)
    requires env.cfg.bip.AllowsSomething()
    requires !act.MonitorActs? && !act.TimerFires?
    requires !OfRequest(act)
    ensures KeepsTimers(s, Step(env, s, act))
  {
    hide AcceptInput, CheckBan, SnapshotInputs, CheckCoin, CommitRequest, PostOutput, PostSign, GetTx, OrdersFit,
      Revalidate, BroadcastFailureVerdict, SignedEvent, AssembledEvent, Outpoints.Parse, Enumerates, Install,
      Transition, ViaBlame, CanTransition, Joined, SignedBy, FireTimer, ArmOrPause;
  }

  lemma ArmingCovers(s: System, tid: nat)
    requires Covered(s) && PcOk(s)
    ensures Covered(ArmOrPause(s, tid))
  {
    var t := ArmOrPause(s, tid);
    forall p | p in t.monitor.lastArmed ensures CoveredAt(t, p, t.monitor.lastArmed[p]) {
      if p in s.monitor.lastArmed && s.monitor.lastArmed[p] == t.monitor.lastArmed[p] {
        assert CoveredAt(s, p, s.monitor.lastArmed[p]);
        if HasTimer(s.tasks, p, t.monitor.lastArmed[p]) {
          var k :| k in s.tasks && s.tasks[k] == Timer(p, t.monitor.lastArmed[p]);
          assert t.tasks[k] == s.tasks[k];
        }
      } else {
        assert t.tasks[tid] == Timer(p, t.monitor.lastArmed[p]);
      }
    }
  }

  // What a firing does to the tasks and the round.
  ghost predicate Fired(s: System, t: System, tid: nat) {
    && t.monitor == s.monitor && s.used <= t.used
    && (t == s
        || (&& tid in s.tasks && s.tasks[tid].Timer? && t.tasks == s.tasks - {tid}
            && (|| (t.round == s.round && s.tasks[tid] != Timer(s.round.phase, s.round.id))
                || t.round.id !in s.used
                || (t.round.id == s.round.id && Rank(t.round.phase) < Rank(s.round.phase)))))
  }

  lemma FiringFires(env: Env, s: System, tid: nat, newId: RoundId)
    requires env.cfg.bip.AllowsSomething() && Core(env, s)
    requires Sane(env.cfg)
    ensures Fired(s, FireTimer(env, s, tid, newId), tid)
  {
    hide SigningTimeoutVerdict, Core, OutputTimeout, RoundOk;
    CoreRoundOk(env, s);
    if tid in s.tasks && s.tasks[tid] == Timer(s.round.phase, s.round.id) && newId !in s.used {
      TimersWatchLivePhases(env, s, tid);
      if s.round.phase == OutputReg {
        OutputTimeoutOnlyBlames(env, s.round, newId);
      }
    }
  }

  lemma FiringCovers(s: System, t: System, tid: nat)
    requires Covered(s) && Fired(s, t, tid)
    ensures Covered(t)
  {
    if t != s {
      forall p | p in t.monitor.lastArmed ensures CoveredAt(t, p, t.monitor.lastArmed[p]) {
        var id := t.monitor.lastArmed[p];
        assert CoveredAt(s, p, id);
        if id == t.round.id && p == t.round.phase {
          var k :| k in s.tasks && s.tasks[k] == Timer(p, id);
          assert t.tasks[k] == Timer(p, id);
        }
      }
    }
  }

  lemma StepKeepsCovered(env: Env, s: System, act: Label)
    requires Sane(env.cfg) && Core(env, s) && Covered(s)
    ensures Covered(Step(env, s, act))
  {
    hide Step, Covered;
    if act.MonitorActs? {
      hide RoundOk, TasksOk, ArmOrPause;
      ArmStep(env, s, act);
      ArmingCovers(s, act.tid);
    } else if act.TimerFires? {
      hide Core, FireTimer, Fired;
      TimerStep(env, s, act);
      FiringFires(env, s, act.tid, act.newId);
      FiringCovers(s, FireTimer(env, s, act.tid, act.newId), act.tid);
    } else {
      hide Core, Moves, Change, KeepsTimers, RoundOk;
      OthersKeepTimers(env, s, act);
      StepIsChange(env, s, act);
      CoreRoundOk(env, s);
      ChangesMove(env, s, Step(env, s, act));
      KeepingTimersCovers(s, Step(env, s, act));
    }
  }

  lemma ArmStep(env: Env, s: System, act: Label)
    requires env.cfg.bip.AllowsSomething() && act.MonitorActs?
    ensures Step(env, s, act) == ArmOrPause(s, act.tid)
  {
    hide ArmOrPause;
  }

  lemma {:induction false} RunIsCovered(env: Env, boot: Boot, acts: seq<Label>)
    requires Sane(env.cfg)
    ensures Covered(Run(env, boot, acts))
    decreases |acts|
  {
    hide Core, Covered, Step;
    if acts == [] {
      StartIsCovered(boot);
    } else {
      RunIsCovered(env, boot, acts[..|acts| - 1]);
      RunIsSound(env, boot, acts[..|acts| - 1]);
      StepKeepsCovered(env, Run(env, boot, acts[..|acts| - 1]), acts[|acts| - 1]);
    }
  }

  lemma StartIsCovered(boot: Boot)
    ensures Covered(Start(boot))
  {
  }

  // -- the clockwork ------------------------------------------------------------------

  // The monitor's own steps and the firing of timers.
  predicate Clockwork(act: Label) {
    act.MonitorPolls? || act.MonitorActs? || act.MonitorReadsClock? || act == KeygenEnds(None) || act.TimerFires?
  }

  // Steps until the timer of the current phase is in place, and one to fire it.
  ghost function Distance(s: System): nat {
    if HasTimer(s.tasks, s.round.phase, s.round.id) then 1
    else
      match s.monitor.pc
      case Saw(phase, id) => if phase == s.round.phase && id == s.round.id then 2 else 6
      case Waiting => 3
      case Generating(_) => 4
      case PauseLoaded(_, _) => 5
  }

  // An unused number.
  lemma Unused(taken: set<nat>) returns (n: nat)
    ensures n !in taken
  {
    n := 0;
    if taken != {} {
      var largest := Largest(taken);
      n := largest + 1;
    }
  }

  lemma {:induction false} Largest(taken: set<nat>) returns (m: nat)
    requires taken != {}
    ensures forall x :: x in taken ==> x <= m
  {
    m :| m in taken;
    var rest := taken - {m};
    assert forall x :: x in taken ==> x == m || x in rest;
    if rest != {} {
      var other := Largest(rest);
      m := if other > m then other else m;
    }
  }

  // Without a timer the monitor's next step brings one nearer.
  lemma MonitorNears(env: Env, s: System) returns (act: Label)
    requires Sane(env.cfg) && Core(env, s) && Covered(s)
    requires s.round.phase != Idle && !HasTimer(s.tasks, s.round.phase, s.round.id)
    ensures Clockwork(act) && !act.TimerFires?
    ensures Step(env, s, act).round == s.round && Distance(Step(env, s, act)) < Distance(s)
  {
    match s.monitor.pc
    case Waiting => act := MonitorPolls; PollNears(s);
    case Saw(_, _) =>
      var tid := Unused(s.tasks.Keys);
      act := MonitorActs(tid);
      NeverBlame(env, s.round);
      ActNears(s, tid);
    case PauseLoaded(_, _) => act := MonitorReadsClock; ClockNears(s);
    case Generating(_) => act := KeygenEnds(None); KeygenNears(s);
  }

  lemma NeverBlame(env: Env, r: Round)
    requires env.cfg.bip.AllowsSomething() && RoundOk(env, r)
    ensures r.phase != Phase.Blame
  {
    hide InnerOk;
  }

  lemma PollNears(s: System)
    requires !HasTimer(s.tasks, s.round.phase, s.round.id) && s.monitor.pc.Waiting?
    ensures PollPhase(s).round == s.round && Distance(PollPhase(s)) < Distance(s)
  {
  }

  lemma ActNears(s: System, tid: nat)
    requires Covered(s) && tid !in s.tasks && s.monitor.pc.Saw?
    requires s.round.phase !in {Idle, Phase.Blame} && !HasTimer(s.tasks, s.round.phase, s.round.id)
    ensures ArmOrPause(s, tid).round == s.round && Distance(ArmOrPause(s, tid)) < Distance(s)
  {
    var t := ArmOrPause(s, tid);
    if s.monitor.pc == Saw(s.round.phase, s.round.id) {
      if s.round.phase in s.monitor.lastArmed {
        assert CoveredAt(s, s.round.phase, s.monitor.lastArmed[s.round.phase]);
      }
      assert t.tasks[tid] == Timer(s.round.phase, s.round.id);
      assert HasTimer(t.tasks, t.round.phase, t.round.id);
    }
  }

  lemma ClockNears(s: System)
    requires !HasTimer(s.tasks, s.round.phase, s.round.id) && s.monitor.pc.PauseLoaded?
    ensures ReadClock(s).round == s.round && Distance(ReadClock(s)) < Distance(s)
  {
  }

  lemma KeygenNears(s: System)
    requires !HasTimer(s.tasks, s.round.phase, s.round.id) && s.monitor.pc.Generating?
    ensures FinishKeygen(s, None).round == s.round && Distance(FinishKeygen(s, None)) < Distance(s)
  {
  }

  // The state after some more steps.
  ghost function Exec(env: Env, s: System, more: seq<Label>): System
    requires env.cfg.bip.AllowsSomething()
    decreases |more|
  {
    if more == [] then s else Exec(env, Step(env, s, more[0]), more[1..])
  }

  lemma ExecFirst(env: Env, s: System, act: Label, rest: seq<Label>)
    requires env.cfg.bip.AllowsSomething()
    ensures Exec(env, s, [act] + rest) == Exec(env, Step(env, s, act), rest)
  {
    hide Step;
    assert ([act] + rest)[1..] == rest;
  }

  lemma {:induction false} RunThenExec(env: Env, boot: Boot, acts: seq<Label>, more: seq<Label>)
    requires env.cfg.bip.AllowsSomething()
    ensures Run(env, boot, acts + more) == Exec(env, Run(env, boot, acts), more)
    decreases |more|
  {
    hide Step, Run;
    if more == [] {
      assert acts + more == acts;
    } else {
      RunGrows(env, boot, acts, more[0]);
      RunThenExec(env, boot, acts + [more[0]], more[1..]);
      assert acts + [more[0]] + more[1..] == acts + more;
    }
  }

  // The live timer decides: the round ends, or its rank falls.
  lemma TimerNears(env: Env, s: System) returns (act: Label)
    requires Sane(env.cfg) && Core(env, s)
    requires s.round.phase != Idle && HasTimer(s.tasks, s.round.phase, s.round.id)
    ensures Clockwork(act)
    ensures var t := Step(env, s, act);
            t.round.id != s.round.id || (t.round.phase != Idle && Rank(t.round.phase) < Rank(s.round.phase))
  {
    hide Core, FireTimer, RoundOk, OutputTimeout;
    var tid :| tid in s.tasks && s.tasks[tid] == Timer(s.round.phase, s.round.id);
    var newId := Unused(s.used);
    act := TimerFires(tid, newId);
    CoreRoundOk(env, s);
    TimersWatchLivePhases(env, s, tid);
    if s.round.phase == OutputReg {
      OutputTimeoutOnlyBlames(env, s.round, newId);
    }
    LiveTimerRound(env, s, tid, newId);
  }

  lemma {:induction false} EndFrom(env: Env, s: System) returns (more: seq<Label>)
    requires Sane(env.cfg) && Core(env, s) && Covered(s) && s.round.phase != Idle
    ensures forall i :: 0 <= i < |more| ==> Clockwork(more[i])
    ensures Exec(env, s, more).round.id != s.round.id
    ensures |more| <= Distance(s) + 6 * (Rank(s.round.phase) - 1)
    decreases Rank(s.round.phase), Distance(s)
  {
    hide Core, Covered, Step, HasTimer, Exec, RoundOk, Change;
    CoreRoundOk(env, s);
    NeverBlame(env, s.round);
    var act: Label;
    if HasTimer(s.tasks, s.round.phase, s.round.id) {
      act := TimerNears(env, s);
    } else {
      act := MonitorNears(env, s);
    }
    var t := Step(env, s, act);
    var rest := [];
    ExecNothing(env, t);
    if t.round.id == s.round.id {
      StepIsChange(env, s, act);
      SteppedCore(env, s, t);
      StepKeepsCovered(env, s, act);
      DistanceIsSmall(t);
      rest := EndFrom(env, t);
    }
    ExecFirst(env, s, act, rest);
    more := [act] + rest;
  }

  lemma ExecNothing(env: Env, s: System)
    requires env.cfg.bip.AllowsSomething()
    ensures Exec(env, s, []) == s
  {
  }

  lemma DistanceIsSmall(s: System)
    ensures 1 <= Distance(s) <= 6
  {
  }

  // From every reachable state with a round under way, at most 24 steps of the
  // clockwork alone end that round.
  lemma EveryRoundCanEnd(env: Env, boot: Boot, acts: seq<Label>) returns (more: seq<Label>)
    requires Sane(env.cfg) && Run(env, boot, acts).round.phase != Idle
    ensures |more| <= 24 && forall i :: 0 <= i < |more| ==> Clockwork(more[i])
    ensures Run(env, boot, acts + more).round.id != Run(env, boot, acts).round.id
  {
    hide Run, Exec, Core, Covered;
    RunIsSound(env, boot, acts);
    RunIsCovered(env, boot, acts);
    DistanceIsSmall(Run(env, boot, acts));
    more := EndFrom(env, Run(env, boot, acts));
    RunThenExec(env, boot, acts, more);
  }

  // -- steps under one round id ----------------------------------------------------

  // What stays the same while a round is under way.
  predicate Steady(s: System, t: System) {
    && t.accounts == s.accounts && s.now <= t.now && s.log <= t.log && s.used <= t.used
    && KeepsRequests(s, t)
  }

  lemma SteadyChain(a: System, b: System, c: System)
    requires Steady(a, b) && Steady(b, c)
    ensures Steady(a, c)
  {
  }

  lemma ItselfSteady(s: System)
    ensures Steady(s, s)
  {
  }

  lemma ChangeKeepsLog(env: Env, s: System, t: System)
    requires Change(env, s, t)
    ensures s.log <= t.log
  {
    hide InSigning, SoundSigned, FullySigned, SignedTx, Judged;
  }

  // A step under one round id leaves the accounts alone.
  lemma SameRoundIsSteady(env: Env, s: System, act: Label)
    requires Sane(env.cfg) && Core(env, s) && !OfRequest(act)
    requires Step(env, s, act).round.id == s.round.id
    ensures Steady(s, Step(env, s, act))
  {
    hide Core, Step, Change, RoundOk, KeepsRequests;
    CoreRoundOk(env, s);
    StepIsChange(env, s, act);
    RestKeepsRequests(env, s, act);
    ChangesMove(env, s, Step(env, s, act));
    ChangeKeepsLog(env, s, Step(env, s, act));
  }
}
