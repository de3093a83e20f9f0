// Every round ends in time: with timers that fire when due and a monitor that
// polls within a known interval, a round lasts no longer than its four phases.
module Deadlines {
  import opened Base
  import opened Config
  import opened Fees
  import opened Transactions
  import opened World
  import opened Ownership
  import opened Rounds
  import opened Blame
  import opened Assembly
  import opened RoundInvariant
  import opened SigningRound
  import opened Protocol
  import opened Changes
  import opened Steps
  import opened Lifecycle
  import opened Results
  import opened Progress
  import opened Timing
  import Outpoints

  // -- limits -----------------------------------------------------------------------

  function Delay(c: CoordinatorConfig, phase: Phase): nat {
    match phase
    case InputReg => c.inputRegTimeoutSecs
    case OutputReg => c.outputRegTimeoutSecs
    case Signing => c.signingTimeoutSecs
    case Broadcast => WatchdogSecs(c)
    case _ => 0
  }

  // Latest entry into a phase, counted from the installation; `poll` bounds how
  // long the monitor takes to notice a phase.
  function EntryBy(c: CoordinatorConfig, poll: nat, phase: Phase): nat {
    match phase
    case OutputReg => poll + Delay(c, InputReg)
    case Signing => 2 * poll + Delay(c, InputReg) + Delay(c, OutputReg)
    case Broadcast => 3 * poll + Delay(c, InputReg) + Delay(c, OutputReg) + Delay(c, Signing)
    case _ => 0
  }

  function Limit(c: CoordinatorConfig, poll: nat): nat {
    EntryBy(c, poll, Broadcast) + poll + Delay(c, Broadcast)
  }

  lemma LaterPhasesLater(c: CoordinatorConfig, poll: nat, phase: Phase, next: Phase)
    requires phase in {InputReg, OutputReg, Signing, Broadcast} && Rank(next) < Rank(phase) && next != Phase.Blame
    ensures EntryBy(c, poll, phase) + poll + Delay(c, phase) <= EntryBy(c, poll, next)
  {
  }

  lemma WithinLimit(c: CoordinatorConfig, poll: nat, phase: Phase)
    requires phase in {InputReg, OutputReg, Signing, Broadcast}
    ensures EntryBy(c, poll, phase) + poll + Delay(c, phase) <= Limit(c, poll)
  {
  }

  // -- the paced protocol ---------------------------------------------------------------

  // When each task was spawned, when the current phase was entered and when
  // the current round was installed.
  datatype Paced = Paced(sys: System, born: map<nat, nat>, since: nat, begun: nat)

  ghost function Pace(env: Env, ps: Paced, act: Label): Paced
    requires env.cfg.bip.AllowsSomething()
  {
    var s, t := ps.sys, Step(env, ps.sys, act);
    Paced(
      t,
      map tid | tid in t.tasks :: if tid in s.tasks && tid in ps.born then ps.born[tid] else s.now,
      if t.round.phase == s.round.phase && t.round.id == s.round.id then ps.since else s.now,
      if s.round.phase == Idle then s.now else ps.begun)
  }

  // Time does not pass a timer that is due, nor leave a phase unwatched for
  // longer than `poll`.
  ghost predicate Prompt(env: Env, ps: Paced, act: Label, poll: nat) {
    act.Tick? ==>
      && (forall tid :: tid in ps.sys.tasks && ps.sys.tasks[tid].Timer? ==>
            FiresBy(env, ps, tid, ps.sys.now + act.secs))
      && (ps.sys.round.phase != Idle && !HasTimer(ps.sys.tasks, ps.sys.round.phase, ps.sys.round.id) ==>
            ps.sys.now + act.secs <= ps.since + poll)
  }

  predicate FiresBy(env: Env, ps: Paced, tid: nat, time: nat)
    requires tid in ps.sys.tasks && ps.sys.tasks[tid].Timer?
  {
    tid in ps.born && time <= ps.born[tid] + Delay(env.cfg, ps.sys.tasks[tid].phase)
  }

  ghost function PacedRun(env: Env, boot: Boot, acts: seq<Label>): Paced
    requires env.cfg.bip.AllowsSomething()
  {
    if acts == [] then Paced(Start(boot), map[], boot.now, boot.now)
    else Pace(env, PacedRun(env, boot, acts[..|acts| - 1]), acts[|acts| - 1])
  }

  ghost predicate PromptRun(env: Env, boot: Boot, acts: seq<Label>, poll: nat)
    requires env.cfg.bip.AllowsSomething()
  {
    forall i :: 0 <= i < |acts| ==> Prompt(env, PacedRun(env, boot, acts[..i]), acts[i], poll)
  }

  lemma {:induction false} PacedRunIsRun(env: Env, boot: Boot, acts: seq<Label>)
    requires env.cfg.bip.AllowsSomething()
    ensures PacedRun(env, boot, acts).sys == Run(env, boot, acts)
    decreases |acts|
  {
    hide Step;
    if acts != [] {
      PacedRunIsRun(env, boot, acts[..|acts| - 1]);
    }
  }

  // -- the invariant ------------------------------------------------------------------------

  predicate Watched(env: Env, ps: Paced, tid: nat, poll: nat) {
    && tid in ps.sys.tasks && ps.sys.tasks[tid] == Timer(ps.sys.round.phase, ps.sys.round.id)
    && tid in ps.born && ps.born[tid] <= ps.since + poll
  }

  // The current phase is watched, or young enough not to be.
  ghost predicate OnWatch(env: Env, ps: Paced, poll: nat) {
    if HasTimer(ps.sys.tasks, ps.sys.round.phase, ps.sys.round.id) then exists tid :: Watched(env, ps, tid, poll)
    else ps.sys.round.phase != Idle ==> ps.sys.now <= ps.since + poll
  }

  // No timer is overdue.
  ghost predicate NoneOverdue(env: Env, ps: Paced) {
    forall tid :: tid in ps.sys.tasks && ps.sys.tasks[tid].Timer? ==>
      FiresBy(env, ps, tid, ps.sys.now) && ps.born[tid] <= ps.sys.now
  }

  // What a paced state keeps.
  ghost predicate InPace(env: Env, ps: Paced, poll: nat) {
    && NoneOverdue(env, ps)
    && OnWatch(env, ps, poll)
    && (ps.sys.round.phase != Idle ==>
          ps.since <= ps.begun + EntryBy(env.cfg, poll, ps.sys.round.phase))
  }

  // So a live round is never older than its limit.
  lemma InPaceIsWithinLimit(env: Env, ps: Paced, poll: nat)
    requires env.cfg.bip.AllowsSomething() && RoundOk(env, ps.sys.round)
    requires InPace(env, ps, poll) && ps.sys.round.phase != Idle
    ensures ps.sys.now <= ps.since + poll + Delay(env.cfg, ps.sys.round.phase)
    ensures ps.sys.now <= ps.begun + Limit(env.cfg, poll)
  {
    hide EntryBy, Limit, Delay, HasTimer, InnerOk;
    NeverBlame(env, ps.sys.round);
    WithinLimit(env.cfg, poll, ps.sys.round.phase);
    if !(ps.sys.now <= ps.since + poll) {
      var tid :| Watched(env, ps, tid, poll);
      assert FiresBy(env, ps, tid, ps.sys.now);
    }
  }

  // -- what a step does to timers ----------------------------------------------------------------

  // Timers are spawned under new numbers, and the current phase's stay with it.
  ghost predicate TimersEvolve(s: System, t: System) {
    && (forall tid :: tid in t.tasks && t.tasks[tid].Timer? && tid in s.tasks ==> t.tasks[tid] == s.tasks[tid])
    && (t.round.phase == s.round.phase && t.round.id == s.round.id ==>
          forall tid :: tid in s.tasks && s.tasks[tid] == Timer(s.round.phase, s.round.id) ==>
            tid in t.tasks && t.tasks[tid] == s.tasks[tid])
  }

  lemma OthersSpawnNoTimers(env: Env, s: System, act: Label)
    requires env.cfg.bip.AllowsSomething() && !act.MonitorActs? && !act.TimerFires?
    ensures var t := Step(env, s, act);
            forall tid :: tid in t.tasks && t.tasks[tid].Timer? ==> tid in s.tasks && t.tasks[tid] == s.tasks[tid]
  {
    hide CommitInput, PostOutput, PostSign, GetTx, OrdersFit, BannedNow, ValidateUtxo, RegistrationFloor, Revalidate,
      BroadcastFailureVerdict, SignedEvent, AssembledEvent, Outpoints.Parse, Outpoints.Render, Enumerates, Install,
      Transition, ViaBlame, EstimateFeeShare, CanTransition, Joined, SignedBy, RegisteredOutpoints;
  }

  lemma StepEvolvesTimers(env: Env, s: System, act: Label)
    requires Sane(env.cfg) && Core(env, s)
    ensures TimersEvolve(s, Step(env, s, act))
  {
    hide Step, Core;
    if act.MonitorActs? {
      ArmStep(env, s, act);
    } else if act.TimerFires? {
      hide FireTimer, ArmOrPause, RoundOk;
      CoreRoundOk(env, s);
      TimerStep(env, s, act);
      FiringFires(env, s, act.tid, act.newId);
    } else {
      hide ArmOrPause;
      OthersKeepTimers(env, s, act);
      OthersSpawnNoTimers(env, s, act);
    }
  }

  // -- keeping pace ---------------------------------------------------------------------------------

  lemma TimersKeepPace(env: Env, ps: Paced, act: Label, poll: nat)
    requires env.cfg.bip.AllowsSomething() && NoneOverdue(env, ps) && Prompt(env, ps, act, poll)
    requires TimersEvolve(ps.sys, Step(env, ps.sys, act))
    requires Step(env, ps.sys, act).now == ps.sys.now + (if act.Tick? then act.secs else 0)
    requires act.Tick? ==> Step(env, ps.sys, act).tasks == ps.sys.tasks
    ensures NoneOverdue(env, Pace(env, ps, act))
  {
    hide Step, Delay;
    var after := Pace(env, ps, act);
    forall tid | tid in after.sys.tasks && after.sys.tasks[tid].Timer?
      ensures FiresBy(env, after, tid, after.sys.now) && after.born[tid] <= after.sys.now
    {
      if tid in ps.sys.tasks {
        assert FiresBy(env, ps, tid, ps.sys.now);
      }
    }
  }

  lemma WatchKeepsPace(env: Env, ps: Paced, act: Label, poll: nat)
    requires env.cfg.bip.AllowsSomething() && NoneOverdue(env, ps) && OnWatch(env, ps, poll)
    requires NoneOverdue(env, Pace(env, ps, act)) && Prompt(env, ps, act, poll)
    requires Core(env, Step(env, ps.sys, act))
    requires TimersEvolve(ps.sys, Step(env, ps.sys, act))
    requires Step(env, ps.sys, act).now == ps.sys.now + (if act.Tick? then act.secs else 0)
    requires act.Tick? ==> Step(env, ps.sys, act).round == ps.sys.round && Step(env, ps.sys, act).tasks == ps.sys.tasks
    ensures OnWatch(env, Pace(env, ps, act), poll)
  {
    hide Step, Delay, Core;
    var after := Pace(env, ps, act);
    if HasTimer(after.sys.tasks, after.sys.round.phase, after.sys.round.id) {
      if after.sys.round.phase == ps.sys.round.phase && after.sys.round.id == ps.sys.round.id
         && HasTimer(ps.sys.tasks, ps.sys.round.phase, ps.sys.round.id) {
        var tid :| Watched(env, ps, tid, poll);
        assert Watched(env, after, tid, poll);
      } else {
        var tid :| tid in after.sys.tasks && after.sys.tasks[tid] == Timer(after.sys.round.phase, after.sys.round.id);
        TimersWatchLivePhases(env, after.sys, tid);
        assert FiresBy(env, after, tid, after.sys.now) && after.born[tid] <= after.sys.now;
        assert Watched(env, after, tid, poll);
      }
    } else if ps.sys.round.phase == after.sys.round.phase && ps.sys.round.id == after.sys.round.id {
      LostNoTimer(ps.sys, after.sys);
    }
  }

  lemma LostNoTimer(s: System, t: System)
    requires TimersEvolve(s, t) && t.round.phase == s.round.phase && t.round.id == s.round.id
    ensures HasTimer(s.tasks, s.round.phase, s.round.id) ==> HasTimer(t.tasks, t.round.phase, t.round.id)
  {
    if HasTimer(s.tasks, s.round.phase, s.round.id) {
      var tid :| tid in s.tasks && s.tasks[tid] == Timer(s.round.phase, s.round.id);
      assert tid in t.tasks && t.tasks[tid] == Timer(t.round.phase, t.round.id);
    }
  }

  lemma EntryKeepsPace(env: Env, ps: Paced, act: Label, poll: nat)
    requires Sane(env.cfg) && Core(env, ps.sys) && InPace(env, ps, poll)
    requires Core(env, Step(env, ps.sys, act))
    requires Change(env, ps.sys, Step(env, ps.sys, act))
    ensures var after := Pace(env, ps, act);
            after.sys.round.phase != Idle ==>
              after.since <= after.begun + EntryBy(env.cfg, poll, after.sys.round.phase)
  {
    hide Step, Core, RoundOk, Change, NoneOverdue, OnWatch, EntryBy, Limit, Delay;
    var s, t := ps.sys, Step(env, ps.sys, act);
    CoreRoundOk(env, s);
    CoreRoundOk(env, t);
    ChangeLowersRank(env, s, t);
    if t.round.phase != Idle && s.round.phase != Idle {
      InPaceIsWithinLimit(env, ps, poll);
      NeverBlame(env, s.round);
      NeverBlame(env, t.round);
      if t.round.phase != s.round.phase {
        RankTells(s.round.phase, t.round.phase);
        LaterPhasesLater(env.cfg, poll, s.round.phase, t.round.phase);
      }
    }
  }

  lemma RankTells(a: Phase, b: Phase)
    ensures Rank(a) == Rank(b) <==> a == b
  {
  }

  lemma TickOnlyTicks(env: Env, s: System, act: Label)
    requires env.cfg.bip.AllowsSomething()
    ensures Step(env, s, act).now == s.now + (if act.Tick? then act.secs else 0)
    ensures act.Tick? ==> Step(env, s, act).round == s.round && Step(env, s, act).tasks == s.tasks
  {
    if !act.Tick? {
      hide Step;
      OnlyTicksTakeTime(env, s, act);
    }
  }

  lemma PaceKeepsPace(env: Env, ps: Paced, act: Label, poll: nat)
    requires Sane(env.cfg) && Core(env, ps.sys) && InPace(env, ps, poll) && Prompt(env, ps, act, poll)
    ensures InPace(env, Pace(env, ps, act), poll) && Core(env, Pace(env, ps, act).sys)
  {
    hide Step, Core, Change, NoneOverdue, OnWatch, Prompt, EntryBy, TimersEvolve;
    StepIsChange(env, ps.sys, act);
    SteppedCore(env, ps.sys, Step(env, ps.sys, act));
    StepEvolvesTimers(env, ps.sys, act);
    TickOnlyTicks(env, ps.sys, act);
    TimersKeepPace(env, ps, act, poll);
    WatchKeepsPace(env, ps, act, poll);
    EntryKeepsPace(env, ps, act, poll);
  }

  // -- the history of a paced run --------------------------------------------------------------------

  ghost predicate HasEnded(log: seq<Event>, id: RoundId, latest: nat) {
    exists j :: 0 <= j < |log| && log[j].Ended? && log[j].id == id && log[j].time <= latest
  }

  // An installed round is the current one, installed at `begun`, or has ended
  // within its limit.
  ghost predicate OnSchedule(log: seq<Event>, id: RoundId, begun: nat, limit: nat) {
    forall i :: 0 <= i < |log| && log[i].Installed? ==>
      if log[i].id == id then log[i].time == begun else HasEnded(log, log[i].id, log[i].time + limit)
  }

  lemma EndedStays(log: seq<Event>, e: Event, id: RoundId, latest: nat)
    requires HasEnded(log, id, latest)
    ensures HasEnded(log + [e], id, latest)
  {
    var j :| 0 <= j < |log| && log[j].Ended? && log[j].id == id && log[j].time <= latest;
    assert (log + [e])[j] == log[j];
  }

  lemma WorkKeepsSchedule(log: seq<Event>, e: Event, id: RoundId, begun: nat, limit: nat)
    requires OnSchedule(log, id, begun, limit) && (e.Installed? ==> e.id == id && e.time == begun)
    ensures OnSchedule(log + [e], id, begun, limit)
  {
    hide HasEnded;
    forall i | 0 <= i < |log + [e]| && (log + [e])[i].Installed? && (log + [e])[i].id != id
      ensures HasEnded(log + [e], (log + [e])[i].id, (log + [e])[i].time + limit)
    {
      assert (log + [e])[i] == log[i];
      EndedStays(log, e, log[i].id, log[i].time + limit);
    }
  }

  lemma EndKeepsSchedule(log: seq<Event>, e: Event, begun: nat, limit: nat, newId: RoundId, now: nat)
    requires OnSchedule(log, e.id, begun, limit) && e.Ended? && e.time <= begun + limit
    requires forall i :: 0 <= i < |log| ==> log[i].id != newId
    requires e.id != newId
    ensures OnSchedule(log + [e], newId, now, limit)
  {
    hide HasEnded;
    forall i | 0 <= i < |log + [e]| && (log + [e])[i].Installed?
      ensures HasEnded(log + [e], (log + [e])[i].id, (log + [e])[i].time + limit) && (log + [e])[i].id != newId
    {
      assert (log + [e])[i] == log[i];
      if log[i].id == e.id {
        NewestEnding(log, e, log[i].time + limit);
      } else {
        EndedStays(log, e, log[i].id, log[i].time + limit);
      }
    }
  }

  lemma NewestEnding(log: seq<Event>, e: Event, latest: nat)
    requires e.Ended? && e.time <= latest
    ensures HasEnded(log + [e], e.id, latest)
  {
    assert (log + [e])[|log|] == e;
  }

  lemma ChangeKeepsSchedule(env: Env, s: System, t: System, begun: nat, after: nat, limit: nat)
    requires s.round.id in s.used && Lived(s) && Change(env, s, t) && OnSchedule(s.log, s.round.id, begun, limit)
    requires after == if s.round.phase == Idle then s.now else begun
    requires s.round.phase != Idle ==> s.now <= begun + limit
    ensures OnSchedule(t.log, t.round.id, after, limit)
  {
    hide OnSchedule, Ordered, InSigning, Joined, SignedBy, FullySigned, SignedTx, InstalledBy, SigningTimeoutVerdict,
      BroadcastFailureVerdict;
    if s.round.phase == Idle {
      Unheard(s.log, s.round.id, begun, after, limit);
    }
    if Signs(env, s, t) {
      var psbt: Psbt, key: string, e: Event :| SignsWith(env, s, t, psbt, key, e);
      SigningIsLive(env, s, t, psbt, key, e);
      WorkKeepsSchedule(s.log, e, s.round.id, after, limit);
      if t.round.phase == Broadcast {
        WorkKeepsSchedule(s.log + [e], t.log[|s.log| + 1], s.round.id, after, limit);
      }
    } else if t.log != s.log {
      assert t.log == s.log + [t.log[|s.log|]];
      if Ends(env, s, t) {
        EndKeepsSchedule(s.log, t.log[|s.log|], begun, limit, t.round.id, after);
      } else {
        WorkKeepsSchedule(s.log, t.log[|s.log|], s.round.id, after, limit);
      }
    }
  }

  // Of a round without a history any time of installation may be said.
  lemma Unheard(log: seq<Event>, id: RoundId, begun: nat, other: nat, limit: nat)
    requires OnSchedule(log, id, begun, limit) && Current(log, id, false)
    ensures OnSchedule(log, id, other, limit)
  {
    hide HasEnded;
  }

  // -- main result -----------------------------------------------------------------------------------

  // Everything a prompt run keeps.
  ghost predicate OnTime(env: Env, ps: Paced, poll: nat)
    requires env.cfg.bip.AllowsSomething()
  {
    && Core(env, ps.sys) && Lived(ps.sys) && InPace(env, ps, poll)
    && OnSchedule(ps.sys.log, ps.sys.round.id, ps.begun, Limit(env.cfg, poll))
  }

  lemma PaceKeepsAll(env: Env, ps: Paced, act: Label, poll: nat)
    requires Sane(env.cfg) && OnTime(env, ps, poll) && Prompt(env, ps, act, poll)
    ensures OnTime(env, Pace(env, ps, act), poll)
  {
    hide Step, Core, Change, Lived, InPace, Prompt, OnSchedule, Limit, RoundOk;
    var s, t := ps.sys, Step(env, ps.sys, act);
    PaceKeepsPace(env, ps, act, poll);
    StepIsChange(env, s, act);
    CoreRoundOk(env, s);
    ChangeKeepsLived(env, s, t);
    if s.round.phase != Idle {
      InPaceIsWithinLimit(env, ps, poll);
    }
    ChangeKeepsSchedule(env, s, t, ps.begun, Pace(env, ps, act).begun, Limit(env.cfg, poll));
  }

  lemma {:induction false} PromptRunKeepsAll(env: Env, boot: Boot, acts: seq<Label>, poll: nat)
    requires Sane(env.cfg) && PromptRun(env, boot, acts, poll)
    ensures OnTime(env, PacedRun(env, boot, acts), poll)
    decreases |acts|
  {
    hide OnTime, Prompt, Pace;
    if acts == [] {
      StartKeepsAll(env, boot, poll);
    } else {
      var before := acts[..|acts| - 1];
      assert forall i :: 0 <= i < |before| ==> before[..i] == acts[..i];
      PromptRunKeepsAll(env, boot, before, poll);
      PaceKeepsAll(env, PacedRun(env, boot, before), acts[|acts| - 1], poll);
    }
  }

  lemma StartKeepsAll(env: Env, boot: Boot, poll: nat)
    requires Sane(env.cfg)
    ensures OnTime(env, Paced(Start(boot), map[], boot.now, boot.now), poll)
  {
    hide Core;
    StartIsSound(env, boot);
    StartIsLived(boot);
  }

  // Nor does any phase last longer than its own timeout and one poll.
  lemma EveryPhaseEndsInTime(env: Env, boot: Boot, acts: seq<Label>, poll: nat)
    requires Sane(env.cfg) && PromptRun(env, boot, acts, poll)
    ensures var ps, c := PacedRun(env, boot, acts), env.cfg;
            match ps.sys.round.phase
            case InputReg => ps.sys.now <= ps.since + poll + c.inputRegTimeoutSecs
            case OutputReg => ps.sys.now <= ps.since + poll + c.outputRegTimeoutSecs
            case Signing => ps.sys.now <= ps.since + poll + c.signingTimeoutSecs
            case Broadcast => ps.sys.now <= ps.since + poll + WatchdogSecs(c)
            case Idle => true
            case Blame => false
  {
    hide Run, PacedRun, Core, InPace, Limit, OnSchedule, Lived, WatchdogSecs, RoundOk;
    PromptRunKeepsAll(env, boot, acts, poll);
    var ps := PacedRun(env, boot, acts);
    CoreRoundOk(env, ps.sys);
    NeverBlame(env, ps.sys.round);
    if ps.sys.round.phase != Idle {
      InPaceIsWithinLimit(env, ps, poll);
    }
  }

  // While timers fire when due and the monitor polls within `poll` seconds,
  // every installed round has ended within the limit, or is still under way
  // and within it.
  lemma EveryRoundEndsInTime(env: Env, boot: Boot, acts: seq<Label>, poll: nat, i: nat)
    requires Sane(env.cfg) && PromptRun(env, boot, acts, poll)
    requires i < |Run(env, boot, acts).log| && Run(env, boot, acts).log[i].Installed?
    ensures var s := Run(env, boot, acts);
            var c := env.cfg;
            var end := s.log[i].time + c.inputRegTimeoutSecs + c.outputRegTimeoutSecs + c.signingTimeoutSecs
                       + WatchdogSecs(c) + 4 * poll;
            HasEnded(s.log, s.log[i].id, end)
            || (s.round.id == s.log[i].id && s.round.phase != Idle && s.now <= end)
  {
    hide Run, PacedRun, Core, InPace, HasEnded, Ordered, WatchdogSecs;
    PromptRunKeepsAll(env, boot, acts, poll);
    PacedRunIsRun(env, boot, acts);
    var ps := PacedRun(env, boot, acts);
    if ps.sys.round.id == ps.sys.log[i].id {
      CoreRoundOk(env, ps.sys);
      InPaceIsWithinLimit(env, ps, poll);
    }
  }
}
