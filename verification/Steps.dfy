// Every step is one of the six kinds of change and keeps the state sound.
module Steps {
  import opened Base
  import opened Transactions
  import opened Fees
  import opened World
  import opened Ownership
  import opened Rounds
  import opened Blame
  import opened Canonical
  import opened Assembly
  import opened RoundInvariant
  import opened SigningRound
  import opened Protocol
  import opened Changes
  import Outpoints

  // What holds of the whole state between steps.
  ghost predicate Core(env: Env, s: System)
    requires env.cfg.bip.AllowsSomething()
  {
    RoundOk(env, s.round) && s.round.id in s.used && TasksOk(env, s) && PcOk(s)
  }

  // A sound step.
  ghost predicate Stepped(env: Env, s: System, t: System)
    requires env.cfg.bip.AllowsSomething()
  {
    Change(env, s, t) && Core(env, t)
  }

  // -- the monitor and the clock --------------------------------------------------

  // Steps that touch neither the round nor the tasks.
  lemma QuietKeepsTasks(env: Env, s: System, t: System)
    requires env.cfg.bip.AllowsSomething() && Core(env, s)
    requires Quiet(s, t) && t.tasks == s.tasks && PcOk(t)
    ensures Stepped(env, s, t)
  {
    hide RoundOk, TasksOk, PcOk, Installs, Progresses, Shows, Signs, Ends;
    ChangesMove(env, s, t);
    MovedTasksOk(env, s, t);
  }

  lemma TickSteps(env: Env, s: System, secs: nat)
    requires env.cfg.bip.AllowsSomething() && Core(env, s)
    ensures Stepped(env, s, s.(now := s.now + secs))
  {
    hide RoundOk, TasksOk;
    QuietKeepsTasks(env, s, s.(now := s.now + secs));
  }

  lemma PollPhaseSteps(env: Env, s: System)
    requires env.cfg.bip.AllowsSomething() && Core(env, s)
    ensures Stepped(env, s, PollPhase(s))
  {
    hide RoundOk, TasksOk;
    QuietKeepsTasks(env, s, PollPhase(s));
  }

  lemma ReadClockSteps(env: Env, s: System)
    requires env.cfg.bip.AllowsSomething() && Core(env, s)
    ensures Stepped(env, s, ReadClock(s))
  {
    hide RoundOk, TasksOk;
    QuietKeepsTasks(env, s, ReadClock(s));
  }

  // A step that leaves the shared state alone but for one task.
  lemma QuietChangesTask(env: Env, s: System, t: System, tid: nat)
    requires env.cfg.bip.AllowsSomething() && Core(env, s)
    requires Quiet(s, t) && PcOk(t)
    requires tid in t.tasks && TaskOk(env, t, t.tasks[tid])
    requires forall k :: k in t.tasks && k != tid ==> k in s.tasks && t.tasks[k] == s.tasks[k]
    ensures Stepped(env, s, t)
  {
    hide RoundOk, TasksOk, TaskOk, PcOk, Installs, Progresses, Shows, Signs, Ends;
    ChangesMove(env, s, t);
    MovedTasksPlusOne(env, s, t, tid);
  }

  // A step that only drops a task.
  lemma DropSteps(env: Env, s: System, tid: nat)
    requires env.cfg.bip.AllowsSomething() && Core(env, s)
    ensures Stepped(env, s, Drop(s, tid))
  {
    hide RoundOk, TasksOk, TaskOk, Installs, Progresses, Shows, Signs, Ends;
    var t := Drop(s, tid);
    ChangesMove(env, s, t);
    MovedTasksOk(env, s, t);
  }

  lemma NothingSteps(env: Env, s: System)
    requires env.cfg.bip.AllowsSomething() && Core(env, s)
    ensures Stepped(env, s, s)
  {
    hide RoundOk, TasksOk, PcOk, Installs, Progresses, Shows, Signs, Ends;
  }

  lemma ArmOrPauseSteps(env: Env, s: System, tid: nat)
    requires env.cfg.bip.AllowsSomething() && Core(env, s)
    ensures Stepped(env, s, ArmOrPause(s, tid))
  {
    hide RoundOk, TasksOk, Stepped;
    var t := ArmOrPause(s, tid);
    if t.tasks == s.tasks {
      QuietKeepsTasks(env, s, t);
    } else {
      QuietChangesTask(env, s, t, tid);
    }
  }

  lemma FinishKeygenSteps(env: Env, s: System, material: Option<(Key, Secret)>)
    requires Sane(env.cfg) && Core(env, s)
    ensures Stepped(env, s, FinishKeygen(s, material))
  {
    hide TasksOk, RoundOk, Quiet, Progresses, Shows, Signs, Ends;
    var t := FinishKeygen(s, material);
    if t.round == s.round {
      KeygenIdles(env, s, material);
    } else {
      InstallsRound(env, s, material);
      ChangesMove(env, s, t);
      MovedTasksOk(env, s, t);
      InstallKeepsOk(env, s.round, material.value.0, material.value.1);
    }
  }

  lemma KeygenIdles(env: Env, s: System, material: Option<(Key, Secret)>)
    requires env.cfg.bip.AllowsSomething() && Core(env, s)
    requires FinishKeygen(s, material).round == s.round
    ensures Stepped(env, s, FinishKeygen(s, material))
  {
    hide RoundOk, TasksOk, Stepped;
    QuietKeepsTasks(env, s, FinishKeygen(s, material));
  }

  lemma InstallsRound(env: Env, s: System, material: Option<(Key, Secret)>)
    requires env.cfg.bip.AllowsSomething() && Core(env, s)
    requires FinishKeygen(s, material).round != s.round
    ensures Installs(s, FinishKeygen(s, material))
    ensures material.Some? && FinishKeygen(s, material).round == Install(s.round, material.value.0, material.value.1)
    ensures FinishKeygen(s, material).tasks == s.tasks && PcOk(FinishKeygen(s, material))
  {
    hide RoundOk, TasksOk;
  }

  // -- input requests -----------------------------------------------------------------

  lemma AcceptInputSteps(env: Env, s: System, tid: nat, form: InputForm)
    requires env.cfg.bip.AllowsSomething() && Core(env, s)
    ensures Stepped(env, s, AcceptInput(s, tid, form))
  {
    hide RoundOk, TasksOk, Stepped, Outpoints.Parse;
    if AcceptInput(s, tid, form) == s {
      NothingSteps(env, s);
    } else {
      QuietChangesTask(env, s, AcceptInput(s, tid, form), tid);
    }
  }

  lemma TaskIsOk(env: Env, s: System, tid: nat)
    requires env.cfg.bip.AllowsSomething() && Core(env, s) && tid in s.tasks
    ensures TaskOk(env, s, s.tasks[tid])
  {
    hide RoundOk, PcOk, TaskOk;
  }

  lemma WithStageSteps(env: Env, s: System, tid: nat, stage: Stage)
    requires env.cfg.bip.AllowsSomething() && Core(env, s) && AtStage(s, tid)
    requires TaskOk(env, s, s.tasks[tid].(stage := stage))
    ensures Stepped(env, s, WithStage(s, tid, stage))
  {
    hide RoundOk, TasksOk, TaskOk, Stepped;
    SameTaskOk(env, s, WithStage(s, tid, stage), s.tasks[tid].(stage := stage));
    QuietChangesTask(env, s, WithStage(s, tid, stage), tid);
  }

  lemma SameTaskOk(env: Env, s: System, t: System, task: Task)
    requires env.cfg.bip.AllowsSomething() && TaskOk(env, s, task)
    requires t == s.(tasks := t.tasks)
    ensures TaskOk(env, t, task)
  {
    hide DetailsOk, Outpoints.Render;
  }

  lemma CheckBanSteps(env: Env, s: System, tid: nat)
    requires env.cfg.bip.AllowsSomething() && Core(env, s)
    ensures Stepped(env, s, CheckBan(env, s, tid))
  {
    hide Core, Stepped, BannedNow, DetailsOk, WithStage;
    var t := CheckBan(env, s, tid);
    if t == s {
      NothingSteps(env, s);
    } else if t == Drop(s, tid) {
      DropSteps(env, s, tid);
    } else {
      TaskIsOk(env, s, tid);
      WithStageSteps(env, s, tid, Unbanned);
    }
  }

  lemma SnapshotInputsSteps(env: Env, s: System, tid: nat)
    requires env.cfg.bip.AllowsSomething() && Core(env, s)
    ensures Stepped(env, s, SnapshotInputs(s, tid))
  {
    hide Core, Stepped, BannedNow, DetailsOk, WithStage, Outpoints.Parse;
    if !AtStage(s, tid) || s.tasks[tid].stage != Unbanned {
      NothingSteps(env, s);
    } else {
      TaskIsOk(env, s, tid);
      CoreRoundOk(env, s);
      WithStageSteps(env, s, tid, Snapshotted(RegisteredOutpoints(s.round), s.round.id));
    }
  }

  // What an off-lock check leaves the task with.
  lemma CheckedCoin(env: Env, s: System, tid: nat, answer: TxOutAnswer) returns (details: UtxoDetails)
    requires env.cfg.bip.AllowsSomething()
    ensures var t := CheckCoin(env, s, tid, answer);
            t == s || t == Drop(s, tid) ||
            (&& AtStage(s, tid) && s.tasks[tid].stage.Snapshotted?
             && DetailsOk(env, s.tasks[tid].form, s.tasks[tid].op, details, s.tasks[tid].stage.round)
             && t == WithStage(s, tid, Validated(details, s.tasks[tid].stage.round)))
  {
    hide ValidateUtxo, RegistrationFloor, EstimateFeeShare, Proven;
    details := UtxoDetails(0, [], P2wpkh);
    if AtStage(s, tid) && s.tasks[tid].stage.Snapshotted? && s.tasks[tid].form.proof.Some? {
      var InputRequest(form, op, _, Snapshotted(registered, round)) := s.tasks[tid];
      ValidatedUtxoMeetsGate(env, op, registered, form.proof.value, round, answer);
      var feeShare := EstimateFeeShare(env.cfg.bip, env.cfg.minParticipants, env.cfg.feeRate);
      var r := ValidateUtxo(env, op, registered, feeShare, form.proof.value, round, answer);
      if r.Ok? {
        details := r.value;
      }
    }
  }

  lemma CheckCoinSteps(env: Env, s: System, tid: nat, answer: TxOutAnswer)
    requires env.cfg.bip.AllowsSomething() && Core(env, s)
    ensures Stepped(env, s, CheckCoin(env, s, tid, answer))
  {
    hide Core, Stepped, BannedNow, DetailsOk, WithStage, CheckCoin, Drop;
    var details := CheckedCoin(env, s, tid, answer);
    var t := CheckCoin(env, s, tid, answer);
    if t == s {
      NothingSteps(env, s);
    } else if t == Drop(s, tid) {
      DropSteps(env, s, tid);
    } else {
      TaskIsOk(env, s, tid);
      WithStageSteps(env, s, tid, Validated(details, s.tasks[tid].stage.round));
    }
  }

  // Registration moves the round forward; the tasks at most lose one.
  lemma ProgressKeepsTasks(env: Env, s: System, t: System)
    requires env.cfg.bip.AllowsSomething() && Core(env, s)
    requires Progresses(env, s, t) && RoundOk(env, t.round) && t.monitor == s.monitor
    requires forall k :: k in t.tasks ==> k in s.tasks && t.tasks[k] == s.tasks[k]
    ensures Stepped(env, s, t)
  {
    hide RoundOk, TasksOk, PcOk, Installs, Progresses, Shows, Signs, Ends, Quiet;
    ChangesMove(env, s, t);
    MovedTasksOk(env, s, t);
    MovedPcOk(s, t);
  }

  // What a registration does to the round, for the change it is.
  lemma CommittedProgresses(
    env: Env, r: Round, op: OutPoint, blinded: Bytes, changeAddress: string, details: UtxoDetails)
    requires env.cfg.bip.AllowsSomething() && RoundOk(env, r)
    requires CommitInput(env, r, op, blinded, changeAddress, details).Ok?
    ensures var after := CommitInput(env, r, op, blinded, changeAddress, details).value.0;
            && r.phase == InputReg && RegistrationProgress(r, after)
            && Joined(after) == Joined(r) + {Outpoints.Render(op)}
  {
    hide CommitInput, Outpoints.Render, InputsOk, OutputsOk;
    CommittedInput(env, r, op, blinded, changeAddress, details);
  }

  predicate RegistrationProgress(r: Round, after: Round) {
    && r.phase in {InputReg, OutputReg} && r.inner.Some?
    && after.phase in {InputReg, OutputReg, Signing} && Rank(after.phase) <= Rank(r.phase)
    && after.id == r.id && after.inner.Some? && after.inner.value.sigs == map[]
  }

  // What the history says of a commit.
  function CommitEvent(env: Env, s: System, tid: nat, reply: Registration): (e: Event)
    requires AtStage(s, tid) && s.tasks[tid].stage.Validated?
    ensures e.Registered?
  {
    var InputRequest(form, op, startRound, Validated(details, provenFor)) := s.tasks[tid];
    Registered(s.round.id, s.now, Outpoints.Render(op), startRound, BannedNow(env, s, op), form, details, provenFor,
      reply)
  }

  lemma CommitIsSound(env: Env, s: System, tid: nat)
    requires env.cfg.bip.AllowsSomething() && Core(env, s) && AtStage(s, tid)
    requires s.tasks[tid].stage.Validated? && s.tasks[tid].form.blinded.Some?
    requires CommitInput(env, s.round, s.tasks[tid].op, s.tasks[tid].form.blinded.value,
               s.tasks[tid].form.changeAddress, s.tasks[tid].stage.details).Ok?
    ensures var t := CommitRequest(env, s, tid);
            s.round.inner.Some? && exists e: Event ::
              SoundRegistration(env, s, e) && e.Registered? && t.log == s.log + [e]
              && t.round.inner == WithInput(s.round.inner.value, e) && e.utxo == Outpoints.Render(s.tasks[tid].op)
  {
    hide Core, BannedNow, CommitInput, Outpoints.Render, Outpoints.Parse, RegistrationFloor, Proven;
    TaskIsOk(env, s, tid);
    var InputRequest(form, op, startRound, Validated(details, provenFor)) := s.tasks[tid];
    CommittedInput(env, s.round, op, form.blinded.value, form.changeAddress, details);
    var reply := CommitInput(env, s.round, op, form.blinded.value, form.changeAddress, details).value.1;
    var e := CommitEvent(env, s, tid, reply);
    assert SoundRegistration(env, s, e);
  }

  lemma CommitRequestSteps(env: Env, s: System, tid: nat)
    requires Sane(env.cfg) && Core(env, s)
    ensures Stepped(env, s, CommitRequest(env, s, tid))
  {
    hide Core, Stepped, BannedNow, CommitInput, Outpoints.Render, Outpoints.Parse, RegistrationFloor, RoundOk, Proven,
      SoundRegistration, WithInput;
    var t := CommitRequest(env, s, tid);
    if t == s {
      NothingSteps(env, s);
    } else if t == Drop(s, tid) {
      DropSteps(env, s, tid);
    } else {
      TaskIsOk(env, s, tid);
      CoreRoundOk(env, s);
      var InputRequest(form, op, startRound, Validated(details, provenFor)) := s.tasks[tid];
      CommitInputKeepsOk(env, s.round, op, form.blinded.value, form.changeAddress, details);
      CommittedProgresses(env, s.round, op, form.blinded.value, form.changeAddress, details);
      CommitIsSound(env, s, tid);
      var e: Event :| SoundRegistration(env, s, e) && e.Registered? && t.log == s.log + [e]
        && t.round.inner == WithInput(s.round.inner.value, e) && e.utxo == Outpoints.Render(op);
      assert AdmitsAs(env, s, t, e);
      ProgressKeepsTasks(env, s, t);
    }
  }

  lemma CoreRoundOk(env: Env, s: System)
    requires env.cfg.bip.AllowsSomething() && Core(env, s)
    ensures RoundOk(env, s.round) && s.round.id in s.used
  {
    hide RoundOk, TasksOk, PcOk;
  }

  // -- outputs and display -----------------------------------------------------------------

  lemma AcceptedProgresses(env: Env, r: Round, req: OutputRequest)
    requires env.cfg.bip.AllowsSomething() && RoundOk(env, r)
    requires PostOutput(env, r, req).Ok?
    ensures RegistrationProgress(r, PostOutput(env, r, req).value)
    ensures Joined(PostOutput(env, r, req).value) == Joined(r)
  {
    hide PostOutput, InputsOk, OutputsOk, ScriptOf;
    AcceptedOutput(env, r, req);
  }

  lemma OutputIsSound(env: Env, s: System, req: OutputRequest)
    requires PostOutput(env, s.round, req).Ok?
    ensures s.round.inner.Some?
    ensures Joined(TakeOutput(env, s, req).round) == Joined(s.round) ==>
              RedeemsAs(env, s, TakeOutput(env, s, req), req)
  {
    hide PostOutput, ScriptOf, Redeemable, Joined;
    AcceptedOutput(env, s.round, req);
  }

  lemma TakeOutputSteps(env: Env, s: System, req: OutputRequest)
    requires Sane(env.cfg) && Core(env, s)
    ensures Stepped(env, s, TakeOutput(env, s, req))
  {
    hide Core, Stepped, PostOutput, RoundOk;
    if PostOutput(env, s.round, req).Err? {
      NothingSteps(env, s);
    } else {
      CoreRoundOk(env, s);
      PostOutputKeepsOk(env, s.round, req);
      AcceptedProgresses(env, s.round, req);
      OutputIsSound(env, s, req);
      ProgressKeepsTasks(env, s, TakeOutput(env, s, req));
    }
  }

  lemma SameRoundSteps(env: Env, s: System, t: System)
    requires env.cfg.bip.AllowsSomething() && Core(env, s)
    requires Change(env, s, t) && t == s.(log := t.log)
    ensures Stepped(env, s, t)
  {
    hide RoundOk, TasksOk, Change;
    ChangesMove(env, s, t);
    MovedTasksOk(env, s, t);
  }

  lemma ShownIsCanonical(env: Env, r: Round, order: seq<string>, psbt: Psbt)
    requires InSigning(env, r, psbt) && Enumerates(order, r.inner.value.inputs.Keys)
    ensures GetTx(env, r, order) == Some(psbt)
  {
    hide BuildCanonical, Canon, Collecting;
    VerificationBuild(env, r.inner.value, psbt, order);
  }

  lemma SigningCollects(env: Env, r: Round) returns (psbt: Psbt)
    requires Sane(env.cfg) && RoundOk(env, r) && r.phase == Signing
    ensures InSigning(env, r, psbt)
  {
    hide RoundOk, Collecting;
    psbt := SignableCollects(env, r);
  }

  lemma ShowTxSteps(env: Env, s: System, order: seq<string>)
    requires Sane(env.cfg) && Core(env, s)
    ensures Stepped(env, s, ShowTx(env, s, order))
  {
    hide Core, Stepped, BuildCanonical, RoundOk, Collecting, Quiet, Installs, Progresses, Signs, Ends, Enumerates;
    var t := ShowTx(env, s, order);
    if t == s {
      NothingSteps(env, s);
    } else {
      CoreRoundOk(env, s);
      var psbt := SigningCollects(env, s.round);
      ShownIsCanonical(env, s.round, order, psbt);
      assert t.log == s.log + [Shown(s.round.id, psbt)];
      SameRoundSteps(env, s, t);
    }
  }

  // -- endings ---------------------------------------------------------------------------------

  lemma EndingKeepsTasks(env: Env, s: System, t: System)
    requires env.cfg.bip.AllowsSomething() && Core(env, s)
    requires Ends(env, s, t) && t.monitor == s.monitor
    requires forall k :: k in t.tasks ==> k in s.tasks && t.tasks[k] == s.tasks[k]
    ensures Stepped(env, s, t)
  {
    hide RoundOk, TasksOk, PcOk, Installs, Progresses, Shows, Signs, Judged, Quiet;
    ChangesMove(env, s, t);
    MovedTasksOk(env, s, t);
    MovedPcOk(s, t);
    IdleIsOk(env, t.round.id);
  }

  lemma LiveRoundHasInner(env: Env, r: Round)
    requires env.cfg.bip.AllowsSomething() && RoundOk(env, r) && r.phase != Idle
    ensures r.inner.Some?
  {
    hide InputsOk, OutputsOk, CountsOk;
  }

  predicate LiveAndNew(s: System, phase: Phase, newId: RoundId) {
    s.round.phase == phase && s.round.inner.Some? && newId !in s.used
  }

  // A quorum moves on to output registration, anything less ends the round.
  lemma InputTimerEnds(env: Env, s: System, newId: RoundId)
    requires LiveAndNew(s, InputReg, newId) && s.round.inner.value.sigs == map[]
    ensures var t := LiveTimer(env, s, InputReg, newId);
            if s.round.count < env.cfg.minParticipants then Ends(env, s, t) else Progresses(env, s, t)
  {
  }

  lemma OutputTimerEnds(env: Env, s: System, newId: RoundId)
    requires LiveAndNew(s, OutputReg, newId)
    requires OutputTimeout(s.round, newId) == NewIdle(newId)
    ensures Ends(env, s, LiveTimer(env, s, OutputReg, newId))
  {
    hide OutputTimeout;
  }

  lemma SigningTimerEnds(env: Env, s: System, newId: RoundId)
    requires LiveAndNew(s, Signing, newId)
    ensures Ends(env, s, LiveTimer(env, s, Signing, newId))
  {
    hide SigningTimeoutVerdict;
    EndingsReachIdle(s.round, newId);
  }

  lemma WatchdogEnds(env: Env, s: System, newId: RoundId)
    requires LiveAndNew(s, Broadcast, newId)
    ensures Ends(env, s, LiveTimer(env, s, Broadcast, newId))
  {
    EndingsReachIdle(s.round, newId);
  }

  lemma NobodySignsEarly(env: Env, r: Round)
    requires env.cfg.bip.AllowsSomething() && RoundOk(env, r) && r.phase in {InputReg, OutputReg}
    ensures r.inner.Some? && r.inner.value.sigs == map[]
  {
    hide InputsOk, OutputsOk;
  }

  lemma LiveTimerSteps(env: Env, s: System, phase: Phase, newId: RoundId)
    requires Sane(env.cfg) && Core(env, s)
    requires s.round.phase == phase && newId !in s.used
    ensures Stepped(env, s, LiveTimer(env, s, phase, newId))
  {
    hide Core, Stepped, RoundOk, LiveTimer, Ends, Progresses;
    CoreRoundOk(env, s);
    if phase == Idle || phase == Blame {
      IdleTimer(env, s, newId);
      NothingSteps(env, s);
    } else {
      LiveRoundHasInner(env, s.round);
      LiveTimerTasks(env, s, phase, newId);
      match phase
      case InputReg =>
        NobodySignsEarly(env, s.round);
        InputTimerEnds(env, s, newId);
        if s.round.count < env.cfg.minParticipants {
          EndingKeepsTasks(env, s, LiveTimer(env, s, phase, newId));
        } else {
          InputTimeoutKeepsOk(env, s.round, newId);
          LiveInputTimer(env, s, newId);
          ProgressKeepsTasks(env, s, LiveTimer(env, s, phase, newId));
        }
      case OutputReg =>
        OutputTimeoutOnlyBlames(env, s.round, newId);
        OutputTimerEnds(env, s, newId);
        EndingKeepsTasks(env, s, LiveTimer(env, s, phase, newId));
      case Signing =>
        SigningTimerEnds(env, s, newId);
        EndingKeepsTasks(env, s, LiveTimer(env, s, phase, newId));
      case Broadcast =>
        WatchdogEnds(env, s, newId);
        EndingKeepsTasks(env, s, LiveTimer(env, s, phase, newId));
    }
  }

  lemma IdleTimer(env: Env, s: System, newId: RoundId)
    ensures LiveTimer(env, s, Idle, newId) == s && LiveTimer(env, s, Blame, newId) == s
  {
  }

  lemma LiveInputTimer(env: Env, s: System, newId: RoundId)
    ensures LiveTimer(env, s, InputReg, newId).round == InputTimeout(env, s.round, newId)
  {
  }

  lemma LiveTimerTasks(env: Env, s: System, phase: Phase, newId: RoundId)
    ensures LiveTimer(env, s, phase, newId).tasks == s.tasks
    ensures LiveTimer(env, s, phase, newId).monitor == s.monitor
  {
  }

  lemma IgnoresTasks(env: Env, s: System, s': System, t: System)
    requires env.cfg.bip.AllowsSomething()
    requires s' == s.(tasks := s'.tasks) && Stepped(env, s', t)
    ensures Stepped(env, s, t)
  {
    hide Core, InSigning, SignsWith, SignedTx, Judged, Progresses;
    if Signs(env, s', t) {
      var psbt: Psbt, key: string, e: Event :| SignsWith(env, s', t, psbt, key, e);
      SigningIgnoresTasks(env, s, s', t, psbt, key, e);
    } else if Ends(env, s', t) {
      JudgingIgnoresTasks(env, s, s', t.log[|s.log|], t.accounts);
    } else if Progresses(env, s', t) {
      ProgressIgnoresTasks(env, s, s', t);
    }
  }

  lemma ProgressIgnoresTasks(env: Env, s: System, s': System, t: System)
    requires s' == s.(tasks := s'.tasks) && Progresses(env, s', t)
    ensures Progresses(env, s, t)
  {
    hide SoundRequest, SoundReply, Redeemable, WithInput;
    if Admits(env, s', t) {
      var e: Event :| AdmitsAs(env, s', t, e);
      assert AdmitsAs(env, s, t, e);
    } else if Redeems(env, s', t) {
      var output: OutputRequest :| RedeemsAs(env, s', t, output);
      assert RedeemsAs(env, s, t, output);
    }
  }

  lemma SigningIgnoresTasks(env: Env, s: System, s': System, t: System, psbt: Psbt, key: string, e: Event)
    requires s' == s.(tasks := s'.tasks) && SignsWith(env, s', t, psbt, key, e)
    ensures SignsWith(env, s, t, psbt, key, e)
  {
    hide Collecting, SoundSigned, FullySigned, SignedTx;
  }

  lemma JudgingIgnoresTasks(env: Env, s: System, s': System, e: Event, after: Accounts)
    requires s' == s.(tasks := s'.tasks) && Judged(env, s', e, after)
    ensures Judged(env, s, e, after)
  {
    hide Revalidate, SigningTimeoutVerdict, BroadcastFailureVerdict;
  }

  lemma FireTimerSteps(env: Env, s: System, tid: nat, newId: RoundId)
    requires Sane(env.cfg) && Core(env, s)
    ensures Stepped(env, s, FireTimer(env, s, tid, newId))
  {
    hide Core, Stepped, LiveTimer;
    if tid !in s.tasks || !s.tasks[tid].Timer? || newId in s.used {
      NothingSteps(env, s);
    } else {
      DropSteps(env, s, tid);
      SteppedCore(env, s, Drop(s, tid));
      var Timer(phase, id) := s.tasks[tid];
      if s.round.id == id && s.round.phase == phase {
        LiveTimerSteps(env, Drop(s, tid), phase, newId);
        IgnoresTasks(env, s, Drop(s, tid), FireTimer(env, s, tid, newId));
      }
    }
  }

  lemma SteppedCore(env: Env, s: System, t: System)
    requires env.cfg.bip.AllowsSomething() && Stepped(env, s, t)
    ensures Core(env, t)
  {
    hide Core, Change;
  }

  lemma LoseFinalizeSteps(env: Env, s: System, tid: nat)
    requires env.cfg.bip.AllowsSomething() && Core(env, s)
    ensures Stepped(env, s, LoseFinalize(s, tid))
  {
    hide Core, Stepped;
    NothingSteps(env, s);
    DropSteps(env, s, tid);
  }

  // A finalize task that finds its round still in flight.
  predicate LiveFinalize(s: System, tid: nat, result: BroadcastResult, newId: RoundId) {
    && tid in s.tasks && s.tasks[tid].Finalize? && newId !in s.used
    && (result.NotSent? ==> |result.answers| == |s.tasks[tid].outpoints|)
    && s.round.id == s.tasks[tid].round && s.round.phase == Broadcast
  }

  lemma FinalizeEndsRound(env: Env, s: System, tid: nat, result: BroadcastResult, newId: RoundId)
    requires LiveFinalize(s, tid, result, newId) && s.round.inner.Some?
    requires forall u :: u in s.tasks[tid].outpoints <==> u in s.round.inner.value.inputs
    ensures Ends(env, s, FinishFinalize(env, s, tid, result, newId))
    ensures FinishFinalize(env, s, tid, result, newId).monitor == s.monitor
    ensures FinishFinalize(env, s, tid, result, newId).tasks == s.tasks - {tid}
  {
    hide BroadcastFailureVerdict, Revalidate;
    EndingsReachIdle(s.round, newId);
    var outpoints := s.tasks[tid].outpoints;
    assert (set u | u in outpoints) == s.round.inner.value.inputs.Keys;
  }

  lemma FinishFinalizeSteps(env: Env, s: System, tid: nat, result: BroadcastResult, newId: RoundId)
    requires Sane(env.cfg) && Core(env, s)
    ensures Stepped(env, s, FinishFinalize(env, s, tid, result, newId))
  {
    if LiveFinalize(s, tid, result, newId) {
      TaskIsOk(env, s, tid);
      hide Core, Stepped, FinishFinalize, Ends;
      FinalizeEndsRound(env, s, tid, result, newId);
      EndingKeepsTasks(env, s, FinishFinalize(env, s, tid, result, newId));
    } else {
      NothingSteps(env, s);
      DropSteps(env, s, tid);
      StaleFinalize(env, s, tid, result, newId);
    }
  }

  lemma StaleFinalize(env: Env, s: System, tid: nat, result: BroadcastResult, newId: RoundId)
    requires !LiveFinalize(s, tid, result, newId)
    ensures FinishFinalize(env, s, tid, result, newId) in {s, Drop(s, tid)}
  {
  }

  // -- signatures ---------------------------------------------------------------------------

  // The signature that was recorded was verified against the round's transaction.
  lemma RecordedEvent(
    env: Env, r: Round, psbt: Psbt, op: OutPoint, sig: Bytes, token: Bytes, order: seq<string>) returns (e: Event)
    requires InSigning(env, r, psbt) && Acceptable(env, r, psbt, op, sig, token)
    requires Enumerates(order, r.inner.value.inputs.Keys)
    ensures forall i :: 0 <= i < |order| ==> order[i] in r.inner.value.inputs
    ensures SignedEvent(env, r, op, sig, order) == [e] && e.Signed? && e.sig == sig
    ensures SoundSigned(env, r, psbt, Outpoints.Render(op), e)
  {
    hide Collecting, BuildCanonical, Outpoints.Render, Outpoints.Parse, Witnesses;
    VerificationBuild(env, r.inner.value, psbt, order);
    Outpoints.RenderParses(op);
    var key := Outpoints.Render(op);
    var index := Position(psbt.unsigned.inputs, op).value;
    e := Signed(r.id, psbt, key, index, r.inner.value.inputs[key].scriptType, sig);
  }

  // An assembly, if there was one, started from the round's transaction.
  lemma AssembledFrom(
    env: Env, r: Round, psbt: Psbt, order: seq<string>, outcome: SignOutcome)
    requires InSigning(env, r, psbt)
    requires Enumerates(order, r.inner.value.inputs.Keys)
    ensures forall i :: 0 <= i < |order| ==> order[i] in r.inner.value.inputs
    ensures AssembledEvent(env, r, order, outcome) ==
            if outcome.ReadyToBroadcast? then [Assembled(r.id, psbt, outcome.tx)] else []
  {
    hide Collecting, BuildCanonical;
    VerificationBuild(env, r.inner.value, psbt, order);
  }

  // A request that reaches the signing logic.
  ghost predicate ReachesSigning(s: System, req: SignRequest, orders: SignOrders, tid: nat) {
    tid !in s.tasks && OrdersFit(s.round, orders) && Outpoints.Parse(req.utxo).Some?
    && |req.token| == 32 && s.round.phase == Signing
  }

  lemma SignatureSplits(env: Env, s: System, req: SignRequest, orders: SignOrders, tid: nat)
    ensures var t := TakeSignature(env, s, req, orders, tid);
            if !ReachesSigning(s, req, orders, tid) then t == s
            else
              var op := Outpoints.Parse(req.utxo).value;
              var (after, outcome) := ProcessSign(env, s.round, op, req.signature, req.token, orders);
              t == TookSignature(env, s, op, req.signature, orders, tid, after, outcome)
  {
    hide ProcessSign, Outpoints.Parse, SignedEvent, AssembledEvent, OrdersFit;
  }

  ghost function TookSignature(
    env: Env, s: System, op: OutPoint, sig: Bytes, orders: SignOrders, tid: nat, after: Round, outcome: SignOutcome)
    : System
    requires OrdersFit(s.round, orders)
  {
    if after == s.round then s
    else
      s.(
        round := after,
        log := s.log + (SignedEvent(env, s.round, op, sig, orders.verify)
                        + AssembledEvent(env, s.round, orders.assemble, outcome)),
        tasks := if outcome.ReadyToBroadcast?
                 then s.tasks[tid := Finalize(s.round.id, outcome.tx, outcome.outpoints)] else s.tasks)
  }

  // What taking an acceptable signature leaves, case by case.
  ghost predicate Took(
    env: Env, s: System, t: System, psbt: Psbt, key: string, e: Event, tid: nat, snapshot: seq<string>)
  {
    && e.Signed? && t.round.inner.Some?
    && var sigs := t.round.inner.value.sigs;
       || t == s.(round := WithSig(s.round, key, e.sig), log := s.log + [e])
       || (&& sigs.Keys == t.round.inner.value.inputs.Keys
           && FullySigned(env, psbt, sigs)
           && t == s.(
                round := WithSig(s.round, key, e.sig).(phase := Broadcast),
                log := s.log + [e] + [Assembled(s.round.id, psbt, SignedTx(env, psbt, sigs))],
                tasks := s.tasks[tid := Finalize(s.round.id, SignedTx(env, psbt, sigs), snapshot)]))
  }

  lemma Differs(r: Round, key: string, sig: Bytes)
    requires r.inner.Some? && key !in r.inner.value.sigs
    ensures WithSig(r, key, sig).inner.Some? && key in WithSig(r, key, sig).inner.value.sigs
    ensures WithSig(r, key, sig).phase == r.phase
  {
  }

  lemma AppendOne(log: seq<Event>, e: Event, more: seq<Event>)
    ensures log + ([e] + more) == log + [e] + more
    ensures log + ([e] + []) == log + [e]
  {
  }

  lemma AcceptableTook(
    env: Env, s: System, psbt: Psbt, op: OutPoint, sig: Bytes, token: Bytes, orders: SignOrders, tid: nat,
    after: Round, outcome: SignOutcome) returns (e: Event)
    requires InSigning(env, s.round, psbt) && Acceptable(env, s.round, psbt, op, sig, token)
    requires OrdersFit(s.round, orders)
    requires RecordingOutcome(env, WithSig(s.round, Outpoints.Render(op), sig), psbt, orders, after, outcome)
    ensures SoundSigned(env, s.round, psbt, Outpoints.Render(op), e)
    ensures Took(env, s, TookSignature(env, s, op, sig, orders, tid, after, outcome), psbt, Outpoints.Render(op), e,
              tid, orders.snapshot)
  {
    hide Outpoints.Render, Collecting, SignedEvent, AssembledEvent, SoundSigned, FullySigned, SignedTx, WithSig, SigOk,
      Enumerates, FeeLeft;
    FittingOrders(s.round, orders);
    e := RecordedEvent(env, s.round, psbt, op, sig, token, orders.verify);
    AssembledFrom(env, s.round, psbt, orders.assemble, outcome);
    Differs(s.round, Outpoints.Render(op), sig);
    AppendOne(s.log, e, AssembledEvent(env, s.round, orders.assemble, outcome));
  }

  lemma TookSigns(
    env: Env, s: System, t: System, psbt: Psbt, key: string, e: Event, tid: nat, snapshot: seq<string>)
    requires InSigning(env, s.round, psbt) && SoundSigned(env, s.round, psbt, key, e)
    requires key !in s.round.inner.value.sigs
    requires Took(env, s, t, psbt, key, e, tid, snapshot)
    ensures SignsWith(env, s, t, psbt, key, e)
  {
    hide Collecting, SoundSigned, FullySigned, SignedTx;
  }

  lemma TookKeepsTasks(
    env: Env, s: System, t: System, psbt: Psbt, key: string, e: Event, tid: nat, snapshot: seq<string>)
    requires env.cfg.bip.AllowsSomething() && Core(env, s) && tid !in s.tasks
    requires s.round.inner.Some? && Enumerates(snapshot, s.round.inner.value.inputs.Keys)
    requires Took(env, s, t, psbt, key, e, tid, snapshot) && SignsWith(env, s, t, psbt, key, e)
    requires RoundOk(env, t.round)
    ensures Stepped(env, s, t)
  {
    hide RoundOk, TasksOk, PcOk, FullySigned, SignedTx, SignsWith, InSigning, Moves, TaskOk, Quiet, Installs,
      Progresses, Shows, Ends, Enumerates;
    ChangesMove(env, s, t);
    MovedPcOk(s, t);
    MovedUsed(s, t);
    if t.tasks == s.tasks {
      MovedTasksOk(env, s, t);
    } else {
      var sigs := t.round.inner.value.sigs;
      FinalizeTaskOk(env, t, SignedTx(env, psbt, sigs), snapshot);
      MovedTasksPlusOne(env, s, t, tid);
    }
  }

  lemma MovedUsed(s: System, t: System)
    requires Moves(s, t)
    ensures t.round.id in t.used
  {
  }

  lemma FinalizeTaskOk(env: Env, t: System, tx: Tx, snapshot: seq<string>)
    requires env.cfg.bip.AllowsSomething()
    requires t.round.id in t.used && t.round.phase == Broadcast && t.round.inner.Some?
    requires Enumerates(snapshot, t.round.inner.value.inputs.Keys)
    ensures TaskOk(env, t, Finalize(t.round.id, tx, snapshot))
  {
  }

  lemma TakeSignatureSteps(env: Env, s: System, req: SignRequest, orders: SignOrders, tid: nat)
    requires Sane(env.cfg) && Core(env, s)
    ensures Stepped(env, s, TakeSignature(env, s, req, orders, tid))
  {
    hide Core, Stepped, RoundOk, InSigning, ProcessSign, TakeSignature, Acceptable, RecordingOutcome, Took, SignsWith,
      SoundSigned, Outpoints.Parse, Outpoints.Render, SignedEvent, AssembledEvent, WithSig, OrdersFit, Enumerates;
    var t := TakeSignature(env, s, req, orders, tid);
    SignatureSplits(env, s, req, orders, tid);
    if !ReachesSigning(s, req, orders, tid) {
      NothingSteps(env, s);
    } else {
      CoreRoundOk(env, s);
      var op := Outpoints.Parse(req.utxo).value;
      var psbt := SigningCollects(env, s.round);
      SubmissionDecides(env, s.round, psbt, op, req.signature, req.token, orders);
      SubmissionKeepsOk(env, s.round, op, req.signature, req.token, orders);
      if Acceptable(env, s.round, psbt, op, req.signature, req.token) {
        AcceptableSteps(env, s, psbt, op, req, orders, tid);
      } else {
        NothingSteps(env, s);
      }
    }
  }

  lemma AcceptableSteps(
    env: Env, s: System, psbt: Psbt, op: OutPoint, req: SignRequest, orders: SignOrders, tid: nat)
    requires env.cfg.bip.AllowsSomething() && Core(env, s) && tid !in s.tasks
    requires InSigning(env, s.round, psbt) && Acceptable(env, s.round, psbt, op, req.signature, req.token)
    requires OrdersFit(s.round, orders)
    requires var (after, outcome) := ProcessSign(env, s.round, op, req.signature, req.token, orders);
             RecordingOutcome(env, WithSig(s.round, Outpoints.Render(op), req.signature), psbt, orders, after, outcome)
             && RoundOk(env, after)
    ensures var (after, outcome) := ProcessSign(env, s.round, op, req.signature, req.token, orders);
            Stepped(env, s, TookSignature(env, s, op, req.signature, orders, tid, after, outcome))
  {
    hide Core, Stepped, RoundOk, Collecting, ProcessSign, RecordingOutcome, Took, SignsWith, SigOk,
      SoundSigned, Outpoints.Render, SignedEvent, AssembledEvent, WithSig, Enumerates;
    var (after, outcome) := ProcessSign(env, s.round, op, req.signature, req.token, orders);
    var t := TookSignature(env, s, op, req.signature, orders, tid, after, outcome);
    var e := AcceptableTook(env, s, psbt, op, req.signature, req.token, orders, tid, after, outcome);
    FittingOrders(s.round, orders);
    TookSigns(env, s, t, psbt, Outpoints.Render(op), e, tid, orders.snapshot);
    Differs(s.round, Outpoints.Render(op), req.signature);
    TookKeepsTasks(env, s, t, psbt, Outpoints.Render(op), e, tid, orders.snapshot);
  }

  // -- every step, every run ---------------------------------------------------------------------

  // Whatever happens next, it is one of the six kinds of change and the state
  // stays sound.
  lemma StepIsChange(env: Env, s: System, act: Label)
    requires Sane(env.cfg) && Core(env, s)
    ensures Stepped(env, s, Step(env, s, act))
  {
    hide Core, Stepped, PollPhase, ArmOrPause, ReadClock, FinishKeygen, FireTimer, AcceptInput, CheckBan,
      SnapshotInputs, CheckCoin, CommitRequest, TakeOutput, ShowTx, TakeSignature, FinishFinalize, LoseFinalize;
    match act
    case Tick(secs) => TickSteps(env, s, secs);
    case MonitorPolls => PollPhaseSteps(env, s);
    case MonitorActs(tid) => ArmOrPauseSteps(env, s, tid);
    case MonitorReadsClock => ReadClockSteps(env, s);
    case KeygenEnds(material) => FinishKeygenSteps(env, s, material);
    case TimerFires(tid, newId) => FireTimerSteps(env, s, tid, newId);
    case InputArrives(tid, form) => AcceptInputSteps(env, s, tid, form);
    case InputBanCheck(tid) => CheckBanSteps(env, s, tid);
    case InputSnapshot(tid) => SnapshotInputsSteps(env, s, tid);
    case InputValidate(tid, answer) => CheckCoinSteps(env, s, tid, answer);
    case InputCommits(tid) => CommitRequestSteps(env, s, tid);
    case OutputPosted(req) => TakeOutputSteps(env, s, req);
    case TxFetched(order) => ShowTxSteps(env, s, order);
    case SignPosted(req, orders, tid) => TakeSignatureSteps(env, s, req, orders, tid);
    case FinalizeEnds(tid, result, newId) => FinishFinalizeSteps(env, s, tid, result, newId);
    case FinalizeDies(tid) => LoseFinalizeSteps(env, s, tid);
  }

  lemma StartIsSound(env: Env, boot: Boot)
    requires env.cfg.bip.AllowsSomething()
    ensures Core(env, Start(boot))
  {
    hide RoundOk;
    IdleIsOk(env, boot.id);
  }

  // Every reachable state is sound.
  lemma {:induction false} RunIsSound(env: Env, boot: Boot, acts: seq<Label>)
    requires Sane(env.cfg)
    ensures Core(env, Run(env, boot, acts))
    decreases |acts|
  {
    hide Core, Stepped, Step;
    if acts == [] {
      StartIsSound(env, boot);
    } else {
      var s := Run(env, boot, acts[..|acts| - 1]);
      RunIsSound(env, boot, acts[..|acts| - 1]);
      StepIsChange(env, s, acts[|acts| - 1]);
      SteppedCore(env, s, Step(env, s, acts[|acts| - 1]));
    }
  }

  // -- what input requests touch -----------------------------------------------------------------

  predicate OfRequest(act: Label) {
    act.InputArrives? || act.InputBanCheck? || act.InputSnapshot? || act.InputValidate? || act.InputCommits?
  }

  // Timers and finalize tasks are the same.
  ghost predicate SameWork(s: System, t: System) {
    && (forall tid :: tid in s.tasks && !s.tasks[tid].InputRequest? ==> tid in t.tasks && t.tasks[tid] == s.tasks[tid])
    && (forall tid :: tid in t.tasks && !t.tasks[tid].InputRequest? ==> tid in s.tasks && t.tasks[tid] == s.tasks[tid])
  }

  lemma RequestsKeepWork(env: Env, s: System, act: Label)
    requires env.cfg.bip.AllowsSomething() && OfRequest(act)
    ensures SameWork(s, Step(env, s, act)) && Step(env, s, act).monitor == s.monitor
    ensures s.log <= Step(env, s, act).log
    ensures Step(env, s, act).now == s.now
  {
    hide CommitInput, BannedNow, ValidateUtxo, RegistrationFloor, Outpoints.Parse, Outpoints.Render, EstimateFeeShare,
      RegisteredOutpoints;
  }

  // Requests under way stay as they are.
  predicate KeepsRequests(s: System, t: System) {
    forall tid :: tid in s.tasks && s.tasks[tid].InputRequest? ==> tid in t.tasks && t.tasks[tid] == s.tasks[tid]
  }

  lemma RestKeepsRequests(env: Env, s: System, act: Label)
    requires env.cfg.bip.AllowsSomething() && !OfRequest(act)
    ensures KeepsRequests(s, Step(env, s, act))
  {
    hide AcceptInput, CheckBan, SnapshotInputs, CheckCoin, CommitRequest, PostOutput, PostSign, GetTx, OrdersFit,
      Revalidate, BroadcastFailureVerdict, SignedEvent, AssembledEvent, Outpoints.Parse, Enumerates, Install,
      Transition, ViaBlame, CanTransition, Joined, SignedBy, NonSigners, SigningTimeoutVerdict, OutputTimeout,
      InputTimeout;
  }

  lemma SignatureStep(env: Env, s: System, act: Label)
    requires env.cfg.bip.AllowsSomething() && act.SignPosted?
    ensures Step(env, s, act) == TakeSignature(env, s, act.submission, act.orders, act.tid)
  {
    hide TakeSignature;
  }
}
