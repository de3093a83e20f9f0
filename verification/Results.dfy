// The main results over whole runs: for every configuration that passes
// validation, every process start and every interleaving.
module Results {
  import opened Base
  import opened Transactions
  import opened World
  import opened Rounds
  import opened BanStore
  import opened Blame
  import opened Canonical
  import opened Assembly
  import opened RoundInvariant
  import opened SigningRound
  import opened Protocol
  import opened Changes
  import opened Steps
  import opened Lifecycle
  import opened OneTransaction
  import opened Attribution
  import opened Reckoning
  import opened Runs
  import Outpoints

  // -- one transaction per round --------------------------------------------------

  // Everything shown, signed or assembled in one round is one transaction.
  lemma OneTransactionPerRound(env: Env, boot: Boot, acts: seq<Label>)
    requires Sane(env.cfg)
    ensures Agreed(Run(env, boot, acts).log)
  {
    hide Run, Core, Lived, Accounted, Reckoned, AdmittedUnbanned, AllCarry, AllVerified, AllFaithful, OnRecord,
      InFlight;
    RunKeepsInvariant(env, boot, acts);
  }

  // What is assembled is that transaction, each of its witnesses was recorded
  // in the round and verified against it at its own input, and an input has a
  // script only to push the redeem script of a nested key.
  lemma AssembledAsVerified(env: Env, boot: Boot, acts: seq<Label>, i: nat)
    requires Sane(env.cfg)
    requires i < |Run(env, boot, acts).log| && Run(env, boot, acts).log[i].Assembled?
    ensures var log := Run(env, boot, acts).log;
            && Strip(log[i].tx) == log[i].psbt.unsigned
            && |log[i].tx.inputs| == |log[i].psbt.inputs|
            && forall k :: 0 <= k < |log[i].tx.inputs| ==>
                 Vouches(env, log, log[i].id, log[i].psbt, k, log[i].tx.inputs[k].stack)
    ensures var e := Run(env, boot, acts).log[i];
            forall k :: 0 <= k < |e.tx.inputs| ==>
              && e.psbt.inputs[k].witnessUtxo.Some?
              && var stack, spent := e.tx.inputs[k].stack, e.psbt.inputs[k].witnessUtxo.value.scriptPubkey;
                 e.tx.inputs[k].scriptSig ==
                 if PaysToScriptHash(spent) && |stack| == 2 && |stack[1]| == 33
                 then [0x16, 0x00, 0x14] + env.hash160(stack[1]) else []
  {
    hide Run, Core, Lived, Accounted, Reckoned, AdmittedUnbanned, Vouches, RightlyScripted, PaysToScriptHash, Agreed,
      AllCarry, AllVerified, OnRecord, InFlight, Strip;
    RunKeepsInvariant(env, boot, acts);
    var e := Run(env, boot, acts).log[i];
    assert Faithful(env, Run(env, boot, acts).log, e);
    forall k | 0 <= k < |e.tx.inputs|
      ensures e.psbt.inputs[k].witnessUtxo.Some?
      ensures var stack, spent := e.tx.inputs[k].stack, e.psbt.inputs[k].witnessUtxo.value.scriptPubkey;
              e.tx.inputs[k].scriptSig ==
              if PaysToScriptHash(spent) && |stack| == 2 && |stack[1]| == 33
              then [0x16, 0x00, 0x14] + env.hash160(stack[1]) else []
    {
      ScriptIsRight(env, e, k);
    }
  }

  lemma ScriptIsRight(env: Env, e: Event, k: nat)
    requires e.Assembled? && k < |e.tx.inputs| == |e.psbt.inputs| && RightlyScripted(env, e, k)
    ensures e.psbt.inputs[k].witnessUtxo.Some?
    ensures var stack, spent := e.tx.inputs[k].stack, e.psbt.inputs[k].witnessUtxo.value.scriptPubkey;
            e.tx.inputs[k].scriptSig ==
            if PaysToScriptHash(spent) && |stack| == 2 && |stack[1]| == 33
            then [0x16, 0x00, 0x14] + env.hash160(stack[1]) else []
  {
    hide PaysToScriptHash;
  }

  // A round in flight has such an assembly.
  lemma InFlightWasAssembled(env: Env, boot: Boot, acts: seq<Label>)
    requires Sane(env.cfg)
    ensures InFlight(Run(env, boot, acts).log, Run(env, boot, acts).round)
  {
    hide Run, Core, Lived, Accounted, Reckoned, AdmittedUnbanned, InFlight, Agreed, AllCarry, AllVerified, OnRecord,
      AllFaithful;
    RunKeepsInvariant(env, boot, acts);
  }

  // -- one installation, one ending ---------------------------------------------------

  // No id is installed twice or ended twice; an ending follows its
  // installation and is the last that is heard of the round.
  lemma OneInstallationOneEnding(env: Env, boot: Boot, acts: seq<Label>, i: nat, j: nat)
    requires Sane(env.cfg)
    requires i < |Run(env, boot, acts).log| && j < |Run(env, boot, acts).log|
    requires Run(env, boot, acts).log[i].id == Run(env, boot, acts).log[j].id
    ensures var log := Run(env, boot, acts).log;
            && (log[i].Installed? && log[j].Installed? ==> i == j)
            && (log[i].Ended? ==> j <= i && log[i].id != Run(env, boot, acts).round.id)
            && InstalledBy(log, log[i].id, i)
  {
    hide Run, Core, OneTx, Accounted, Reckoned, AdmittedUnbanned, InstalledBy;
    RunKeepsInvariant(env, boot, acts);
  }

  // Once a round has ended, none of its tasks can do anything but go away.
  lemma EndedRoundsAreInert(
    env: Env, boot: Boot, acts: seq<Label>, i: nat, tid: nat, result: BroadcastResult, newId: RoundId)
    requires Sane(env.cfg)
    requires i < |Run(env, boot, acts).log| && Run(env, boot, acts).log[i].Ended?
    requires tid in Run(env, boot, acts).tasks
    requires var task := Run(env, boot, acts).tasks[tid];
             (task.Timer? || task.Finalize?) && task.round == Run(env, boot, acts).log[i].id
    ensures var s := Run(env, boot, acts);
            && FireTimer(env, s, tid, newId) in {s, Drop(s, tid)}
            && FinishFinalize(env, s, tid, result, newId) in {s, Drop(s, tid)}
  {
    var s := Run(env, boot, acts);
    OneInstallationOneEnding(env, boot, acts, i, i);
    hide Run;
    StaleFinalize(env, s, tid, result, newId);
    StaleTimer(env, s, tid, newId);
  }

  lemma StaleTimer(env: Env, s: System, tid: nat, newId: RoundId)
    requires tid in s.tasks && s.tasks[tid].Timer? ==>
               s.tasks[tid].round != s.round.id || s.tasks[tid].phase != s.round.phase
    ensures FireTimer(env, s, tid, newId) in {s, Drop(s, tid)}
  {
    hide LiveTimer;
  }

  // -- the termination measure ----------------------------------------------------------

  // Nothing ever raises the rank of a round, and a timer or watchdog that does
  // anything to the round lowers it or ends the round.
  lemma RankOnlyFalls(env: Env, boot: Boot, acts: seq<Label>, act: Label)
    requires Sane(env.cfg)
    ensures var s, t := Run(env, boot, acts), Run(env, boot, acts + [act]);
            && (t.round.id == s.round.id ==> Rank(t.round.phase) <= Rank(s.round.phase))
            && (t.round.id != s.round.id ==> t.round.id !in s.used && t.round.phase == Idle)
            && (act.TimerFires? && t.round != s.round && t.round.id == s.round.id ==>
                  Rank(t.round.phase) < Rank(s.round.phase))
  {
    hide Run, Core, Change, FireTimer, Step, RoundOk;
    var s := Run(env, boot, acts);
    RunGrows(env, boot, acts, act);
    RunIsSound(env, boot, acts);
    CoreRoundOk(env, s);
    StepIsChange(env, s, act);
    ChangeLowersRank(env, s, Step(env, s, act));
    if act.TimerFires? {
      TimerStep(env, s, act);
      TimerLowersRank(env, s, act.tid, act.newId);
    }
  }

  lemma ChangeLowersRank(env: Env, s: System, t: System)
    requires s.round.id in s.used && Change(env, s, t)
    ensures t.round.id == s.round.id ==> Rank(t.round.phase) <= Rank(s.round.phase)
    ensures t.round.id != s.round.id ==> t.round.id !in s.used && t.round.phase == Idle
  {
    hide Judged, FullySigned, SignedTx, Collecting, SoundSigned;
  }

  lemma TimerStep(env: Env, s: System, act: Label)
    requires env.cfg.bip.AllowsSomething() && act.TimerFires?
    ensures Step(env, s, act) == FireTimer(env, s, act.tid, act.newId)
  {
    hide FireTimer;
  }

  lemma TimerLowersRank(env: Env, s: System, tid: nat, newId: RoundId)
    requires s.round.id in s.used
    ensures var t := FireTimer(env, s, tid, newId);
            t.round != s.round && t.round.id == s.round.id ==> Rank(t.round.phase) < Rank(s.round.phase)
  {
    hide SigningTimeoutVerdict;
  }

  // A timer or watchdog that finds its round and phase always does something.
  lemma LiveTimersBite(env: Env, boot: Boot, acts: seq<Label>, tid: nat, newId: RoundId)
    requires Sane(env.cfg)
    requires var s := Run(env, boot, acts);
             tid in s.tasks && s.tasks[tid] == Timer(s.round.phase, s.round.id) && newId !in s.used
    ensures var s, t := Run(env, boot, acts), Run(env, boot, acts + [TimerFires(tid, newId)]);
            if s.round.phase == InputReg && s.round.count >= env.cfg.minParticipants
            then t.round == s.round.(phase := OutputReg) else t.round == NewIdle(newId)
  {
    hide Run, Core, RoundOk, FireTimer, OutputTimeout;
    var s := Run(env, boot, acts);
    RunGrows(env, boot, acts, TimerFires(tid, newId));
    RunIsSound(env, boot, acts);
    CoreRoundOk(env, s);
    TimersWatchLivePhases(env, s, tid);
    if s.round.phase == OutputReg {
      OutputTimeoutOnlyBlames(env, s.round, newId);
    }
    TimerStep(env, s, TimerFires(tid, newId));
    LiveTimerRound(env, s, tid, newId);
  }

  lemma RunGrows(env: Env, boot: Boot, acts: seq<Label>, act: Label)
    requires env.cfg.bip.AllowsSomething()
    ensures Run(env, boot, acts + [act]) == Step(env, Run(env, boot, acts), act)
  {
    hide Step;
    assert (acts + [act])[..|acts|] == acts;
  }

  lemma TimersWatchLivePhases(env: Env, s: System, tid: nat)
    requires env.cfg.bip.AllowsSomething() && Core(env, s)
    requires tid in s.tasks && s.tasks[tid] == Timer(s.round.phase, s.round.id)
    ensures s.round.phase in {InputReg, OutputReg, Signing, Broadcast}
  {
    hide InnerOk, PcOk;
    assert TaskOk(env, s, s.tasks[tid]);
  }

  lemma LiveTimerRound(env: Env, s: System, tid: nat, newId: RoundId)
    requires tid in s.tasks && s.tasks[tid] == Timer(s.round.phase, s.round.id) && newId !in s.used
    requires s.round.phase in {InputReg, OutputReg, Signing, Broadcast}
    requires s.round.phase == OutputReg ==> OutputTimeout(s.round, newId) == NewIdle(newId)
    ensures FireTimer(env, s, tid, newId).round ==
            if s.round.phase == InputReg && s.round.count >= env.cfg.minParticipants
            then s.round.(phase := OutputReg) else NewIdle(newId)
  {
    hide SigningTimeoutVerdict;
  }

  // -- bans ------------------------------------------------------------------------------

  // `u` was a participant of the round that ended with this event, and either
  // had not signed at the deadline or, after a failed broadcast, was reported
  // spent before the search for spent coins stopped.
  ghost predicate Blameworthy(log: seq<Event>, i: nat, u: string)
    requires i < |log|
  {
    && log[i].Ended?
    && HasRegistered(log, i, log[i].id, u)
    && ((log[i].cause.SigningTimedOut? && !HasSigned(log, i, log[i].id, u))
        || (&& log[i].cause.BroadcastFailed?
            && |log[i].cause.answers| == |log[i].cause.outpoints|
            && ReportedSpent(log[i].cause.outpoints, log[i].cause.answers, 0, u)))
  }

  lemma FairMeansBlameworthy(log: seq<Event>, i: nat, u: string)
    requires i < |log| && log[i].Ended? && Fair(log, i)
    ensures u in log[i].banned <==> Blameworthy(log, i, u)
  {
    hide HasRegistered, HasSigned, ReportedSpent;
  }

  // Every ending bans exactly those to blame: the non-signers at a signing
  // deadline, the spenders found after a failed broadcast, and otherwise nobody.
  lemma EndingsBanTheBlameworthy(env: Env, boot: Boot, acts: seq<Label>, i: nat, u: string)
    requires Sane(env.cfg)
    requires i < |Run(env, boot, acts).log| && Run(env, boot, acts).log[i].Ended?
    ensures var log := Run(env, boot, acts).log;
            u in log[i].banned <==> Blameworthy(log, i, u)
  {
    hide Run, Core, Lived, OneTx, Reckoned, AdmittedUnbanned, Fair, Blameworthy, Matches;
    RunKeepsInvariant(env, boot, acts);
    FairMeansBlameworthy(Run(env, boot, acts).log, i, u);
  }

  // Every ban in memory was loaded at the start or is the hash of somebody to blame.
  ghost predicate Deserved(env: Env, log: seq<Event>, h: Hash, i: nat)
    requires i < |log|
  {
    exists u :: Blameworthy(log, i, u) && env.sha(u) == h
  }

  lemma EveryBanIsDeserved(env: Env, boot: Boot, acts: seq<Label>, h: Hash) returns (i: nat)
    requires Sane(env.cfg)
    requires var bans := Run(env, boot, acts).accounts.bans;
             h in bans && !(h in boot.bans && bans[h] == boot.bans[h])
    ensures var log := Run(env, boot, acts).log;
            && i < |log| && log[i].Ended? && Deserved(env, log, h, i)
            && Run(env, boot, acts).accounts.bans[h] == BanEntry(log[i].time, log[i].time + env.cfg.banDurationSecs)
  {
    hide Run, Core, Lived, OneTx, Accounted, AdmittedUnbanned, Blameworthy, Kept, PausesRespected, PausesCalledFor,
      LatestPause, Timely;
    RunKeepsInvariant(env, boot, acts);
    var log := Run(env, boot, acts).log;
    var entry := Run(env, boot, acts).accounts.bans[h];
    assert Earned(env, log, h, entry);
    i :| 0 <= i < |log| && BannedBy(env, log[i], h, entry);
    var u :| u in log[i].banned && env.sha(u) == h;
    EndingsBanTheBlameworthy(env, boot, acts, i, u);
  }

  // Whoever was banned stays banned for the full duration.
  lemma BansLast(env: Env, boot: Boot, acts: seq<Label>, i: nat, u: string)
    requires Sane(env.cfg)
    requires i < |Run(env, boot, acts).log| && Run(env, boot, acts).log[i].Ended?
    requires u in Run(env, boot, acts).log[i].banned
    ensures var s := Run(env, boot, acts);
            s.now < s.log[i].time + env.cfg.banDurationSecs ==> Banned(s.accounts.bans, env.sha(u), s.now)
  {
    hide Run, Core, Lived, OneTx, Accounted, AdmittedUnbanned, Traced, PausesRespected, PausesCalledFor,
      LatestPause, Timely, CounterIsStreak;
    RunKeepsInvariant(env, boot, acts);
    assert BannedSince(env, Run(env, boot, acts).accounts.bans, u, Run(env, boot, acts).log[i].time);
  }

  // A registration checked and committed in one round was not banned.
  lemma SameRoundMeansUnbanned(env: Env, boot: Boot, acts: seq<Label>)
    requires Sane(env.cfg)
    ensures AdmittedUnbanned(Run(env, boot, acts).log)
  {
    hide Run, Core, Lived, OneTx, Accounted, Reckoned;
    RunKeepsInvariant(env, boot, acts);
  }

  // -- pauses ---------------------------------------------------------------------------------

  // With a backoff the counter stays within the cap and three failures in a
  // row pause, at the third if not before.
  lemma ThreeFailuresPause(env: Env, boot: Boot, acts: seq<Label>, i: nat, j: nat, k: nat)
    requires Sane(env.cfg) && env.cfg.fullAbortBackoffSecs > 0
    requires i < j < k < |Run(env, boot, acts).log|
    requires var log := Run(env, boot, acts).log;
             Counts(log[i]) && Counts(log[j]) && Counts(log[k]) && NoneClears(log, i, k)
    ensures var s := Run(env, boot, acts);
            Arms(s.log[k]) && s.accounts.pausedUntil >= s.log[k].time + env.cfg.fullAbortBackoffSecs
  {
    hide Run, Core, Lived, OneTx, Accounted, AdmittedUnbanned, Traced, Kept, PausesRespected, Timely,
      CounterIsStreak, Counts, NoneClears, Streak, CallsForPause;
    RunKeepsInvariant(env, boot, acts);
    ThirdBlamePauses(env, Run(env, boot, acts).log, i, j, k);
    assert PausedAt(env, Run(env, boot, acts).log, k);
  }

  lemma CounterStaysWithinCap(env: Env, boot: Boot, acts: seq<Label>)
    requires Sane(env.cfg) && env.cfg.fullAbortBackoffSecs > 0
    ensures Run(env, boot, acts).accounts.blameCount == Streak(Run(env, boot, acts).log) <= 2
  {
    hide Run, Core, Lived, OneTx, Accounted, AdmittedUnbanned, Traced, Kept, PausesRespected, Timely, Streak,
      PausesCalledFor, LatestPause;
    RunKeepsInvariant(env, boot, acts);
  }

  // No round leaves Idle while a pause is in force, and none is ever installed
  // before an earlier armed pause is over.
  lemma NoRoundStartsPaused(env: Env, boot: Boot, acts: seq<Label>, act: Label)
    requires Sane(env.cfg)
    ensures var s, t := Run(env, boot, acts), Run(env, boot, acts + [act]);
            s.round.phase == Idle && t.round.phase != Idle ==> s.accounts.pausedUntil <= s.now
  {
    hide Run, Core, Change, Step, RoundOk;
    var s := Run(env, boot, acts);
    RunGrows(env, boot, acts, act);
    RunIsSound(env, boot, acts);
    StepIsChange(env, s, act);
    LeavingIdle(env, s, Step(env, s, act));
  }

  lemma LeavingIdle(env: Env, s: System, t: System)
    requires Change(env, s, t)
    ensures s.round.phase == Idle && t.round.phase != Idle ==> s.accounts.pausedUntil <= s.now
  {
    hide Judged, FullySigned, SignedTx, Collecting, SoundSigned;
  }

  lemma PausesHold(env: Env, boot: Boot, acts: seq<Label>, i: nat, j: nat)
    requires Sane(env.cfg)
    requires i < j < |Run(env, boot, acts).log|
    requires Arms(Run(env, boot, acts).log[i]) && Run(env, boot, acts).log[j].Installed?
    ensures Run(env, boot, acts).log[j].time >= Run(env, boot, acts).log[i].time + env.cfg.fullAbortBackoffSecs
  {
    hide Run, Core, Lived, OneTx, Accounted, AdmittedUnbanned, Traced, Kept, LatestPause, Timely,
      CounterIsStreak, Streak, CallsForPause;
    RunKeepsInvariant(env, boot, acts);
    assert PausedAt(env, Run(env, boot, acts).log, i);
  }

  // -- the shape of the round ----------------------------------------------------------------

  predicate SizesFit(env: Env, phase: Phase, inner: Inner) {
    var ins, outs := |inner.inputs|, |inner.outputs|;
    && ins <= env.cfg.maxParticipants && outs == |inner.redeemed|
    && (phase == InputReg ==> outs == 0)
    && (phase == OutputReg ==> outs < ins)
    && (Signable(phase) ==> env.cfg.minParticipants <= ins == outs)
  }

  predicate SignaturesFit(phase: Phase, inner: Inner) {
    && inner.sigs.Keys <= inner.inputs.Keys
    && (!Signable(phase) ==> inner.sigs == map[])
    && (phase == Broadcast ==> inner.sigs.Keys == inner.inputs.Keys)
  }

  // Whenever the lock is free: never Blame, sensitive data only outside Idle,
  // and the sizes and key sets each phase promises.
  lemma RoundHasItsShape(env: Env, boot: Boot, acts: seq<Label>)
    requires Sane(env.cfg)
    ensures var r := Run(env, boot, acts).round;
            && r.phase != Phase.Blame && (r.inner.Some? <==> r.phase != Idle)
            && (r.inner.None? ==> r.count == 0)
            && (r.inner.Some? ==>
                  && r.count == |r.inner.value.inputs|
                  && SizesFit(env, r.phase, r.inner.value)
                  && SignaturesFit(r.phase, r.inner.value))
  {
    hide Run, Core, InputsOk;
    RunIsSound(env, boot, acts);
    CoreRoundOk(env, Run(env, boot, acts));
  }

  // Registered output scripts are pairwise distinct and the redeemed tokens
  // are exactly their messages.
  lemma OutputsAreDistinct(env: Env, boot: Boot, acts: seq<Label>)
    requires Sane(env.cfg) && Run(env, boot, acts).round.inner.Some?
    ensures var inner := Run(env, boot, acts).round.inner.value;
            && (forall i, j :: 0 <= i < j < |inner.outputs| ==>
                  ScriptOf(env, inner.outputs[i]) != ScriptOf(env, inner.outputs[j]))
            && (forall t :: t in inner.redeemed <==> IsTokenOf(env, inner.outputs, t))
  {
    hide Run, Core, InputsOk, CountsOk, SigningOk, ScriptOf;
    RunIsSound(env, boot, acts);
    CoreRoundOk(env, Run(env, boot, acts));
  }

  // A round sits in Signing with every signature in only if its finished
  // transaction is over the fee-rate ceiling.
  lemma StuckOnlyOverCeiling(env: Env, boot: Boot, acts: seq<Label>) returns (psbt: Psbt)
    requires Sane(env.cfg)
    requires var r := Run(env, boot, acts).round;
             r.phase == Signing && SignedBy(r) == Joined(r)
    ensures var r := Run(env, boot, acts).round;
            && InSigning(env, r, psbt)
            && FullySigned(env, psbt, r.inner.value.sigs)
            && !env.feeRateOk(SignedTx(env, psbt, r.inner.value.sigs), FeeLeft(psbt))
  {
    hide Run, Core, RoundOk, InSigning, FullySigned, SignedTx, FeeLeft;
    RunIsSound(env, boot, acts);
    CoreRoundOk(env, Run(env, boot, acts));
    psbt := SigningCollects(env, Run(env, boot, acts).round);
    CompleteIsOverCeiling(env, Run(env, boot, acts).round, psbt);
  }

  lemma CompleteIsOverCeiling(env: Env, r: Round, psbt: Psbt)
    requires env.cfg.bip.AllowsSomething() && RoundOk(env, r) && InSigning(env, r, psbt)
    requires SignedBy(r) == Joined(r)
    ensures FullySigned(env, psbt, r.inner.value.sigs)
    ensures !env.feeRateOk(SignedTx(env, psbt, r.inner.value.sigs), FeeLeft(psbt))
  {
    hide InputsOk, OutputsOk, Canon, SpendsExactly, SigsOk, Funded, Strip, AssembleFinal, FullySigned, SignedTx,
      FeeLeft;
    CompleteIsFullySigned(env, r.inner.value, psbt);
    AssemblyDecides(env, psbt, r.inner.value.sigs);
  }

  // Whatever a finalize task submits was assembled in its round, and so is
  // that round's one transaction.
  lemma OnlyTheAssembledIsSent(env: Env, boot: Boot, acts: seq<Label>, tid: nat) returns (i: nat)
    requires Sane(env.cfg)
    requires tid in Run(env, boot, acts).tasks && Run(env, boot, acts).tasks[tid].Finalize?
    ensures var s := Run(env, boot, acts);
            && i < |s.log| && s.log[i].Assembled? && s.log[i].id == s.tasks[tid].round
            && s.log[i].tx == s.tasks[tid].tx && Strip(s.tasks[tid].tx) == s.log[i].psbt.unsigned
  {
    hide Run, Strip, Vouches;
    RunIsBacked(env, boot, acts);
    var s := Run(env, boot, acts);
    assert TaskBacked(s.log, s.tasks[tid]);
    i :| 0 <= i < |s.log| && IsAssembly(s.log[i], s.tasks[tid]);
    AssembledAsVerified(env, boot, acts, i);
  }

  // The ban list, the counter and the pause change only in the critical
  // section that ends a round, and with them the round id.
  lemma AccountsChangeOnlyAtEndings(env: Env, boot: Boot, acts: seq<Label>, act: Label)
    requires Sane(env.cfg)
    ensures var s, t := Run(env, boot, acts), Run(env, boot, acts + [act]);
            t.accounts != s.accounts ==>
              && |t.log| == |s.log| + 1 && t.log[|s.log|].Ended? && t.log[|s.log|].id == s.round.id
              && t.round.id !in s.used
  {
    hide Run, Core, Change, Step, RoundOk;
    var s := Run(env, boot, acts);
    RunGrows(env, boot, acts, act);
    RunIsSound(env, boot, acts);
    StepIsChange(env, s, act);
    ChangedAccounts(env, s, Step(env, s, act));
  }

  lemma ChangedAccounts(env: Env, s: System, t: System)
    requires Change(env, s, t)
    ensures t.accounts != s.accounts ==>
              && |t.log| == |s.log| + 1 && t.log[|s.log|].Ended? && t.log[|s.log|].id == s.round.id
              && t.round.id !in s.used
  {
    hide FullySigned, SignedTx, Collecting, SoundSigned, SigningTimeoutVerdict, BroadcastFailureVerdict, Revalidate;
  }

  // -- the last signature -------------------------------------------------------------

  // Every signature in: in flight, or over the fee-rate ceiling and nothing else.
  ghost predicate CompletedBy(env: Env, r: Round, after: Round, psbt: Psbt, key: string, sig: Bytes) {
    var sigs := SigsOf(r)[key := sig];
    && sigs.Keys == Joined(r) && FullySigned(env, psbt, sigs)
    && SigsOf(after) == sigs
    && after.phase == (if env.feeRateOk(SignedTx(env, psbt, sigs), FeeLeft(psbt)) then Broadcast else Signing)
  }

  // In every reachable Signing state, a valid signature from the last
  // participant missing puts the round in flight unless its transaction is
  // over the fee-rate ceiling.
  lemma LastSignatureTakesOff(
    env: Env, boot: Boot, acts: seq<Label>, req: SignRequest, orders: SignOrders, tid: nat) returns (psbt: Psbt)
    requires Sane(env.cfg) && ReachesSigning(Run(env, boot, acts), req, orders, tid)
    ensures var r := Run(env, boot, acts).round;
            var after := Run(env, boot, acts + [SignPosted(req, orders, tid)]).round;
            var op := Outpoints.Parse(req.utxo).value;
            && InSigning(env, r, psbt)
            && (Acceptable(env, r, psbt, op, req.signature, req.token) && |SignedBy(r)| + 1 == |Joined(r)| ==>
                  CompletedBy(env, r, after, psbt, Outpoints.Render(op), req.signature))
  {
    hide Run, Core, RoundOk, InSigning, Acceptable, CompletedBy, Outpoints.Parse, Outpoints.Render, TakeSignature,
      OrdersFit;
    var s := Run(env, boot, acts);
    RunIsSound(env, boot, acts);
    CoreRoundOk(env, s);
    psbt := SigningCollects(env, s.round);
    RunGrows(env, boot, acts, SignPosted(req, orders, tid));
    var op := Outpoints.Parse(req.utxo).value;
    if Acceptable(env, s.round, psbt, op, req.signature, req.token) && |SignedBy(s.round)| + 1 == |Joined(s.round)| {
      TakenLast(env, s, req, orders, tid, psbt);
    }
  }

  lemma TakenLast(env: Env, s: System, req: SignRequest, orders: SignOrders, tid: nat, psbt: Psbt)
    requires ReachesSigning(s, req, orders, tid) && InSigning(env, s.round, psbt)
    requires var op := Outpoints.Parse(req.utxo).value;
             Acceptable(env, s.round, psbt, op, req.signature, req.token)
    requires |SignedBy(s.round)| + 1 == |Joined(s.round)|
    ensures var op := Outpoints.Parse(req.utxo).value;
            CompletedBy(env, s.round, TakeSignature(env, s, req, orders, tid).round, psbt, Outpoints.Render(op),
              req.signature)
  {
    hide Collecting, Acceptable, ProcessSign, Outpoints.Parse, Outpoints.Render, TakeSignature, OrdersFit, FullySigned,
      SignedTx, FeeLeft, SignedEvent, AssembledEvent;
    var op := Outpoints.Parse(req.utxo).value;
    assert |s.round.inner.value.sigs.Keys| == |s.round.inner.value.sigs|;
    assert |s.round.inner.value.inputs.Keys| == |s.round.inner.value.inputs|;
    LastSignatureGoesInFlight(env, s.round, psbt, op, req.signature, req.token, orders);
    SignatureSplits(env, s, req, orders, tid);
  }
}
