// What holds in every run, from any process start, whatever the clients, the
// node and the scheduler do.
module Runs {
  import opened Base
  import opened Transactions
  import opened World
  import opened Rounds
  import opened Blame
  import opened Assembly
  import opened SigningRound
  import opened Protocol
  import opened Changes
  import opened Steps
  import opened Lifecycle
  import opened OneTransaction
  import opened Attribution
  import opened Reckoning
  import Outpoints

  // A request whose first check and commit fell in one round was not banned
  // when it was committed.
  ghost predicate AdmittedUnbanned(log: seq<Event>) {
    forall i :: 0 <= i < |log| && log[i].Registered? && log[i].startRound == log[i].id ==> !log[i].wasBanned
  }

  // Whatever a finalize task sends was assembled in its round.
  ghost predicate Backed(s: System) {
    forall tid :: tid in s.tasks ==> TaskBacked(s.log, s.tasks[tid])
  }

  ghost predicate TaskBacked(log: seq<Event>, task: Task) {
    task.Finalize? ==> exists i :: 0 <= i < |log| && IsAssembly(log[i], task)
  }

  predicate IsAssembly(e: Event, task: Task) {
    task.Finalize? && e.Assembled? && e.id == task.round && e.tx == task.tx
  }

  ghost predicate Invariant(env: Env, boot: Boot, s: System)
    requires env.cfg.bip.AllowsSomething()
  {
    && Core(env, s) && Lived(s) && OneTx(env, s) && Accounted(s) && Reckoned(env, boot, s)
    && AdmittedUnbanned(s.log)
  }

  // -- one step -------------------------------------------------------------------

  lemma ChangeKeepsAdmitted(env: Env, s: System, t: System)
    requires AdmittedUnbanned(s.log) && Change(env, s, t)
    ensures AdmittedUnbanned(t.log)
  {
    hide InSigning, WithSig, SignedTx, FullySigned, VerifyInputSignature, Outpoints.Render, Joined;
    if Signs(env, s, t) {
      SignAdmitsNobody(env, s, t);
    } else if Ends(env, s, t) {
      var e := t.log[|s.log|];
      assert t.log == s.log + [e];
    }
  }

  lemma SignAdmitsNobody(env: Env, s: System, t: System)
    requires AdmittedUnbanned(s.log) && Signs(env, s, t)
    ensures AdmittedUnbanned(t.log)
  {
    hide InSigning, WithSig, SignedTx, FullySigned, VerifyInputSignature, Outpoints.Render, Joined;
    var psbt: Psbt, key: string, e: Event :| SignsWith(env, s, t, psbt, key, e);
  }

  lemma StepKeepsInvariant(env: Env, boot: Boot, s: System, act: Label)
    requires Sane(env.cfg) && Invariant(env, boot, s)
    ensures Invariant(env, boot, Step(env, s, act))
  {
    hide Core, Step, Change, Lived, OneTx, Accounted, Reckoned, AdmittedUnbanned;
    var t := Step(env, s, act);
    StepIsChange(env, s, act);
    CoreRoundOk(env, s);
    ChangeKeepsLived(env, s, t);
    ChangeKeepsOneTx(env, s, t);
    ChangeKeepsAccounted(env, s, t);
    ChangeKeepsReckoned(env, boot, s, t);
    ChangeKeepsAdmitted(env, s, t);
  }

  lemma StartKeepsInvariant(env: Env, boot: Boot)
    requires env.cfg.bip.AllowsSomething()
    ensures Invariant(env, boot, Start(boot))
  {
    hide Core, Lived, OneTx, Reckoned;
    StartIsSound(env, boot);
    StartIsLived(boot);
    StartHasOneTx(env, boot);
    StartIsReckoned(env, boot);
  }

  lemma {:induction false} RunKeepsInvariant(env: Env, boot: Boot, acts: seq<Label>)
    requires Sane(env.cfg)
    ensures Invariant(env, boot, Run(env, boot, acts))
    decreases |acts|
  {
    hide Invariant, Step;
    if acts == [] {
      StartKeepsInvariant(env, boot);
    } else {
      RunKeepsInvariant(env, boot, acts[..|acts| - 1]);
      StepKeepsInvariant(env, boot, Run(env, boot, acts[..|acts| - 1]), acts[|acts| - 1]);
    }
  }

  // -- what finalize tasks send ------------------------------------------------------

  lemma OthersMakeNoFinalize(env: Env, s: System, act: Label)
    requires env.cfg.bip.AllowsSomething() && !act.SignPosted?
    ensures var t := Step(env, s, act);
            forall tid :: tid in t.tasks && t.tasks[tid].Finalize? ==> tid in s.tasks && t.tasks[tid] == s.tasks[tid]
  {
    hide Step;
    if OfRequest(act) {
      RequestsKeepWork(env, s, act);
    } else {
      RestMakeNoFinalize(env, s, act);
    }
  }

  lemma RestMakeNoFinalize(env: Env, s: System, act: Label)
    requires env.cfg.bip.AllowsSomething() && !act.SignPosted?
    requires !OfRequest(act)
    ensures var t := Step(env, s, act);
            forall tid :: tid in t.tasks && t.tasks[tid].Finalize? ==> tid in s.tasks && t.tasks[tid] == s.tasks[tid]
  {
    hide AcceptInput, CheckBan, SnapshotInputs, CheckCoin, CommitRequest, PostOutput, GetTx, Revalidate,
      BroadcastFailureVerdict, Enumerates, Install, Transition, ViaBlame, CanTransition, Joined, SignedBy,
      NonSigners, SigningTimeoutVerdict, OutputTimeout, InputTimeout, TakeSignature;
  }

  // History is only ever added to.
  lemma OthersKeepTheLog(env: Env, s: System, act: Label)
    requires env.cfg.bip.AllowsSomething() && !act.SignPosted?
    ensures s.log <= Step(env, s, act).log
  {
    hide Step;
    if OfRequest(act) {
      RequestsKeepWork(env, s, act);
    } else {
      RestKeepTheLog(env, s, act);
    }
  }

  lemma RestKeepTheLog(env: Env, s: System, act: Label)
    requires env.cfg.bip.AllowsSomething() && !act.SignPosted?
    requires !OfRequest(act)
    ensures s.log <= Step(env, s, act).log
  {
    hide AcceptInput, CheckBan, SnapshotInputs, CheckCoin, CommitRequest, PostOutput, GetTx, Revalidate,
      BroadcastFailureVerdict, Enumerates, Install, Transition, ViaBlame, CanTransition, Joined, SignedBy,
      NonSigners, SigningTimeoutVerdict, OutputTimeout, InputTimeout, TakeSignature;
  }

  lemma AssemblyOfOutcome(env: Env, s: System, op: OutPoint, sig: Bytes, token: Bytes, orders: SignOrders)
    requires OrdersFit(s.round, orders)
    ensures var (after, outcome) := ProcessSign(env, s.round, op, sig, token, orders);
            outcome.ReadyToBroadcast? ==>
              exists e: Event :: AssembledEvent(env, s.round, orders.assemble, outcome) == [e]
                && e.Assembled? && e.id == s.round.id && e.tx == outcome.tx
  {
    hide BuildCanonical, AssembleFinal, VerifyInputSignature, Outpoints.Render, Position, Transition;
    var (after, outcome) := ProcessSign(env, s.round, op, sig, token, orders);
    if outcome.ReadyToBroadcast? {
      var psbt := BuildCanonical(env, s.round.inner.value.inputs, s.round.inner.value.outputs, orders.assemble);
      assert AssembledEvent(env, s.round, orders.assemble, outcome)
          == [Assembled(s.round.id, psbt.value, outcome.tx)];
    }
  }

  lemma BackedStays(log: seq<Event>, more: seq<Event>, task: Task)
    requires TaskBacked(log, task)
    ensures TaskBacked(log + more, task)
  {
    if task.Finalize? {
      var i :| 0 <= i < |log| && IsAssembly(log[i], task);
      assert (log + more)[i] == log[i];
    }
  }

  lemma SignatureKeepsBacked(env: Env, s: System, req: SignRequest, orders: SignOrders, tid: nat)
    requires Backed(s)
    ensures Backed(TakeSignature(env, s, req, orders, tid))
  {
    hide ProcessSign, TakeSignature, SignedEvent, AssembledEvent, TaskBacked, Outpoints.Parse, OrdersFit;
    SignatureSplits(env, s, req, orders, tid);
    if ReachesSigning(s, req, orders, tid) {
      var op := Outpoints.Parse(req.utxo).value;
      var (after, outcome) := ProcessSign(env, s.round, op, req.signature, req.token, orders);
      AssemblyOfOutcome(env, s, op, req.signature, req.token, orders);
      TookIsBacked(env, s, op, req.signature, orders, tid, after, outcome);
    }
  }

  lemma TookIsBacked(
    env: Env, s: System, op: OutPoint, sig: Bytes, orders: SignOrders, tid: nat, after: Round, outcome: SignOutcome)
    requires Backed(s) && OrdersFit(s.round, orders)
    requires outcome.ReadyToBroadcast? ==>
               exists e: Event :: AssembledEvent(env, s.round, orders.assemble, outcome) == [e]
                 && e.Assembled? && e.id == s.round.id && e.tx == outcome.tx
    ensures Backed(TookSignature(env, s, op, sig, orders, tid, after, outcome))
  {
    hide SignedEvent, AssembledEvent, TaskBacked;
    var t := TookSignature(env, s, op, sig, orders, tid, after, outcome);
    var more := SignedEvent(env, s.round, op, sig, orders.verify)
      + AssembledEvent(env, s.round, orders.assemble, outcome);
    forall k | k in t.tasks ensures TaskBacked(t.log, t.tasks[k]) {
      if k in s.tasks && t.tasks[k] == s.tasks[k] {
        if t != s {
          BackedStays(s.log, more, s.tasks[k]);
        }
      } else {
        NewestBacked(s.log + SignedEvent(env, s.round, op, sig, orders.verify),
          AssembledEvent(env, s.round, orders.assemble, outcome)[0], t.tasks[k]);
        assert t.log == s.log + SignedEvent(env, s.round, op, sig, orders.verify)
                        + [AssembledEvent(env, s.round, orders.assemble, outcome)[0]];
      }
    }
  }

  lemma NewestBacked(log: seq<Event>, e: Event, task: Task)
    requires IsAssembly(e, task)
    ensures TaskBacked(log + [e], task)
  {
    assert (log + [e])[|log|] == e;
  }

  lemma StepKeepsBacked(env: Env, s: System, act: Label)
    requires env.cfg.bip.AllowsSomething() && Backed(s)
    ensures Backed(Step(env, s, act))
  {
    hide Step, TaskBacked;
    if act.SignPosted? {
      hide TakeSignature, Backed;
      SignatureStep(env, s, act);
      SignatureKeepsBacked(env, s, act.submission, act.orders, act.tid);
    } else {
      OthersMakeNoFinalize(env, s, act);
      OthersKeepTheLog(env, s, act);
      var t := Step(env, s, act);
      forall tid | tid in t.tasks ensures TaskBacked(t.log, t.tasks[tid]) {
        if t.tasks[tid].Finalize? {
          BackedStays(s.log, t.log[|s.log|..], s.tasks[tid]);
          assert s.log + t.log[|s.log|..] == t.log;
        } else {
          NoFinalize(t.log, t.tasks[tid]);
        }
      }
    }
  }

  lemma NoFinalize(log: seq<Event>, task: Task)
    requires !task.Finalize?
    ensures TaskBacked(log, task)
  {
  }

  // Every finalize task holds a transaction that was assembled in its round.
  lemma {:induction false} RunIsBacked(env: Env, boot: Boot, acts: seq<Label>)
    requires env.cfg.bip.AllowsSomething()
    ensures Backed(Run(env, boot, acts))
    decreases |acts|
  {
    hide Backed, Step;
    if acts == [] {
      StartIsBacked(boot);
    } else {
      RunIsBacked(env, boot, acts[..|acts| - 1]);
      StepKeepsBacked(env, Run(env, boot, acts[..|acts| - 1]), acts[|acts| - 1]);
    }
  }

  lemma StartIsBacked(boot: Boot)
    ensures Backed(Start(boot))
  {
  }
}
