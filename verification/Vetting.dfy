// What the coordinator asked before it took a coin: the steps behind every
// registration, in their order, with the state each of them found.
module Vetting {
  import opened Base
  import opened Fees
  import opened World
  import opened Ownership
  import opened Rounds
  import opened Canonical
  import opened RoundInvariant
  import opened Protocol
  import opened Steps
  import opened RequestBans
  import Outpoints

  // -- the steps behind a request ----------------------------------------------------

  // What a request is from its arrival on.
  datatype Request = Request(form: InputForm, op: OutPoint, startRound: RoundId)

  function RequestOf(task: Task): Request
    requires task.InputRequest?
  {
    Request(task.form, task.op, task.startRound)
  }

  // Step k of the run brings this request, while its round takes inputs.
  ghost predicate Arrives(env: Env, boot: Boot, acts: seq<Label>, tid: nat, req: Request, k: nat)
    requires env.cfg.bip.AllowsSomething() && k < |acts|
  {
    var s := Run(env, boot, acts[..k]);
    && acts[k] == InputArrives(tid, req.form) && Outpoints.Parse(req.form.utxo) == Some(req.op)
    && s.round.phase == InputReg && s.round.id == req.startRound
  }

  // Step k finds its coin not banned.
  ghost predicate Clears(env: Env, boot: Boot, acts: seq<Label>, tid: nat, req: Request, k: nat)
    requires env.cfg.bip.AllowsSomething() && k < |acts|
  {
    acts[k] == InputBanCheck(tid) && !BannedNow(env, Run(env, boot, acts[..k]), req.op)
  }

  // Step k takes the snapshot of a round.
  ghost predicate Snaps(
    env: Env, boot: Boot, acts: seq<Label>, tid: nat, registered: set<OutPoint>, round: RoundId, k: nat)
    requires env.cfg.bip.AllowsSomething() && k < |acts|
  {
    var s := Run(env, boot, acts[..k]);
    acts[k] == InputSnapshot(tid) && s.round.id == round && RegisteredOutpoints(s.round) == registered
  }

  // Step k brings the node's report of the coin, unspent.
  predicate Reports(act: Label, tid: nat, coin: UtxoDetails) {
    act == InputValidate(tid, Answer(Some(ChainOutput(coin.valueSats, coin.script))))
  }

  ghost predicate ArrivedBefore(env: Env, boot: Boot, acts: seq<Label>, tid: nat, req: Request, last: nat)
    requires env.cfg.bip.AllowsSomething() && last <= |acts|
  {
    exists k: nat :: k < last && Arrives(env, boot, acts, tid, req, k)
  }

  ghost predicate ClearedBefore(env: Env, boot: Boot, acts: seq<Label>, tid: nat, req: Request, last: nat)
    requires env.cfg.bip.AllowsSomething() && last <= |acts|
  {
    exists k: nat :: k < last && Clears(env, boot, acts, tid, req, k) && ArrivedBefore(env, boot, acts, tid, req, k)
  }

  ghost predicate SnappedBefore(
    env: Env, boot: Boot, acts: seq<Label>, tid: nat, req: Request, registered: set<OutPoint>, round: RoundId,
    last: nat)
    requires env.cfg.bip.AllowsSomething() && last <= |acts|
  {
    exists k: nat :: k < last && Snaps(env, boot, acts, tid, registered, round, k)
      && ClearedBefore(env, boot, acts, tid, req, k)
  }

  // The coin was new to the round of the snapshot.
  ghost predicate NewAt(
    env: Env, boot: Boot, acts: seq<Label>, tid: nat, req: Request, round: RoundId, last: nat)
    requires env.cfg.bip.AllowsSomething() && last <= |acts|
  {
    exists registered: set<OutPoint> ::
      req.op !in registered && SnappedBefore(env, boot, acts, tid, req, registered, round, last)
  }

  ghost predicate VettedBefore(
    env: Env, boot: Boot, acts: seq<Label>, tid: nat, req: Request, round: RoundId, coin: UtxoDetails, last: nat)
    requires env.cfg.bip.AllowsSomething() && last <= |acts|
  {
    exists k: nat :: k < last && Reports(acts[k], tid, coin) && NewAt(env, boot, acts, tid, req, round, k)
  }

  // How a request came to its stage.
  ghost predicate TaskVetted(env: Env, boot: Boot, acts: seq<Label>, tid: nat, task: Task)
    requires env.cfg.bip.AllowsSomething()
  {
    task.InputRequest? ==>
      var req := RequestOf(task);
      match task.stage
      case Arrived => ArrivedBefore(env, boot, acts, tid, req, |acts|)
      case Unbanned => ClearedBefore(env, boot, acts, tid, req, |acts|)
      case Snapshotted(registered, round) => SnappedBefore(env, boot, acts, tid, req, registered, round, |acts|)
      case Validated(coin, round) => VettedBefore(env, boot, acts, tid, req, round, coin, |acts|)
  }

  // Step k commits this registration, all checks behind it.
  ghost predicate Commits(env: Env, boot: Boot, acts: seq<Label>, e: Event, tid: nat, op: OutPoint, k: nat)
    requires env.cfg.bip.AllowsSomething() && e.Registered?
  {
    && k < |acts| && acts[k] == InputCommits(tid)
    && e.utxo == Outpoints.Render(op) && Run(env, boot, acts[..k]).round.id == e.id
    && VettedBefore(env, boot, acts, tid, Request(e.form, op, e.startRound), e.provenFor, e.coin, k)
  }

  ghost predicate CoinVetted(env: Env, boot: Boot, acts: seq<Label>, e: Event)
    requires env.cfg.bip.AllowsSomething()
  {
    e.Registered? ==> exists tid: nat, op: OutPoint, k: nat :: Commits(env, boot, acts, e, tid, op, k)
  }

  ghost predicate AllVetted(env: Env, boot: Boot, acts: seq<Label>, s: System)
    requires env.cfg.bip.AllowsSomething()
  {
    && (forall tid :: tid in s.tasks ==> TaskVetted(env, boot, acts, tid, s.tasks[tid]))
    && (forall i :: 0 <= i < |s.log| ==> CoinVetted(env, boot, acts, s.log[i]))
  }

  // -- the run grows --------------------------------------------------------------------

  lemma ArrivedStays(
    env: Env, boot: Boot, acts: seq<Label>, act: Label, tid: nat, req: Request, last: nat, later: nat)
    requires env.cfg.bip.AllowsSomething() && last <= |acts| && last <= later <= |acts| + 1
    requires ArrivedBefore(env, boot, acts, tid, req, last)
    ensures ArrivedBefore(env, boot, acts + [act], tid, req, later)
  {
    hide Run, Outpoints.Parse;
    var k: nat :| k < last && Arrives(env, boot, acts, tid, req, k);
    assert (acts + [act])[..k] == acts[..k];
    assert Arrives(env, boot, acts + [act], tid, req, k);
  }

  lemma ClearedStays(
    env: Env, boot: Boot, acts: seq<Label>, act: Label, tid: nat, req: Request, last: nat, later: nat)
    requires env.cfg.bip.AllowsSomething() && last <= |acts| && last <= later <= |acts| + 1
    requires ClearedBefore(env, boot, acts, tid, req, last)
    ensures ClearedBefore(env, boot, acts + [act], tid, req, later)
  {
    hide Run, BannedNow, ArrivedBefore;
    var k: nat :| k < last && Clears(env, boot, acts, tid, req, k) && ArrivedBefore(env, boot, acts, tid, req, k);
    assert (acts + [act])[..k] == acts[..k];
    assert Clears(env, boot, acts + [act], tid, req, k);
    ArrivedStays(env, boot, acts, act, tid, req, k, k);
  }

  lemma SnappedStays(
    env: Env, boot: Boot, acts: seq<Label>, act: Label, tid: nat, req: Request, registered: set<OutPoint>,
    round: RoundId, last: nat, later: nat)
    requires env.cfg.bip.AllowsSomething() && last <= |acts| && last <= later <= |acts| + 1
    requires SnappedBefore(env, boot, acts, tid, req, registered, round, last)
    ensures SnappedBefore(env, boot, acts + [act], tid, req, registered, round, later)
  {
    hide Run, RegisteredOutpoints, ClearedBefore;
    var k: nat :| k < last && Snaps(env, boot, acts, tid, registered, round, k)
      && ClearedBefore(env, boot, acts, tid, req, k);
    assert (acts + [act])[..k] == acts[..k];
    assert Snaps(env, boot, acts + [act], tid, registered, round, k);
    ClearedStays(env, boot, acts, act, tid, req, k, k);
  }

  lemma NewStays(
    env: Env, boot: Boot, acts: seq<Label>, act: Label, tid: nat, req: Request, round: RoundId, last: nat)
    requires env.cfg.bip.AllowsSomething() && last <= |acts| && NewAt(env, boot, acts, tid, req, round, last)
    ensures NewAt(env, boot, acts + [act], tid, req, round, last)
  {
    hide SnappedBefore;
    var registered: set<OutPoint> :|
      req.op !in registered && SnappedBefore(env, boot, acts, tid, req, registered, round, last);
    SnappedStays(env, boot, acts, act, tid, req, registered, round, last, last);
  }

  lemma VettedStays(
    env: Env, boot: Boot, acts: seq<Label>, act: Label, tid: nat, req: Request, round: RoundId, coin: UtxoDetails,
    last: nat, later: nat)
    requires env.cfg.bip.AllowsSomething() && last <= |acts| && last <= later <= |acts| + 1
    requires VettedBefore(env, boot, acts, tid, req, round, coin, last)
    ensures VettedBefore(env, boot, acts + [act], tid, req, round, coin, later)
  {
    hide NewAt;
    var k: nat :| k < last && Reports(acts[k], tid, coin) && NewAt(env, boot, acts, tid, req, round, k);
    assert (acts + [act])[k] == acts[k];
    NewStays(env, boot, acts, act, tid, req, round, k);
  }

  lemma TaskVettedStays(env: Env, boot: Boot, acts: seq<Label>, act: Label, tid: nat, task: Task)
    requires env.cfg.bip.AllowsSomething() && TaskVetted(env, boot, acts, tid, task)
    ensures TaskVetted(env, boot, acts + [act], tid, task)
  {
    hide ArrivedBefore, ClearedBefore, SnappedBefore, VettedBefore;
    if task.InputRequest? {
      var req, n := RequestOf(task), |acts|;
      match task.stage
      case Arrived => ArrivedStays(env, boot, acts, act, tid, req, n, n + 1);
      case Unbanned => ClearedStays(env, boot, acts, act, tid, req, n, n + 1);
      case Snapshotted(registered, round) =>
        SnappedStays(env, boot, acts, act, tid, req, registered, round, n, n + 1);
      case Validated(coin, round) => VettedStays(env, boot, acts, act, tid, req, round, coin, n, n + 1);
    }
  }

  lemma CoinVettedStays(env: Env, boot: Boot, acts: seq<Label>, act: Label, e: Event)
    requires env.cfg.bip.AllowsSomething() && CoinVetted(env, boot, acts, e)
    ensures CoinVetted(env, boot, acts + [act], e)
  {
    hide VettedBefore, Run, Outpoints.Render;
    if e.Registered? {
      var tid: nat, op: OutPoint, k: nat :| Commits(env, boot, acts, e, tid, op, k);
      assert (acts + [act])[..k] == acts[..k];
      VettedStays(env, boot, acts, act, tid, Request(e.form, op, e.startRound), e.provenFor, e.coin, k, k);
      assert Commits(env, boot, acts + [act], e, tid, op, k);
    }
  }

  // -- one step ----------------------------------------------------------------------------

  // The request goes from one stage to the next by this very step.
  predicate Proceeds(env: Env, s: System, act: Label, tid: nat, from: Stage, req: Request, next: Stage) {
    match next
    case Arrived => false
    case Unbanned => from == Arrived && act == InputBanCheck(tid) && !BannedNow(env, s, req.op)
    case Snapshotted(registered, round) =>
      && from == Unbanned && act == InputSnapshot(tid)
      && round == s.round.id && registered == RegisteredOutpoints(s.round)
    case Validated(coin, round) =>
      from.Snapshotted? && from.round == round && req.op !in from.registered && Reports(act, tid, coin)
  }

  // A request of the next state is as it was, went one stage further, or is new.
  predicate GoesOn(env: Env, s: System, t: System, act: Label, tid: nat)
    requires tid in t.tasks
  {
    var task := t.tasks[tid];
    task.InputRequest? ==>
      || (tid in s.tasks && s.tasks[tid] == task)
      || (&& tid in s.tasks && s.tasks[tid].InputRequest? && RequestOf(s.tasks[tid]) == RequestOf(task)
          && Proceeds(env, s, act, tid, s.tasks[tid].stage, RequestOf(task), task.stage))
      || (&& task.stage == Arrived && act == InputArrives(tid, task.form)
          && Outpoints.Parse(task.form.utxo) == Some(task.op)
          && s.round.phase == InputReg && s.round.id == task.startRound)
  }

  lemma CheckGoesOn(env: Env, s: System, tid: nat, answer: TxOutAnswer)
    requires env.cfg.bip.AllowsSomething()
    ensures var t := CheckCoin(env, s, tid, answer);
            forall k :: k in t.tasks ==> GoesOn(env, s, t, InputValidate(tid, answer), k)
  {
    hide DispatchOwnershipProof, EstimateFeeShare, BannedNow, Outpoints.Parse, RegisteredOutpoints;
  }

  lemma RequestsGoOn(env: Env, s: System, act: Label)
    requires env.cfg.bip.AllowsSomething() && OfRequest(act) && !act.InputValidate?
    ensures var t := Step(env, s, act); forall tid :: tid in t.tasks ==> GoesOn(env, s, t, act, tid)
  {
    hide CommitInput, BannedNow, ValidateUtxo, RegistrationFloor, Outpoints.Parse, Outpoints.Render, EstimateFeeShare,
      RegisteredOutpoints, CheckCoin;
  }

  lemma StepGoesOn(env: Env, s: System, act: Label)
    requires env.cfg.bip.AllowsSomething()
    ensures var t := Step(env, s, act); forall tid :: tid in t.tasks ==> GoesOn(env, s, t, act, tid)
  {
    hide Step, GoesOn;
    if act.InputValidate? {
      CheckGoesOn(env, s, act.tid, act.answer);
      CheckDispatch(env, s, act);
    } else if OfRequest(act) {
      RequestsGoOn(env, s, act);
    } else {
      RestMakesNoRequests(env, s, act);
      OldGoOn(env, s, Step(env, s, act), act);
    }
  }

  lemma CheckDispatch(env: Env, s: System, act: Label)
    requires env.cfg.bip.AllowsSomething() && act.InputValidate?
    ensures Step(env, s, act) == CheckCoin(env, s, act.tid, act.answer)
  {
    hide CheckCoin;
  }

  lemma OldGoOn(env: Env, s: System, t: System, act: Label)
    requires forall tid :: tid in t.tasks && t.tasks[tid].InputRequest? ==>
               tid in s.tasks && t.tasks[tid] == s.tasks[tid]
    ensures forall tid :: tid in t.tasks ==> GoesOn(env, s, t, act, tid)
  {
    hide Outpoints.Parse, Proceeds;
  }

  // The new step is the last of the longer run.
  lemma NewestStep(acts: seq<Label>, act: Label)
    ensures (acts + [act])[..|acts|] == acts && (acts + [act])[|acts|] == act && |acts + [act]| == |acts| + 1
  {
  }

  lemma ProceedsIsVetted(
    env: Env, boot: Boot, acts: seq<Label>, act: Label, tid: nat, from: Stage, req: Request, next: Stage)
    requires env.cfg.bip.AllowsSomething()
    requires TaskVetted(env, boot, acts, tid, InputRequest(req.form, req.op, req.startRound, from))
    requires Proceeds(env, Run(env, boot, acts), act, tid, from, req, next)
    ensures TaskVetted(env, boot, acts + [act], tid, InputRequest(req.form, req.op, req.startRound, next))
  {
    hide Run, BannedNow, RegisteredOutpoints, ArrivedBefore, ClearedBefore, SnappedBefore, VettedBefore;
    var n, more := |acts|, acts + [act];
    NewestStep(acts, act);
    match next
    case Unbanned =>
      ArrivedStays(env, boot, acts, act, tid, req, n, n);
      ClearsLast(env, boot, more, tid, req, n);
    case Snapshotted(registered, round) =>
      ClearedStays(env, boot, acts, act, tid, req, n, n);
      SnapsLast(env, boot, more, tid, req, registered, round, n);
    case Validated(coin, round) =>
      SnappedStays(env, boot, acts, act, tid, req, from.registered, round, n, n);
      ReportsLast(env, boot, more, tid, req, from.registered, round, coin, n);
  }

  lemma ClearsLast(env: Env, boot: Boot, acts: seq<Label>, tid: nat, req: Request, k: nat)
    requires env.cfg.bip.AllowsSomething() && k < |acts|
    requires Clears(env, boot, acts, tid, req, k) && ArrivedBefore(env, boot, acts, tid, req, k)
    ensures ClearedBefore(env, boot, acts, tid, req, |acts|)
  {
    hide Clears, ArrivedBefore;
  }

  lemma SnapsLast(
    env: Env, boot: Boot, acts: seq<Label>, tid: nat, req: Request, registered: set<OutPoint>, round: RoundId, k: nat)
    requires env.cfg.bip.AllowsSomething() && k < |acts|
    requires Snaps(env, boot, acts, tid, registered, round, k) && ClearedBefore(env, boot, acts, tid, req, k)
    ensures SnappedBefore(env, boot, acts, tid, req, registered, round, |acts|)
  {
    hide Snaps, ClearedBefore;
  }

  lemma ReportsLast(
    env: Env, boot: Boot, acts: seq<Label>, tid: nat, req: Request, registered: set<OutPoint>, round: RoundId,
    coin: UtxoDetails, k: nat)
    requires env.cfg.bip.AllowsSomething() && k < |acts| && Reports(acts[k], tid, coin)
    requires req.op !in registered && SnappedBefore(env, boot, acts, tid, req, registered, round, k)
    ensures VettedBefore(env, boot, acts, tid, req, round, coin, |acts|)
  {
    hide SnappedBefore;
    assert NewAt(env, boot, acts, tid, req, round, k);
  }

  lemma TaskStaysVetted(env: Env, boot: Boot, acts: seq<Label>, act: Label, t: System, tid: nat)
    requires env.cfg.bip.AllowsSomething()
    requires var s := Run(env, boot, acts);
             && AllVetted(env, boot, acts, s) && tid in t.tasks && GoesOn(env, s, t, act, tid)
    ensures TaskVetted(env, boot, acts + [act], tid, t.tasks[tid])
  {
    hide Run, CoinVetted, TaskVetted, Proceeds, Outpoints.Parse;
    var s, task := Run(env, boot, acts), t.tasks[tid];
    if !task.InputRequest? {
      WorkIsVetted(env, boot, acts + [act], tid, task);
    } else if tid in s.tasks && s.tasks[tid] == task {
      TaskVettedStays(env, boot, acts, act, tid, task);
    } else if tid in s.tasks && s.tasks[tid].InputRequest? && RequestOf(s.tasks[tid]) == RequestOf(task)
              && Proceeds(env, s, act, tid, s.tasks[tid].stage, RequestOf(task), task.stage) {
      ProceedsIsVetted(env, boot, acts, act, tid, s.tasks[tid].stage, RequestOf(task), task.stage);
    } else {
      NewestStep(acts, act);
      ArrivesLast(env, boot, acts + [act], tid, task, |acts|);
    }
  }

  lemma WorkIsVetted(env: Env, boot: Boot, acts: seq<Label>, tid: nat, task: Task)
    requires env.cfg.bip.AllowsSomething() && !task.InputRequest?
    ensures TaskVetted(env, boot, acts, tid, task)
  {
  }

  lemma ArrivesLast(env: Env, boot: Boot, acts: seq<Label>, tid: nat, task: Task, k: nat)
    requires env.cfg.bip.AllowsSomething() && k < |acts|
    requires task.InputRequest? && task.stage == Arrived && Arrives(env, boot, acts, tid, RequestOf(task), k)
    ensures TaskVetted(env, boot, acts, tid, task)
  {
    hide Arrives;
  }

  lemma LogStaysVetted(env: Env, boot: Boot, acts: seq<Label>, act: Label)
    requires env.cfg.bip.AllowsSomething() && AllVetted(env, boot, acts, Run(env, boot, acts))
    ensures var t := Step(env, Run(env, boot, acts), act);
            forall i :: 0 <= i < |t.log| ==> CoinVetted(env, boot, acts + [act], t.log[i])
  {
    hide Run, Step, CoinVetted, TaskVetted, CommitRequest, Outpoints.Render;
    var s := Run(env, boot, acts);
    var t := Step(env, s, act);
    forall i | 0 <= i < |s.log| ensures CoinVetted(env, boot, acts + [act], s.log[i]) {
      CoinVettedStays(env, boot, acts, act, s.log[i]);
    }
    if act.InputCommits? {
      CommitDispatch(env, s, act);
      CommitRegisters(env, s, act.tid);
      if t.log != s.log {
        CommitIsVetted(env, boot, acts, act, t.log[|s.log|]);
        assert t.log == s.log + [t.log[|s.log|]];
      }
    } else {
      OthersRegisterNobody(env, s, act);
      forall k | |s.log| <= k < |t.log| ensures CoinVetted(env, boot, acts + [act], t.log[k]) {
        NothingToVet(env, boot, acts + [act], t.log[k]);
      }
    }
  }

  lemma CommitIsVetted(env: Env, boot: Boot, acts: seq<Label>, act: Label, e: Event)
    requires env.cfg.bip.AllowsSomething() && act.InputCommits? && e.Registered?
    requires var s := Run(env, boot, acts);
             && act.tid in s.tasks && s.tasks[act.tid].InputRequest?
             && TaskVetted(env, boot, acts, act.tid, s.tasks[act.tid])
             && s.tasks[act.tid].stage == Validated(e.coin, e.provenFor) && s.tasks[act.tid].form == e.form
             && s.tasks[act.tid].startRound == e.startRound && e.utxo == Outpoints.Render(s.tasks[act.tid].op)
             && e.id == s.round.id
    ensures CoinVetted(env, boot, acts + [act], e)
  {
    hide Run, VettedBefore, Outpoints.Render;
    var op := Run(env, boot, acts).tasks[act.tid].op;
    NewestStep(acts, act);
    VettedStays(env, boot, acts, act, act.tid, Request(e.form, op, e.startRound), e.provenFor, e.coin, |acts|, |acts|);
    assert Commits(env, boot, acts + [act], e, act.tid, op, |acts|);
  }

  lemma NothingToVet(env: Env, boot: Boot, acts: seq<Label>, e: Event)
    requires env.cfg.bip.AllowsSomething() && !e.Registered?
    ensures CoinVetted(env, boot, acts, e)
  {
  }

  // -- every run ------------------------------------------------------------------------------

  // Behind every coin a run registers lie, in this order: a request that came
  // while its round took inputs, a ban check that found the coin not banned, a
  // snapshot that did not hold it of the round its proof was made for, the
  // node's report of it with just this value and script, and the commit.
  lemma {:induction false} EveryCoinWasVetted(env: Env, boot: Boot, acts: seq<Label>)
    requires env.cfg.bip.AllowsSomething()
    ensures AllVetted(env, boot, acts, Run(env, boot, acts))
    decreases |acts|
  {
    hide Step, TaskVetted, CoinVetted, GoesOn;
    if acts != [] {
      var before, act := acts[..|acts| - 1], acts[|acts| - 1];
      assert acts == before + [act];
      EveryCoinWasVetted(env, boot, before);
      var s, t := Run(env, boot, before), Run(env, boot, acts);
      StepGoesOn(env, s, act);
      LogStaysVetted(env, boot, before, act);
      forall tid | tid in t.tasks ensures TaskVetted(env, boot, acts, tid, t.tasks[tid]) {
        TaskStaysVetted(env, boot, before, act, t, tid);
      }
    }
  }

  // The snapshot holds exactly the outpoints whose keys are registered.
  lemma SnapshotIsExact(env: Env, r: Round, op: OutPoint)
    requires env.cfg.bip.AllowsSomething() && RoundOk(env, r)
    ensures op in RegisteredOutpoints(r) <==> r.inner.Some? && Outpoints.Render(op) in r.inner.value.inputs
  {
    hide Outpoints.Render, Outpoints.Parse, OutputsOk, CountsOk, SigningOk, RegistrationFloor;
    Outpoints.RenderParses(op);
    if r.inner.Some? {
      forall k | k in r.inner.value.inputs && Outpoints.Parse(k) == Some(op) ensures k == Outpoints.Render(op) {
        assert InputOk(env, k, r.inner.value.inputs[k]);
      }
    }
  }
}
