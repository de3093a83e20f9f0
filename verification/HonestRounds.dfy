// An honest round completes: participants with valid coins, tokens and
// signatures take an idle coordinator through every phase to a broadcast.
module HonestRounds {
  import opened Base
  import opened Fees
  import opened Transactions
  import opened World
  import opened Ownership
  import opened Rounds
  import opened Blame
  import opened Canonical
  import opened Assembly
  import opened RoundInvariant
  import opened SigningRound
  import opened Protocol
  import opened Changes
  import opened Steps
  import opened Results
  import opened Progress
  import opened Restarting
  import Outpoints

  // -- participants -----------------------------------------------------------------

  // Everything one participant sends in a round, and what the node says of its coin.
  datatype Player = Player(
    form: InputForm, op: OutPoint, answer: TxOutAnswer, details: UtxoDetails, output: OutputRequest,
    signing: SignRequest)

  function KeyOf(p: Player): string {
    Outpoints.Render(p.op)
  }

  function RegOf(p: Player): RegisteredInput {
    RegisteredInput(KeyOf(p), p.form.changeAddress, p.details.script, p.details.valueSats, p.details.scriptType)
  }

  function CastInputs(cast: seq<Player>): map<string, RegisteredInput> {
    if cast == [] then map[]
    else CastInputs(cast[..|cast| - 1])[KeyOf(cast[|cast| - 1]) := RegOf(cast[|cast| - 1])]
  }

  function CastOutputs(cast: seq<Player>): seq<RegisteredOutput> {
    seq(|cast|, i requires 0 <= i < |cast| => RegisteredOutput(cast[i].output.address, cast[i].output.amountSats))
  }

  function CastTokens(cast: seq<Player>): set<Token> {
    set p | p in cast :: p.output.token
  }

  function CastSigs(cast: seq<Player>): map<string, Bytes> {
    if cast == [] then map[]
    else CastSigs(cast[..|cast| - 1])[KeyOf(cast[|cast| - 1]) := cast[|cast| - 1].signing.signature]
  }

  // A coin that passes every check of registration in round `id`.
  predicate GoodInput(env: Env, key: Key, id: RoundId, p: Player)
    requires env.cfg.bip.AllowsSomething()
  {
    && Outpoints.Parse(p.form.utxo) == Some(p.op)
    && p.form.blinded.Some? && |p.form.blinded.value| in {256, 512} && p.form.proof.Some?
    && ValidateUtxo(env, p.op, {}, EstimateFeeShare(env.cfg.bip, env.cfg.minParticipants, env.cfg.feeRate),
         p.form.proof.value, id, p.answer) == Ok(p.details)
    && env.parseAddress(p.form.changeAddress).Some?
    && env.blindSign(key, p.form.blinded.value).Some?
  }

  // A signature that verifies at the input of its own outpoint.
  ghost predicate VerifiesAt(env: Env, psbt: Psbt, op: OutPoint, st: ScriptType, sig: Bytes) {
    forall i :: 0 <= i < |psbt.unsigned.inputs| && psbt.unsigned.inputs[i].previousOutput == op ==>
      Witnesses(env, psbt, i, st, sig)
  }

  ghost predicate GoodSignature(env: Env, secret: Secret, psbt: Psbt, p: Player) {
    && Outpoints.Parse(p.signing.utxo) == Some(p.op) && |p.signing.token| == 32
    && env.sessionToken(secret, p.op) == p.signing.token
    && VerifiesAt(env, psbt, p.op, p.details.scriptType, p.signing.signature)
  }

  // Whatever witnesses it carries, the transaction is on this side of the
  // fee-rate ceiling.
  ghost predicate AtCeiling(env: Env, psbt: Psbt, below: bool) {
    forall tx :: Strip(tx) == psbt.unsigned ==> env.feeRateOk(tx, FeeLeft(psbt)) == below
  }

  ghost predicate CeilingOf(env: Env, cast: seq<Player>, below: bool) {
    forall psbt :: Canon(env, CastInputs(cast), CastOutputs(cast)) == Some(psbt) ==> AtCeiling(env, psbt, below)
  }

  ghost predicate Distinct(cast: seq<Player>) {
    forall i, j :: 0 <= i < j < |cast| ==>
      cast[i].op != cast[j].op && cast[i].output.token != cast[j].output.token
  }

  // Players who do everything right in round `id` under these keys.
  ghost predicate GoodCast(env: Env, key: Key, secret: Secret, id: RoundId, cast: seq<Player>)
    requires env.cfg.bip.AllowsSomething()
  {
    && env.cfg.minParticipants <= |cast| <= env.cfg.maxParticipants
    && Distinct(cast)
    && (forall i :: 0 <= i < |cast| ==> GoodInput(env, key, id, cast[i]) && Redeemable(env, key, cast[i].output))
    && GoodSigning(env, secret, cast)
  }

  ghost predicate GoodSigning(env: Env, secret: Secret, cast: seq<Player>) {
    forall psbt :: Canon(env, CastInputs(cast), CastOutputs(cast)) == Some(psbt) ==>
      forall i :: 0 <= i < |cast| ==> GoodSignature(env, secret, psbt, cast[i])
  }

  ghost predicate HasKey(cast: seq<Player>, key: string) {
    exists i :: 0 <= i < |cast| && KeyOf(cast[i]) == key
  }

  lemma HasKeyStep(cast: seq<Player>, key: string)
    requires cast != []
    ensures HasKey(cast, key) <==> HasKey(cast[..|cast| - 1], key) || KeyOf(cast[|cast| - 1]) == key
  {
    hide KeyOf;
    var init := cast[..|cast| - 1];
    if HasKey(init, key) {
      var i :| 0 <= i < |init| && KeyOf(init[i]) == key;
      assert cast[i] == init[i];
    }
    if HasKey(cast, key) {
      var i :| 0 <= i < |cast| && KeyOf(cast[i]) == key;
      assert i < |init| ==> init[i] == cast[i];
    }
  }

  lemma {:induction false} CastKeys(cast: seq<Player>, key: string)
    ensures key in CastInputs(cast) <==> HasKey(cast, key)
    ensures key in CastSigs(cast) <==> HasKey(cast, key)
  {
    hide KeyOf, RegOf, HasKey;
    if cast == [] {
      NobodyPlays(key);
    } else {
      CastKeys(cast[..|cast| - 1], key);
      HasKeyStep(cast, key);
    }
  }

  lemma NobodyPlays(key: string)
    ensures !HasKey([], key)
  {
  }

  // Distinct outpoints are distinct keys.
  lemma LastIsNew(cast: seq<Player>, k: nat)
    requires Distinct(cast) && k < |cast|
    ensures !HasKey(cast[..k], KeyOf(cast[k]))
  {
    hide Outpoints.Render;
    if HasKey(cast[..k], KeyOf(cast[k])) {
      var i :| 0 <= i < k && KeyOf(cast[..k][i]) == KeyOf(cast[k]);
      Outpoints.RenderIsInjective(cast[i].op, cast[k].op);
    }
  }

  lemma DistinctPrefix(cast: seq<Player>, k: nat)
    requires Distinct(cast) && k <= |cast|
    ensures Distinct(cast[..k])
  {
  }

  lemma {:induction false} CastSize(cast: seq<Player>)
    requires Distinct(cast)
    ensures |CastInputs(cast)| == |cast| && |CastSigs(cast)| == |cast|
    ensures CastSigs(cast).Keys == CastInputs(cast).Keys
  {
    hide KeyOf, RegOf, HasKey, Distinct;
    forall key ensures key in CastSigs(cast) <==> key in CastInputs(cast) {
      CastKeys(cast, key);
    }
    if cast != [] {
      var last := |cast| - 1;
      DistinctPrefix(cast, last);
      CastSize(cast[..last]);
      LastIsNew(cast, last);
      CastKeys(cast[..last], KeyOf(cast[last]));
      assert CastInputs(cast).Keys == CastInputs(cast[..last]).Keys + {KeyOf(cast[last])};
      assert CastSigs(cast).Keys == CastSigs(cast[..last]).Keys + {KeyOf(cast[last])};
    }
  }

  lemma {:induction false} CastReg(cast: seq<Player>, i: nat)
    requires Distinct(cast) && i < |cast|
    ensures KeyOf(cast[i]) in CastInputs(cast) && CastInputs(cast)[KeyOf(cast[i])] == RegOf(cast[i])
  {
    hide KeyOf, RegOf, HasKey, Distinct;
    var last := |cast| - 1;
    if i < last {
      DistinctPrefix(cast, last);
      CastReg(cast[..last], i);
      LastIsNew(cast, last);
      CastKeys(cast[..last], KeyOf(cast[last]));
    }
  }

  // -- steps in a row ------------------------------------------------------------------

  lemma {:induction false} ExecIsSound(env: Env, s: System, more: seq<Label>)
    requires Sane(env.cfg) && Core(env, s) && Covered(s) && Remembered(s)
    ensures Core(env, Exec(env, s, more)) && Covered(Exec(env, s, more)) && Remembered(Exec(env, s, more))
    decreases |more|
  {
    hide Core, Covered, Remembered, Step, Change;
    if more != [] {
      StepIsChange(env, s, more[0]);
      SteppedCore(env, s, Step(env, s, more[0]));
      StepKeepsCovered(env, s, more[0]);
      StepKeepsRemembered(env, s, more[0]);
      ExecIsSound(env, Step(env, s, more[0]), more[1..]);
    }
  }

  lemma {:induction false} ExecConcat(env: Env, s: System, a: seq<Label>, b: seq<Label>)
    requires env.cfg.bip.AllowsSomething()
    ensures Exec(env, s, a + b) == Exec(env, Exec(env, s, a), b)
    decreases |a|
  {
    hide Step;
    if a == [] {
      assert a + b == b;
    } else {
      assert (a + b)[1..] == a[1..] + b;
      ExecConcat(env, Step(env, s, a[0]), a[1..], b);
    }
  }

  lemma ExecOne(env: Env, s: System, act: Label)
    requires env.cfg.bip.AllowsSomething()
    ensures Exec(env, s, [act]) == Step(env, s, act)
  {
    hide Step, Exec;
    ExecFirst(env, s, act, []);
    ExecNothing(env, Step(env, s, act));
    assert [act] + [] == [act];
  }

  // -- input registration ------------------------------------------------------------------

  // The same state with this request at this stage, begun in round `start`.
  function WithRequest(s: System, tid: nat, p: Player, start: RoundId, stage: Stage): System {
    s.(tasks := s.tasks[tid := InputRequest(p.form, p.op, start, stage)])
  }

  lemma RequestArrives(s: System, tid: nat, p: Player)
    requires s.round.phase == InputReg && tid !in s.tasks && Outpoints.Parse(p.form.utxo) == Some(p.op)
    ensures AcceptInput(s, tid, p.form) == WithRequest(s, tid, p, s.round.id, Arrived)
  {
    hide Outpoints.Parse;
  }

  lemma RestageRequest(s: System, tid: nat, p: Player, start: RoundId, stage: Stage, next: Stage)
    ensures AtStage(WithRequest(s, tid, p, start, stage), tid)
    ensures WithStage(WithRequest(s, tid, p, start, stage), tid, next) == WithRequest(s, tid, p, start, next)
  {
    var a, b := WithStage(WithRequest(s, tid, p, start, stage), tid, next), WithRequest(s, tid, p, start, next);
    assert a.tasks == b.tasks;
  }

  lemma RequestIsUnbanned(env: Env, s: System, tid: nat, p: Player, start: RoundId)
    requires !BannedNow(env, s, p.op)
    requires p.form.blinded.Some? && |p.form.blinded.value| in {256, 512} && p.form.proof.Some?
    ensures CheckBan(env, WithRequest(s, tid, p, start, Arrived), tid) == WithRequest(s, tid, p, start, Unbanned)
  {
    hide Outpoints.Render;
    RestageRequest(s, tid, p, start, Arrived, Unbanned);
    assert BannedNow(env, WithRequest(s, tid, p, start, Arrived), p.op) == BannedNow(env, s, p.op);
  }

  lemma RequestSnapshots(s: System, tid: nat, p: Player, start: RoundId)
    ensures SnapshotInputs(WithRequest(s, tid, p, start, Unbanned), tid)
            == WithRequest(s, tid, p, start, Snapshotted(RegisteredOutpoints(s.round), s.round.id))
  {
    hide RegisteredOutpoints;
    RestageRequest(s, tid, p, start, Unbanned, Snapshotted(RegisteredOutpoints(s.round), s.round.id));
  }

  lemma RequestValidates(
    env: Env, s: System, tid: nat, p: Player, start: RoundId, key: Key, registered: set<OutPoint>)
    requires env.cfg.bip.AllowsSomething() && GoodInput(env, key, s.round.id, p) && p.op !in registered
    ensures CheckCoin(env, WithRequest(s, tid, p, start, Snapshotted(registered, s.round.id)), tid, p.answer)
            == WithRequest(s, tid, p, start, Validated(p.details, s.round.id))
  {
    hide EstimateFeeShare, DispatchOwnershipProof, Outpoints.Parse;
    RestageRequest(s, tid, p, start, Snapshotted(registered, s.round.id), Validated(p.details, s.round.id));
  }

  // The round after `p` joined it.
  function Joining(env: Env, r: Round, p: Player): Round
    requires r.inner.Some?
  {
    Round(if r.count + 1 >= env.cfg.maxParticipants then OutputReg else InputReg, r.id, r.count + 1, r.publicKey,
      Some(r.inner.value.(inputs := r.inner.value.inputs[KeyOf(p) := RegOf(p)])))
  }

  ghost predicate CanJoin(env: Env, r: Round, p: Player)
    requires env.cfg.bip.AllowsSomething()
  {
    && r.phase == InputReg && r.inner.Some? && r.count < env.cfg.maxParticipants
    && KeyOf(p) !in r.inner.value.inputs
    && GoodInput(env, r.inner.value.key, r.id, p)
  }

  // The history says that `p` joined, by a request of round `start` whose coin
  // was shown to be owned in round `provenFor`.
  ghost predicate RecordsJoining(env: Env, s: System, t: System, p: Player, start: RoundId, provenFor: RoundId) {
    && |t.log| == |s.log| + 1 && t.log[..|s.log|] == s.log
    && var e := t.log[|s.log|];
       && e.Registered? && e.id == s.round.id && e.utxo == KeyOf(p)
       && e.startRound == start && e.provenFor == provenFor && e.wasBanned == BannedNow(env, s, p.op)
  }

  lemma RequestCommits(env: Env, s: System, tid: nat, p: Player, start: RoundId, provenFor: RoundId)
    requires env.cfg.bip.AllowsSomething() && CanJoin(env, s.round, p) && tid !in s.tasks
    ensures var t := CommitRequest(env, WithRequest(s, tid, p, start, Validated(p.details, provenFor)), tid);
            && t.round == Joining(env, s.round, p) && Steady(s, t)
            && RecordsJoining(env, s, t, p, start, provenFor)
  {
    hide Outpoints.Render, Outpoints.Parse, ValidateUtxo, EstimateFeeShare, BannedNow;
    var t := CommitRequest(env, WithRequest(s, tid, p, start, Validated(p.details, provenFor)), tid);
    SameBan(env, s, tid, p, start, Validated(p.details, provenFor));
    assert t.log[..|s.log|] == s.log;
  }

  lemma SameBan(env: Env, s: System, tid: nat, p: Player, start: RoundId, stage: Stage)
    ensures BannedNow(env, WithRequest(s, tid, p, start, stage), p.op) == BannedNow(env, s, p.op)
  {
    hide Outpoints.Render;
  }

  // A parsed key in the map would be our own.
  lemma NewIsUnregistered(env: Env, r: Round, p: Player)
    requires env.cfg.bip.AllowsSomething() && RoundOk(env, r) && r.inner.Some?
    requires KeyOf(p) !in r.inner.value.inputs
    ensures p.op !in RegisteredOutpoints(r)
  {
    hide Outpoints.Render, Outpoints.Parse, OutputsOk, CountsOk, SigningOk, RegistrationFloor;
    forall k | k in r.inner.value.inputs ensures Outpoints.Parse(k) != Some(p.op) {
      assert InputOk(env, k, r.inner.value.inputs[k]);
    }
  }

  // Labels that neither take time nor fire a timer nor end a round.
  predicate Serene(act: Label) {
    MonitorStep(act) || OfRequest(act) || act.OutputPosted?
  }

  ghost predicate AllSerene(more: seq<Label>) {
    forall i :: 0 <= i < |more| ==> Serene(more[i])
  }

  // Or signatures, each with an order of all `n` outpoints.
  predicate Calm(act: Label, n: nat) {
    Serene(act) || (act.SignPosted? && |act.orders.snapshot| == n)
  }

  ghost predicate AllCalm(more: seq<Label>, n: nat) {
    forall i :: 0 <= i < |more| ==> Calm(more[i], n)
  }

  lemma InputDispatch(env: Env, s: System, tid: nat, form: InputForm, answer: TxOutAnswer)
    requires env.cfg.bip.AllowsSomething()
    ensures Step(env, s, InputArrives(tid, form)) == AcceptInput(s, tid, form)
    ensures Step(env, s, InputBanCheck(tid)) == CheckBan(env, s, tid)
    ensures Step(env, s, InputSnapshot(tid)) == SnapshotInputs(s, tid)
    ensures Step(env, s, InputValidate(tid, answer)) == CheckCoin(env, s, tid, answer)
    ensures Step(env, s, InputCommits(tid)) == CommitRequest(env, s, tid)
  {
    hide AcceptInput, CheckBan, SnapshotInputs, CheckCoin, CommitRequest;
  }

  // A request that has passed its ban check joins the round in three steps,
  // whichever round it began in.
  lemma RequestJoins(env: Env, s: System, tid: nat, p: Player, start: RoundId) returns (more: seq<Label>)
    requires Sane(env.cfg) && RoundOk(env, s.round) && CanJoin(env, s.round, p) && tid !in s.tasks
    ensures var t := Exec(env, WithRequest(s, tid, p, start, Unbanned), more);
            && t.round == Joining(env, s.round, p) && Steady(s, t)
            && RecordsJoining(env, s, t, p, start, s.round.id)
    ensures AllSerene(more)
  {
    hide RoundOk, Step, Exec, WithRequest, BannedNow, Outpoints.Render, Outpoints.Parse, ValidateUtxo, EstimateFeeShare,
      SnapshotInputs, CheckCoin, CommitRequest, RegisteredOutpoints, Joining, Steady;
    var registered := RegisteredOutpoints(s.round);
    NewIsUnregistered(env, s.round, p);
    RequestSnapshots(s, tid, p, start);
    RequestValidates(env, s, tid, p, start, s.round.inner.value.key, registered);
    RequestCommits(env, s, tid, p, start, s.round.id);
    var shot := WithRequest(s, tid, p, start, Snapshotted(registered, s.round.id));
    var valid := WithRequest(s, tid, p, start, Validated(p.details, s.round.id));
    InputDispatch(env, WithRequest(s, tid, p, start, Unbanned), tid, p.form, p.answer);
    InputDispatch(env, shot, tid, p.form, p.answer);
    InputDispatch(env, valid, tid, p.form, p.answer);
    more := [InputCommits(tid)];
    ExecOne(env, valid, InputCommits(tid));
    more := Prepend(env, shot, InputValidate(tid, p.answer), more);
    more := Prepend(env, WithRequest(s, tid, p, start, Unbanned), InputSnapshot(tid), more);
  }

  // A request arrives and passes its ban check.
  lemma RequestStarts(env: Env, s: System, tid: nat, p: Player) returns (more: seq<Label>)
    requires Sane(env.cfg) && CanJoin(env, s.round, p) && !BannedNow(env, s, p.op) && tid !in s.tasks
    ensures Exec(env, s, more) == WithRequest(s, tid, p, s.round.id, Unbanned)
    ensures AllSerene(more)
  {
    hide Step, Exec, WithRequest, BannedNow, Outpoints.Render, Outpoints.Parse, ValidateUtxo, EstimateFeeShare,
      AcceptInput, CheckBan;
    RequestArrives(s, tid, p);
    RequestIsUnbanned(env, s, tid, p, s.round.id);
    InputDispatch(env, s, tid, p.form, p.answer);
    InputDispatch(env, WithRequest(s, tid, p, s.round.id, Arrived), tid, p.form, p.answer);
    more := [InputBanCheck(tid)];
    ExecOne(env, WithRequest(s, tid, p, s.round.id, Arrived), InputBanCheck(tid));
    more := Prepend(env, s, InputArrives(tid, p.form), more);
  }

  // A participant with a good, unbanned coin joins in five steps.
  lemma RegisterOne(env: Env, s: System, p: Player) returns (more: seq<Label>)
    requires Sane(env.cfg) && Core(env, s) && CanJoin(env, s.round, p) && !BannedNow(env, s, p.op)
    ensures Exec(env, s, more).round == Joining(env, s.round, p) && Steady(s, Exec(env, s, more))
    ensures AllSerene(more)
  {
    hide Core, RoundOk, Exec, WithRequest, BannedNow, Joining, Steady, CanJoin;
    CoreRoundOk(env, s);
    var tid := Unused(s.tasks.Keys);
    var starts := RequestStarts(env, s, tid, p);
    var joins := RequestJoins(env, s, tid, p, s.round.id);
    ExecConcat(env, s, starts, joins);
    more := starts + joins;
  }

  lemma Prepend(env: Env, s: System, act: Label, rest: seq<Label>) returns (more: seq<Label>)
    requires env.cfg.bip.AllowsSomething()
    ensures more == [act] + rest
    ensures Exec(env, s, more) == Exec(env, Step(env, s, act), rest)
  {
    hide Step;
    more := [act] + rest;
    ExecFirst(env, s, act, rest);
  }

  // -- the whole cast registers -------------------------------------------------------------

  // A started round with its keys, and the part of it that registration fills.
  function Filled(env: Env, id: RoundId, key: Key, secret: Secret, cast: seq<Player>, phase: Phase): Round {
    Round(phase, id, |cast|, Some(key), Some(Inner(key, secret, CastInputs(cast), {}, [], map[])))
  }

  // The first k participants have joined.
  function JoinedBy(env: Env, id: RoundId, key: Key, secret: Secret, cast: seq<Player>, k: nat): Round
    requires k <= |cast|
  {
    Filled(env, id, key, secret, cast[..k], if k >= env.cfg.maxParticipants then OutputReg else InputReg)
  }

  lemma NextJoins(env: Env, id: RoundId, key: Key, secret: Secret, cast: seq<Player>, k: nat)
    requires env.cfg.bip.AllowsSomething() && GoodCast(env, key, secret, id, cast) && k < |cast|
    ensures CanJoin(env, JoinedBy(env, id, key, secret, cast, k), cast[k])
    ensures Joining(env, JoinedBy(env, id, key, secret, cast, k), cast[k])
            == JoinedBy(env, id, key, secret, cast, k + 1)
  {
    hide KeyOf, RegOf, HasKey, Distinct, GoodInput, Redeemable, GoodSigning;
    LastIsNew(cast, k);
    CastKeys(cast[..k], KeyOf(cast[k]));
    assert cast[..k + 1][..k] == cast[..k];
  }

  ghost predicate NobodyIsBanned(env: Env, s: System, cast: seq<Player>) {
    forall i :: 0 <= i < |cast| ==> !BannedNow(env, s, cast[i].op)
  }

  lemma StaysUnbanned(env: Env, s: System, t: System, cast: seq<Player>)
    requires NobodyIsBanned(env, s, cast) && Steady(s, t)
    ensures NobodyIsBanned(env, t, cast)
  {
    hide Outpoints.Render;
    forall i | 0 <= i < |cast| ensures !BannedNow(env, t, cast[i].op) {
      assert !BannedNow(env, s, cast[i].op);
    }
  }

  // What `Exec` needs of its start, and keeps.
  ghost predicate Ready(env: Env, s: System)
    requires env.cfg.bip.AllowsSomething()
  {
    Core(env, s) && Covered(s) && Remembered(s)
  }

  lemma ExecIsReady(env: Env, s: System, more: seq<Label>)
    requires Sane(env.cfg) && Ready(env, s)
    ensures Ready(env, Exec(env, s, more))
  {
    hide Core, Covered, Remembered, Exec;
    ExecIsSound(env, s, more);
  }

  lemma {:induction false} RegisterFrom(
    env: Env, s: System, key: Key, secret: Secret, cast: seq<Player>, k: nat) returns (more: seq<Label>)
    requires Sane(env.cfg) && Ready(env, s) && GoodCast(env, key, secret, s.round.id, cast) && k <= |cast|
    requires s.round == JoinedBy(env, s.round.id, key, secret, cast, k) && NobodyIsBanned(env, s, cast)
    ensures Exec(env, s, more).round == JoinedBy(env, s.round.id, key, secret, cast, |cast|)
    ensures Steady(s, Exec(env, s, more)) && AllSerene(more)
    decreases |cast| - k
  {
    hide Core, Covered, Remembered, Exec, GoodCast, JoinedBy, CanJoin, Joining, BannedNow, Steady;
    if k == |cast| {
      more := [];
      ExecNothing(env, s);
      ItselfSteady(s);
    } else {
      NextJoins(env, s.round.id, key, secret, cast, k);
      var first := RegisterOne(env, s, cast[k]);
      var t := Exec(env, s, first);
      ExecIsReady(env, s, first);
      StaysUnbanned(env, s, t, cast);
      JoinedKeepsId(env, s.round.id, key, secret, cast, k + 1);
      var rest := RegisterFrom(env, t, key, secret, cast, k + 1);
      ExecConcat(env, s, first, rest);
      SteadyChain(s, t, Exec(env, t, rest));
      more := first + rest;
    }
  }

  lemma JoinedKeepsId(env: Env, id: RoundId, key: Key, secret: Secret, cast: seq<Player>, k: nat)
    requires k <= |cast|
    ensures JoinedBy(env, id, key, secret, cast, k).id == id
  {
  }

  // -- the quorum moves on ---------------------------------------------------------------------

  // With a quorum the clockwork takes the round to output registration.
  lemma {:induction false} QuorumMovesOn(env: Env, s: System) returns (more: seq<Label>)
    requires Sane(env.cfg) && Ready(env, s)
    requires s.round.phase == InputReg && s.round.count >= env.cfg.minParticipants
    ensures Exec(env, s, more).round == s.round.(phase := OutputReg) && Steady(s, Exec(env, s, more))
    decreases Distance(s)
  {
    hide Core, Covered, Remembered, Exec, Step, HasTimer, FireTimer, Steady, Distance, RoundOk;
    if HasTimer(s.tasks, s.round.phase, s.round.id) {
      var act := FireQuorum(env, s);
      SameRoundIsSteady(env, s, act);
      ExecOne(env, s, act);
      more := [act];
    } else {
      var act := MonitorNears(env, s);
      SameRoundIsSteady(env, s, act);
      ExecOne(env, s, act);
      ExecIsReady(env, s, [act]);
      var rest := QuorumMovesOn(env, Step(env, s, act));
      ExecFirst(env, s, act, rest);
      SteadyChain(s, Step(env, s, act), Exec(env, Step(env, s, act), rest));
      more := [act] + rest;
    }
  }

  lemma FireQuorum(env: Env, s: System) returns (act: Label)
    requires Sane(env.cfg) && Core(env, s)
    requires HasTimer(s.tasks, s.round.phase, s.round.id)
    requires s.round.phase == InputReg && s.round.count >= env.cfg.minParticipants
    ensures act.TimerFires? && Step(env, s, act).round == s.round.(phase := OutputReg)
  {
    hide Core, Step, FireTimer, OutputTimeout;
    var tid :| tid in s.tasks && s.tasks[tid] == Timer(s.round.phase, s.round.id);
    var newId := Unused(s.used);
    act := TimerFires(tid, newId);
    TimerStep(env, s, act);
    LiveTimerRound(env, s, tid, newId);
  }

  // -- output registration -----------------------------------------------------------------------

  // The first k outputs are in; the last one starts signing.
  function Collected(id: RoundId, key: Key, secret: Secret, cast: seq<Player>, k: nat): Round
    requires k <= |cast|
  {
    Round(if k >= |cast| > 0 then Signing else OutputReg, id, |cast|, Some(key),
      Some(Inner(key, secret, CastInputs(cast), CastTokens(cast[..k]), CastOutputs(cast[..k]), map[])))
  }

  lemma NextOutput(env: Env, id: RoundId, key: Key, secret: Secret, cast: seq<Player>, k: nat)
    requires Distinct(cast) && k < |cast| && Redeemable(env, key, cast[k].output)
    ensures PostOutput(env, Collected(id, key, secret, cast, k), cast[k].output)
            == Ok(Collected(id, key, secret, cast, k + 1))
  {
    hide CastInputs;
    assert cast[..k + 1] == cast[..k] + [cast[k]];
    assert CastTokens(cast[..k + 1]) == CastTokens(cast[..k]) + {cast[k].output.token};
    assert CastOutputs(cast[..k + 1])
        == CastOutputs(cast[..k]) + [RegisteredOutput(cast[k].output.address, cast[k].output.amountSats)];
    assert cast[k].output.token !in CastTokens(cast[..k]);
  }

  lemma OutputSteps(env: Env, s: System, req: OutputRequest)
    requires env.cfg.bip.AllowsSomething() && PostOutput(env, s.round, req).Ok?
    ensures Step(env, s, OutputPosted(req)).round == PostOutput(env, s.round, req).value
    ensures Steady(s, Step(env, s, OutputPosted(req)))
  {
    hide PostOutput;
  }

  lemma {:induction false} CollectFrom(
    env: Env, s: System, key: Key, secret: Secret, cast: seq<Player>, k: nat) returns (more: seq<Label>)
    requires Sane(env.cfg) && GoodCast(env, key, secret, s.round.id, cast) && k <= |cast|
    requires s.round == Collected(s.round.id, key, secret, cast, k)
    ensures Exec(env, s, more).round == Collected(s.round.id, key, secret, cast, |cast|)
    ensures Steady(s, Exec(env, s, more)) && AllSerene(more)
    decreases |cast| - k
  {
    hide Exec, Step, Steady, Collected, GoodInput, Redeemable, GoodSigning, PostOutput;
    if k == |cast| {
      more := [];
      ExecNothing(env, s);
      ItselfSteady(s);
    } else {
      var act := OutputPosted(cast[k].output);
      NextOutput(env, s.round.id, key, secret, cast, k);
      OutputSteps(env, s, cast[k].output);
      CollectedKeepsId(s.round.id, key, secret, cast, k + 1);
      var rest := CollectFrom(env, Step(env, s, act), key, secret, cast, k + 1);
      ExecFirst(env, s, act, rest);
      SteadyChain(s, Step(env, s, act), Exec(env, Step(env, s, act), rest));
      more := [act] + rest;
    }
  }

  lemma CollectedKeepsId(id: RoundId, key: Key, secret: Secret, cast: seq<Player>, k: nat)
    requires k <= |cast|
    ensures Collected(id, key, secret, cast, k).id == id
  {
  }

  // -- signing ---------------------------------------------------------------------------------------

  // The first k signatures are in; the last one puts the round in flight, if
  // the transaction is below the ceiling.
  function SignedBefore(id: RoundId, key: Key, secret: Secret, cast: seq<Player>, k: nat, below: bool): Round
    requires k <= |cast|
  {
    Round(if k >= |cast| && below then Broadcast else Signing, id, |cast|, Some(key),
      Some(Inner(key, secret, CastInputs(cast), CastTokens(cast), CastOutputs(cast), CastSigs(cast[..k]))))
  }

  lemma HonestIsAcceptable(env: Env, r: Round, psbt: Psbt, p: Player)
    requires InSigning(env, r, psbt) && GoodSignature(env, r.inner.value.secret, psbt, p)
    requires KeyOf(p) in r.inner.value.inputs && KeyOf(p) !in r.inner.value.sigs
    requires r.inner.value.inputs[KeyOf(p)].scriptType == p.details.scriptType
    ensures Acceptable(env, r, psbt, p.op, p.signing.signature, p.signing.token)
  {
    hide Outpoints.Render, Outpoints.Parse, Witnesses, Canon, SigsOk, Funded, Strip, SpendsExactly, InputsOk;
    Outpoints.RenderParses(p.op);
    CollectingFacts(env, r.inner.value, psbt);
    RegisteredHasPosition(psbt, r.inner.value.inputs, p.op);
  }

  // The ceiling decides what a complete signature set does.
  lemma CeilingDecides(
    env: Env, signed: Round, psbt: Psbt, orders: SignOrders, after: Round, outcome: SignOutcome, below: bool)
    requires InSigning(env, signed, psbt) && AtCeiling(env, psbt, below)
    requires RecordingOutcome(env, signed, psbt, orders, after, outcome)
    ensures after ==
            signed.(phase := if |signed.inner.value.sigs| >= signed.count && below then Broadcast else Signing)
    ensures |signed.inner.value.sigs| >= signed.count && below ==>
              outcome.ReadyToBroadcast? && outcome.outpoints == orders.snapshot
  {
    hide Canon, SigsOk, Funded, SpendsExactly, InputsOk, SignedTx, FeeLeft, FullySigned, Strip;
    InSigningFacts(env, signed, psbt);
    CollectingFacts(env, signed.inner.value, psbt);
    if |signed.inner.value.sigs| >= signed.count {
      PristineInputs(psbt, signed.inner.value.inputs);
      SignedTxIsCanonical(env, psbt, signed.inner.value.sigs);
      assert env.feeRateOk(SignedTx(env, psbt, signed.inner.value.sigs), FeeLeft(psbt)) == below;
    }
  }

  lemma PristineInputs(psbt: Psbt, inputs: map<string, RegisteredInput>)
    requires SpendsExactly(psbt, inputs)
    ensures forall i :: 0 <= i < |psbt.inputs| ==> Pristine(psbt.inputs[i])
  {
    hide Outpoints.Render, Pristine;
  }

  // One more honest signature.
  lemma SignOne(env: Env, s: System, psbt: Psbt, p: Player, below: bool) returns (act: Label)
    requires Sane(env.cfg) && Core(env, s) && InSigning(env, s.round, psbt) && AtCeiling(env, psbt, below)
    requires GoodSignature(env, s.round.inner.value.secret, psbt, p)
    requires KeyOf(p) in s.round.inner.value.inputs && KeyOf(p) !in s.round.inner.value.sigs
    requires s.round.inner.value.inputs[KeyOf(p)].scriptType == p.details.scriptType
    ensures var t := Step(env, s, act);
            var flies := below && |s.round.inner.value.sigs| + 1 >= s.round.count;
            && t.round ==
               WithSig(s.round, KeyOf(p), p.signing.signature).(phase := if flies then Broadcast else Signing)
            && Steady(s, t)
            && act.SignPosted? && |act.orders.snapshot| == |s.round.inner.value.inputs|
            && (flies ==> HasFinalize(t, act.tid) && act.tid !in s.tasks)
  {
    hide Core, Collecting, Acceptable, ProcessSign, TakeSignature, SignedEvent, AssembledEvent, WithSig, Step,
      RecordingOutcome, Outpoints.Parse, Outpoints.Render, VerifiesAt, InSigning, AtCeiling, Steady;
    HonestIsAcceptable(env, s.round, psbt, p);
    InSigningFacts(env, s.round, psbt);
    var tid := Unused(s.tasks.Keys);
    var order := SomeOrder(s.round.inner.value.inputs.Keys);
    var orders := SignOrders(order, order, order);
    EnumerationLength(order, s.round.inner.value.inputs.Keys);
    assert |s.round.inner.value.inputs.Keys| == |s.round.inner.value.inputs|;
    act := SignPosted(p.signing, orders, tid);
    SignatureStep(env, s, act);
    SignatureSplits(env, s, p.signing, orders, tid);
    SubmissionDecides(env, s.round, psbt, p.op, p.signing.signature, p.signing.token, orders);
    RecordingCollects(env, s.round, psbt, p.op, p.signing.signature, p.signing.token);
    var (after, outcome) := ProcessSign(env, s.round, p.op, p.signing.signature, p.signing.token, orders);
    var signed := WithSig(s.round, KeyOf(p), p.signing.signature);
    WithSigKeepsInputs(s.round, KeyOf(p), p.signing.signature);
    AcceptableOutcome(env, s.round, psbt, p.op, p.signing.signature, p.signing.token, orders, after, outcome);
    CeilingDecides(env, signed, psbt, orders, after, outcome, below);
    Differs(s.round, KeyOf(p), p.signing.signature);
    TookLeaves(env, s, p.op, p.signing.signature, orders, tid, after, outcome);
    SameRoundIsSteady(env, s, act);
  }

  lemma AcceptableOutcome(
    env: Env, r: Round, psbt: Psbt, op: OutPoint, sig: Bytes, token: Bytes, orders: SignOrders, after: Round,
    outcome: SignOutcome)
    requires SubmissionOutcome(env, r, psbt, op, sig, token, orders, after, outcome)
    requires Acceptable(env, r, psbt, op, sig, token)
    ensures RecordingOutcome(env, WithSig(r, Outpoints.Render(op), sig), psbt, orders, after, outcome)
  {
    hide Acceptable, RecordingOutcome, WithSig, Outpoints.Render;
  }

  // A finalize task for exactly the registered outpoints of the round in flight.
  ghost predicate HasFinalize(s: System, tid: nat) {
    && tid in s.tasks && s.tasks[tid].Finalize? && s.tasks[tid].round == s.round.id
    && s.round.inner.Some? && Enumerates(s.tasks[tid].outpoints, s.round.inner.value.inputs.Keys)
  }

  lemma TookLeaves(
    env: Env, s: System, op: OutPoint, sig: Bytes, orders: SignOrders, tid: nat, after: Round, outcome: SignOutcome)
    requires s.round.inner.Some? && OrdersFit(s.round, orders) && after != s.round && after.id == s.round.id
    ensures TookSignature(env, s, op, sig, orders, tid, after, outcome).round == after
    ensures outcome.ReadyToBroadcast? && outcome.outpoints == orders.snapshot
            && after.inner.Some? && after.inner.value.inputs == s.round.inner.value.inputs ==>
              HasFinalize(TookSignature(env, s, op, sig, orders, tid, after, outcome), tid)
  {
    hide SignedEvent, AssembledEvent;
  }

  lemma NextSignature(
    env: Env, id: RoundId, key: Key, secret: Secret, cast: seq<Player>, k: nat, below: bool)
    requires Distinct(cast) && k < |cast|
    ensures var r := SignedBefore(id, key, secret, cast, k, below);
            && |r.inner.value.inputs| == |cast|
            && KeyOf(cast[k]) in r.inner.value.inputs && KeyOf(cast[k]) !in r.inner.value.sigs
            && r.inner.value.inputs[KeyOf(cast[k])].scriptType == cast[k].details.scriptType
            && (|r.inner.value.sigs| + 1 >= r.count <==> k + 1 == |cast|)
            && WithSig(r, KeyOf(cast[k]), cast[k].signing.signature).(
                 phase := if below && k + 1 == |cast| then Broadcast else Signing)
               == SignedBefore(id, key, secret, cast, k + 1, below)
  {
    hide KeyOf, HasKey, Distinct;
    LastIsNew(cast, k);
    CastKeys(cast[..k], KeyOf(cast[k]));
    CastReg(cast, k);
    DistinctPrefix(cast, k);
    CastSize(cast[..k]);
    CastSize(cast);
    assert cast[..k + 1][..k] == cast[..k];
  }

  // The round's transaction is the cast's, and everybody's signature is good for it.
  lemma CastSigns(
    env: Env, r: Round, psbt: Psbt, key: Key, secret: Secret, cast: seq<Player>, k: nat, below: bool)
    requires env.cfg.bip.AllowsSomething() && GoodCast(env, key, secret, r.id, cast) && k < |cast|
    requires CeilingOf(env, cast, below)
    requires InSigning(env, r, psbt) && r == SignedBefore(r.id, key, secret, cast, k, below)
    ensures AtCeiling(env, psbt, below) && GoodSignature(env, secret, psbt, cast[k])
    ensures r.inner.Some? && r.inner.value.secret == secret
  {
    hide Canon, Collecting, GoodSignature, AtCeiling, GoodInput, Redeemable, Distinct, CastInputs, CastSigs,
      CastOutputs, CastTokens;
    CollectingFacts(env, r.inner.value, psbt);
  }

  lemma {:induction false} SignFrom(
    env: Env, s: System, key: Key, secret: Secret, cast: seq<Player>, k: nat, below: bool)
    returns (more: seq<Label>, tid: nat)
    requires Sane(env.cfg) && Ready(env, s) && GoodCast(env, key, secret, s.round.id, cast) && k < |cast|
    requires CeilingOf(env, cast, below)
    requires s.round == SignedBefore(s.round.id, key, secret, cast, k, below)
    ensures Exec(env, s, more).round == SignedBefore(s.round.id, key, secret, cast, |cast|, below)
    ensures Steady(s, Exec(env, s, more)) && (below ==> HasFinalize(Exec(env, s, more), tid))
    ensures AllCalm(more, |cast|)
    decreases |cast| - k
  {
    hide Core, Covered, Remembered, RoundOk, Exec, Step, Steady, SignedBefore, GoodInput, Redeemable, GoodSigning,
      Distinct, InSigning, GoodSignature, AtCeiling, CeilingOf, HasFinalize, WithSig;
    CoreRoundOk(env, s);
    SignedBeforeFacts(s.round.id, key, secret, cast, k, below);
    var psbt := SigningCollects(env, s.round);
    CastSigns(env, s.round, psbt, key, secret, cast, k, below);
    NextSignature(env, s.round.id, key, secret, cast, k, below);
    var act := SignOne(env, s, psbt, cast[k], below);
    var t := Step(env, s, act);
    ExecOne(env, s, act);
    if k + 1 == |cast| {
      more, tid := [act], act.tid;
    } else {
      ExecIsReady(env, s, [act]);
      SignedBeforeFacts(s.round.id, key, secret, cast, k + 1, below);
      var rest;
      rest, tid := SignFrom(env, t, key, secret, cast, k + 1, below);
      ExecFirst(env, s, act, rest);
      SteadyChain(s, t, Exec(env, t, rest));
      more := [act] + rest;
    }
  }

  lemma SignedBeforeFacts(id: RoundId, key: Key, secret: Secret, cast: seq<Player>, k: nat, below: bool)
    requires k <= |cast|
    ensures var r := SignedBefore(id, key, secret, cast, k, below);
            r.id == id && r.phase == if k == |cast| && below then Broadcast else Signing
  {
  }

  // -- the broadcast -----------------------------------------------------------------------------------

  // How the node takes the transaction: accepted, or refused with every coin
  // still unspent.
  predicate Blameless(result: BroadcastResult, n: nat) {
    result.NotSent? ==> |result.answers| == n && forall i :: 0 <= i < n ==> result.answers[i] == Unspent
  }

  lemma {:induction false} NothingSpent(outpoints: seq<string>, answers: seq<RpcAnswer>, errors: nat)
    requires |answers| == |outpoints| && forall i :: 0 <= i < |answers| ==> answers[i] == Unspent
    ensures Revalidate(outpoints, answers, errors) == []
  {
    hide Outpoints.Parse;
    if outpoints != [] {
      NothingSpent(outpoints[1..], answers[1..], 0);
      NothingSpent(outpoints[1..], answers[1..], errors);
    }
  }

  function OutcomeVerdict(env: Env, s: System, result: BroadcastResult): Verdict {
    match result
    case Sent => BroadcastSuccessVerdict(s.accounts)
    case NotSent(_) => BroadcastFailureVerdict(env, s.accounts, {}, s.now)
  }

  // The ending such a result makes.
  ghost predicate EndedWith(env: Env, s: System, t: System, result: BroadcastResult) {
    && t.round == NewIdle(t.round.id) && t.round.id !in s.used
    && |t.log| == |s.log| + 1 && t.log[..|s.log|] == s.log
    && var e := t.log[|s.log|];
       && e.Ended? && e.id == s.round.id && e.time == s.now && e.banned == {}
       && e.registered == Joined(s.round) && e.signers == SignedBy(s.round)
       && (if result.Sent? then e.cause == BroadcastSucceeded else e.cause.BroadcastFailed?)
       && t.accounts == OutcomeVerdict(env, s, result).accounts
       && e.armed == OutcomeVerdict(env, s, result).armed
  }

  lemma FinalizeDispatch(env: Env, s: System, tid: nat, result: BroadcastResult, newId: RoundId)
    requires env.cfg.bip.AllowsSomething()
    ensures Step(env, s, FinalizeEnds(tid, result, newId)) == FinishFinalize(env, s, tid, result, newId)
  {
    hide FinishFinalize;
  }

  lemma FinishOne(env: Env, s: System, tid: nat, result: BroadcastResult) returns (act: Label)
    requires env.cfg.bip.AllowsSomething() && s.round.phase == Broadcast && HasFinalize(s, tid)
    requires Blameless(result, |s.tasks[tid].outpoints|)
    ensures EndedWith(env, s, Step(env, s, act), result)
  {
    hide Step, BroadcastFailureVerdict, BroadcastSuccessVerdict, Revalidate, Enumerates;
    var newId := Unused(s.used);
    act := FinalizeEnds(tid, result, newId);
    FinalizeDispatch(env, s, tid, result, newId);
    EndingsReachIdle(s.round, newId);
    if result.NotSent? {
      NothingSpent(s.tasks[tid].outpoints, result.answers, 0);
      assert (set u | u in Revalidate(s.tasks[tid].outpoints, result.answers, 0)) == {};
    }
    assert FinishFinalize(env, s, tid, result, newId).log[..|s.log|] == s.log;
  }

  // -- main result ------------------------------------------------------------------------------------------

  // The stages of an honest round from a started one to the last signature.
  lemma SignedFrom(env: Env, s: System, key: Key, secret: Secret, cast: seq<Player>, below: bool)
    returns (more: seq<Label>, tid: nat)
    requires Sane(env.cfg) && Ready(env, s) && GoodCast(env, key, secret, s.round.id, cast)
    requires CeilingOf(env, cast, below)
    requires s.round == JoinedBy(env, s.round.id, key, secret, cast, 0) && NobodyIsBanned(env, s, cast)
    ensures Exec(env, s, more).round == SignedBefore(s.round.id, key, secret, cast, |cast|, below)
    ensures Steady(s, Exec(env, s, more)) && (below ==> HasFinalize(Exec(env, s, more), tid))
    ensures |cast| == env.cfg.maxParticipants ==> AllCalm(more, |cast|)
  {
    hide Core, Covered, Remembered, Ready, Exec, Steady, JoinedBy, Collected, SignedBefore, GoodInput, Redeemable,
      GoodSigning, CeilingOf, Distinct, HasFinalize, NobodyIsBanned, Calm;
    var id := s.round.id;
    var joins := RegisterFrom(env, s, key, secret, cast, 0);
    var t := Exec(env, s, joins);
    ExecIsReady(env, s, joins);
    var moves := CloseRegistration(env, t, id, key, secret, cast);
    var u := Exec(env, t, moves);
    ExecIsReady(env, t, moves);
    CollectedKeepsId(id, key, secret, cast, 0);
    var outputs := CollectFrom(env, u, key, secret, cast, 0);
    var v := Exec(env, u, outputs);
    ExecIsReady(env, u, outputs);
    CollectedIsSignedBefore(id, key, secret, cast, below);
    CollectedKeepsId(id, key, secret, cast, |cast|);
    var signs;
    signs, tid := SignFrom(env, v, key, secret, cast, 0, below);
    ExecConcat(env, s, joins, moves);
    ExecConcat(env, s, joins + moves, outputs);
    ExecConcat(env, s, joins + moves + outputs, signs);
    SteadyChain(s, t, u);
    SteadyChain(s, u, v);
    SteadyChain(s, v, Exec(env, v, signs));
    more := joins + moves + outputs + signs;
    SereneIsCalm(joins, |cast|);
    SereneIsCalm(outputs, |cast|);
    CalmTogether(joins, outputs, |cast|);
    CalmTogether(joins + outputs, signs, |cast|);
    assert moves == [] ==> more == joins + outputs + signs;
  }

  lemma SereneIsCalm(a: seq<Label>, n: nat)
    requires AllSerene(a)
    ensures AllCalm(a, n)
  {
  }

  lemma CalmTogether(a: seq<Label>, b: seq<Label>, n: nat)
    requires AllCalm(a, n) && AllCalm(b, n)
    ensures AllCalm(a + b, n)
  {
    hide Calm;
  }

  // Full or not, the registered round gets to output registration.
  lemma CloseRegistration(env: Env, s: System, id: RoundId, key: Key, secret: Secret, cast: seq<Player>)
    returns (more: seq<Label>)
    requires Sane(env.cfg) && Ready(env, s) && env.cfg.minParticipants <= |cast| <= env.cfg.maxParticipants
    requires s.round == JoinedBy(env, id, key, secret, cast, |cast|)
    ensures Exec(env, s, more).round == Collected(id, key, secret, cast, 0) && Steady(s, Exec(env, s, more))
    ensures |cast| >= env.cfg.maxParticipants ==> more == []
  {
    hide Ready, Exec, CastInputs;
    assert cast[..|cast|] == cast && cast[..0] == [];
    assert CastOutputs([]) == [] && CastTokens([]) == {};
    if |cast| >= env.cfg.maxParticipants {
      more := [];
      ExecNothing(env, s);
    } else {
      more := QuorumMovesOn(env, s);
    }
  }

  lemma CollectedIsSignedBefore(id: RoundId, key: Key, secret: Secret, cast: seq<Player>, below: bool)
    requires |cast| > 0
    ensures Collected(id, key, secret, cast, |cast|) == SignedBefore(id, key, secret, cast, 0, below)
  {
    hide CastInputs, CastTokens;
    assert cast[..|cast|] == cast && cast[..0] == [];
  }

  lemma InstalledIsJoined(env: Env, r: Round, key: Key, secret: Secret, cast: seq<Player>)
    requires r == NewIdle(r.id) && env.cfg.maxParticipants > 0
    ensures Install(r, key, secret) == JoinedBy(env, r.id, key, secret, cast, 0)
  {
    assert cast[..0] == [];
  }

  lemma IdleIsNew(env: Env, r: Round)
    requires env.cfg.bip.AllowsSomething() && RoundOk(env, r) && r.phase == Idle
    ensures r == NewIdle(r.id)
  {
  }

  // From any sound idle state the players sign their round.
  lemma SignaturesFrom(env: Env, s: System, key: Key, secret: Secret, cast: seq<Player>, below: bool)
    returns (more: seq<Label>, tid: nat)
    requires Sane(env.cfg) && Ready(env, s) && s.round.phase == Idle
    requires GoodCast(env, key, secret, s.round.id, cast) && NobodyIsBanned(env, s, cast)
    requires CeilingOf(env, cast, below)
    ensures var t := Exec(env, s, more);
            && Ready(env, t) && Steady(s, t)
            && t.round == SignedBefore(s.round.id, key, secret, cast, |cast|, below)
            && (below ==> HasFinalize(t, tid))
    ensures |cast| == env.cfg.maxParticipants && s.accounts.pausedUntil <= s.now ==> AllCalm(more, |cast|)
  {
    hide RoundOk, TasksOk, PcOk, Exec, Step, Covered, Remembered, Steady, JoinedBy, SignedBefore, GoodInput, Redeemable,
      GoodSigning, Distinct, NobodyIsBanned, CeilingOf, Install, Stepped, HasFinalize;
    IdleIsNew(env, s.round);
    InstalledIsJoined(env, s.round, key, secret, cast);
    var starts := StartFrom(env, s, key, secret);
    var t := Exec(env, s, starts);
    ExecIsReady(env, s, starts);
    StaysUnbanned(env, s, t, cast);
    JoinedKeepsId(env, s.round.id, key, secret, cast, 0);
    var signs;
    signs, tid := SignedFrom(env, t, key, secret, cast, below);
    SteadyChain(s, t, Exec(env, t, signs));
    ExecConcat(env, s, starts, signs);
    more := starts + signs;
    ExecIsReady(env, s, more);
    if |cast| == env.cfg.maxParticipants && s.accounts.pausedUntil <= s.now {
      CalmTogether(starts, signs, |cast|);
    }
  }

  // And bring it to a broadcast with the given result.
  lemma RoundFrom(env: Env, s: System, key: Key, secret: Secret, cast: seq<Player>, result: BroadcastResult)
    returns (more: seq<Label>, flight: System)
    requires Sane(env.cfg) && Ready(env, s) && s.round.phase == Idle
    requires GoodCast(env, key, secret, s.round.id, cast) && NobodyIsBanned(env, s, cast)
    requires CeilingOf(env, cast, true) && Blameless(result, |cast|)
    ensures Steady(s, flight) && flight.round == SignedBefore(s.round.id, key, secret, cast, |cast|, true)
    ensures EndedWith(env, flight, Exec(env, s, more), result)
    ensures Ready(env, Exec(env, s, more))
  {
    hide Ready, Exec, Step, Steady, SignedBefore, GoodInput, Redeemable, GoodSigning, Distinct, NobodyIsBanned,
      CeilingOf, EndedWith, Blameless;
    var signs, tid := SignaturesFrom(env, s, key, secret, cast, true);
    flight := Exec(env, s, signs);
    SignedBeforeFacts(s.round.id, key, secret, cast, |cast|, true);
    FinalizeSize(flight, tid, key, secret, cast);
    var act := FinishOne(env, flight, tid, result);
    ExecOne(env, flight, act);
    ExecConcat(env, s, signs, [act]);
    more := signs + [act];
    ExecIsReady(env, s, more);
  }

  lemma FinalizeSize(s: System, tid: nat, key: Key, secret: Secret, cast: seq<Player>)
    requires HasFinalize(s, tid) && Distinct(cast)
    requires s.round == SignedBefore(s.round.id, key, secret, cast, |cast|, true)
    ensures |s.tasks[tid].outpoints| == |cast|
  {
    hide Distinct;
    CastSize(cast);
    EnumerationLength(s.tasks[tid].outpoints, CastInputs(cast).Keys);
    assert |CastInputs(cast).Keys| == |CastInputs(cast)|;
  }

  // Every reachable idle state, every number of participants from the minimum
  // to the maximum, every mix of script types: good players complete their round.
  lemma HonestRoundCompletes(
    env: Env, boot: Boot, acts: seq<Label>, key: Key, secret: Secret, cast: seq<Player>)
    returns (more: seq<Label>, flight: System)
    requires Sane(env.cfg) && Run(env, boot, acts).round.phase == Idle
    requires GoodCast(env, key, secret, Run(env, boot, acts).round.id, cast) && CeilingOf(env, cast, true)
    requires NobodyIsBanned(env, Run(env, boot, acts), cast)
    ensures flight.round == SignedBefore(Run(env, boot, acts).round.id, key, secret, cast, |cast|, true)
    ensures EndedWith(env, flight, Run(env, boot, acts + more), Sent)
  {
    hide Run, Exec, Core, Covered, Remembered, EndedWith, SignedBefore, GoodCast, NobodyIsBanned, CeilingOf;
    RunIsSound(env, boot, acts);
    RunIsCovered(env, boot, acts);
    RunIsRemembered(env, boot, acts);
    more, flight := RoundFrom(env, Run(env, boot, acts), key, secret, cast, Sent);
    RunThenExec(env, boot, acts, more);
  }
}
