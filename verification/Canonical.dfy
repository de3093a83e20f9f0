// The canonical transaction of a round: built from whatever iteration of the
// input map, it is one and the same.
module Canonical {
  import opened Base
  import opened Transactions
  import opened InputOrder
  import opened World
  import opened Ownership
  import opened Rounds
  import Outpoints
  import CoinJoinTx
  import Fees

  // A registered input as registration leaves it.
  predicate InputOk(env: Env, key: string, reg: RegisteredInput)
    requires env.cfg.bip.AllowsSomething()
  {
    && reg.utxo == key
    && Outpoints.Parse(key).Some?
    && Outpoints.Render(Outpoints.Parse(key).value) == key
    && env.parseAddress(reg.changeAddress).Some?
    && env.cfg.bip.Allows(reg.scriptType)
    && reg.valueSats >= RegistrationFloor(env.cfg)
  }

  ghost predicate InputsOk(env: Env, inputs: map<string, RegisteredInput>)
    requires env.cfg.bip.AllowsSomething()
  {
    forall key :: key in inputs ==> InputOk(env, key, inputs[key])
  }

  // The script an output address stands for.
  function ScriptOf(env: Env, out: RegisteredOutput): Script {
    match env.parseAddress(out.address)
    case Some(script) => script
    case None => []
  }

  ghost predicate IsTokenOf(env: Env, outputs: seq<RegisteredOutput>, token: Token) {
    exists i :: 0 <= i < |outputs| && env.tokenMessage(ScriptOf(env, outputs[i]), env.cfg.denominationSats) == token
  }

  // Accepted outputs: parsed, of the denomination, with distinct scripts, and
  // the redeemed tokens are exactly their token messages.
  ghost predicate OutputsOk(env: Env, outputs: seq<RegisteredOutput>, redeemed: set<Token>) {
    && (forall i :: 0 <= i < |outputs| ==>
          env.parseAddress(outputs[i].address).Some? && outputs[i].amountSats == env.cfg.denominationSats)
    && (forall i, j :: 0 <= i < j < |outputs| ==> ScriptOf(env, outputs[i]) != ScriptOf(env, outputs[j]))
    && (forall i :: 0 <= i < |outputs| ==>
          env.tokenMessage(ScriptOf(env, outputs[i]), env.cfg.denominationSats) in redeemed)
    && (forall t :: t in redeemed ==> IsTokenOf(env, outputs, t))
    && |redeemed| == |outputs|
  }

  // -- participants -------------------------------------------------------------

  lemma {:induction false} ParticipantsOf(env: Env, inputs: map<string, RegisteredInput>, order: seq<string>)
    requires env.cfg.bip.AllowsSomething() && InputsOk(env, inputs)
    requires forall i :: 0 <= i < |order| ==> order[i] in inputs
    ensures Participants(env, inputs, order).Some?
    ensures var ps := Participants(env, inputs, order).value;
            && |ps| == |order|
            && forall i :: 0 <= i < |order| ==> Some(ps[i]) == ToParticipant(env, inputs[order[i]])
  {
    hide ToParticipant, InputOk;
    if order != [] {
      ParticipantsOf(env, inputs, order[..|order| - 1]);
      InputParses(env, order[|order| - 1], inputs[order[|order| - 1]]);
    }
  }

  lemma InputParses(env: Env, key: string, reg: RegisteredInput)
    requires env.cfg.bip.AllowsSomething() && InputOk(env, key, reg)
    ensures ToParticipant(env, reg).Some?
  {
    hide Outpoints.Parse, Outpoints.Render, RegistrationFloor;
  }

  lemma {:induction false} OutputScriptsOf(env: Env, outputs: seq<RegisteredOutput>)
    requires forall i :: 0 <= i < |outputs| ==> env.parseAddress(outputs[i].address).Some?
    ensures OutputScripts(env, outputs).Some?
    ensures var scripts := OutputScripts(env, outputs).value;
            && |scripts| == |outputs|
            && forall i :: 0 <= i < |outputs| ==> scripts[i] == ScriptOf(env, outputs[i])
  {
    if outputs != [] {
      OutputScriptsOf(env, outputs[..|outputs| - 1]);
    }
  }

  // Distinct keys are distinct outpoints.
  lemma ParticipantsDistinct(env: Env, inputs: map<string, RegisteredInput>, order: seq<string>)
    requires env.cfg.bip.AllowsSomething() && InputsOk(env, inputs)
    requires Enumerates(order, inputs.Keys)
    ensures Participants(env, inputs, order).Some?
    ensures DistinctOutpoints(Participants(env, inputs, order).value)
  {
    ParticipantsOf(env, inputs, order);
    hide Outpoints.Render, Outpoints.Parse, Participants;
    var ps := Participants(env, inputs, order).value;
    forall i, j | 0 <= i < j < |ps| ensures ps[i].outpoint != ps[j].outpoint {
      assert InputOk(env, order[i], inputs[order[i]]) && InputOk(env, order[j], inputs[order[j]]);
      assert order[i] == Outpoints.Render(ps[i].outpoint);
      assert order[j] == Outpoints.Render(ps[j].outpoint);
    }
  }

  // Two iterations of one map yield the same participants in some order.
  lemma SameParticipants(env: Env, inputs: map<string, RegisteredInput>, a: seq<string>, b: seq<string>)
    requires env.cfg.bip.AllowsSomething() && InputsOk(env, inputs)
    requires Enumerates(a, inputs.Keys) && Enumerates(b, inputs.Keys)
    ensures Participants(env, inputs, a).Some? && Participants(env, inputs, b).Some?
    ensures multiset(Participants(env, inputs, a).value) == multiset(Participants(env, inputs, b).value)
  {
    ParticipantsDistinct(env, inputs, a);
    ParticipantsDistinct(env, inputs, b);
    ParticipantsOf(env, inputs, a);
    ParticipantsOf(env, inputs, b);
    var ps, qs := Participants(env, inputs, a).value, Participants(env, inputs, b).value;
    hide *;
    ContainedParticipants(env, inputs, a, b, ps, qs);
    ContainedParticipants(env, inputs, b, a, qs, ps);
    SameElementsSameMultiset(ps, qs);
  }

  lemma ContainedParticipants(
    env: Env, inputs: map<string, RegisteredInput>, a: seq<string>, b: seq<string>,
    ps: seq<ParticipantInput>, qs: seq<ParticipantInput>)
    requires Enumerates(a, inputs.Keys) && Enumerates(b, inputs.Keys)
    requires |ps| == |a| && forall i :: 0 <= i < |a| ==> Some(ps[i]) == ToParticipant(env, inputs[a[i]])
    requires |qs| == |b| && forall i :: 0 <= i < |b| ==> Some(qs[i]) == ToParticipant(env, inputs[b[i]])
    ensures forall p :: p in ps ==> p in qs
  {
    hide ToParticipant;
    forall p | p in ps ensures p in qs {
      var i :| 0 <= i < |ps| && ps[i] == p;
      assert a[i] in b;
      var j :| 0 <= j < |b| && b[j] == a[i];
      assert qs[j] == p;
    }
  }

  lemma SameElementsSameMultiset(a: seq<ParticipantInput>, b: seq<ParticipantInput>)
    requires DistinctOutpoints(a) && DistinctOutpoints(b)
    requires forall p :: p in a ==> p in b
    requires forall p :: p in b ==> p in a
    ensures multiset(a) == multiset(b)
  {
    forall p ensures multiset(a)[p] == multiset(b)[p] {
      if p in a {
        var i :| 0 <= i < |a| && a[i] == p;
        OneCopy(a, i);
        var j :| 0 <= j < |b| && b[j] == p;
        OneCopy(b, j);
      } else {
        assert p !in multiset(a) && p !in multiset(b);
      }
    }
  }

  // -- the canonical build ---------------------------------------------------------

  ghost function Canon(env: Env, inputs: map<string, RegisteredInput>, outputs: seq<RegisteredOutput>)
    : (r: Option<Psbt>)
    ensures r.Some? ==> |r.value.unsigned.inputs| == |r.value.inputs|
  {
    BuildCanonical(env, inputs, outputs, SomeOrder(inputs.Keys))
  }

  // The registered inputs and outputs of a round about to be signed.
  ghost predicate Buildable(env: Env, inputs: map<string, RegisteredInput>, outputs: seq<RegisteredOutput>) {
    && Sane(env.cfg)
    && InputsOk(env, inputs)
    && env.cfg.minParticipants <= |inputs| <= env.cfg.maxParticipants
    && |outputs| == |inputs|
    && forall i :: 0 <= i < |outputs| ==> env.parseAddress(outputs[i].address).Some?
  }

  // Registration was strict enough: the build never runs out of funds.
  lemma BuildSucceeds(
    env: Env, inputs: map<string, RegisteredInput>, outputs: seq<RegisteredOutput>, order: seq<string>)
    requires Buildable(env, inputs, outputs)
    requires Enumerates(order, inputs.Keys)
    ensures BuildCanonical(env, inputs, outputs, order).Some?
  {
    hide CoinJoinTx.BuildSpec, Participants, OutputScripts, Fees.EstimateFeeShare, InputsOk, ToParticipant, ScriptOf,
      CoinJoinTx.AllCanPay, CoinJoinTx.AllAllowed;
    ParticipantsOf(env, inputs, order);
    OutputScriptsOf(env, outputs);
    EnumerationLength(order, inputs.Keys);
    assert |inputs| == |inputs.Keys|;
    var ps, scripts := Participants(env, inputs, order).value, OutputScripts(env, outputs).value;
    GateHolds(env, inputs, order, ps);
    CoinJoinTx.GatedInputsBuild(ps, scripts, env.cfg.denominationSats, env.cfg.bip, env.cfg.minParticipants,
      env.cfg.feeRate);
  }

  lemma GateHolds(
    env: Env, inputs: map<string, RegisteredInput>, order: seq<string>, ps: seq<ParticipantInput>)
    requires env.cfg.bip.AllowsSomething() && InputsOk(env, inputs)
    requires Enumerates(order, inputs.Keys) && |ps| == |order|
    requires forall i :: 0 <= i < |order| ==> Some(ps[i]) == ToParticipant(env, inputs[order[i]])
    ensures CoinJoinTx.AllAllowed(ps, env.cfg.bip)
    ensures CoinJoinTx.AllCanPay(ps, env.cfg.denominationSats
                                     + Fees.EstimateFeeShare(env.cfg.bip, env.cfg.minParticipants, env.cfg.feeRate))
  {
    hide Fees.EstimateFeeShare, Outpoints.Parse, Outpoints.Render;
    forall i | 0 <= i < |ps|
      ensures ps[i].valueSats >= RegistrationFloor(env.cfg) && env.cfg.bip.Allows(ps[i].scriptType)
    {
      assert InputOk(env, order[i], inputs[order[i]]);
    }
  }

  // Whatever order each caller iterates the map in, it builds the same PSBT.
  lemma OrderIsForgotten(
    env: Env, inputs: map<string, RegisteredInput>, outputs: seq<RegisteredOutput>, order: seq<string>)
    requires env.cfg.bip.AllowsSomething() && InputsOk(env, inputs)
    requires Enumerates(order, inputs.Keys)
    ensures BuildCanonical(env, inputs, outputs, order) == Canon(env, inputs, outputs)
  {
    hide Participants, CoinJoinTx.BuildSpec, OutputScripts, InputsOk, DistinctOutpoints;
    SameParticipants(env, inputs, order, SomeOrder(inputs.Keys));
    ParticipantsDistinct(env, inputs, order);
    var ps, qs := Participants(env, inputs, order).value, Participants(env, inputs, SomeOrder(inputs.Keys)).value;
    if OutputScripts(env, outputs).Some? {
      CoinJoinTx.BuildForgetsOrder(ps, qs, OutputScripts(env, outputs).value, env.cfg.denominationSats,
        env.cfg.feeRate, env.cfg.bip.outputScriptType);
    }
  }

  // The canonical transaction spends the registered outpoints, each once, and
  // its inputs hold at least what its outputs pay.
  ghost predicate SpendsExactly(psbt: Psbt, inputs: map<string, RegisteredInput>) {
    var ins := psbt.unsigned.inputs;
    && |ins| == |psbt.inputs| == |inputs|
    && (forall i :: 0 <= i < |ins| ==>
          Outpoints.Render(ins[i].previousOutput) in inputs && ins[i] == UnsignedInput(ins[i].previousOutput))
    && (forall i :: 0 <= i < |ins| ==> Pristine(psbt.inputs[i]))
    && (forall i :: 0 <= i < |ins| ==> HoldsCoin(psbt.inputs[i], inputs[Outpoints.Render(ins[i].previousOutput)]))
    && (forall key :: key in inputs ==>
          exists i :: 0 <= i < |ins| && Outpoints.Render(ins[i].previousOutput) == key)
    && (forall i, j :: 0 <= i < j < |ins| ==> ins[i].previousOutput != ins[j].previousOutput)
  }

  // The previous output attached is the registered coin.
  predicate HoldsCoin(input: PsbtInput, reg: RegisteredInput) {
    input.witnessUtxo == Some(TxOut(reg.valueSats, reg.scriptPubkey))
  }

  // A previous output attached, nothing finalized yet.
  predicate Pristine(input: PsbtInput) {
    input.witnessUtxo.Some? && input.finalScriptSig == None && input.finalWitness == None
  }

  lemma CanonSpendsExactly(env: Env, inputs: map<string, RegisteredInput>, outputs: seq<RegisteredOutput>)
    requires Buildable(env, inputs, outputs)
    ensures Canon(env, inputs, outputs).Some?
    ensures SpendsExactly(Canon(env, inputs, outputs).value, inputs)
    ensures Canon(env, inputs, outputs).value.unsigned == Strip(Canon(env, inputs, outputs).value.unsigned)
  {
    var order := SomeOrder(inputs.Keys);
    BuildSucceeds(env, inputs, outputs, order);
    assert Sane(env.cfg) && InputsOk(env, inputs);
    EnumerationLength(order, inputs.Keys);
    assert |inputs| == |inputs.Keys|;
    assert Canon(env, inputs, outputs) == BuildCanonical(env, inputs, outputs, order);
    assert forall i :: 0 <= i < |order| ==> order[i] in inputs;
    hide *;
    ParticipantsOf(env, inputs, order);
    CanonSpendsInOrder(env, inputs, outputs, order);
    SpendsMeansSpendsExactly(env, inputs, order, Participants(env, inputs, order).value,
      Canon(env, inputs, outputs).value);
    UnsignedIsStripped(Canon(env, inputs, outputs).value, inputs);
  }

  lemma UnsignedIsStripped(psbt: Psbt, inputs: map<string, RegisteredInput>)
    requires SpendsExactly(psbt, inputs)
    ensures psbt.unsigned == Strip(psbt.unsigned)
  {
    hide Outpoints.Render;
    assert psbt.unsigned.inputs == Strip(psbt.unsigned).inputs;
  }

  lemma CanonSpendsInOrder(
    env: Env, inputs: map<string, RegisteredInput>, outputs: seq<RegisteredOutput>, order: seq<string>)
    requires env.cfg.bip.AllowsSomething() && InputsOk(env, inputs)
    requires Enumerates(order, inputs.Keys)
    requires BuildCanonical(env, inputs, outputs, order).Some?
    ensures Participants(env, inputs, order).Some?
    ensures CoinJoinTx.SpendsInOrder(
              BuildCanonical(env, inputs, outputs, order).value, Participants(env, inputs, order).value)
  {
    ParticipantsDistinct(env, inputs, order);
    var ps, scripts := Participants(env, inputs, order).value, OutputScripts(env, outputs).value;
    hide CoinJoinTx.BuildSpec, Participants, OutputScripts, CoinJoinTx.SpendsInOrder, InputsOk;
    CoinJoinTx.InputsAreCanonical(ps, scripts, env.cfg.denominationSats, env.cfg.feeRate,
      env.cfg.bip.outputScriptType);
  }

  // The input a participant spends is the one of its key.
  lemma SpendsOwnKey(psbt: Psbt, i: nat, p: ParticipantInput, key: string)
    requires CoinJoinTx.SpendsAt(psbt, i, p) && Outpoints.Render(p.outpoint) == key
    ensures Outpoints.Render(psbt.unsigned.inputs[i].previousOutput) == key
    ensures psbt.unsigned.inputs[i] == UnsignedInput(psbt.unsigned.inputs[i].previousOutput)
    ensures Pristine(psbt.inputs[i])
    ensures psbt.inputs[i].witnessUtxo == Some(TxOut(p.valueSats, p.scriptPubkey))
  {
    hide Outpoints.Render;
  }

  lemma SpendsInRange(psbt: Psbt, i: nat, p: ParticipantInput)
    requires CoinJoinTx.SpendsAt(psbt, i, p)
    ensures i < |psbt.unsigned.inputs| == |psbt.inputs|
  {
  }

  // Some iteration of the map, as participants.
  ghost predicate Collects(
    env: Env, inputs: map<string, RegisteredInput>, order: seq<string>, ps: seq<ParticipantInput>)
  {
    && Enumerates(order, inputs.Keys) && |order| == |inputs| == |ps|
    && forall i :: 0 <= i < |order| ==> Some(ps[i]) == ToParticipant(env, inputs[order[i]])
  }

  // A participant is the registered input of its key.
  lemma ParticipantIsEntry(
    env: Env, inputs: map<string, RegisteredInput>, order: seq<string>, ps: seq<ParticipantInput>, k: nat)
    requires env.cfg.bip.AllowsSomething() && InputsOk(env, inputs) && Collects(env, inputs, order, ps) && k < |ps|
    ensures order[k] in inputs && Outpoints.Render(ps[k].outpoint) == order[k]
    ensures ps[k].valueSats == inputs[order[k]].valueSats && ps[k].scriptPubkey == inputs[order[k]].scriptPubkey
  {
    hide Outpoints.Parse, Outpoints.Render, RegistrationFloor;
    assert InputOk(env, order[k], inputs[order[k]]);
  }

  lemma SpentAreEntries(
    env: Env, inputs: map<string, RegisteredInput>, order: seq<string>, ps: seq<ParticipantInput>, psbt: Psbt, i: nat)
    requires env.cfg.bip.AllowsSomething() && InputsOk(env, inputs) && Collects(env, inputs, order, ps)
    requires CoinJoinTx.SpendsOneOf(psbt, i, ps)
    ensures i < |psbt.unsigned.inputs| == |psbt.inputs|
    ensures var txin := psbt.unsigned.inputs[i];
            && Outpoints.Render(txin.previousOutput) in inputs && txin == UnsignedInput(txin.previousOutput)
            && Pristine(psbt.inputs[i])
            && HoldsCoin(psbt.inputs[i], inputs[Outpoints.Render(txin.previousOutput)])
  {
    hide InputsOk, Collects, Outpoints.Render, CoinJoinTx.SpendsAt;
    var p :| p in ps && CoinJoinTx.SpendsAt(psbt, i, p);
    var k :| 0 <= k < |ps| && ps[k] == p;
    SpendsInRange(psbt, i, p);
    SameSize(env, inputs, order, ps);
    ParticipantIsEntry(env, inputs, order, ps, k);
    SpendsOwnKey(psbt, i, p, order[k]);
  }

  lemma SameSize(env: Env, inputs: map<string, RegisteredInput>, order: seq<string>, ps: seq<ParticipantInput>)
    requires Collects(env, inputs, order, ps)
    ensures |order| == |inputs| == |ps|
    ensures forall key :: key in inputs ==> key in order
  {
    hide ToParticipant;
  }

  lemma EntriesAreSpent(
    env: Env, inputs: map<string, RegisteredInput>, order: seq<string>, ps: seq<ParticipantInput>, psbt: Psbt,
    key: string)
    requires env.cfg.bip.AllowsSomething() && InputsOk(env, inputs) && Collects(env, inputs, order, ps)
    requires key in inputs && forall p :: p in ps ==> exists i :: CoinJoinTx.SpendsAt(psbt, i, p)
    ensures exists i :: 0 <= i < |psbt.unsigned.inputs|
              && Outpoints.Render(psbt.unsigned.inputs[i].previousOutput) == key
  {
    hide InputsOk, Collects, Outpoints.Render, CoinJoinTx.SpendsAt;
    SameSize(env, inputs, order, ps);
    var k :| 0 <= k < |order| && order[k] == key;
    ParticipantIsEntry(env, inputs, order, ps, k);
    assert ps[k] in ps;
    var i: nat :| CoinJoinTx.SpendsAt(psbt, i, ps[k]);
    SpendsOwnKey(psbt, i, ps[k], key);
    SpendsInRange(psbt, i, ps[k]);
  }

  lemma SpendsMeansSpendsExactly(
    env: Env, inputs: map<string, RegisteredInput>, order: seq<string>, ps: seq<ParticipantInput>, psbt: Psbt)
    requires env.cfg.bip.AllowsSomething() && InputsOk(env, inputs) && Collects(env, inputs, order, ps)
    requires CoinJoinTx.SpendsInOrder(psbt, ps)
    ensures SpendsExactly(psbt, inputs)
  {
    hide InputsOk, Collects, Outpoints.Render, AtMost, CoinJoinTx.SpendsAt, Pristine, HoldsCoin,
      CoinJoinTx.SpendsOneOf;
    var ins := psbt.unsigned.inputs;
    SameSize(env, inputs, order, ps);
    forall i | 0 <= i < |ins|
      ensures Outpoints.Render(ins[i].previousOutput) in inputs
      ensures ins[i] == UnsignedInput(ins[i].previousOutput) && Pristine(psbt.inputs[i])
      ensures HoldsCoin(psbt.inputs[i], inputs[Outpoints.Render(ins[i].previousOutput)])
    {
      SpentAreEntries(env, inputs, order, ps, psbt, i);
    }
    forall key | key in inputs
      ensures exists i :: 0 <= i < |ins| && Outpoints.Render(ins[i].previousOutput) == key
    {
      EntriesAreSpent(env, inputs, order, ps, psbt, key);
    }
  }

  // The money is there: the canonical PSBT never spends more than it holds.
  lemma CanonPaysNoMoreThanItHolds(
    env: Env, inputs: map<string, RegisteredInput>, outputs: seq<RegisteredOutput>)
    requires Buildable(env, inputs, outputs)
    ensures Canon(env, inputs, outputs).Some?
    ensures var psbt := Canon(env, inputs, outputs).value;
            PrevoutSum(psbt.inputs).Some? && OutputSum(psbt.unsigned.outputs) <= PrevoutSum(psbt.inputs).value
  {
    var order := SomeOrder(inputs.Keys);
    BuildSucceeds(env, inputs, outputs, order);
    ParticipantsOf(env, inputs, order);
    OutputScriptsOf(env, outputs);
    EnumerationLength(order, inputs.Keys);
    assert |inputs| == |inputs.Keys|;
    BuildPaysNoMore(Participants(env, inputs, order).value, OutputScripts(env, outputs).value,
      env.cfg.denominationSats, env.cfg.feeRate, env.cfg.bip.outputScriptType);
  }

  lemma BuildPaysNoMore(
    ps: seq<ParticipantInput>, scripts: seq<Script>, denomination: nat, feeRate: nat, outputType: ScriptType)
    requires |scripts| == |ps|
    requires CoinJoinTx.BuildSpec(ps, scripts, denomination, feeRate, outputType).Ok?
    ensures var psbt := CoinJoinTx.BuildSpec(ps, scripts, denomination, feeRate, outputType).value;
            PrevoutSum(psbt.inputs).Some? && OutputSum(psbt.unsigned.outputs) <= PrevoutSum(psbt.inputs).value
  {
    var share := CoinJoinTx.FeeShare(ps, feeRate, outputType);
    CoinJoinTx.SortKeepsFunds(ps, denomination + share);
    hide Sort, CoinJoinTx.FeeShare;
    AssemblyPaysNoMore(Sort(ps), scripts, denomination, share);
  }

  lemma AssemblyPaysNoMore(ordered: seq<ParticipantInput>, scripts: seq<Script>, denomination: nat, share: nat)
    requires |scripts| == |ordered|
    requires CoinJoinTx.AllCanPay(ordered, denomination + share)
    ensures var psbt := CoinJoinTx.Assemble(ordered, scripts, denomination, share);
            PrevoutSum(psbt.inputs).Some? && OutputSum(psbt.unsigned.outputs) <= PrevoutSum(psbt.inputs).value
  {
    hide Sort, OutputSum, PrevoutSum, CoinJoinTx.FoldedDust, CoinJoinTx.InputSum, CoinJoinTx.ChangeOutputs;
    NonNegative(|ordered|, share);
    CoinJoinTx.PrevoutsSum(ordered);
    CoinJoinTx.OutputsOfAssembly(ordered, scripts, denomination, share, |ordered| * share);
    CoinJoinTx.DustBounds(ordered, denomination + share);
  }

  lemma NonNegative(a: nat, b: nat)
    ensures a * b >= 0
  {
  }
}
