// The client's acceptance test on a PSBT it does not trust, and its
// composition with the honest builder.
module ClientCheck {
  import opened Base
  import opened Transactions
  import opened InputOrder
  import opened CoinJoinTx

  datatype Refusal =
    | OwnOutputMissing | AnonymityFloorUnmet | OwnInputMissing | NoWitnessUtxo
    | ReceivedExceedsInput | FeeAboveCap

  // What the client knows about itself.
  datatype Wallet = Wallet(
    outpoint: OutPoint, outputScript: Script, changeScript: Script,
    denomination: nat, anonymityFloor: U32, maxFee: Option<nat>)
  {
    function FeeCap(): nat {
      match maxFee
      case Some(cap) => cap
      case None => denomination / 10
    }

    predicate Owns(script: Script) {
      script == outputScript || script == changeScript
    }
  }

  // -- readers ---------------------------------------------------------------

  function CountDenominations(outputs: seq<TxOut>, denomination: nat): nat {
    if outputs == [] then 0
    else
      CountDenominations(outputs[..|outputs| - 1], denomination)
      + if outputs[|outputs| - 1].value == denomination then 1 else 0
  }

  // Everything paid to either of our scripts, each output counted once.
  function Received(outputs: seq<TxOut>, w: Wallet): nat {
    if outputs == [] then 0
    else
      var last := outputs[|outputs| - 1];
      Received(outputs[..|outputs| - 1], w) + if w.Owns(last.scriptPubkey) then last.value else 0
  }

  function OwnInputValue(psbt: Psbt, op: OutPoint): Result<nat, Refusal> {
    match Position(psbt.unsigned.inputs, op)
    case None => Err(OwnInputMissing)
    case Some(i) =>
      if i < |psbt.inputs| && psbt.inputs[i].witnessUtxo.Some? then Ok(psbt.inputs[i].witnessUtxo.value.value)
      else Err(NoWitnessUtxo)
  }

  // -- the checks, in order ----------------------------------------------------

  predicate HasOwnDenomination(outputs: seq<TxOut>, w: Wallet) {
    exists i :: 0 <= i < |outputs| && outputs[i] == TxOut(w.denomination, w.outputScript)
  }

  // The count is cut to 32 bits before it is compared.
  function Accept(psbt: Psbt, w: Wallet): Result<(), Refusal> {
    var outputs := psbt.unsigned.outputs;
    if !HasOwnDenomination(outputs, w) then Err(OwnOutputMissing)
    else if CountDenominations(outputs, w.denomination) % 0x1_0000_0000 < w.anonymityFloor then
      Err(AnonymityFloorUnmet)
    else
      match OwnInputValue(psbt, w.outpoint)
      case Err(e) => Err(e)
      case Ok(value) =>
        var received := Received(outputs, w);
        if received > value then Err(ReceivedExceedsInput)
        else if value - received > w.FeeCap() then Err(FeeAboveCap)
        else Ok(())
  }

  // -- soundness ---------------------------------------------------------------

  // The outputs that carry the denomination.
  ghost function DenominationIndices(outputs: seq<TxOut>, denomination: nat): set<int> {
    set i | 0 <= i < |outputs| && outputs[i].value == denomination
  }

  lemma {:induction false} CountIsCardinality(outputs: seq<TxOut>, denomination: nat)
    ensures CountDenominations(outputs, denomination) == |DenominationIndices(outputs, denomination)|
  {
    if outputs != [] {
      var init, k := outputs[..|outputs| - 1], |outputs| - 1;
      CountIsCardinality(init, denomination);
      var before, now := DenominationIndices(init, denomination), DenominationIndices(outputs, denomination);
      assert now == if outputs[k].value == denomination then before + {k} else before;
    }
  }

  // The first input that spends this outpoint, and the previous output it shows.
  ghost predicate Spends(psbt: Psbt, op: OutPoint, utxo: TxOut) {
    exists i :: FirstSpend(psbt.unsigned.inputs, op, i) && i < |psbt.inputs| && psbt.inputs[i].witnessUtxo == Some(utxo)
  }

  ghost predicate FirstSpend(inputs: seq<TxIn>, op: OutPoint, i: int) {
    && 0 <= i < |inputs| && inputs[i].previousOutput == op
    && forall k :: 0 <= k < i ==> inputs[k].previousOutput != op
  }

  lemma OwnInputIsFirstSpend(psbt: Psbt, op: OutPoint, utxo: TxOut)
    ensures Spends(psbt, op, utxo) ==> OwnInputValue(psbt, op) == Ok(utxo.value)
  {
  }

  lemma OwnInputIsSpent(psbt: Psbt, op: OutPoint) returns (utxo: TxOut)
    requires OwnInputValue(psbt, op).Ok?
    ensures Spends(psbt, op, utxo)
  {
    var i := Position(psbt.unsigned.inputs, op).value;
    utxo := psbt.inputs[i].witnessUtxo.value;
    assert FirstSpend(psbt.unsigned.inputs, op, i);
  }

  // The client signs if and only if it is paid the denomination at its own
  // script, the outputs that look alike - counted in 32 bits - meet its floor,
  // and it gives up no more than its cap, or a tenth of the denomination.
  lemma AcceptanceIsExact(psbt: Psbt, w: Wallet)
    ensures Accept(psbt, w).Ok? <==>
            var outputs := psbt.unsigned.outputs;
            && TxOut(w.denomination, w.outputScript) in outputs
            && |DenominationIndices(outputs, w.denomination)| % 0x1_0000_0000 >= w.anonymityFloor
            && exists utxo: TxOut ::
                 && Spends(psbt, w.outpoint, utxo)
                 && Received(outputs, w) <= utxo.value
                 && utxo.value <= Received(outputs, w) + match w.maxFee
                                                         case Some(cap) => cap
                                                         case None => w.denomination / 10
  {
    hide CountDenominations, DenominationIndices, Received, OwnInputValue, Spends;
    var outputs := psbt.unsigned.outputs;
    CountIsCardinality(outputs, w.denomination);
    assert HasOwnDenomination(outputs, w) <==> TxOut(w.denomination, w.outputScript) in outputs;
    forall utxo: TxOut | Spends(psbt, w.outpoint, utxo) ensures OwnInputValue(psbt, w.outpoint) == Ok(utxo.value) {
      OwnInputIsFirstSpend(psbt, w.outpoint, utxo);
    }
    if OwnInputValue(psbt, w.outpoint).Ok? {
      var utxo := OwnInputIsSpent(psbt, w.outpoint);
      assert Spends(psbt, w.outpoint, utxo);
    }
  }

  // Whoever made the PSBT: if the client signs, it is paid the denomination at
  // its own script, at least its floor of outputs look alike, and all it can
  // lose is its fee cap.
  lemma AcceptedMeansSafe(psbt: Psbt, w: Wallet)
    requires Accept(psbt, w).Ok?
    ensures var outputs := psbt.unsigned.outputs;
            && TxOut(w.denomination, w.outputScript) in outputs
            && |DenominationIndices(outputs, w.denomination)| >= w.anonymityFloor
            && exists utxo: TxOut ::
                 && Spends(psbt, w.outpoint, utxo)
                 && 0 <= utxo.value - Received(outputs, w)
                 && utxo.value - Received(outputs, w) <= match w.maxFee
                                                         case Some(cap) => cap
                                                         case None => w.denomination / 10
  {
    hide DenominationIndices, Accept, Spends, Received;
    AcceptanceIsExact(psbt, w);
    WrapsDown(|DenominationIndices(psbt.unsigned.outputs, w.denomination)|);
  }

  lemma WrapsDown(n: nat)
    ensures n % 0x1_0000_0000 <= n
  {
  }

  // -- completeness against the honest builder ----------------------------------

  // The client is one participant, and nobody else pays its scripts.
  ghost predicate HonestRound(inputs: seq<ParticipantInput>, scripts: seq<Script>, w: Wallet, me: ParticipantInput) {
    && |scripts| == |inputs|
    && DistinctOutpoints(inputs)
    && me in inputs && me.outpoint == w.outpoint && me.changeScript == w.changeScript
    && (forall inp :: inp in inputs && inp != me ==> !w.Owns(inp.changeScript))
    && OwnsExactlyOne(scripts, w)
  }

  ghost predicate OwnsExactlyOne(scripts: seq<Script>, w: Wallet) {
    exists k :: 0 <= k < |scripts| && scripts[k] == w.outputScript
      && forall i :: 0 <= i < |scripts| && i != k ==> !w.Owns(scripts[i])
  }

  lemma {:induction false} ReceivedConcat(a: seq<TxOut>, b: seq<TxOut>, w: Wallet)
    ensures Received(a + b, w) == Received(a, w) + Received(b, w)
  {
    if b == [] {
      assert a + b == a;
    } else {
      ReceivedConcat(a, b[..|b| - 1], w);
      assert (a + b)[..|a + b| - 1] == a + b[..|b| - 1];
    }
  }

  lemma {:induction false} CountConcat(a: seq<TxOut>, b: seq<TxOut>, denomination: nat)
    ensures CountDenominations(a + b, denomination)
            == CountDenominations(a, denomination) + CountDenominations(b, denomination)
  {
    if b == [] {
      assert a + b == a;
    } else {
      CountConcat(a, b[..|b| - 1], denomination);
      assert (a + b)[..|a + b| - 1] == a + b[..|b| - 1];
    }
  }

  lemma {:induction false} CountBounded(outputs: seq<TxOut>, denomination: nat)
    ensures CountDenominations(outputs, denomination) <= |outputs|
  {
    if outputs != [] {
      CountBounded(outputs[..|outputs| - 1], denomination);
    }
  }

  lemma {:induction false} NothingReceived(outputs: seq<TxOut>, w: Wallet)
    requires forall i :: 0 <= i < |outputs| ==> !w.Owns(outputs[i].scriptPubkey)
    ensures Received(outputs, w) == 0
  {
    if outputs != [] {
      NothingReceived(outputs[..|outputs| - 1], w);
    }
  }

  lemma ReceivedOne(out: TxOut, w: Wallet)
    ensures Received([out], w) == if w.Owns(out.scriptPubkey) then out.value else 0
  {
    assert [out][..0] == [];
  }

  lemma ReceivedAppend(outputs: seq<TxOut>, out: TxOut, w: Wallet)
    ensures Received(outputs + [out], w) ==
            Received(outputs, w) + if w.Owns(out.scriptPubkey) then out.value else 0
  {
    assert (outputs + [out])[..|outputs|] == outputs;
  }

  lemma CountAppend(outputs: seq<TxOut>, out: TxOut, denomination: nat)
    ensures CountDenominations(outputs + [out], denomination) ==
            CountDenominations(outputs, denomination) + if out.value == denomination then 1 else 0
  {
    assert (outputs + [out])[..|outputs|] == outputs;
  }

  lemma DenominationsSplit(scripts: seq<Script>, denomination: nat)
    requires scripts != []
    ensures DenominationOutputs(scripts, denomination)
            == DenominationOutputs(scripts[..|scripts| - 1], denomination)
               + [TxOut(denomination, scripts[|scripts| - 1])]
  {
  }

  // The denomination outputs alone: n of them, one of them ours.
  lemma {:induction false} DenominationsReceived(scripts: seq<Script>, w: Wallet, k: nat)
    requires k < |scripts| && scripts[k] == w.outputScript
    requires forall i :: 0 <= i < |scripts| && i != k ==> !w.Owns(scripts[i])
    ensures Received(DenominationOutputs(scripts, w.denomination), w) == w.denomination
  {
    var init, last := scripts[..|scripts| - 1], scripts[|scripts| - 1];
    var outs := DenominationOutputs(init, w.denomination);
    DenominationsSplit(scripts, w.denomination);
    ReceivedAppend(outs, TxOut(w.denomination, last), w);
    if k == |scripts| - 1 {
      NothingReceived(outs, w);
    } else {
      DenominationsReceived(init, w, k);
    }
  }

  lemma {:induction false} DenominationsCounted(scripts: seq<Script>, denomination: nat)
    ensures CountDenominations(DenominationOutputs(scripts, denomination), denomination) == |scripts|
  {
    if scripts != [] {
      DenominationsCounted(scripts[..|scripts| - 1], denomination);
      DenominationsSplit(scripts, denomination);
      CountAppend(DenominationOutputs(scripts[..|scripts| - 1], denomination),
        TxOut(denomination, scripts[|scripts| - 1]), denomination);
    }
  }

  // Change of strangers never reaches us.
  lemma {:induction false} StrangersChange(ordered: seq<ParticipantInput>, required: nat, w: Wallet)
    requires forall i :: 0 <= i < |ordered| ==> !w.Owns(ordered[i].changeScript)
    ensures Received(ChangeOutputs(ordered, required), w) == 0
  {
    if ordered != [] {
      var init, last := ordered[..|ordered| - 1], ordered[|ordered| - 1];
      StrangersChange(init, required, w);
      ReceivedConcat(ChangeOutputs(init, required), ChangeOf(last, required), w);
      NothingReceived(ChangeOf(last, required), w);
    }
  }

  // Among the change outputs, ours is the only one we receive.
  lemma {:induction false} OwnChange(ordered: seq<ParticipantInput>, required: nat, w: Wallet, k: nat)
    requires k < |ordered| && w.Owns(ordered[k].changeScript)
    requires forall i :: 0 <= i < |ordered| && i != k ==> !w.Owns(ordered[i].changeScript)
    ensures Received(ChangeOutputs(ordered, required), w) == OutputSum(ChangeOf(ordered[k], required))
  {
    var init, last := ordered[..|ordered| - 1], ordered[|ordered| - 1];
    ReceivedConcat(ChangeOutputs(init, required), ChangeOf(last, required), w);
    if k == |ordered| - 1 {
      StrangersChange(init, required, w);
      OwnChangeOf(last, required, w);
    } else {
      OwnChange(init, required, w, k);
      NothingReceived(ChangeOf(last, required), w);
    }
  }

  lemma OwnChangeOf(inp: ParticipantInput, required: nat, w: Wallet)
    requires w.Owns(inp.changeScript)
    ensures Received(ChangeOf(inp, required), w) == OutputSum(ChangeOf(inp, required))
  {
    if inp.valueSats >= required + DUST_THRESHOLD_SATS {
      ReceivedOne(ChangeOf(inp, required)[0], w);
      SingleOutputSum(ChangeOf(inp, required)[0]);
    }
  }

  // What an honest transaction pays us: the denomination and our change, and
  // so it costs us exactly our net cost.
  lemma HonestReceipt(
    inputs: seq<ParticipantInput>, scripts: seq<Script>, share: nat, w: Wallet, me: ParticipantInput)
    requires HonestRound(inputs, scripts, w, me)
    requires AllCanPay(inputs, w.denomination + share)
    ensures Received(Assemble(Sort(inputs), scripts, w.denomination, share).unsigned.outputs, w)
            == me.valueSats - NetCost(me, w.denomination, share)
  {
    hide Received, ChangeOutputs, DenominationOutputs, Sort, OutputSum, ChangeOf, DistinctOutpoints, AllCanPay;
    var required, ordered := w.denomination + share, Sort(inputs);
    var k :| 0 <= k < |scripts| && scripts[k] == w.outputScript
      && forall i :: 0 <= i < |scripts| && i != k ==> !w.Owns(scripts[i]);
    DenominationsReceived(scripts, w, k);
    var m := MyPlace(inputs, w, me);
    OwnChange(ordered, required, w, m);
    ReceivedConcat(DenominationOutputs(scripts, w.denomination), ChangeOutputs(ordered, required), w);
  }

  // Our place in the canonical order; everyone else there is a stranger.
  lemma MyPlace(inputs: seq<ParticipantInput>, w: Wallet, me: ParticipantInput) returns (m: nat)
    requires DistinctOutpoints(inputs) && me in inputs
    requires forall inp :: inp in inputs && inp != me ==> !w.Owns(inp.changeScript)
    ensures m < |Sort(inputs)| && Sort(inputs)[m] == me
    ensures forall i :: 0 <= i < |Sort(inputs)| && i != m ==> !w.Owns(Sort(inputs)[i].changeScript)
  {
    var ordered := Sort(inputs);
    SortSorts(inputs);
    DistinctSurvivesRearrangement(inputs, ordered);
    assert me in multiset(ordered);
    m :| 0 <= m < |ordered| && ordered[m] == me;
    forall i | 0 <= i < |ordered| && i != m ensures !w.Owns(ordered[i].changeScript) {
      assert ordered[i] in multiset(inputs);
    }
  }

  lemma HonestInputValue(
    inputs: seq<ParticipantInput>, scripts: seq<Script>, share: nat, w: Wallet, me: ParticipantInput)
    requires HonestRound(inputs, scripts, w, me)
    ensures OwnInputValue(Assemble(Sort(inputs), scripts, w.denomination, share), w.outpoint) == Ok(me.valueSats)
  {
    var ordered := Sort(inputs);
    var psbt := Assemble(ordered, scripts, w.denomination, share);
    var m := MyPlace(inputs, w, me);
    SortSorts(inputs);
    DistinctSurvivesRearrangement(inputs, ordered);
    assert psbt.unsigned.inputs[m].previousOutput == w.outpoint;
    var p := Position(psbt.unsigned.inputs, w.outpoint).value;
    assert ordered[p].outpoint == ordered[m].outpoint;
  }

  lemma HonestCount(ordered: seq<ParticipantInput>, scripts: seq<Script>, denomination: nat, share: nat)
    requires |scripts| == |ordered|
    ensures var outputs := Assemble(ordered, scripts, denomination, share).unsigned.outputs;
            |ordered| <= CountDenominations(outputs, denomination) <= 2 * |ordered|
  {
    var change := ChangeOutputs(ordered, denomination + share);
    DenominationsCounted(scripts, denomination);
    CountConcat(DenominationOutputs(scripts, denomination), change, denomination);
    CountBounded(change, denomination);
    ChangeCount(ordered, denomination + share);
  }

  // Client and coordinator compose: in an honest round large enough for the
  // floor, the client signs exactly when its net cost is within its cap,
  // whether or not change goes to the output script.
  lemma HonestRoundIsAccepted(
    inputs: seq<ParticipantInput>, scripts: seq<Script>, feeRate: nat, outputType: ScriptType,
    w: Wallet, me: ParticipantInput)
    requires HonestRound(inputs, scripts, w, me)
    requires BuildSpec(inputs, scripts, w.denomination, feeRate, outputType).Ok?
    requires w.anonymityFloor <= |inputs| && 2 * |inputs| < 0x1_0000_0000
    ensures Accept(BuildSpec(inputs, scripts, w.denomination, feeRate, outputType).value, w).Ok?
            <==> NetCost(me, w.denomination, FeeShare(inputs, feeRate, outputType)) <=
                 match w.maxFee
                 case Some(cap) => cap
                 case None => w.denomination / 10
  {
    hide FeeShare;
    AssembledIsAccepted(inputs, scripts, FeeShare(inputs, feeRate, outputType), w, me);
  }

  // A cap that covers the fee share and the largest dust is always enough.
  lemma RoomForDustIsEnough(
    inputs: seq<ParticipantInput>, scripts: seq<Script>, feeRate: nat, outputType: ScriptType,
    w: Wallet, me: ParticipantInput)
    requires HonestRound(inputs, scripts, w, me)
    requires BuildSpec(inputs, scripts, w.denomination, feeRate, outputType).Ok?
    requires w.anonymityFloor <= |inputs| && 2 * |inputs| < 0x1_0000_0000
    requires FeeShare(inputs, feeRate, outputType) + 293 <= w.FeeCap()
    ensures Accept(BuildSpec(inputs, scripts, w.denomination, feeRate, outputType).value, w).Ok?
  {
    HonestRoundIsAccepted(inputs, scripts, feeRate, outputType, w, me);
    hide FeeShare, NetCost, Accept, HonestRound;
    NetCostBounds(me, w.denomination, FeeShare(inputs, feeRate, outputType));
  }

  lemma AssembledIsAccepted(
    inputs: seq<ParticipantInput>, scripts: seq<Script>, share: nat, w: Wallet, me: ParticipantInput)
    requires HonestRound(inputs, scripts, w, me)
    requires AllCanPay(inputs, w.denomination + share)
    requires w.anonymityFloor <= |inputs| && 2 * |inputs| < 0x1_0000_0000
    ensures Accept(Assemble(Sort(inputs), scripts, w.denomination, share), w).Ok?
            <==> NetCost(me, w.denomination, share) <= w.FeeCap()
  {
    assert |Sort(inputs)| == |inputs| by { SortSorts(inputs); }
    assert me.valueSats >= w.denomination + share;
    assert |scripts| == |inputs| && OwnsExactlyOne(scripts, w);
    hide *;
    OwnDenominationPresent(Sort(inputs), scripts, share, w);
    HonestCount(Sort(inputs), scripts, w.denomination, share);
    HonestInputValue(inputs, scripts, share, w, me);
    HonestReceipt(inputs, scripts, share, w, me);
    NetCostBounds(me, w.denomination, share);
    AcceptDecides(Assemble(Sort(inputs), scripts, w.denomination, share), w, me.valueSats);
  }

  // The last check is the only one that can still fail.
  lemma AcceptDecides(psbt: Psbt, w: Wallet, value: nat)
    requires HasOwnDenomination(psbt.unsigned.outputs, w)
    requires w.anonymityFloor <= CountDenominations(psbt.unsigned.outputs, w.denomination) < 0x1_0000_0000
    requires OwnInputValue(psbt, w.outpoint) == Ok(value)
    requires Received(psbt.unsigned.outputs, w) <= value
    ensures Accept(psbt, w).Ok? <==> value - Received(psbt.unsigned.outputs, w) <= w.FeeCap()
  {
    hide HasOwnDenomination, CountDenominations, OwnInputValue, Received;
  }

  lemma OwnDenominationPresent(ordered: seq<ParticipantInput>, scripts: seq<Script>, share: nat, w: Wallet)
    requires OwnsExactlyOne(scripts, w)
    ensures HasOwnDenomination(Assemble(ordered, scripts, w.denomination, share).unsigned.outputs, w)
  {
    var outputs := Assemble(ordered, scripts, w.denomination, share).unsigned.outputs;
    var k :| 0 <= k < |scripts| && scripts[k] == w.outputScript;
    assert outputs[k] == TxOut(w.denomination, w.outputScript);
  }
}
