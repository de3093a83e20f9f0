// The transaction builder: fee share, funds check, denomination and change
// outputs, previous outputs attached to the inputs they belong to.
module CoinJoinTx {
  import opened Base
  import opened Config
  import opened Fees
  import opened Transactions
  import opened InputOrder

  const DUST_THRESHOLD_SATS := 294

  datatype TxError =
    | InsufficientFunds(value: nat, required: nat)
    | NoParticipants

  // -- specification ---------------------------------------------------------

  function InputVbytesSum(inputs: seq<ParticipantInput>): nat {
    if inputs == [] then 0
    else InputVbytesSum(inputs[..|inputs| - 1]) + InputVbytes(inputs[|inputs| - 1].scriptType)
  }

  // Every participant is assumed to have a change output.
  function TotalFee(inputs: seq<ParticipantInput>, feeRate: nat, outputType: ScriptType): nat {
    FeeFor(TX_OVERHEAD_VBYTES + InputVbytesSum(inputs) + (|inputs| + |inputs|) * OutputVbytes(outputType), feeRate)
  }

  function FeeShare(inputs: seq<ParticipantInput>, feeRate: nat, outputType: ScriptType): nat
    requires inputs != []
  {
    PerHead(TotalFee(inputs, feeRate, outputType), |inputs|)
  }

  predicate AllCanPay(inputs: seq<ParticipantInput>, required: nat) {
    forall i :: 0 <= i < |inputs| ==> inputs[i].valueSats >= required
  }

  // The first input, in the order given, that cannot pay `required`.
  function FirstShort(inputs: seq<ParticipantInput>, required: nat): (r: Option<ParticipantInput>)
    ensures r.None? <==> AllCanPay(inputs, required)
    ensures r.Some? ==> r.value in inputs && r.value.valueSats < required
  {
    if inputs == [] then None
    else if inputs[0].valueSats < required then Some(inputs[0])
    else
      var r := FirstShort(inputs[1..], required);
      assert inputs == [inputs[0]] + inputs[1..];
      r
  }

  // The change of one participant: dust is not paid out.
  function ChangeOf(inp: ParticipantInput, required: nat): seq<TxOut> {
    if inp.valueSats >= required + DUST_THRESHOLD_SATS then
      [TxOut(inp.valueSats - required, inp.changeScript)]
    else []
  }

  function ChangeOutputs(ordered: seq<ParticipantInput>, required: nat): seq<TxOut> {
    if ordered == [] then []
    else ChangeOutputs(ordered[..|ordered| - 1], required) + ChangeOf(ordered[|ordered| - 1], required)
  }

  function UnsignedInputs(ordered: seq<ParticipantInput>): seq<TxIn> {
    seq(|ordered|, i requires 0 <= i < |ordered| => UnsignedInput(ordered[i].outpoint))
  }

  function DenominationOutputs(scripts: seq<Script>, denomination: nat): seq<TxOut> {
    seq(|scripts|, i requires 0 <= i < |scripts| => TxOut(denomination, scripts[i]))
  }

  function Prevout(inp: ParticipantInput): PsbtInput {
    PsbtInput(Some(TxOut(inp.valueSats, inp.scriptPubkey)), None, None)
  }

  function Prevouts(ordered: seq<ParticipantInput>): seq<PsbtInput> {
    seq(|ordered|, i requires 0 <= i < |ordered| => Prevout(ordered[i]))
  }

  function Assemble(ordered: seq<ParticipantInput>, scripts: seq<Script>, denomination: nat, share: nat): Psbt {
    var outputs := DenominationOutputs(scripts, denomination) + ChangeOutputs(ordered, denomination + share);
    Psbt(Tx(TX_VERSION, 0, UnsignedInputs(ordered), outputs), Prevouts(ordered))
  }

  // What the builder returns.
  function BuildSpec(
    inputs: seq<ParticipantInput>, scripts: seq<Script>, denomination: nat, feeRate: nat,
    outputType: ScriptType): Result<Psbt, TxError>
  {
    if inputs == [] then Err(NoParticipants)
    else
      var share := FeeShare(inputs, feeRate, outputType);
      match FirstShort(inputs, denomination + share)
      case Some(inp) => Err(InsufficientFunds(inp.valueSats, denomination + share))
      case None => Ok(Assemble(Sort(inputs), scripts, denomination, share))
  }

  // -- the builder itself ----------------------------------------------------

  method SumInputVbytes(inputs: seq<ParticipantInput>) returns (sum: nat)
    ensures sum == InputVbytesSum(inputs)
  {
    sum := 0;
    for i := 0 to |inputs|
      invariant sum == InputVbytesSum(inputs[..i])
    {
      assert inputs[..i + 1][..i] == inputs[..i];
      sum := sum + InputVbytes(inputs[i].scriptType);
    }
    assert inputs[..|inputs|] == inputs;
  }

  method FindShortInput(inputs: seq<ParticipantInput>, required: nat) returns (r: Option<ParticipantInput>)
    ensures r == FirstShort(inputs, required)
  {
    for i := 0 to |inputs|
      invariant FirstShort(inputs, required) == FirstShort(inputs[i..], required)
    {
      if inputs[i].valueSats < required {
        return Some(inputs[i]);
      }
      assert inputs[i..][1..] == inputs[i + 1..];
    }
    r := None;
  }

  method PushChangeOutputs(
    ordered: seq<ParticipantInput>, outputs: seq<TxOut>, denomination: nat, share: nat)
    returns (all: seq<TxOut>)
    requires AllCanPay(ordered, denomination + share)
    ensures all == outputs + ChangeOutputs(ordered, denomination + share)
  {
    all := outputs;
    for i := 0 to |ordered|
      invariant all == outputs + ChangeOutputs(ordered[..i], denomination + share)
    {
      assert ordered[..i + 1][..i] == ordered[..i];
      var change := ordered[i].valueSats - denomination - share;
      if change >= DUST_THRESHOLD_SATS {
        all := all + [TxOut(change, ordered[i].changeScript)];
      }
    }
    assert ordered[..|ordered|] == ordered;
  }

  method AttachPrevouts(ordered: seq<ParticipantInput>, psbtInputs: array<PsbtInput>)
    requires psbtInputs.Length == |ordered|
    modifies psbtInputs
    ensures psbtInputs[..] == Prevouts(ordered)
  {
    for i := 0 to |ordered|
      invariant forall k :: 0 <= k < i ==> psbtInputs[k] == Prevout(ordered[k])
    {
      psbtInputs[i] := Prevout(ordered[i]);
    }
  }

  method SortedInputs(inputs: seq<ParticipantInput>) returns (ordered: seq<ParticipantInput>)
    ensures ordered == Sort(inputs)
  {
    var sorted := new ParticipantInput[|inputs|](i requires 0 <= i < |inputs| => inputs[i]);
    assert sorted[..] == inputs;
    SortInPlace(sorted);
    ordered := sorted[..];
  }

  method ComputeFeeShare(inputs: seq<ParticipantInput>, feeRate: nat, outputType: ScriptType) returns (share: nat)
    requires inputs != []
    ensures share == FeeShare(inputs, feeRate, outputType)
  {
    var n := |inputs|;
    var totalInputVb := SumInputVbytes(inputs);
    var vsize := TX_OVERHEAD_VBYTES + totalInputVb + (n + n) * OutputVbytes(outputType);
    share := PerHead(FeeFor(vsize, feeRate), n);
  }

  method BuildCoinJoinPsbt(
    inputs: seq<ParticipantInput>, scripts: seq<Script>, denomination: nat, feeRate: nat,
    outputType: ScriptType) returns (r: Result<Psbt, TxError>)
    ensures r == BuildSpec(inputs, scripts, denomination, feeRate, outputType)
  {
    if |inputs| == 0 {
      return Err(NoParticipants);
    }
    var ordered := SortedInputs(inputs);
    var share := ComputeFeeShare(inputs, feeRate, outputType);
    var short := FindShortInput(inputs, denomination + share);
    if short.Some? {
      return Err(InsufficientFunds(short.value.valueSats, denomination + share));
    }
    SortKeepsFunds(inputs, denomination + share);
    var outputs := PushChangeOutputs(ordered, DenominationOutputs(scripts, denomination), denomination, share);
    var psbtInputs := new PsbtInput[|ordered|](_ => PsbtInput(None, None, None));
    AttachPrevouts(ordered, psbtInputs);
    r := Ok(Psbt(Tx(TX_VERSION, 0, UnsignedInputs(ordered), outputs), psbtInputs[..]));
  }

  // -- order independence ----------------------------------------------------

  lemma {:induction false} VbytesOfInsert(s: seq<ParticipantInput>, x: ParticipantInput)
    ensures InputVbytesSum(Insert(s, x)) == InputVbytesSum(s) + InputVbytes(x.scriptType)
  {
    if s == [] || AtMost(s[|s| - 1].outpoint, x.outpoint) {
      assert (s + [x])[..|s|] == s;
    } else {
      VbytesOfInsert(s[..|s| - 1], x);
      var t := Insert(s[..|s| - 1], x);
      assert (t + [s[|s| - 1]])[..|t|] == t;
    }
  }

  lemma {:induction false} VbytesOfSort(s: seq<ParticipantInput>)
    ensures InputVbytesSum(Sort(s)) == InputVbytesSum(s)
  {
    if s != [] {
      VbytesOfSort(s[..|s| - 1]);
      VbytesOfInsert(Sort(s[..|s| - 1]), s[|s| - 1]);
    }
  }

  lemma FundsForgetOrder(a: seq<ParticipantInput>, b: seq<ParticipantInput>, required: nat)
    requires multiset(a) == multiset(b)
    ensures AllCanPay(a, required) <==> AllCanPay(b, required)
  {
    assert forall x :: x in a <==> x in multiset(a);
    assert forall x :: x in b <==> x in multiset(b);
    assert AllCanPay(a, required) <==> forall x :: x in multiset(a) ==> x.valueSats >= required;
    assert AllCanPay(b, required) <==> forall x :: x in multiset(b) ==> x.valueSats >= required;
  }

  lemma SortKeepsFunds(inputs: seq<ParticipantInput>, required: nat)
    requires AllCanPay(inputs, required)
    ensures AllCanPay(Sort(inputs), required)
    ensures |Sort(inputs)| == |inputs|
  {
    SortSorts(inputs);
    FundsForgetOrder(inputs, Sort(inputs), required);
  }

  lemma ShareForgetsOrder(
    a: seq<ParticipantInput>, b: seq<ParticipantInput>, feeRate: nat, outputType: ScriptType)
    requires multiset(a) == multiset(b) && DistinctOutpoints(a)
    ensures |a| == |b|
    ensures a != [] ==> FeeShare(a, feeRate, outputType) == FeeShare(b, feeRate, outputType)
  {
    assert |multiset(a)| == |a| && |multiset(b)| == |b|;
    SortForgetsOrder(a, b);
    VbytesOfSort(a);
    VbytesOfSort(b);
  }

  // The build succeeds or fails alike for every arrangement of the same
  // inputs, and a successful build is the same transaction.
  lemma BuildForgetsOrder(
    a: seq<ParticipantInput>, b: seq<ParticipantInput>, scripts: seq<Script>, denomination: nat, feeRate: nat,
    outputType: ScriptType)
    requires multiset(a) == multiset(b) && DistinctOutpoints(a)
    ensures var p := BuildSpec(a, scripts, denomination, feeRate, outputType);
            var q := BuildSpec(b, scripts, denomination, feeRate, outputType);
            && (p.Ok? <==> q.Ok?)
            && (p.Ok? ==> p == q)
            && (p.Err? && p.error.InsufficientFunds? ==>
                  q.error.InsufficientFunds? && q.error.required == p.error.required)
  {
    ShareForgetsOrder(a, b, feeRate, outputType);
    if a != [] {
      SortForgetsOrder(a, b);
      FundsForgetOrder(a, b, denomination + FeeShare(a, feeRate, outputType));
    }
  }

  // No arrangement of these inputs makes the build answer differently.
  ghost predicate OrderFree(
    a: seq<ParticipantInput>, scripts: seq<Script>, denomination: nat, feeRate: nat, outputType: ScriptType)
  {
    forall b :: multiset(b) == multiset(a) ==>
      BuildSpec(b, scripts, denomination, feeRate, outputType)
      == BuildSpec(a, scripts, denomination, feeRate, outputType)
  }

  // Whoever cannot pay `required` falls short with the same value.
  ghost predicate ShortAlike(inputs: seq<ParticipantInput>, required: nat) {
    forall x, y :: x in inputs && y in inputs && x.valueSats < required && y.valueSats < required ==>
      x.valueSats == y.valueSats
  }

  lemma MoveToFront(a: seq<ParticipantInput>, x: ParticipantInput) returns (b: seq<ParticipantInput>)
    requires x in a
    ensures multiset(b) == multiset(a) && b != [] && b[0] == x
  {
    var i :| 0 <= i < |a| && a[i] == x;
    b := [x] + a[..i] + a[i + 1..];
    assert a == a[..i] + [x] + a[i + 1..];
  }

  // The error names the first short input met.
  lemma FrontIsNamed(
    a: seq<ParticipantInput>, scripts: seq<Script>, denomination: nat, feeRate: nat, outputType: ScriptType,
    x: ParticipantInput)
    requires DistinctOutpoints(a) && x in a
    requires a != [] && x.valueSats < denomination + FeeShare(a, feeRate, outputType)
    requires OrderFree(a, scripts, denomination, feeRate, outputType)
    ensures BuildSpec(a, scripts, denomination, feeRate, outputType)
            == Err(InsufficientFunds(x.valueSats, denomination + FeeShare(a, feeRate, outputType)))
  {
    hide FeeShare, DistinctOutpoints;
    var b := MoveToFront(a, x);
    ShareForgetsOrder(a, b, feeRate, outputType);
    assert BuildSpec(b, scripts, denomination, feeRate, outputType)
        == Err(InsufficientFunds(x.valueSats, denomination + FeeShare(a, feeRate, outputType)));
  }

  lemma ShortInputsAgree(
    a: seq<ParticipantInput>, b: seq<ParticipantInput>, scripts: seq<Script>, denomination: nat, feeRate: nat,
    outputType: ScriptType)
    requires DistinctOutpoints(a) && a != [] && multiset(b) == multiset(a)
    requires ShortAlike(a, denomination + FeeShare(a, feeRate, outputType))
    ensures BuildSpec(b, scripts, denomination, feeRate, outputType)
            == BuildSpec(a, scripts, denomination, feeRate, outputType)
  {
    hide FeeShare, DistinctOutpoints;
    ShareForgetsOrder(a, b, feeRate, outputType);
    BuildForgetsOrder(a, b, scripts, denomination, feeRate, outputType);
    assert forall x :: x in b ==> x in multiset(b);
  }

  // Exactly when the order of the inputs cannot be told from the answer: when
  // all inputs that fall short are worth the same.
  lemma AnswerForgetsOrderExactly(
    a: seq<ParticipantInput>, scripts: seq<Script>, denomination: nat, feeRate: nat, outputType: ScriptType)
    requires DistinctOutpoints(a) && a != []
    ensures OrderFree(a, scripts, denomination, feeRate, outputType)
            <==> ShortAlike(a, denomination + FeeShare(a, feeRate, outputType))
  {
    hide FeeShare, DistinctOutpoints, BuildSpec;
    var required := denomination + FeeShare(a, feeRate, outputType);
    if OrderFree(a, scripts, denomination, feeRate, outputType) {
      forall x, y | x in a && y in a && x.valueSats < required && y.valueSats < required
        ensures x.valueSats == y.valueSats
      {
        FrontIsNamed(a, scripts, denomination, feeRate, outputType, x);
        FrontIsNamed(a, scripts, denomination, feeRate, outputType, y);
      }
    }
    if ShortAlike(a, required) {
      forall b | multiset(b) == multiset(a)
        ensures BuildSpec(b, scripts, denomination, feeRate, outputType)
                == BuildSpec(a, scripts, denomination, feeRate, outputType)
      {
        ShortInputsAgree(a, b, scripts, denomination, feeRate, outputType);
      }
    }
  }

  // The order can be told: for a pair that falls short with different values
  // it decides the value the error names.
  lemma ErrorNamesFirstPoorInput(
    x: ParticipantInput, y: ParticipantInput, scripts: seq<Script>, denomination: nat, feeRate: nat,
    outputType: ScriptType)
    requires x.valueSats < denomination && y.valueSats < denomination
    ensures var p := BuildSpec([x, y], scripts, denomination, feeRate, outputType);
            var q := BuildSpec([y, x], scripts, denomination, feeRate, outputType);
            p.Err? && q.Err? && (p == q <==> x.valueSats == y.valueSats)
  {
    assert [x, y][..1] == [x] && [y, x][..1] == [y];
    assert [x][..0] == [] && [y][..0] == [];
    assert InputVbytesSum([x, y]) == InputVbytesSum([x]) + InputVbytes(y.scriptType);
    assert InputVbytesSum([y, x]) == InputVbytesSum([y]) + InputVbytes(x.scriptType);
    assert InputVbytesSum([x, y]) == InputVbytesSum([y, x]);
    assert FeeShare([x, y], feeRate, outputType) == FeeShare([y, x], feeRate, outputType);
  }

  // -- layout ----------------------------------------------------------------

  // Position i of the result spends `inp` and carries its previous output.
  ghost predicate SpendsAt(psbt: Psbt, i: nat, inp: ParticipantInput) {
    && i < |psbt.unsigned.inputs| == |psbt.inputs|
    && psbt.unsigned.inputs[i] == UnsignedInput(inp.outpoint)
    && psbt.inputs[i] == Prevout(inp)
  }

  // The inputs of the result are exactly `inputs`, in strictly ascending order.
  ghost predicate SpendsInOrder(psbt: Psbt, inputs: seq<ParticipantInput>) {
    var ins := psbt.unsigned.inputs;
    && |ins| == |psbt.inputs| == |inputs|
    && (forall i, j :: 0 <= i < j < |ins| ==>
          ins[i].previousOutput != ins[j].previousOutput
          && AtMost(ins[i].previousOutput, ins[j].previousOutput))
    && (forall i :: 0 <= i < |ins| ==> SpendsOneOf(psbt, i, inputs))
    && (forall inp :: inp in inputs ==> exists i :: SpendsAt(psbt, i, inp))
  }

  ghost predicate SpendsOneOf(psbt: Psbt, i: nat, inputs: seq<ParticipantInput>) {
    exists inp :: inp in inputs && SpendsAt(psbt, i, inp)
  }

  lemma InputsAreCanonical(
    inputs: seq<ParticipantInput>, scripts: seq<Script>, denomination: nat, feeRate: nat, outputType: ScriptType)
    requires DistinctOutpoints(inputs)
    requires BuildSpec(inputs, scripts, denomination, feeRate, outputType).Ok?
    ensures SpendsInOrder(BuildSpec(inputs, scripts, denomination, feeRate, outputType).value, inputs)
  {
    SortSorts(inputs);
    SortForgetsOrder(inputs, inputs);
    AssembledInOrder(inputs, Sort(inputs), scripts, denomination, FeeShare(inputs, feeRate, outputType));
  }

  lemma AssembledInOrder(
    inputs: seq<ParticipantInput>, ordered: seq<ParticipantInput>, scripts: seq<Script>, denomination: nat, share: nat)
    requires multiset(ordered) == multiset(inputs) && |ordered| == |inputs|
    requires StrictlyAscending(ordered)
    ensures SpendsInOrder(Assemble(ordered, scripts, denomination, share), inputs)
  {
    var psbt := Assemble(ordered, scripts, denomination, share);
    forall i | 0 <= i < |ordered| ensures SpendsOneOf(psbt, i, inputs) {
      assert ordered[i] in multiset(inputs);
      assert SpendsAt(psbt, i, ordered[i]);
    }
    forall inp | inp in inputs ensures exists i :: SpendsAt(psbt, i, inp) {
      assert inp in multiset(ordered);
      var i :| 0 <= i < |ordered| && ordered[i] == inp;
      assert SpendsAt(psbt, i, inp);
    }
  }

  // Change outputs keep the order of the inputs they belong to.
  lemma {:induction false} ChangeOfConcat(a: seq<ParticipantInput>, b: seq<ParticipantInput>, required: nat)
    ensures ChangeOutputs(a + b, required) == ChangeOutputs(a, required) + ChangeOutputs(b, required)
  {
    hide ChangeOutputs, ChangeOf;
    if b == [] {
      assert a + b == a;
      NoChange(required);
    } else {
      ChangeOfConcat(a, b[..|b| - 1], required);
      ChangeUnfolds(b, required);
      ChangeUnfolds(a + b, required);
      assert (a + b)[..|a + b| - 1] == a + b[..|b| - 1];
    }
  }

  lemma NoChange(required: nat)
    ensures ChangeOutputs([], required) == []
  {
  }

  lemma ChangeUnfolds(ordered: seq<ParticipantInput>, required: nat)
    requires ordered != []
    ensures ChangeOutputs(ordered, required)
            == ChangeOutputs(ordered[..|ordered| - 1], required) + ChangeOf(ordered[|ordered| - 1], required)
  {
    hide ChangeOf;
  }

  // -- money -----------------------------------------------------------------

  function InputSum(inputs: seq<ParticipantInput>): nat {
    if inputs == [] then 0 else InputSum(inputs[..|inputs| - 1]) + inputs[|inputs| - 1].valueSats
  }

  // What one participant gives up beyond the denomination.
  function NetCost(inp: ParticipantInput, denomination: nat, share: nat): int {
    inp.valueSats - denomination - OutputSum(ChangeOf(inp, denomination + share))
  }

  function FoldedDust(ordered: seq<ParticipantInput>, required: nat): int {
    if ordered == [] then 0
    else
      var last := ordered[|ordered| - 1];
      FoldedDust(ordered[..|ordered| - 1], required)
      + (last.valueSats - required - OutputSum(ChangeOf(last, required)))
  }

  lemma SingleOutputSum(out: TxOut)
    ensures OutputSum([out]) == out.value
  {
    assert [out][..0] == [];
  }

  // A participant pays the fee share and at most 293 sats of dust.
  lemma NetCostBounds(inp: ParticipantInput, denomination: nat, share: nat)
    requires inp.valueSats >= denomination + share
    ensures share <= NetCost(inp, denomination, share) < share + DUST_THRESHOLD_SATS
    ensures ChangeOf(inp, denomination + share) != [] ==> NetCost(inp, denomination, share) == share
  {
    if ChangeOf(inp, denomination + share) != [] {
      SingleOutputSum(ChangeOf(inp, denomination + share)[0]);
    }
  }

  lemma MulSucc(n: nat, k: nat)
    ensures (n + 1) * k == n * k + k
  {
  }

  lemma Tally(n: nat, denomination: nat, share: nat, paidIn: int, denominations: int, change: int, dust: int)
    requires denominations == n * denomination
    requires change + dust == paidIn - n * (denomination + share)
    ensures paidIn - (denominations + change) == n * share + dust
  {
    assert n * (denomination + share) == n * denomination + n * share;
  }

  lemma {:induction false} ChangeConserves(ordered: seq<ParticipantInput>, required: nat)
    requires AllCanPay(ordered, required)
    ensures OutputSum(ChangeOutputs(ordered, required)) + FoldedDust(ordered, required)
            == InputSum(ordered) - |ordered| * required
  {
    if ordered != [] {
      var init, last := ordered[..|ordered| - 1], ordered[|ordered| - 1];
      ChangeConserves(init, required);
      OutputSumConcat(ChangeOutputs(init, required), ChangeOf(last, required));
      MulSucc(|init|, required);
    }
  }

  lemma {:induction false} DustBounds(ordered: seq<ParticipantInput>, required: nat)
    requires AllCanPay(ordered, required)
    ensures 0 <= FoldedDust(ordered, required) <= 293 * |ordered|
  {
    if ordered != [] {
      DustBounds(ordered[..|ordered| - 1], required);
      NetCostBounds(ordered[|ordered| - 1], required, 0);
    }
  }

  lemma {:induction false} InputSumOfInsert(s: seq<ParticipantInput>, x: ParticipantInput)
    ensures InputSum(Insert(s, x)) == InputSum(s) + x.valueSats
  {
    if s == [] || AtMost(s[|s| - 1].outpoint, x.outpoint) {
      assert (s + [x])[..|s|] == s;
    } else {
      InputSumOfInsert(s[..|s| - 1], x);
      var t := Insert(s[..|s| - 1], x);
      assert (t + [s[|s| - 1]])[..|t|] == t;
    }
  }

  lemma {:induction false} InputSumOfSort(s: seq<ParticipantInput>)
    ensures InputSum(Sort(s)) == InputSum(s)
  {
    if s != [] {
      InputSumOfSort(s[..|s| - 1]);
      InputSumOfInsert(Sort(s[..|s| - 1]), s[|s| - 1]);
    }
  }

  lemma {:induction false} DenominationSum(scripts: seq<Script>, denomination: nat)
    ensures OutputSum(DenominationOutputs(scripts, denomination)) == |scripts| * denomination
  {
    if scripts != [] {
      var init := scripts[..|scripts| - 1];
      DenominationSum(init, denomination);
      assert DenominationOutputs(scripts, denomination)[..|init|] == DenominationOutputs(init, denomination);
    }
  }

  // No satoshi is created or lost: what the inputs hold beyond the outputs is
  // n fee shares plus the folded dust, within the rounding of the total fee -
  // the rate times the size with a change output for everybody.
  lemma ValueIsConserved(
    inputs: seq<ParticipantInput>, scripts: seq<Script>, denomination: nat, feeRate: nat, outputType: ScriptType)
    requires |scripts| == |inputs|
    requires BuildSpec(inputs, scripts, denomination, feeRate, outputType).Ok?
    ensures var tx := BuildSpec(inputs, scripts, denomination, feeRate, outputType).value.unsigned;
            var n, total := |inputs|, feeRate * TxVbytes(inputs, 2 * |inputs|, outputType);
            var share := FeeShare(inputs, feeRate, outputType);
            var fee := InputSum(inputs) - OutputSum(tx.outputs);
            && fee == n * share + FoldedDust(Sort(inputs), denomination + share)
            && total - (n - 1) <= fee <= total + 293 * n
  {
    hide TotalFee, TxVbytes, PerHead, Sort, InputSum, FoldedDust, OutputSum, AllCanPay;
    ShareRoundsDown(inputs, feeRate, outputType);
    TotalIsPriced(inputs, feeRate, outputType);
    var share := FeeShare(inputs, feeRate, outputType);
    AssemblyConserves(inputs, scripts, denomination, share, |inputs| * share, TotalFee(inputs, feeRate, outputType));
  }

  lemma AssemblyConserves(
    inputs: seq<ParticipantInput>, scripts: seq<Script>, denomination: nat, share: nat, shares: nat, total: nat)
    requires |scripts| == |inputs|
    requires AllCanPay(inputs, denomination + share)
    requires shares == |inputs| * share
    requires shares <= total < shares + |inputs|
    ensures var tx := Assemble(Sort(inputs), scripts, denomination, share).unsigned;
            var fee := InputSum(inputs) - OutputSum(tx.outputs);
            && fee == shares + FoldedDust(Sort(inputs), denomination + share)
            && total - (|inputs| - 1) <= fee <= total + 293 * |inputs|
  {
    hide *;
    SortKeepsFunds(inputs, denomination + share);
    InputSumOfSort(inputs);
    OutputsOfAssembly(Sort(inputs), scripts, denomination, share, shares);
    DustBounds(Sort(inputs), denomination + share);
  }

  lemma ShareRoundsDown(inputs: seq<ParticipantInput>, feeRate: nat, outputType: ScriptType)
    requires inputs != []
    ensures var n, share := |inputs|, FeeShare(inputs, feeRate, outputType);
            n * share <= TotalFee(inputs, feeRate, outputType) < n * share + n
  {
    DivideBounds(TotalFee(inputs, feeRate, outputType), |inputs|);
  }

  // One denomination output each, in the order given, then at most one change
  // output each.
  lemma DenominationsComeFirst(
    inputs: seq<ParticipantInput>, scripts: seq<Script>, denomination: nat, feeRate: nat, outputType: ScriptType)
    requires |scripts| == |inputs|
    requires BuildSpec(inputs, scripts, denomination, feeRate, outputType).Ok?
    ensures var outputs := BuildSpec(inputs, scripts, denomination, feeRate, outputType).value.unsigned.outputs;
            && |inputs| <= |outputs| <= 2 * |inputs|
            && (forall i :: 0 <= i < |inputs| ==> outputs[i] == TxOut(denomination, scripts[i]))
  {
    SortSorts(inputs);
    OutputLayout(Sort(inputs), scripts, denomination, FeeShare(inputs, feeRate, outputType));
  }

  lemma OutputLayout(ordered: seq<ParticipantInput>, scripts: seq<Script>, denomination: nat, share: nat)
    requires |scripts| == |ordered|
    ensures var outputs := Assemble(ordered, scripts, denomination, share).unsigned.outputs;
            && |ordered| <= |outputs| <= 2 * |ordered|
            && (forall i :: 0 <= i < |ordered| ==> outputs[i] == TxOut(denomination, scripts[i]))
  {
    ChangeCount(ordered, denomination + share);
  }

  lemma OutputsOfAssembly(
    ordered: seq<ParticipantInput>, scripts: seq<Script>, denomination: nat, share: nat, shares: nat)
    requires |scripts| == |ordered|
    requires AllCanPay(ordered, denomination + share)
    requires shares == |ordered| * share
    ensures InputSum(ordered) - OutputSum(Assemble(ordered, scripts, denomination, share).unsigned.outputs)
            == shares + FoldedDust(ordered, denomination + share)
  {
    var n, required := |ordered|, denomination + share;
    var denominations, change := DenominationOutputs(scripts, denomination), ChangeOutputs(ordered, required);
    ChangeConserves(ordered, required);
    DenominationSum(scripts, denomination);
    OutputSumConcat(denominations, change);
    Tally(n, denomination, share, InputSum(ordered), OutputSum(denominations), OutputSum(change),
      FoldedDust(ordered, required));
  }

  lemma {:induction false} ChangeCount(ordered: seq<ParticipantInput>, required: nat)
    ensures |ChangeOutputs(ordered, required)| <= |ordered|
  {
    if ordered != [] {
      ChangeCount(ordered[..|ordered| - 1], required);
    }
  }

  // The previous outputs recorded in the result add up to the inputs.
  lemma {:induction false} PrevoutsSum(ordered: seq<ParticipantInput>)
    ensures PrevoutSum(Prevouts(ordered)) == Some(InputSum(ordered))
  {
    if ordered != [] {
      var init := ordered[..|ordered| - 1];
      PrevoutsSum(init);
      assert Prevouts(ordered)[..|init|] == Prevouts(init);
    }
  }

  // -- the fee rate ------------------------------------------------------------

  function CountOf(inputs: seq<ParticipantInput>, st: ScriptType): nat {
    if inputs == [] then 0
    else CountOf(inputs[..|inputs| - 1], st) + if inputs[|inputs| - 1].scriptType == st then 1 else 0
  }

  // The virtual size of a transaction that spends these inputs and has so many
  // outputs of one type.
  function TxVbytes(inputs: seq<ParticipantInput>, outputs: nat, outputType: ScriptType): nat {
    10 + 68 * CountOf(inputs, P2wpkh) + 58 * CountOf(inputs, P2tr) + 91 * CountOf(inputs, P2shP2wpkh)
    + outputs * match outputType
                case P2wpkh => 31
                case P2tr => 43
                case P2shP2wpkh => 32
  }

  lemma {:induction false} InputsBySize(inputs: seq<ParticipantInput>)
    ensures InputVbytesSum(inputs) ==
            68 * CountOf(inputs, P2wpkh) + 58 * CountOf(inputs, P2tr) + 91 * CountOf(inputs, P2shP2wpkh)
  {
    if inputs != [] {
      InputsBySize(inputs[..|inputs| - 1]);
    }
  }

  // The total fee is the rate times the size with a change output for everybody.
  lemma TotalIsPriced(inputs: seq<ParticipantInput>, feeRate: nat, outputType: ScriptType)
    ensures TotalFee(inputs, feeRate, outputType) == feeRate * TxVbytes(inputs, 2 * |inputs|, outputType)
  {
    InputsBySize(inputs);
    hide CountOf, InputVbytesSum;
  }

  lemma SizeGrows(inputs: seq<ParticipantInput>, fewer: nat, more: nat, outputType: ScriptType)
    requires fewer <= more
    ensures TxVbytes(inputs, fewer, outputType) <= TxVbytes(inputs, more, outputType)
  {
    hide CountOf;
  }

  // The transaction pays the fee rate for its own size, but for the rounding of
  // the shares.
  lemma PaysForItsSize(
    inputs: seq<ParticipantInput>, scripts: seq<Script>, denomination: nat, feeRate: nat, outputType: ScriptType)
    requires |scripts| == |inputs|
    requires BuildSpec(inputs, scripts, denomination, feeRate, outputType).Ok?
    ensures var outputs := BuildSpec(inputs, scripts, denomination, feeRate, outputType).value.unsigned.outputs;
            var n, fee := |inputs|, InputSum(inputs) - OutputSum(outputs);
            fee >= feeRate * TxVbytes(inputs, |outputs|, outputType) - (n - 1)
  {
    hide TotalFee, TxVbytes, InputSum, OutputSum, Sort, FeeShare, BuildSpec;
    var outputs := BuildSpec(inputs, scripts, denomination, feeRate, outputType).value.unsigned.outputs;
    ValueIsConserved(inputs, scripts, denomination, feeRate, outputType);
    DenominationsComeFirst(inputs, scripts, denomination, feeRate, outputType);
    SizeGrows(inputs, |outputs|, 2 * |inputs|, outputType);
    Scale(TxVbytes(inputs, |outputs|, outputType), TxVbytes(inputs, 2 * |inputs|, outputType), feeRate);
  }

  // -- who is paid what -----------------------------------------------------------

  // These are the change outputs: those worth at least 294 sats beyond what is
  // required get the rest, in their order, at their own change script.
  ghost predicate PaysChange(change: seq<TxOut>, ordered: seq<ParticipantInput>, required: nat, payees: seq<nat>) {
    && |change| == |payees|
    && (forall k :: 0 <= k < |payees| ==> PaysRest(change[k], ordered, required, payees[k]))
    && (forall k, l :: 0 <= k < l < |payees| ==> payees[k] < payees[l])
    && Covers(payees, ordered, required)
  }

  predicate PaysRest(out: TxOut, ordered: seq<ParticipantInput>, required: nat, i: nat) {
    Worthy(ordered, required, i) && out == TxOut(ordered[i].valueSats - required, ordered[i].changeScript)
  }

  predicate Worthy(ordered: seq<ParticipantInput>, required: nat, i: nat) {
    i < |ordered| && ordered[i].valueSats >= required + 294
  }

  ghost predicate Covers(payees: seq<nat>, ordered: seq<ParticipantInput>, required: nat) {
    forall i: nat :: Worthy(ordered, required, i) ==> i in payees
  }

  lemma CoversMore(payees: seq<nat>, ordered: seq<ParticipantInput>, required: nat, last: nat)
    requires |ordered| == last + 1 && Covers(payees, ordered[..last], required)
    ensures Covers(if Worthy(ordered, required, last) then payees + [last] else payees, ordered, required)
  {
    forall i: nat | Worthy(ordered, required, i) && i < last ensures i in payees {
      assert Worthy(ordered[..last], required, i);
    }
  }

  lemma PaysLonger(out: TxOut, ordered: seq<ParticipantInput>, required: nat, last: nat, i: nat)
    requires |ordered| == last + 1 && PaysRest(out, ordered[..last], required, i)
    ensures PaysRest(out, ordered, required, i) && i < last
  {
  }

  lemma ChangeOfWorthy(ordered: seq<ParticipantInput>, required: nat, last: nat)
    requires last < |ordered|
    ensures if Worthy(ordered, required, last)
            then |ChangeOf(ordered[last], required)| == 1
                 && PaysRest(ChangeOf(ordered[last], required)[0], ordered, required, last)
            else ChangeOf(ordered[last], required) == []
  {
  }

  // One more coin, and its change if any.
  lemma OneMorePayee(
    before: seq<TxOut>, ordered: seq<ParticipantInput>, required: nat, payees: seq<nat>) returns (more: seq<nat>)
    requires ordered != [] && PaysChange(before, ordered[..|ordered| - 1], required, payees)
    ensures PaysChange(before + ChangeOf(ordered[|ordered| - 1], required), ordered, required, more)
  {
    hide ChangeOf, PaysRest, Worthy, Covers;
    var last := |ordered| - 1;
    ChangeOfWorthy(ordered, required, last);
    CoversMore(payees, ordered, required, last);
    more := if Worthy(ordered, required, last) then payees + [last] else payees;
    forall k | 0 <= k < |payees| ensures PaysRest(before[k], ordered, required, payees[k]) && payees[k] < last {
      PaysLonger(before[k], ordered, required, last, payees[k]);
    }
  }

  lemma {:induction false} ChangePaysRest(ordered: seq<ParticipantInput>, required: nat) returns (payees: seq<nat>)
    ensures PaysChange(ChangeOutputs(ordered, required), ordered, required, payees)
  {
    hide ChangeOf, PaysRest;
    if ordered == [] {
      payees := [];
    } else {
      payees := ChangePaysRest(ordered[..|ordered| - 1], required);
      payees := OneMorePayee(ChangeOutputs(ordered[..|ordered| - 1], required), ordered, required, payees);
    }
  }

  // The whole transaction: it spends these coins in this order, unsigned, and
  // pays each script the denomination and each owner the change.
  ghost predicate Settles(
    psbt: Psbt, ordered: seq<ParticipantInput>, scripts: seq<Script>, denomination: nat, share: nat)
  {
    var tx, n := psbt.unsigned, |scripts|;
    && tx.version == 2 && tx.lockTime == 0
    && |tx.inputs| == |psbt.inputs| == |ordered|
    && (forall i :: 0 <= i < |ordered| ==> SpendsCoin(tx.inputs[i], psbt.inputs[i], ordered[i]))
    && |tx.outputs| >= n
    && (forall i :: 0 <= i < n ==> tx.outputs[i] == TxOut(denomination, scripts[i]))
    && ChangeIsPaid(tx.outputs[n..], ordered, denomination + share)
  }

  ghost predicate ChangeIsPaid(change: seq<TxOut>, ordered: seq<ParticipantInput>, required: nat) {
    exists payees: seq<nat> :: PaysChange(change, ordered, required, payees)
  }

  // An unsigned, replaceable input with its previous output.
  predicate SpendsCoin(txin: TxIn, input: PsbtInput, coin: ParticipantInput) {
    && txin == TxIn(coin.outpoint, [], 0xFFFF_FFFD, [])
    && input == PsbtInput(Some(TxOut(coin.valueSats, coin.scriptPubkey)), None, None)
  }

  lemma AssemblySettles(ordered: seq<ParticipantInput>, scripts: seq<Script>, denomination: nat, share: nat)
    ensures Settles(Assemble(ordered, scripts, denomination, share), ordered, scripts, denomination, share)
  {
    hide PaysChange;
    var change := ChangeOutputs(ordered, denomination + share);
    var payees := ChangePaysRest(ordered, denomination + share);
    assert Assemble(ordered, scripts, denomination, share).unsigned.outputs[|scripts|..] == change;
  }

  // Every successful build settles its inputs, sorted, for an equal share of
  // the rate times the size with change for everybody, rounded down.
  lemma BuildSettles(
    inputs: seq<ParticipantInput>, scripts: seq<Script>, denomination: nat, feeRate: nat, outputType: ScriptType)
    returns (share: nat)
    requires BuildSpec(inputs, scripts, denomination, feeRate, outputType).Ok?
    ensures var n, total := |inputs|, feeRate * TxVbytes(inputs, 2 * |inputs|, outputType);
            n > 0 && n * share <= total < n * share + n && share == FeeShare(inputs, feeRate, outputType)
    ensures AllCanPay(inputs, denomination + share)
    ensures Settles(BuildSpec(inputs, scripts, denomination, feeRate, outputType).value, Sort(inputs), scripts,
              denomination, share)
  {
    hide Settles, Sort, TotalFee, TxVbytes, Assemble;
    share := FeeShare(inputs, feeRate, outputType);
    TotalIsPriced(inputs, feeRate, outputType);
    ShareRoundsDown(inputs, feeRate, outputType);
    AssemblySettles(Sort(inputs), scripts, denomination, share);
  }

  // -- the registration gate -------------------------------------------------

  predicate AllAllowed(inputs: seq<ParticipantInput>, bip: BipConfig) {
    forall i :: 0 <= i < |inputs| ==> bip.Allows(inputs[i].scriptType)
  }

  lemma {:induction false} VbytesBound(inputs: seq<ParticipantInput>, bip: BipConfig)
    requires bip.AllowsSomething() && AllAllowed(inputs, bip)
    ensures InputVbytesSum(inputs) <= WorstInputVbytes(bip) * |inputs|
  {
    if inputs != [] {
      VbytesBound(inputs[..|inputs| - 1], bip);
    }
  }

  // Whatever mix of allowed script types takes part, and however many
  // participants from the minimum up, nobody is charged more than the
  // estimate that gated registration.
  lemma EstimateCoversFeeShare(inputs: seq<ParticipantInput>, bip: BipConfig, min: U32, feeRate: nat)
    requires bip.AllowsSomething() && AllAllowed(inputs, bip)
    requires 0 < min <= |inputs| < 0x1_0000_0000
    ensures FeeShare(inputs, feeRate, bip.outputScriptType) <= EstimateFeeShare(bip, min, feeRate)
  {
    var n, w, o := |inputs|, WorstInputVbytes(bip), OutputVbytes(bip.outputScriptType);
    VbytesBound(inputs, bip);
    assert (n + n) * o == o * 2 * n;
    var actual := TX_OVERHEAD_VBYTES + InputVbytesSum(inputs) + (n + n) * o;
    var worst := TX_OVERHEAD_VBYTES + w * n + o * 2 * n;
    Scale(actual, worst, feeRate);
    DivideMonotone(actual * feeRate, worst * feeRate, n);
    EstimateFallsWithRoundSize(bip, min, n, feeRate);
  }

  // Inputs that passed the gate can always be built into a transaction.
  lemma GatedInputsBuild(
    inputs: seq<ParticipantInput>, scripts: seq<Script>, denomination: nat, bip: BipConfig, min: U32, feeRate: nat)
    requires bip.AllowsSomething() && AllAllowed(inputs, bip)
    requires 0 < min <= |inputs| < 0x1_0000_0000
    requires AllCanPay(inputs, denomination + EstimateFeeShare(bip, min, feeRate))
    ensures BuildSpec(inputs, scripts, denomination, feeRate, bip.outputScriptType).Ok?
  {
    EstimateCoversFeeShare(inputs, bip, min, feeRate);
  }
}
