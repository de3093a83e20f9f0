// Attaching the collected witnesses: the assembled transaction is the
// canonical one with exactly the recorded witnesses in place.
module Assembly {
  import opened Base
  import opened Transactions
  import opened World
  import opened Rounds
  import opened Canonical
  import Outpoints

  function KeyAt(psbt: Psbt, i: nat): string
    requires i < |psbt.unsigned.inputs|
  {
    Outpoints.Render(psbt.unsigned.inputs[i].previousOutput)
  }

  // Every input has a recorded signature that decodes to a witness.
  ghost predicate FullySigned(env: Env, psbt: Psbt, sigs: map<string, Bytes>) {
    && |psbt.unsigned.inputs| == |psbt.inputs|
    && forall i :: 0 <= i < |psbt.inputs| ==>
         KeyAt(psbt, i) in sigs && env.decodeWitness(sigs[KeyAt(psbt, i)]).Some?
  }

  ghost function StackAt(env: Env, psbt: Psbt, sigs: map<string, Bytes>, i: nat): Witness
    requires FullySigned(env, psbt, sigs) && i < |psbt.inputs|
  {
    env.decodeWitness(sigs[KeyAt(psbt, i)]).value
  }

  // The inputs after the first k witnesses, in closed form.
  ghost function SignedInputs(env: Env, psbt: Psbt, sigs: map<string, Bytes>, k: nat): seq<PsbtInput>
    requires FullySigned(env, psbt, sigs) && k <= |psbt.inputs|
  {
    seq(|psbt.inputs|, i requires 0 <= i < |psbt.inputs| =>
      if i < k then FinalizeInput(env, psbt.inputs[i], StackAt(env, psbt, sigs, i)) else psbt.inputs[i])
  }

  ghost function SignedTx(env: Env, psbt: Psbt, sigs: map<string, Bytes>): Tx
    requires FullySigned(env, psbt, sigs)
  {
    Finalized(psbt.(inputs := SignedInputs(env, psbt, sigs, |psbt.inputs|)))
  }

  lemma {:induction false} AttachmentClosedForm(env: Env, psbt: Psbt, sigs: map<string, Bytes>, k: nat)
    requires FullySigned(env, psbt, sigs) && k <= |psbt.inputs|
    ensures AttachWitnesses(env, psbt, sigs, k) == Some(SignedInputs(env, psbt, sigs, k))
  {
    hide Outpoints.Render, FinalizeInput;
    if k > 0 {
      AttachmentClosedForm(env, psbt, sigs, k - 1);
      var before := SignedInputs(env, psbt, sigs, k - 1);
      assert before[k - 1 := FinalizeInput(env, before[k - 1], StackAt(env, psbt, sigs, k - 1))]
          == SignedInputs(env, psbt, sigs, k);
    } else {
      assert SignedInputs(env, psbt, sigs, 0) == psbt.inputs;
    }
  }

  lemma {:induction false} PrevoutSumReadsPrevouts(a: seq<PsbtInput>, b: seq<PsbtInput>)
    requires |a| == |b|
    requires forall i :: 0 <= i < |a| ==> a[i].witnessUtxo == b[i].witnessUtxo
    ensures PrevoutSum(a) == PrevoutSum(b)
  {
    if a != [] {
      PrevoutSumReadsPrevouts(a[..|a| - 1], b[..|b| - 1]);
    }
  }

  // The inputs are known to hold at least what the outputs pay.
  predicate Funded(psbt: Psbt) {
    match PrevoutSum(psbt.inputs)
    case None => false
    case Some(paidIn) => paidIn >= OutputSum(psbt.unsigned.outputs)
  }

  // The fee a funded PSBT leaves to the miners.
  function FeeLeft(psbt: Psbt): nat {
    if Funded(psbt) then PrevoutSum(psbt.inputs).value - OutputSum(psbt.unsigned.outputs) else 0
  }

  // With every signature in, assembly yields the signed transaction unless it
  // exceeds the fee-rate ceiling, spends more than it holds, or spends a coin
  // of unknown value.
  lemma AssemblyDecides(env: Env, psbt: Psbt, sigs: map<string, Bytes>)
    requires FullySigned(env, psbt, sigs)
    ensures AssembleFinal(env, psbt, sigs) ==
            if PrevoutSum(psbt.inputs) == None then Err(Extraction(MissingInputValue))
            else if !Funded(psbt) then Err(Extraction(SendingTooMuch))
            else if env.feeRateOk(SignedTx(env, psbt, sigs), FeeLeft(psbt)) then Ok(SignedTx(env, psbt, sigs))
            else Err(Extraction(AbsurdFeeRate))
  {
    hide PrevoutSum, OutputSum, Finalized, AttachWitnesses, FullySigned, SignedInputs;
    var n := |psbt.inputs|;
    AttachmentClosedForm(env, psbt, sigs, n);
    SigningKeepsPrevouts(env, psbt, sigs);
    PrevoutSumReadsPrevouts(psbt.inputs, SignedInputs(env, psbt, sigs, n));
  }

  lemma SigningKeepsPrevouts(env: Env, psbt: Psbt, sigs: map<string, Bytes>)
    requires FullySigned(env, psbt, sigs)
    ensures |psbt.unsigned.inputs| == |psbt.inputs|
    ensures var after := SignedInputs(env, psbt, sigs, |psbt.inputs|);
            && |after| == |psbt.inputs|
            && forall i :: 0 <= i < |after| ==> after[i].witnessUtxo == psbt.inputs[i].witnessUtxo
  {
    hide Outpoints.Render;
  }

  // The hash of a script, pushed and compared.
  ghost predicate PaysToScriptHash(script: Script) {
    exists hash: Script :: |hash| == 20 && script == [0xa9, 0x14] + hash + [0x87]
  }

  // An input that spends a script hash with a signature and a compressed key
  // pushes the redeem script of that key; every other has no script.
  ghost predicate RightScript(env: Env, spent: Script, input: TxIn) {
    input.scriptSig ==
    if PaysToScriptHash(spent) && |input.stack| == 2 && |input.stack[1]| == 33
    then [0x16, 0x00, 0x14] + env.hash160(input.stack[1]) else []
  }

  lemma P2shIsScriptHash(script: Script)
    ensures IsP2sh(script) <==> PaysToScriptHash(script)
  {
    if IsP2sh(script) {
      assert script == [0xa9, 0x14] + script[2..22] + [0x87];
    }
  }

  lemma FinalizedIsRight(env: Env, input: PsbtInput, stack: Witness, txin: TxIn)
    requires Pristine(input) && txin.stack == stack
    requires var script := FinalizeInput(env, input, stack).finalScriptSig;
             txin.scriptSig == if script.Some? then script.value else []
    ensures RightScript(env, input.witnessUtxo.value.scriptPubkey, txin)
  {
    hide PaysToScriptHash;
    P2shIsScriptHash(input.witnessUtxo.value.scriptPubkey);
  }

  // Nothing but scripts and witnesses is added, every witness is the one
  // recorded for that input, and every script the one its witness calls for.
  lemma SignedTxIsCanonical(env: Env, psbt: Psbt, sigs: map<string, Bytes>)
    requires FullySigned(env, psbt, sigs)
    requires psbt.unsigned == Strip(psbt.unsigned)
    requires forall i :: 0 <= i < |psbt.inputs| ==> Pristine(psbt.inputs[i])
    ensures Strip(SignedTx(env, psbt, sigs)) == psbt.unsigned
    ensures |SignedTx(env, psbt, sigs).inputs| == |psbt.inputs|
    ensures forall i :: 0 <= i < |psbt.inputs| ==>
              SignedTx(env, psbt, sigs).inputs[i].stack == StackAt(env, psbt, sigs, i)
    ensures forall i :: 0 <= i < |psbt.inputs| ==>
              && psbt.inputs[i].witnessUtxo.Some?
              && RightScript(env, psbt.inputs[i].witnessUtxo.value.scriptPubkey, SignedTx(env, psbt, sigs).inputs[i])
  {
    hide Outpoints.Render, RightScript;
    var tx := SignedTx(env, psbt, sigs);
    forall i | 0 <= i < |psbt.inputs| ensures Strip(tx).inputs[i] == psbt.unsigned.inputs[i] {
      assert psbt.unsigned.inputs[i] == Strip(psbt.unsigned).inputs[i];
    }
    assert Strip(tx).inputs == psbt.unsigned.inputs;
    forall i | 0 <= i < |psbt.inputs|
      ensures psbt.inputs[i].witnessUtxo.Some?
      ensures RightScript(env, psbt.inputs[i].witnessUtxo.value.scriptPubkey, tx.inputs[i])
    {
      FinalizedIsRight(env, psbt.inputs[i], StackAt(env, psbt, sigs, i), tx.inputs[i]);
    }
  }

  // A missing signature is reported, not papered over.
  lemma {:induction false} MissingSignatureFails(env: Env, psbt: Psbt, sigs: map<string, Bytes>, i: nat, k: nat)
    requires i < k <= |psbt.unsigned.inputs| == |psbt.inputs|
    requires KeyAt(psbt, i) !in sigs
    ensures AttachWitnesses(env, psbt, sigs, k) == None
  {
    hide Outpoints.Render, FinalizeInput;
    if i < k - 1 {
      MissingSignatureFails(env, psbt, sigs, i, k - 1);
    }
  }
}
