// Transactions and partially signed transactions, as far as the coordinator
// reads and writes them.
module Transactions {
  import opened Base

  datatype TxIn = TxIn(previousOutput: OutPoint, scriptSig: Script, sequence: U32, stack: Witness)

  datatype TxOut = TxOut(value: nat, scriptPubkey: Script)

  datatype Tx = Tx(version: nat, lockTime: nat, inputs: seq<TxIn>, outputs: seq<TxOut>)

  datatype PsbtInput = PsbtInput(
    witnessUtxo: Option<TxOut>, finalScriptSig: Option<Script>, finalWitness: Option<Witness>)

  datatype Psbt = Psbt(unsigned: Tx, inputs: seq<PsbtInput>)

  // Version 2, and the sequence number that signals replaceability without a lock time.
  const TX_VERSION := 2
  const SEQUENCE_RBF: U32 := 0xFFFF_FFFD

  function UnsignedInput(op: OutPoint): TxIn {
    TxIn(op, [], SEQUENCE_RBF, [])
  }

  // The transaction a signature commits to: scripts and witnesses stripped.
  function Strip(tx: Tx): Tx {
    tx.(inputs := seq(|tx.inputs|, i requires 0 <= i < |tx.inputs| =>
      tx.inputs[i].(scriptSig := [], stack := [])))
  }

  // The first input that spends `op`.
  function Position(inputs: seq<TxIn>, op: OutPoint): (r: Option<nat>)
    ensures r.None? <==> forall i :: 0 <= i < |inputs| ==> inputs[i].previousOutput != op
    ensures r.Some? ==> r.value < |inputs| && inputs[r.value].previousOutput == op
    ensures r.Some? ==> forall i :: 0 <= i < r.value ==> inputs[i].previousOutput != op
  {
    if inputs == [] then None
    else if inputs[0].previousOutput == op then Some(0)
    else
      match Position(inputs[1..], op)
      case None => None
      case Some(i) => Some(i + 1)
  }

  function OutputSum(outs: seq<TxOut>): nat {
    if outs == [] then 0 else OutputSum(outs[..|outs| - 1]) + outs[|outs| - 1].value
  }

  // The value of every previous output, or None when one is missing.
  function PrevoutSum(inputs: seq<PsbtInput>): Option<nat> {
    if inputs == [] then Some(0)
    else
      match (PrevoutSum(inputs[..|inputs| - 1]), inputs[|inputs| - 1].witnessUtxo)
      case (Some(sum), Some(utxo)) => Some(sum + utxo.value)
      case _ => None
  }

  lemma {:induction false} OutputSumConcat(a: seq<TxOut>, b: seq<TxOut>)
    ensures OutputSum(a + b) == OutputSum(a) + OutputSum(b)
  {
    if b == [] {
      assert a + b == a;
    } else {
      OutputSumConcat(a, b[..|b| - 1]);
      assert (a + b)[..|a + b| - 1] == a + b[..|b| - 1];
    }
  }
}
