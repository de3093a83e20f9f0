// Building, verifying and assembling, as the loops that do it.
module SigningEngine {
  import opened Base
  import opened Transactions
  import opened InputOrder
  import opened World
  import opened Rounds
  import opened RoundStates
  import Outpoints
  import CoinJoinTx

  // -- the canonical build ---------------------------------------------------------

  // One entry that does not parse spoils the whole collection.
  lemma {:induction false} BadEntrySpoils(env: Env, inputs: map<string, RegisteredInput>, order: seq<string>, k: nat)
    requires forall i :: 0 <= i < |order| ==> order[i] in inputs
    requires k < |order| && ToParticipant(env, inputs[order[k]]) == None
    ensures Participants(env, inputs, order) == None
  {
    hide ToParticipant;
    if k < |order| - 1 {
      BadEntrySpoils(env, inputs, order[..|order| - 1], k);
    }
  }

  lemma {:induction false} BadAddressSpoils(env: Env, outputs: seq<RegisteredOutput>, k: nat)
    requires k < |outputs| && env.parseAddress(outputs[k].address) == None
    ensures OutputScripts(env, outputs) == None
  {
    if k < |outputs| - 1 {
      BadAddressSpoils(env, outputs[..|outputs| - 1], k);
    }
  }

  method CollectParticipants(env: Env, inputs: map<string, RegisteredInput>, order: seq<string>)
    returns (r: Option<seq<ParticipantInput>>)
    requires forall i :: 0 <= i < |order| ==> order[i] in inputs
    ensures r == Participants(env, inputs, order)
  {
    hide Outpoints.Parse;
    var ps := [];
    for i := 0 to |order|
      invariant Participants(env, inputs, order[..i]) == Some(ps)
    {
      assert order[..i + 1][..i] == order[..i];
      var reg := inputs[order[i]];
      var op, change := Outpoints.Parse(reg.utxo), env.parseAddress(reg.changeAddress);
      if op == None || change == None {
        BadEntrySpoils(env, inputs, order, i);
        return None;
      }
      ps := ps + [ParticipantInput(op.value, reg.valueSats, reg.scriptPubkey, change.value, reg.scriptType)];
    }
    assert order[..|order|] == order;
    return Some(ps);
  }

  method CollectOutputScripts(env: Env, outputs: seq<RegisteredOutput>) returns (r: Option<seq<Script>>)
    ensures r == OutputScripts(env, outputs)
  {
    var scripts := [];
    for i := 0 to |outputs|
      invariant OutputScripts(env, outputs[..i]) == Some(scripts)
    {
      assert outputs[..i + 1][..i] == outputs[..i];
      var script := env.parseAddress(outputs[i].address);
      if script == None {
        BadAddressSpoils(env, outputs, i);
        return None;
      }
      scripts := scripts + [script.value];
    }
    assert outputs[..|outputs|] == outputs;
    return Some(scripts);
  }

  // `order` is the iteration of the input map that this call happens to see.
  method BuildCanonicalPsbt(env: Env, inner: Inner, order: seq<string>) returns (r: Option<Psbt>)
    requires forall i :: 0 <= i < |order| ==> order[i] in inner.inputs
    ensures r == BuildCanonical(env, inner.inputs, inner.outputs, order)
  {
    hide Participants, OutputScripts, CoinJoinTx.BuildSpec;
    var ps := CollectParticipants(env, inner.inputs, order);
    if ps == None {
      return None;
    }
    var scripts := CollectOutputScripts(env, inner.outputs);
    if scripts == None {
      return None;
    }
    var built := CoinJoinTx.BuildCoinJoinPsbt(
      ps.value, scripts.value, env.cfg.denominationSats, env.cfg.feeRate, env.cfg.bip.outputScriptType);
    r := if built.Ok? then Some(built.value) else None;
  }

  // -- assembly -----------------------------------------------------------------------

  lemma {:induction false} FailureLasts(env: Env, psbt: Psbt, sigs: map<string, Bytes>, k: nat, n: nat)
    requires k <= n <= |psbt.unsigned.inputs| == |psbt.inputs|
    requires AttachWitnesses(env, psbt, sigs, k) == None
    ensures AttachWitnesses(env, psbt, sigs, n) == None
  {
    hide Outpoints.Render, FinalizeInput;
    if k < n {
      FailureLasts(env, psbt, sigs, k, n - 1);
    }
  }

  method AttachAll(env: Env, psbt: Psbt, sigs: map<string, Bytes>) returns (r: Option<seq<PsbtInput>>)
    requires |psbt.unsigned.inputs| == |psbt.inputs|
    ensures r == AttachWitnesses(env, psbt, sigs, |psbt.inputs|)
  {
    hide Outpoints.Render, FinalizeInput;
    var inputs := psbt.inputs;
    for i := 0 to |psbt.inputs|
      invariant |inputs| == |psbt.inputs|
      invariant AttachWitnesses(env, psbt, sigs, i) == Some(inputs)
    {
      var key := Outpoints.Render(psbt.unsigned.inputs[i].previousOutput);
      if key !in sigs {
        FailureLasts(env, psbt, sigs, i + 1, |psbt.inputs|);
        return None;
      }
      var stack := env.decodeWitness(sigs[key]);
      if stack == None {
        FailureLasts(env, psbt, sigs, i + 1, |psbt.inputs|);
        return None;
      }
      inputs := inputs[i := FinalizeInput(env, inputs[i], stack.value)];
    }
    return Some(inputs);
  }

  method AssembleFinalTx(env: Env, inner: Inner, order: seq<string>) returns (r: Option<Tx>)
    requires forall i :: 0 <= i < |order| ==> order[i] in inner.inputs
    ensures match BuildCanonical(env, inner.inputs, inner.outputs, order)
            case None => r == None
            case Some(psbt) =>
              match AssembleFinal(env, psbt, inner.sigs)
              case Ok(tx) => r == Some(tx)
              case Err(_) => r == None
  {
    hide BuildCanonical, AttachWitnesses, ExtractTx;
    var psbt := BuildCanonicalPsbt(env, inner, order);
    if psbt == None {
      return None;
    }
    var inputs := AttachAll(env, psbt.value, inner.sigs);
    if inputs == None {
      return None;
    }
    var extracted := ExtractTx(env, psbt.value.(inputs := inputs.value));
    r := if extracted.Ok? then Some(extracted.value) else None;
  }

  // -- one submission -------------------------------------------------------------------

  // Checked against the canonical transaction before it is recorded; the
  // change to Broadcast comes last.
  method ProcessSign(env: Env, state: RoundState, op: OutPoint, sig: Bytes, token: Bytes, orders: SignOrders)
    returns (outcome: SignOutcome)
    requires OrdersFit(state.View(), orders)
    modifies state
    ensures (state.View(), outcome) == Rounds.ProcessSign(env, old(state.View()), op, sig, token, orders)
  {
    hide BuildCanonical, AssembleFinal, Outpoints.Render, VerifyInputSignature, Position;
    if state.inner == None {
      return Rejected(WrongPhase);
    }
    var inner := state.inner.value;
    if env.sessionToken(inner.secret, op) != token {
      return Rejected(SessionInvalid);
    }
    var key := Outpoints.Render(op);
    if key !in inner.inputs || key in inner.sigs {
      return Rejected(SessionInvalid);
    }
    var psbt := BuildCanonicalPsbt(env, inner, orders.verify);
    if psbt == None {
      return Rejected(BroadcastRejected);
    }
    var index := Position(psbt.value.unsigned.inputs, op);
    if index == None {
      return Rejected(BroadcastRejected);
    }
    if !VerifyInputSignature(env, psbt.value, index.value, inner.inputs[key].scriptType, sig) {
      return Rejected(InvalidSignature);
    }
    inner := inner.(sigs := inner.sigs[key := sig]);
    state.inner := Some(inner);
    if |inner.sigs| < state.count {
      return Recorded;
    }
    var tx := AssembleFinalTx(env, inner, orders.assemble);
    if tx == None {
      return Rejected(BroadcastRejected);
    }
    var moved := state.TransitionTo(Broadcast, state.id);
    if !moved {
      return Rejected(BroadcastRejected);
    }
    return ReadyToBroadcast(tx.value, orders.snapshot);
  }

  method PostSign(env: Env, state: RoundState, req: SignRequest, orders: SignOrders) returns (outcome: SignOutcome)
    requires OrdersFit(state.View(), orders)
    modifies state
    ensures (state.View(), outcome) == Rounds.PostSign(env, old(state.View()), req, orders)
  {
    hide Rounds.ProcessSign, Outpoints.Parse;
    var op := Outpoints.Parse(req.utxo);
    if op == None || |req.token| != 32 {
      return Rejected(SessionInvalid);
    }
    if state.phase != Signing {
      return Rejected(WrongPhase);
    }
    outcome := ProcessSign(env, state, op.value, req.signature, req.token, orders);
  }
}
