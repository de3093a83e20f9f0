// What holds of the round state whenever nobody holds its lock, and that
// every change keeps it.
module RoundInvariant {
  import opened Base
  import opened Transactions
  import opened World
  import opened Ownership
  import opened Rounds
  import opened Canonical
  import Outpoints

  predicate Signable(phase: Phase) {
    phase == Signing || phase == Broadcast
  }

  // The bytes decode to a witness that verifies at this input of `psbt`.
  predicate Witnesses(env: Env, psbt: Psbt, index: nat, st: ScriptType, sig: Bytes) {
    && index < |psbt.inputs| && psbt.inputs[index].witnessUtxo.Some?
    && env.decodeWitness(sig).Some?
    && env.verifyWitness(psbt.unsigned, psbt.inputs, index, st, env.decodeWitness(sig).value)
  }

  lemma VerificationDecides(env: Env, psbt: Psbt, index: nat, st: ScriptType, sig: Bytes)
    ensures VerifyInputSignature(env, psbt, index, st, sig) <==> Witnesses(env, psbt, index, st, sig)
  {
  }

  // The recorded signature of `key` verifies against `psbt` at its own input.
  ghost predicate SigOk(env: Env, psbt: Psbt, key: string, st: ScriptType, sig: Bytes) {
    && Outpoints.Parse(key).Some?
    && var position := Position(psbt.unsigned.inputs, Outpoints.Parse(key).value);
       position.Some? && Witnesses(env, psbt, position.value, st, sig)
  }

  ghost predicate SigsOk(env: Env, inner: Inner, psbt: Psbt)
    requires inner.sigs.Keys <= inner.inputs.Keys
  {
    forall key :: key in inner.sigs ==> SigOk(env, psbt, key, inner.inputs[key].scriptType, inner.sigs[key])
  }

  // A complete signature set sits in Signing only over the fee-rate ceiling.
  ghost predicate CompleteOnlyOverCeiling(env: Env, inner: Inner, psbt: Psbt) {
    |psbt.unsigned.inputs| == |psbt.inputs| && (inner.sigs.Keys == inner.inputs.Keys ==>
      AssembleFinal(env, psbt, inner.sigs) == Err(Extraction(AbsurdFeeRate)))
  }

  ghost predicate SigningOk(env: Env, phase: Phase, inner: Inner)
    requires inner.sigs.Keys <= inner.inputs.Keys
  {
    && Canon(env, inner.inputs, inner.outputs).Some?
    && var psbt := Canon(env, inner.inputs, inner.outputs).value;
       && SigsOk(env, inner, psbt)
       && (phase == Signing ==> CompleteOnlyOverCeiling(env, inner, psbt))
       && (phase == Broadcast ==> inner.sigs.Keys == inner.inputs.Keys)
  }

  // Sizes by phase.
  predicate CountsOk(env: Env, phase: Phase, inner: Inner) {
    var ins, outs := |inner.inputs|, |inner.outputs|;
    && ins <= env.cfg.maxParticipants
    && (phase == InputReg ==> ins < env.cfg.maxParticipants && outs == 0)
    && (phase == OutputReg ==> env.cfg.minParticipants <= ins && outs < ins)
    && (Signable(phase) ==> env.cfg.minParticipants <= ins == outs)
    && (!Signable(phase) ==> inner.sigs == map[])
  }

  ghost predicate InnerOk(env: Env, phase: Phase, inner: Inner)
    requires env.cfg.bip.AllowsSomething()
  {
    && InputsOk(env, inner.inputs)
    && OutputsOk(env, inner.outputs, inner.redeemed)
    && CountsOk(env, phase, inner)
    && inner.sigs.Keys <= inner.inputs.Keys
    && (Signable(phase) ==> SigningOk(env, phase, inner))
  }

  ghost predicate RoundOk(env: Env, r: Round)
    requires env.cfg.bip.AllowsSomething()
  {
    && r.phase != Blame
    && (r.inner.Some? <==> r.phase != Idle)
    && (match r.inner
        case None => r.count == 0 && r.publicKey == None
        case Some(inner) =>
          r.count == |inner.inputs| && r.publicKey == Some(inner.key) && InnerOk(env, r.phase, inner))
  }

  // -- entering and leaving a round ---------------------------------------------

  lemma IdleIsOk(env: Env, id: RoundId)
    requires env.cfg.bip.AllowsSomething()
    ensures RoundOk(env, NewIdle(id))
  {
  }

  lemma InstallKeepsOk(env: Env, r: Round, key: Key, secret: Secret)
    requires Sane(env.cfg) && RoundOk(env, r)
    ensures RoundOk(env, Install(r, key, secret))
  {
  }

  // Both ways out of a live phase end in a fresh idle round.
  lemma EndingsReachIdle(r: Round, newId: RoundId)
    ensures r.phase in {OutputReg, Signing, Broadcast} ==> ViaBlame(r, newId) == NewIdle(newId)
    ensures r.phase in {InputReg, Broadcast, Blame} ==> Transition(r, Idle, newId) == NewIdle(newId)
  {
  }

  // -- input registration ----------------------------------------------------------

  lemma RegisteredInputOk(env: Env, op: OutPoint, changeAddress: string, details: UtxoDetails)
    requires env.cfg.bip.AllowsSomething()
    requires details.valueSats >= RegistrationFloor(env.cfg) && env.cfg.bip.Allows(details.scriptType)
    requires env.parseAddress(changeAddress).Some?
    ensures var key := Outpoints.Render(op);
            InputOk(env, key,
              RegisteredInput(key, changeAddress, details.script, details.valueSats, details.scriptType))
  {
    Outpoints.RenderParses(op);
    hide Outpoints.Render, Outpoints.Parse, RegistrationFloor;
  }

  lemma AddInputOk(env: Env, inner: Inner, key: string, reg: RegisteredInput)
    requires Sane(env.cfg) && InnerOk(env, InputReg, inner)
    requires key !in inner.inputs && InputOk(env, key, reg)
    ensures var inputs := inner.inputs[key := reg];
            && |inputs| == |inner.inputs| + 1
            && InnerOk(env, if |inputs| >= env.cfg.maxParticipants then OutputReg else InputReg,
                 inner.(inputs := inputs))
  {
    hide InputOk, OutputsOk, SigningOk;
    assert inner.inputs[key := reg].Keys == inner.inputs.Keys + {key};
  }

  // Exactly those inputs are taken that come in time, find room, are new to
  // the round and can be signed for.
  lemma CommitDecides(
    env: Env, r: Round, op: OutPoint, blinded: Bytes, changeAddress: string, details: UtxoDetails)
    ensures CommitInput(env, r, op, blinded, changeAddress, details).Ok? <==>
            && r.phase == InputReg && r.inner.Some? && r.count < env.cfg.maxParticipants
            && Outpoints.Render(op) !in r.inner.value.inputs
            && env.blindSign(r.inner.value.key, blinded).Some?
  {
    hide Outpoints.Render;
  }

  // A committed input is the old round with one more input, OutputReg when full,
  // answered with the round's signature and the outpoint's session token.
  lemma CommittedInput(
    env: Env, r: Round, op: OutPoint, blinded: Bytes, changeAddress: string, details: UtxoDetails)
    requires CommitInput(env, r, op, blinded, changeAddress, details).Ok?
    ensures r.phase == InputReg && r.inner.Some?
    ensures var reply := CommitInput(env, r, op, blinded, changeAddress, details).value.1;
            && env.blindSign(r.inner.value.key, blinded) == Some(reply.blindSignature)
            && reply.sessionToken == env.sessionToken(r.inner.value.secret, op)
    ensures var key := Outpoints.Render(op);
            var reg := RegisteredInput(key, changeAddress, details.script, details.valueSats, details.scriptType);
            && key !in r.inner.value.inputs
            && CommitInput(env, r, op, blinded, changeAddress, details).value.0 ==
               Round(if r.count + 1 >= env.cfg.maxParticipants then OutputReg else InputReg, r.id, r.count + 1,
                 r.publicKey, Some(r.inner.value.(inputs := r.inner.value.inputs[key := reg])))
  {
    hide Outpoints.Render;
  }

  lemma CommitInputKeepsOk(
    env: Env, r: Round, op: OutPoint, blinded: Bytes, changeAddress: string, details: UtxoDetails)
    requires Sane(env.cfg) && RoundOk(env, r)
    requires details.valueSats >= RegistrationFloor(env.cfg) && env.cfg.bip.Allows(details.scriptType)
    requires env.parseAddress(changeAddress).Some?
    requires CommitInput(env, r, op, blinded, changeAddress, details).Ok?
    ensures RoundOk(env, CommitInput(env, r, op, blinded, changeAddress, details).value.0)
  {
    hide CommitInput, Outpoints.Render, InputOk, RegistrationFloor, InnerOk;
    CommittedInput(env, r, op, blinded, changeAddress, details);
    RegisteredInputOk(env, op, changeAddress, details);
    var key := Outpoints.Render(op);
    AddInputOk(env, r.inner.value, key,
      RegisteredInput(key, changeAddress, details.script, details.valueSats, details.scriptType));
  }

  lemma InputTimeoutKeepsOk(env: Env, r: Round, newId: RoundId)
    requires Sane(env.cfg) && RoundOk(env, r) && r.phase == InputReg
    ensures RoundOk(env, InputTimeout(env, r, newId))
  {
    hide InputsOk, OutputsOk;
  }

  // -- output registration -----------------------------------------------------------

  // A token the coordinator signed, for this very output and the denomination.
  predicate Redeemable(env: Env, key: Key, output: OutputRequest) {
    && |output.token| == 32 && (output.randomizer.Some? ==> |output.randomizer.value| == 32)
    && output.amountSats == env.cfg.denominationSats
    && env.verifyToken(key, output.token, output.signature, output.randomizer)
    && env.parseAddress(output.address).Some?
    && env.tokenMessage(env.parseAddress(output.address).value, output.amountSats) == output.token
  }

  // Exactly the outputs with such a token that is not yet redeemed are taken,
  // and only such a token is told apart as used.
  lemma OutputDecides(env: Env, r: Round, output: OutputRequest)
    ensures PostOutput(env, r, output).Ok? <==>
            && r.phase == OutputReg && r.inner.Some?
            && Redeemable(env, r.inner.value.key, output) && output.token !in r.inner.value.redeemed
    ensures PostOutput(env, r, output) == Err(TokenAlreadyUsed) <==>
            && r.phase == OutputReg && r.inner.Some?
            && Redeemable(env, r.inner.value.key, output) && output.token in r.inner.value.redeemed
  {
  }

  // An accepted token names a script nobody registered before, without any
  // assumption on the hash behind token messages.
  lemma AcceptedOutputOk(
    env: Env, outputs: seq<RegisteredOutput>, redeemed: set<Token>, out: RegisteredOutput, token: Token)
    requires OutputsOk(env, outputs, redeemed)
    requires env.parseAddress(out.address).Some? && out.amountSats == env.cfg.denominationSats
    requires env.tokenMessage(ScriptOf(env, out), out.amountSats) == token
    requires token !in redeemed
    ensures OutputsOk(env, outputs + [out], redeemed + {token})
  {
    var after := outputs + [out];
    forall t | t in redeemed + {token} ensures IsTokenOf(env, after, t) {
      if t == token {
        assert after[|outputs|] == out;
      } else {
        assert IsTokenOf(env, outputs, t);
        var i :| 0 <= i < |outputs|
          && env.tokenMessage(ScriptOf(env, outputs[i]), env.cfg.denominationSats) == t;
        assert after[i] == outputs[i];
      }
    }
  }

  lemma AddOutputOk(env: Env, inner: Inner, out: RegisteredOutput, token: Token)
    requires Sane(env.cfg) && InnerOk(env, OutputReg, inner)
    requires env.parseAddress(out.address).Some? && out.amountSats == env.cfg.denominationSats
    requires env.tokenMessage(ScriptOf(env, out), out.amountSats) == token
    requires token !in inner.redeemed
    ensures var after := inner.(redeemed := inner.redeemed + {token}, outputs := inner.outputs + [out]);
            InnerOk(env, if |after.outputs| >= |inner.inputs| then Signing else OutputReg, after)
  {
    hide InputsOk, OutputsOk, SigningOk, ScriptOf;
    AcceptedOutputOk(env, inner.outputs, inner.redeemed, out, token);
    var after := inner.(redeemed := inner.redeemed + {token}, outputs := inner.outputs + [out]);
    if |after.outputs| >= |inner.inputs| {
      SigningStarts(env, after);
    }
  }

  // An accepted output is the old round with one more output and token, and
  // Signing when it was the last.
  lemma AcceptedOutput(env: Env, r: Round, req: OutputRequest)
    requires PostOutput(env, r, req).Ok?
    ensures r.phase == OutputReg && r.inner.Some?
    ensures env.parseAddress(req.address).Some? && req.amountSats == env.cfg.denominationSats
    ensures Redeemable(env, r.inner.value.key, req) && req.token !in r.inner.value.redeemed
    ensures var inner, out := r.inner.value, RegisteredOutput(req.address, req.amountSats);
            && env.tokenMessage(ScriptOf(env, out), out.amountSats) == req.token
            && PostOutput(env, r, req).value ==
               Round(if |inner.outputs| + 1 >= r.count && r.count > 0 then Signing else OutputReg, r.id, r.count,
                 r.publicKey, Some(inner.(redeemed := inner.redeemed + {req.token}, outputs := inner.outputs + [out])))
  {
  }

  lemma PostOutputKeepsOk(env: Env, r: Round, req: OutputRequest)
    requires Sane(env.cfg) && RoundOk(env, r)
    requires PostOutput(env, r, req).Ok?
    ensures RoundOk(env, PostOutput(env, r, req).value)
  {
    hide PostOutput, InnerOk, ScriptOf;
    AcceptedOutput(env, r, req);
    SomebodyRegistered(env, r.inner.value);
    AddOutputOk(env, r.inner.value, RegisteredOutput(req.address, req.amountSats), req.token);
  }

  lemma SomebodyRegistered(env: Env, inner: Inner)
    requires Sane(env.cfg) && InnerOk(env, OutputReg, inner)
    ensures |inner.inputs| > 0
  {
    hide InputsOk, OutputsOk, SigningOk;
  }

  // With the last output in, the round is buildable and nobody has signed.
  lemma SigningStarts(env: Env, inner: Inner)
    requires Sane(env.cfg)
    requires InputsOk(env, inner.inputs) && OutputsOk(env, inner.outputs, inner.redeemed)
    requires env.cfg.minParticipants <= |inner.inputs| == |inner.outputs| <= env.cfg.maxParticipants
    requires inner.sigs == map[]
    ensures SigningOk(env, Signing, inner)
  {
    BuildableInner(env, inner);
    assert env.cfg.minParticipants > 0;
    hide *;
    CanonSpendsExactly(env, inner.inputs, inner.outputs);
    UnsignedSigningOk(env, inner);
  }

  lemma UnsignedSigningOk(env: Env, inner: Inner)
    requires Canon(env, inner.inputs, inner.outputs).Some?
    requires inner.sigs == map[] && |inner.inputs| > 0
    ensures SigningOk(env, Signing, inner)
  {
    hide Canon, AssembleFinal;
    assert |inner.inputs.Keys| == |inner.inputs|;
    assert inner.sigs.Keys == {};
  }

  lemma BuildableInner(env: Env, inner: Inner)
    requires Sane(env.cfg)
    requires InputsOk(env, inner.inputs) && OutputsOk(env, inner.outputs, inner.redeemed)
    requires env.cfg.minParticipants <= |inner.inputs| == |inner.outputs| <= env.cfg.maxParticipants
    ensures Buildable(env, inner.inputs, inner.outputs)
  {
  }

  lemma SignableIsBuildable(env: Env, r: Round)
    requires Sane(env.cfg) && RoundOk(env, r) && Signable(r.phase)
    ensures Buildable(env, r.inner.value.inputs, r.inner.value.outputs)
  {
    hide SigningOk, InputsOk;
    BuildableInner(env, r.inner.value);
  }

  // Missing outputs send the round through Blame to a fresh idle one, and a
  // round with all of them on to signing.
  lemma OutputTimeoutDecides(r: Round, newId: RoundId)
    requires r.phase == OutputReg && r.inner.Some?
    ensures OutputTimeout(r, newId) ==
            if |r.inner.value.outputs| < |r.inner.value.inputs| then NewIdle(newId) else r.(phase := Signing)
  {
  }

  // A live output timeout only ever blames: the round never waits in OutputReg
  // with all outputs present.
  lemma OutputTimeoutOnlyBlames(env: Env, r: Round, newId: RoundId)
    requires Sane(env.cfg) && RoundOk(env, r) && r.phase == OutputReg
    ensures OutputTimeout(r, newId) == NewIdle(newId)
  {
    hide InputsOk, OutputsOk, SigningOk;
  }
}
