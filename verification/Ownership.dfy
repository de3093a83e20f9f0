// Validation of a coin offered for registration: existence, value, ownership.
module Ownership {
  import opened Base
  import opened Config
  import opened Fees
  import opened World

  datatype ProofError =
    | UnsupportedScriptType | WireFormatMismatch | DecodeError
    | ScriptTypeMismatch(declared: ScriptType, derived: ScriptType)
    | UnsupportedProofVersion(version: nat) | NotVerified

  // Version 1 carries the witness, version 2 a PSBT input and a declared type.
  function DispatchOwnershipProof(
    env: Env, script: Script, proof: OwnershipProof, op: OutPoint, round: RoundId): Result<ScriptType, ProofError>
  {
    if proof.version == 1 then
      match env.detectScriptType(script)
      case None => Err(UnsupportedScriptType)
      case Some(derived) =>
        if !env.cfg.bip.Allows(derived) then Err(UnsupportedScriptType)
        else if !env.verifyOwnership(derived, script, proof.stack, op, round) then Err(NotVerified)
        else Ok(derived)
    else if proof.version == 2 then
      if proof.psbtInput == None || proof.declared == None then Err(WireFormatMismatch)
      else
        match env.decodePsbtWitness(proof.psbtInput.value)
        case None => Err(DecodeError)
        case Some(stack) =>
          match env.detectScriptType(script)
          case None => Err(UnsupportedScriptType)
          case Some(derived) =>
            if proof.declared.value != derived then Err(ScriptTypeMismatch(proof.declared.value, derived))
            else if !env.cfg.bip.Allows(derived) then Err(UnsupportedScriptType)
            else if !env.verifyOwnership(derived, script, stack, op, round) then Err(NotVerified)
            else Ok(derived)
    else Err(UnsupportedProofVersion(proof.version))
  }

  // The proof shows control of this coin of this type in this round: the witness
  // it carries verifies, and the type is the chain's and allowed.
  predicate Proven(env: Env, script: Script, st: ScriptType, proof: OwnershipProof, op: OutPoint, round: RoundId) {
    && env.detectScriptType(script) == Some(st)
    && env.cfg.bip.Allows(st)
    && ((proof.version == 1 && env.verifyOwnership(st, script, proof.stack, op, round))
        || (&& proof.version == 2 && proof.declared == Some(st)
            && proof.psbtInput.Some? && env.decodePsbtWitness(proof.psbtInput.value).Some?
            && env.verifyOwnership(st, script, env.decodePsbtWitness(proof.psbtInput.value).value, op, round)))
  }

  // Exactly such proofs are accepted, for exactly that type.
  lemma ProofDecides(
    env: Env, script: Script, st: ScriptType, proof: OwnershipProof, op: OutPoint, round: RoundId)
    ensures DispatchOwnershipProof(env, script, proof, op, round) == Ok(st) <==>
            Proven(env, script, st, proof, op, round)
  {
  }

  // The type comes from the chain and the operator's allowlist, whatever the
  // client declares: two proofs accepted for one script yield one type.
  lemma TypeIsDerivedAndAllowed(
    env: Env, script: Script, proof: OwnershipProof, other: OwnershipProof, op: OutPoint, round: RoundId)
    requires DispatchOwnershipProof(env, script, proof, op, round).Ok?
    ensures var st := DispatchOwnershipProof(env, script, proof, op, round).value;
            && env.cfg.bip.Allows(st)
            && env.detectScriptType(script) == Some(st)
            && (DispatchOwnershipProof(env, script, other, op, round).Ok? ==>
                  DispatchOwnershipProof(env, script, other, op, round).value == st)
  {
  }

  datatype UtxoError =
    | NotFound | AlreadyRegistered | InsufficientValue(value: nat, required: nat)
    | InvalidProof | RpcUnavailable

  // The node's answer about an output: an error, or the unspent output if any.
  datatype TxOutAnswer = RpcError | Answer(txout: Option<ChainOutput>)

  datatype ChainOutput = ChainOutput(valueSats: nat, script: Script)

  datatype UtxoDetails = UtxoDetails(valueSats: nat, script: Script, scriptType: ScriptType)

  function ValidateUtxo(
    env: Env, op: OutPoint, registered: set<OutPoint>, feeShare: nat, proof: OwnershipProof,
    round: RoundId, answer: TxOutAnswer): Result<UtxoDetails, UtxoError>
  {
    if op in registered then Err(AlreadyRegistered)
    else
      match answer
      case RpcError => Err(RpcUnavailable)
      case Answer(None) => Err(NotFound)
      case Answer(Some(out)) =>
        var required := env.cfg.denominationSats + feeShare;
        if out.valueSats < required then Err(InsufficientValue(out.valueSats, required))
        else
          match DispatchOwnershipProof(env, out.script, proof, op, round)
          case Err(_) => Err(InvalidProof)
          case Ok(st) => Ok(UtxoDetails(out.valueSats, out.script, st))
  }

  // What registration asks a coin to be worth.
  function RegistrationFloor(c: CoordinatorConfig): nat
    requires c.bip.AllowsSomething()
  {
    c.denominationSats + EstimateFeeShare(c.bip, c.minParticipants, c.feeRate)
  }

  // Exactly the coins pass that are new to the round, reported unspent with
  // this value and script, worth the required amount and shown to be owned.
  lemma ValidationDecides(
    env: Env, op: OutPoint, registered: set<OutPoint>, feeShare: nat, proof: OwnershipProof, round: RoundId,
    answer: TxOutAnswer, coin: UtxoDetails)
    ensures ValidateUtxo(env, op, registered, feeShare, proof, round, answer) == Ok(coin) <==>
            && op !in registered
            && answer == Answer(Some(ChainOutput(coin.valueSats, coin.script)))
            && coin.valueSats >= env.cfg.denominationSats + feeShare
            && Proven(env, coin.script, coin.scriptType, proof, op, round)
  {
  }

  // A coin that passes is worth the floor, of an allowed type, and owned by
  // whoever sent the proof.
  lemma ValidatedUtxoMeetsGate(
    env: Env, op: OutPoint, registered: set<OutPoint>, proof: OwnershipProof, round: RoundId, answer: TxOutAnswer)
    requires env.cfg.bip.AllowsSomething()
    ensures var feeShare := EstimateFeeShare(env.cfg.bip, env.cfg.minParticipants, env.cfg.feeRate);
            var r := ValidateUtxo(env, op, registered, feeShare, proof, round, answer);
            r.Ok? ==>
              && r.value.valueSats >= RegistrationFloor(env.cfg) && env.cfg.bip.Allows(r.value.scriptType)
              && Proven(env, r.value.script, r.value.scriptType, proof, op, round)
  {
    hide EstimateFeeShare;
  }
}
