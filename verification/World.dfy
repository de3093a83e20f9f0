// Everything the coordinator takes from libraries, as arbitrary total
// functions, together with its configuration. Nothing is assumed of them: in
// particular no hash is assumed injective and no signature scheme sound.
module World {
  import opened Base
  import opened Config
  import opened Transactions
  import BanStore

  type RoundId = nat

  // A round's blind-signing key pair.
  type Key = nat

  type Secret = Bytes

  type Token = Bytes

  // The proof of ownership a client sends with its input.
  datatype OwnershipProof = OwnershipProof(
    version: nat, stack: Witness, psbtInput: Option<string>, declared: Option<ScriptType>)

  datatype Env = Env(
    cfg: CoordinatorConfig,
    // Address parsing for the configured network.
    parseAddress: string -> Option<Script>,
    // The token message that binds an output script and an amount.
    tokenMessage: (Script, nat) -> Token,
    // Blind signing, and verification of an unblinded token.
    blindSign: (Key, Bytes) -> Option<Bytes>,
    verifyToken: (Key, Token, Bytes, Option<Bytes>) -> bool,
    // The keyed session token of an outpoint.
    sessionToken: (Secret, OutPoint) -> Bytes,
    // Witness decoding, and its verification against transaction and previous outputs.
    decodeWitness: Bytes -> Option<Witness>,
    verifyWitness: (Tx, seq<PsbtInput>, nat, ScriptType, Witness) -> bool,
    hash160: Bytes -> Bytes,
    // Whether a finished transaction paying this fee stays below the fee-rate ceiling.
    feeRateOk: (Tx, nat) -> bool,
    // Ownership proofs.
    detectScriptType: Script -> Option<ScriptType>,
    verifyOwnership: (ScriptType, Script, Witness, OutPoint, RoundId) -> bool,
    decodePsbtWitness: string -> Option<Witness>,
    // The hash under which a key is banned.
    sha: string -> BanStore.Hash)

  // What startup validation guarantees the round engine.
  predicate Sane(c: CoordinatorConfig) {
    && 2 <= c.minParticipants <= c.maxParticipants <= 100
    && c.denominationSats >= 546
    && c.feeRate >= 1
    && c.bip.AllowsSomething()
  }

  // Exactly these configurations pass: what the engine relies on, and limits
  // and types that only the listener and the operator care about.
  lemma ValidatedConfigIsSane(c: CoordinatorConfig)
    ensures Validate(c).Ok? <==>
            && Sane(c)
            && KnownNetwork(c.network)
            && c.inputRegTimeoutSecs > 0 && c.outputRegTimeoutSecs > 0 && c.signingTimeoutSecs > 0
            && 0 < c.rateLimitInfoPerMin <= 60000 && 0 < c.rateLimitWritesPerMin <= 60000
            && c.maxConcurrentConnections > 0 && c.requestTimeoutSecs > 0
            && c.bip.Allows(c.bip.outputScriptType)
  {
  }
}
