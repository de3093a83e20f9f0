// The coordinator's configuration: the allowed script types, the startup
// validation and the derived broadcast watchdog delay.
module Config {
  import opened Base

  type U64 = n: int | 0 <= n < 0x1_0000_0000_0000_0000

  datatype BipConfig = BipConfig(
    allowP2wpkh: bool, allowP2tr: bool, allowP2shP2wpkh: bool,
    outputScriptType: ScriptType)
  {
    predicate Allows(st: ScriptType) {
      match st
      case P2wpkh => allowP2wpkh
      case P2tr => allowP2tr
      case P2shP2wpkh => allowP2shP2wpkh
    }

    predicate AllowsSomething() {
      allowP2wpkh || allowP2tr || allowP2shP2wpkh
    }
  }

  datatype CoordinatorConfig = CoordinatorConfig(
    network: string,
    denominationSats: U64,
    minParticipants: U32,
    maxParticipants: U32,
    inputRegTimeoutSecs: U64,
    outputRegTimeoutSecs: U64,
    signingTimeoutSecs: U64,
    banDurationSecs: U64,
    feeRate: U64,
    rateLimitInfoPerMin: U32,
    rateLimitWritesPerMin: U32,
    maxConcurrentConnections: U32,
    requestTimeoutSecs: U64,
    fullAbortBackoffSecs: U64,
    bip: BipConfig)

  datatype ConfigError =
    | UnknownNetwork | TooFewParticipants | MinAboveMax | TooManyParticipants
    | DustDenomination | ZeroFeeRate | ZeroPhaseTimeout | RateLimitOutOfRange
    | NoConnections | ZeroRequestTimeout | NoAllowedScriptType | OutputTypeNotAllowed

  predicate KnownNetwork(name: string) {
    name in {"mainnet", "bitcoin", "testnet", "testnet4", "signet", "regtest"}
  }

  // The first failing check decides the error.
  function Validate(c: CoordinatorConfig): Result<(), ConfigError> {
    if !KnownNetwork(c.network) then Err(UnknownNetwork)
    else if c.minParticipants < 2 then Err(TooFewParticipants)
    else if c.minParticipants > c.maxParticipants then Err(MinAboveMax)
    else if c.maxParticipants > 100 then Err(TooManyParticipants)
    else if c.denominationSats < 546 then Err(DustDenomination)
    else if c.feeRate < 1 then Err(ZeroFeeRate)
    else if c.inputRegTimeoutSecs < 1 || c.outputRegTimeoutSecs < 1 || c.signingTimeoutSecs < 1 then
      Err(ZeroPhaseTimeout)
    else if !(1 <= c.rateLimitInfoPerMin <= 60000) || !(1 <= c.rateLimitWritesPerMin <= 60000) then
      Err(RateLimitOutOfRange)
    else if c.maxConcurrentConnections < 1 then Err(NoConnections)
    else if c.requestTimeoutSecs < 1 then Err(ZeroRequestTimeout)
    else if !c.bip.AllowsSomething() then Err(NoAllowedScriptType)
    else if !c.bip.Allows(c.bip.outputScriptType) then Err(OutputTypeNotAllowed)
    else Ok(())
  }

  const WATCHDOG_BASE_SECS := 30
  const WATCHDOG_PER_PARTICIPANT_SECS := 15
  const WATCHDOG_CAP_SECS := 3600

  function WatchdogSecs(c: CoordinatorConfig): nat {
    var derived := WATCHDOG_BASE_SECS + WATCHDOG_PER_PARTICIPANT_SECS * c.maxParticipants;
    if derived < WATCHDOG_CAP_SECS then derived else WATCHDOG_CAP_SECS
  }
}
