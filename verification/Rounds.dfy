// The round state and, as functions on its value, every change a lock holder
// can make to it.
module Rounds {
  import opened Base
  import opened Transactions
  import opened InputOrder
  import opened World
  import opened Ownership
  import Outpoints
  import CoinJoinTx
  import Fees

  datatype Phase = Idle | InputReg | OutputReg | Signing | Broadcast | Blame

  predicate CanTransition(from: Phase, to: Phase) {
    match (from, to)
    case (Idle, InputReg) => true
    case (InputReg, OutputReg) => true
    case (InputReg, Idle) => true
    case (OutputReg, Signing) => true
    case (OutputReg, Blame) => true
    case (Signing, Broadcast) => true
    case (Signing, Blame) => true
    case (Broadcast, Idle) => true
    case (Broadcast, Blame) => true
    case (Blame, Idle) => true
    case _ => false
  }

  datatype RegisteredInput = RegisteredInput(
    utxo: string, changeAddress: string, scriptPubkey: Script, valueSats: nat, scriptType: ScriptType)

  datatype RegisteredOutput = RegisteredOutput(address: string, amountSats: nat)

  // The sensitive half of a round; gone while the coordinator is idle.
  datatype Inner = Inner(
    key: Key,
    secret: Secret,
    inputs: map<string, RegisteredInput>,
    redeemed: set<Token>,
    outputs: seq<RegisteredOutput>,
    sigs: map<string, Bytes>)

  datatype Round = Round(
    phase: Phase, id: RoundId, count: nat, publicKey: Option<Key>, inner: Option<Inner>)

  datatype ErrorCode =
    | WrongPhase | RoundFull | UtxoAlreadyRegistered | InvalidToken | TokenAlreadyUsed | WrongDenomination
    | InvalidAddress | SessionInvalid | InvalidSignature | BroadcastRejected

  // -- transitions -----------------------------------------------------------

  function NewIdle(id: RoundId): Round {
    Round(Idle, id, 0, None, None)
  }

  // An edge the state machine lacks changes nothing. Entering Idle drops the
  // sensitive half and takes a fresh id.
  function Transition(r: Round, next: Phase, newId: RoundId): Round {
    if !CanTransition(r.phase, next) then r
    else if next == Idle then NewIdle(newId)
    else r.(phase := next)
  }

  function ViaBlame(r: Round, newId: RoundId): Round {
    Transition(Transition(r, Blame, newId), Idle, newId)
  }

  function Install(r: Round, key: Key, secret: Secret): Round {
    if r.phase != Idle then r
    else
      Transition(
        r.(publicKey := Some(key), inner := Some(Inner(key, secret, map[], {}, [], map[]))), InputReg, r.id)
  }

  // -- input registration ----------------------------------------------------

  datatype Registration = Registration(blindSignature: Bytes, sessionToken: Bytes)

  function RegisterInput(
    env: Env, r: Round, op: OutPoint, blinded: Bytes, changeAddress: string, details: UtxoDetails)
    : Result<(Round, Registration), ErrorCode>
  {
    match r.inner
    case None => Err(WrongPhase)
    case Some(inner) =>
      var key := Outpoints.Render(op);
      if key in inner.inputs then Err(UtxoAlreadyRegistered)
      else
        match env.blindSign(inner.key, blinded)
        case None => Err(InvalidToken)
        case Some(blindSignature) =>
          var reg := RegisteredInput(key, changeAddress, details.script, details.valueSats, details.scriptType);
          var after := r.(count := r.count + 1, inner := Some(inner.(inputs := inner.inputs[key := reg])));
          Ok((after, Registration(blindSignature, env.sessionToken(inner.secret, op))))
  }

  // The commit half of an input request, under the write lock.
  function CommitInput(
    env: Env, r: Round, op: OutPoint, blinded: Bytes, changeAddress: string, details: UtxoDetails)
    : Result<(Round, Registration), ErrorCode>
  {
    if r.phase != InputReg then Err(WrongPhase)
    else if r.count >= env.cfg.maxParticipants then Err(RoundFull)
    else
      match RegisterInput(env, r, op, blinded, changeAddress, details)
      case Err(e) => Err(e)
      case Ok((after, registration)) =>
        Ok((if after.count >= env.cfg.maxParticipants then Transition(after, OutputReg, after.id) else after,
            registration))
  }

  function InputTimeout(env: Env, r: Round, newId: RoundId): Round {
    Transition(r, if r.count >= env.cfg.minParticipants then OutputReg else Idle, newId)
  }

  // -- output registration ---------------------------------------------------

  datatype OutputRequest = OutputRequest(
    token: Bytes, signature: Bytes, randomizer: Option<Bytes>, amountSats: nat, address: string)

  // Denomination, signature, binding, replay - in this order.
  function RegisterOutputLogic(
    env: Env, key: Key, redeemed: set<Token>, token: Token, signature: Bytes, randomizer: Option<Bytes>,
    amountSats: nat, script: Script): Result<set<Token>, ErrorCode>
  {
    if amountSats != env.cfg.denominationSats then Err(WrongDenomination)
    else if !env.verifyToken(key, token, signature, randomizer) then Err(InvalidToken)
    else if env.tokenMessage(script, amountSats) != token then Err(InvalidToken)
    else if token in redeemed then Err(TokenAlreadyUsed)
    else Ok(redeemed + {token})
  }

  function PostOutput(env: Env, r: Round, req: OutputRequest): Result<Round, ErrorCode> {
    if |req.token| != 32 then Err(InvalidToken)
    else if req.randomizer.Some? && |req.randomizer.value| != 32 then Err(InvalidToken)
    else
      match env.parseAddress(req.address)
      case None => Err(InvalidAddress)
      case Some(script) =>
        if r.phase != OutputReg || r.inner == None then Err(WrongPhase)
        else
          var inner := r.inner.value;
          match RegisterOutputLogic(env, inner.key, inner.redeemed, req.token, req.signature, req.randomizer,
              req.amountSats, script)
          case Err(e) => Err(e)
          case Ok(redeemed) =>
            var outputs := inner.outputs + [RegisteredOutput(req.address, req.amountSats)];
            var after := r.(inner := Some(inner.(redeemed := redeemed, outputs := outputs)));
            Ok(if |outputs| >= r.count && r.count > 0 then Transition(after, Signing, r.id) else after)
  }

  function OutputTimeout(r: Round, newId: RoundId): Round {
    var (ins, outs) := if r.inner.Some? then (|r.inner.value.inputs|, |r.inner.value.outputs|) else (0, 0);
    if outs < ins then ViaBlame(r, newId) else Transition(r, Signing, newId)
  }

  // -- the canonical transaction ----------------------------------------------

  // A participant as the builder wants it; None for a key or an address that
  // does not parse.
  function ToParticipant(env: Env, reg: RegisteredInput): Option<ParticipantInput> {
    match (Outpoints.Parse(reg.utxo), env.parseAddress(reg.changeAddress))
    case (Some(op), Some(change)) =>
      Some(ParticipantInput(op, reg.valueSats, reg.scriptPubkey, change, reg.scriptType))
    case _ => None
  }

  // The participants, in the order the map is iterated.
  function Participants(env: Env, inputs: map<string, RegisteredInput>, order: seq<string>)
    : Option<seq<ParticipantInput>>
    requires forall i :: 0 <= i < |order| ==> order[i] in inputs
  {
    if order == [] then Some([])
    else
      match (Participants(env, inputs, order[..|order| - 1]), ToParticipant(env, inputs[order[|order| - 1]]))
      case (Some(ps), Some(p)) => Some(ps + [p])
      case _ => None
  }

  function OutputScripts(env: Env, outputs: seq<RegisteredOutput>): Option<seq<Script>> {
    if outputs == [] then Some([])
    else
      match (OutputScripts(env, outputs[..|outputs| - 1]), env.parseAddress(outputs[|outputs| - 1].address))
      case (Some(scripts), Some(script)) => Some(scripts + [script])
      case _ => None
  }

  // One build of the round's transaction; None on any error.
  function BuildCanonical(
    env: Env, inputs: map<string, RegisteredInput>, outputs: seq<RegisteredOutput>, order: seq<string>)
    : (r: Option<Psbt>)
    requires forall i :: 0 <= i < |order| ==> order[i] in inputs
    ensures r.Some? ==> |r.value.unsigned.inputs| == |r.value.inputs|
  {
    match (Participants(env, inputs, order), OutputScripts(env, outputs))
    case (Some(ps), Some(scripts)) =>
      (match CoinJoinTx.BuildSpec(
          ps, scripts, env.cfg.denominationSats, env.cfg.feeRate, env.cfg.bip.outputScriptType)
      case Ok(psbt) => Some(psbt)
      case Err(_) => None)
    case _ => None
  }

  // What a client is shown during signing.
  function GetTx(env: Env, r: Round, order: seq<string>): Option<Psbt>
    requires r.inner.Some? ==> forall i :: 0 <= i < |order| ==> order[i] in r.inner.value.inputs
  {
    if r.phase != Signing || r.inner == None then None
    else BuildCanonical(env, r.inner.value.inputs, r.inner.value.outputs, order)
  }

  // The whole answer: the transaction and what the round is said to cost.
  datatype TxDisplay = TxDisplay(round: RoundId, psbt: Psbt, feeTotalSats: nat, feePerParticipantSats: nat)

  // `n` is cut to 32 bits before the estimate is asked.
  function Quote(env: Env, id: RoundId, psbt: Psbt, n: nat): TxDisplay
    requires env.cfg.bip.AllowsSomething()
  {
    var count: U32 := n % 0x1_0000_0000;
    var share := Fees.EstimateFeeShare(env.cfg.bip, count, env.cfg.feeRate);
    TxDisplay(id, psbt, share * count, share)
  }

  function Display(env: Env, r: Round, order: seq<string>): Option<TxDisplay>
    requires env.cfg.bip.AllowsSomething()
    requires r.inner.Some? ==> forall i :: 0 <= i < |order| ==> order[i] in r.inner.value.inputs
  {
    match GetTx(env, r, order)
    case None => None
    case Some(psbt) => Some(Quote(env, r.id, psbt, |order|))
  }

  // -- signing -----------------------------------------------------------------

  function VerifyInputSignature(env: Env, psbt: Psbt, index: nat, st: ScriptType, sig: Bytes): bool {
    match env.decodeWitness(sig)
    case None => false
    case Some(stack) =>
      index < |psbt.inputs| && psbt.inputs[index].witnessUtxo.Some?
      && env.verifyWitness(psbt.unsigned, psbt.inputs, index, st, stack)
  }

  predicate IsP2sh(script: Script) {
    |script| == 23 && script[0] == 0xa9 && script[1] == 0x14 && script[22] == 0x87
  }

  // A nested input also needs the push of its redeem script.
  function FinalizeInput(env: Env, input: PsbtInput, stack: Witness): PsbtInput {
    var nested := input.witnessUtxo.Some? && IsP2sh(input.witnessUtxo.value.scriptPubkey)
                  && |stack| == 2 && |stack[1]| == 33;
    input.(
      finalWitness := Some(stack),
      finalScriptSig := if nested then Some([0x16, 0x00, 0x14] + env.hash160(stack[1])) else input.finalScriptSig)
  }

  // The inputs with the first k witnesses attached.
  function AttachWitnesses(env: Env, psbt: Psbt, sigs: map<string, Bytes>, k: nat): Option<seq<PsbtInput>>
    requires k <= |psbt.unsigned.inputs| == |psbt.inputs|
    ensures AttachWitnesses(env, psbt, sigs, k).Some? ==>
              |AttachWitnesses(env, psbt, sigs, k).value| == |psbt.inputs|
  {
    if k == 0 then Some(psbt.inputs)
    else
      var key := Outpoints.Render(psbt.unsigned.inputs[k - 1].previousOutput);
      match AttachWitnesses(env, psbt, sigs, k - 1)
      case None => None
      case Some(inputs) =>
        if key !in sigs then None
        else
          match env.decodeWitness(sigs[key])
          case None => None
          case Some(stack) => Some(inputs[k - 1 := FinalizeInput(env, inputs[k - 1], stack)])
  }

  function Finalized(psbt: Psbt): Tx
    requires |psbt.unsigned.inputs| == |psbt.inputs|
  {
    psbt.unsigned.(inputs := seq(|psbt.inputs|, i requires 0 <= i < |psbt.inputs| =>
      psbt.unsigned.inputs[i].(
        scriptSig := if psbt.inputs[i].finalScriptSig.Some? then psbt.inputs[i].finalScriptSig.value else [],
        stack := if psbt.inputs[i].finalWitness.Some? then psbt.inputs[i].finalWitness.value else [])))
  }

  datatype ExtractError = MissingInputValue | SendingTooMuch | AbsurdFeeRate

  function ExtractTx(env: Env, psbt: Psbt): Result<Tx, ExtractError>
    requires |psbt.unsigned.inputs| == |psbt.inputs|
  {
    match PrevoutSum(psbt.inputs)
    case None => Err(MissingInputValue)
    case Some(paidIn) =>
      var paidOut := OutputSum(psbt.unsigned.outputs);
      if paidOut > paidIn then Err(SendingTooMuch)
      else if !env.feeRateOk(Finalized(psbt), paidIn - paidOut) then Err(AbsurdFeeRate)
      else Ok(Finalized(psbt))
  }

  datatype AssembleError = WitnessMissing | Extraction(error: ExtractError)

  // The final transaction from a canonical PSBT and the recorded signatures.
  function AssembleFinal(env: Env, psbt: Psbt, sigs: map<string, Bytes>): Result<Tx, AssembleError>
    requires |psbt.unsigned.inputs| == |psbt.inputs|
  {
    match AttachWitnesses(env, psbt, sigs, |psbt.inputs|)
    case None => Err(WitnessMissing)
    case Some(inputs) =>
      match ExtractTx(env, psbt.(inputs := inputs))
      case Ok(tx) => Ok(tx)
      case Err(e) => Err(Extraction(e))
  }

  datatype SignOutcome =
    | Rejected(code: ErrorCode)
    | Recorded
    | ReadyToBroadcast(tx: Tx, outpoints: seq<string>)

  // Three independent iterations of the input map: for the verification, for
  // the assembly and for the snapshot of outpoints.
  datatype SignOrders = SignOrders(verify: seq<string>, assemble: seq<string>, snapshot: seq<string>)

  ghost predicate OrdersFit(r: Round, orders: SignOrders) {
    r.inner.Some? ==>
      && Enumerates(orders.verify, r.inner.value.inputs.Keys)
      && Enumerates(orders.assemble, r.inner.value.inputs.Keys)
      && Enumerates(orders.snapshot, r.inner.value.inputs.Keys)
  }

  function ProcessSign(env: Env, r: Round, op: OutPoint, sig: Bytes, token: Bytes, orders: SignOrders)
    : (Round, SignOutcome)
    requires OrdersFit(r, orders)
  {
    if r.inner == None then (r, Rejected(WrongPhase))
    else
      var inner := r.inner.value;
      var key := Outpoints.Render(op);
      if env.sessionToken(inner.secret, op) != token then (r, Rejected(SessionInvalid))
      else if key !in inner.inputs then (r, Rejected(SessionInvalid))
      else if key in inner.sigs then (r, Rejected(SessionInvalid))
      else
        match BuildCanonical(env, inner.inputs, inner.outputs, orders.verify)
        case None => (r, Rejected(BroadcastRejected))
        case Some(psbt) =>
          match Position(psbt.unsigned.inputs, op)
          case None => (r, Rejected(BroadcastRejected))
          case Some(index) =>
            if !VerifyInputSignature(env, psbt, index, inner.inputs[key].scriptType, sig) then
              (r, Rejected(InvalidSignature))
            else
              AfterRecording(env, r.(inner := Some(inner.(sigs := inner.sigs[key := sig]))), orders)
  }

  // The signature is recorded; when it was the last, assemble and go in flight.
  function AfterRecording(env: Env, r: Round, orders: SignOrders): (Round, SignOutcome)
    requires r.inner.Some? && OrdersFit(r, orders)
  {
    var inner := r.inner.value;
    if |inner.sigs| < r.count then (r, Recorded)
    else
      match BuildCanonical(env, inner.inputs, inner.outputs, orders.assemble)
      case None => (r, Rejected(BroadcastRejected))
      case Some(psbt) =>
        match AssembleFinal(env, psbt, inner.sigs)
        case Err(_) => (r, Rejected(BroadcastRejected))
        case Ok(tx) =>
          if !CanTransition(r.phase, Broadcast) then (r, Rejected(BroadcastRejected))
          else (Transition(r, Broadcast, r.id), ReadyToBroadcast(tx, orders.snapshot))
  }

  datatype SignRequest = SignRequest(utxo: string, signature: Bytes, token: Bytes)

  function PostSign(env: Env, r: Round, req: SignRequest, orders: SignOrders): (Round, SignOutcome)
    requires OrdersFit(r, orders)
  {
    match Outpoints.Parse(req.utxo)
    case None => (r, Rejected(SessionInvalid))
    case Some(op) =>
      if |req.token| != 32 then (r, Rejected(SessionInvalid))
      else if r.phase != Signing then (r, Rejected(WrongPhase))
      else ProcessSign(env, r, op, req.signature, req.token, orders)
  }

  // -- blame -------------------------------------------------------------------

  // Registered, but no recorded signature.
  function NonSigners(r: Round): set<string> {
    if r.inner == None then {} else r.inner.value.inputs.Keys - r.inner.value.sigs.Keys
  }
}
