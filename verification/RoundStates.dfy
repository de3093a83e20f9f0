// The round state as the coordinator holds it: one object behind a lock,
// changed in place by whoever holds the lock.
module RoundStates {
  import opened Base
  import opened World
  import opened Ownership
  import opened Rounds
  import Outpoints

  class RoundState {
    var phase: Phase
    var id: RoundId
    var count: nat
    var publicKey: Option<Key>
    var inner: Option<Inner>

    // The value the specification speaks about.
    function View(): Round
      reads this
    {
      Round(phase, id, count, publicKey, inner)
    }

    constructor (id: RoundId)
      ensures View() == NewIdle(id)
    {
      phase := Idle;
      this.id := id;
      count := 0;
      publicKey := None;
      inner := None;
    }

    method TransitionTo(next: Phase, newId: RoundId) returns (ok: bool)
      modifies this
      ensures ok <==> CanTransition(old(phase), next)
      ensures View() == Transition(old(View()), next, newId)
    {
      if !CanTransition(phase, next) {
        return false;
      }
      if next == Idle {
        inner := None;
        publicKey := None;
        count := 0;
        id := newId;
      }
      phase := next;
      return true;
    }

    method InstallRound(key: Key, secret: Secret) returns (ok: bool)
      modifies this
      ensures ok <==> old(phase) == Idle
      ensures View() == Install(old(View()), key, secret)
    {
      if phase != Idle {
        return false;
      }
      publicKey := Some(key);
      inner := Some(Inner(key, secret, map[], {}, [], map[]));
      ok := TransitionTo(InputReg, id);
    }

    // -- input registration -------------------------------------------------------

    method RegisterInput(
      env: Env, op: OutPoint, blinded: Bytes, changeAddress: string, details: UtxoDetails)
      returns (r: Result<Registration, ErrorCode>)
      modifies this
      ensures match Rounds.RegisterInput(env, old(View()), op, blinded, changeAddress, details)
              case Ok((after, registration)) => r == Ok(registration) && View() == after
              case Err(code) => r == Err(code) && View() == old(View())
    {
      if inner == None {
        return Err(WrongPhase);
      }
      var key := Outpoints.Render(op);
      if key in inner.value.inputs {
        return Err(UtxoAlreadyRegistered);
      }
      var blindSignature := env.blindSign(inner.value.key, blinded);
      if blindSignature == None {
        return Err(InvalidToken);
      }
      var token := env.sessionToken(inner.value.secret, op);
      var reg := RegisteredInput(key, changeAddress, details.script, details.valueSats, details.scriptType);
      inner := Some(inner.value.(inputs := inner.value.inputs[key := reg]));
      count := count + 1;
      return Ok(Registration(blindSignature.value, token));
    }

    // The commit half of an input request: phase and room are checked again.
    method CommitInput(
      env: Env, op: OutPoint, blinded: Bytes, changeAddress: string, details: UtxoDetails)
      returns (r: Result<Registration, ErrorCode>)
      modifies this
      ensures match Rounds.CommitInput(env, old(View()), op, blinded, changeAddress, details)
              case Ok((after, registration)) => r == Ok(registration) && View() == after
              case Err(code) => r == Err(code) && View() == old(View())
    {
      if phase != InputReg {
        return Err(WrongPhase);
      }
      if count >= env.cfg.maxParticipants {
        return Err(RoundFull);
      }
      r := RegisterInput(env, op, blinded, changeAddress, details);
      if r.Ok? && count >= env.cfg.maxParticipants {
        var _ := TransitionTo(OutputReg, id);
      }
    }

    method OnInputRegTimeout(env: Env, newId: RoundId)
      modifies this
      ensures View() == InputTimeout(env, old(View()), newId)
    {
      if count >= env.cfg.minParticipants {
        var _ := TransitionTo(OutputReg, newId);
      } else {
        var _ := TransitionTo(Idle, newId);
      }
    }

    // -- output registration --------------------------------------------------------

    // The redeemed set grows by the token exactly when every check passes.
    method RegisterOutputLogic(
      env: Env, token: Token, signature: Bytes, randomizer: Option<Bytes>, amountSats: nat, script: Script)
      returns (refusal: Option<ErrorCode>)
      requires inner.Some?
      modifies this
      ensures match Rounds.RegisterOutputLogic(
                env, old(inner).value.key, old(inner).value.redeemed, token, signature, randomizer, amountSats, script)
              case Ok(redeemed) =>
                refusal == None && View() == old(View()).(inner := Some(old(inner).value.(redeemed := redeemed)))
              case Err(code) => refusal == Some(code) && View() == old(View())
    {
      if amountSats != env.cfg.denominationSats {
        return Some(WrongDenomination);
      }
      if !env.verifyToken(inner.value.key, token, signature, randomizer) {
        return Some(InvalidToken);
      }
      if env.tokenMessage(script, amountSats) != token {
        return Some(InvalidToken);
      }
      if token in inner.value.redeemed {
        return Some(TokenAlreadyUsed);
      }
      inner := Some(inner.value.(redeemed := inner.value.redeemed + {token}));
      return None;
    }

    method PostOutput(env: Env, req: OutputRequest) returns (refusal: Option<ErrorCode>)
      modifies this
      ensures match Rounds.PostOutput(env, old(View()), req)
              case Ok(after) => refusal == None && View() == after
              case Err(code) => refusal == Some(code) && View() == old(View())
    {
      if |req.token| != 32 || (req.randomizer.Some? && |req.randomizer.value| != 32) {
        return Some(InvalidToken);
      }
      var script := env.parseAddress(req.address);
      if script == None {
        return Some(InvalidAddress);
      }
      if phase != OutputReg || inner == None {
        return Some(WrongPhase);
      }
      refusal := RegisterOutputLogic(env, req.token, req.signature, req.randomizer, req.amountSats, script.value);
      if refusal == None {
        inner := Some(inner.value.(outputs := inner.value.outputs + [RegisteredOutput(req.address, req.amountSats)]));
        if |inner.value.outputs| >= count && count > 0 {
          var _ := TransitionTo(Signing, id);
        }
      }
    }

    method OnOutputRegTimeout(newId: RoundId) returns (advanced: bool)
      modifies this
      ensures View() == OutputTimeout(old(View()), newId)
      ensures advanced <==> old(inner).None? || |old(inner).value.outputs| >= |old(inner).value.inputs|
    {
      var ins, outs := 0, 0;
      if inner.Some? {
        ins, outs := |inner.value.inputs|, |inner.value.outputs|;
      }
      if outs < ins {
        var _ := TransitionTo(Phase.Blame, newId);
        var _ := TransitionTo(Idle, newId);
        return false;
      }
      var _ := TransitionTo(Signing, newId);
      return true;
    }

    // The watchdog's guard: same round, still in flight.
    method ForceIdle(expected: RoundId, newId: RoundId)
      modifies this
      ensures View() == if old(id) == expected && old(phase) == Broadcast
                        then Transition(old(View()), Idle, newId) else old(View())
    {
      if id == expected && phase == Broadcast {
        var _ := TransitionTo(Idle, newId);
      }
    }
  }
}
