// Where everything in a round comes from: each coin was shown to be owned, each
// output token was signed under the round's key, each recorded signature
// verifies for the coin it spends, and each reply was the round's own.
module Provenance {
  import opened Base
  import opened Fees
  import opened Transactions
  import opened World
  import opened Ownership
  import opened Rounds
  import opened Blame
  import opened Canonical
  import opened Assembly
  import opened RoundInvariant
  import opened SigningRound
  import opened Protocol
  import opened Changes
  import opened Steps
  import opened Lifecycle
  import opened OneTransaction
  import opened Attribution
  import opened Reckoning
  import opened Runs
  import Outpoints

  // -- records -------------------------------------------------------------------

  // Round `id` was installed with this key.
  ghost predicate InstalledWith(log: seq<Event>, id: RoundId, key: Key) {
    exists i :: 0 <= i < |log| && IsInstallation(log[i], id, key)
  }

  predicate IsInstallation(e: Event, id: RoundId, key: Key) {
    e.Installed? && e.id == id && e.key == key
  }

  // This entry of round `id` is that of a registration.
  ghost predicate Entered(log: seq<Event>, id: RoundId, reg: RegisteredInput) {
    exists i :: 0 <= i < |log| && IsEntry(log[i], id, reg)
  }

  predicate IsEntry(e: Event, id: RoundId, reg: RegisteredInput) {
    e.Registered? && e.id == id && EntryOf(e) == reg
  }

  // An output of round `id` was taken with this token for this address.
  ghost predicate TokenTaken(log: seq<Event>, id: RoundId, token: Token) {
    exists i :: 0 <= i < |log| && TakesToken(log[i], id, token)
  }

  predicate TakesToken(e: Event, id: RoundId, token: Token) {
    e.Redeemed? && e.id == id && e.output.token == token
  }

  ghost predicate OutputTaken(log: seq<Event>, id: RoundId, out: RegisteredOutput) {
    exists i :: 0 <= i < |log| && TakesOutput(log[i], id, out)
  }

  predicate TakesOutput(e: Event, id: RoundId, out: RegisteredOutput) {
    e.Redeemed? && e.id == id && RegisteredOutput(e.output.address, e.output.amountSats) == out
  }

  // -- sound events -----------------------------------------------------------------

  // A registration: its coin was proven, and the reply signs under the round's key.
  ghost predicate RegistrationSourced(env: Env, log: seq<Event>, e: Event) {
    e.Registered? ==>
      SoundRequest(env, e) && exists key: Key :: InstalledWith(log, e.id, key) && SignsUnder(env, e, key)
  }

  predicate SignsUnder(env: Env, e: Event, key: Key) {
    && e.Registered? && e.form.blinded.Some?
    && env.blindSign(key, e.form.blinded.value) == Some(e.reply.blindSignature)
  }

  // An accepted output: its token was signed under the round's key.
  ghost predicate OutputSourced(env: Env, log: seq<Event>, e: Event) {
    e.Redeemed? ==> exists key: Key :: InstalledWith(log, e.id, key) && Redeemable(env, key, e.output)
  }

  // A recorded signature: the input it verifies at spends the registered coin,
  // under the script type found at registration.
  ghost predicate SignatureSourced(env: Env, log: seq<Event>, e: Event) {
    e.Signed? ==> exists reg: RegisteredInput :: Entered(log, e.id, reg) && SpendsEntry(e, reg)
  }

  predicate SpendsEntry(e: Event, reg: RegisteredInput) {
    && e.Signed? && e.index < |e.psbt.inputs|
    && reg.utxo == e.utxo && reg.scriptType == e.scriptType && HoldsCoin(e.psbt.inputs[e.index], reg)
  }

  ghost predicate EventSourced(env: Env, log: seq<Event>, e: Event) {
    RegistrationSourced(env, log, e) && OutputSourced(env, log, e) && SignatureSourced(env, log, e)
  }

  ghost predicate AllSourced(env: Env, log: seq<Event>) {
    forall i :: 0 <= i < |log| ==> EventSourced(env, log, log[i])
  }

  // -- the current round ---------------------------------------------------------------

  // Everything the round holds is on record, under its key.
  ghost predicate RoundSourced(log: seq<Event>, r: Round) {
    r.inner.Some? ==>
      && InstalledWith(log, r.id, r.inner.value.key)
      && (forall key :: key in r.inner.value.inputs ==> Entered(log, r.id, r.inner.value.inputs[key]))
      && (forall j :: 0 <= j < |r.inner.value.outputs| ==> OutputTaken(log, r.id, r.inner.value.outputs[j]))
      && (forall token :: token in r.inner.value.redeemed ==> TokenTaken(log, r.id, token))
  }

  // And everything on record for this round the round holds.
  ghost predicate RoundHolds(env: Env, log: seq<Event>, r: Round) {
    r.inner.Some? ==> forall i :: 0 <= i < |log| && log[i].id == r.id ==> EventHeld(env, r.inner.value, log[i])
  }

  // A registration is an entry, and its session token the one the secret makes;
  // an accepted output is an output with its token redeemed.
  predicate EventHeld(env: Env, inner: Inner, e: Event) {
    && (e.Registered? ==>
          && e.utxo in inner.inputs && inner.inputs[e.utxo] == EntryOf(e)
          && TokenIssued(env, inner.secret, e))
    && (e.Redeemed? ==>
          && e.output.token in inner.redeemed
          && RegisteredOutput(e.output.address, e.output.amountSats) in inner.outputs)
  }

  predicate TokenIssued(env: Env, secret: Secret, e: Event) {
    e.Registered? && Outpoints.Parse(e.form.utxo).Some? ==>
      e.reply.sessionToken == env.sessionToken(secret, Outpoints.Parse(e.form.utxo).value)
  }

  ghost predicate Sourced(env: Env, s: System) {
    AllSourced(env, s.log) && RoundSourced(s.log, s.round) && RoundHolds(env, s.log, s.round)
  }

  // -- records stay ------------------------------------------------------------------------

  lemma InstalledWithStays(log: seq<Event>, more: seq<Event>, id: RoundId, key: Key)
    requires InstalledWith(log, id, key)
    ensures InstalledWith(log + more, id, key)
  {
    var i :| 0 <= i < |log| && IsInstallation(log[i], id, key);
    assert (log + more)[i] == log[i];
  }

  lemma EnteredStays(log: seq<Event>, more: seq<Event>, id: RoundId, reg: RegisteredInput)
    requires Entered(log, id, reg)
    ensures Entered(log + more, id, reg)
  {
    var i :| 0 <= i < |log| && IsEntry(log[i], id, reg);
    assert (log + more)[i] == log[i];
  }

  lemma TokenTakenStays(log: seq<Event>, more: seq<Event>, id: RoundId, token: Token)
    requires TokenTaken(log, id, token)
    ensures TokenTaken(log + more, id, token)
  {
    var i :| 0 <= i < |log| && TakesToken(log[i], id, token);
    assert (log + more)[i] == log[i];
  }

  lemma OutputTakenStays(log: seq<Event>, more: seq<Event>, id: RoundId, out: RegisteredOutput)
    requires OutputTaken(log, id, out)
    ensures OutputTaken(log + more, id, out)
  {
    var i :| 0 <= i < |log| && TakesOutput(log[i], id, out);
    assert (log + more)[i] == log[i];
  }

  lemma EventSourcedStays(env: Env, log: seq<Event>, more: seq<Event>, e: Event)
    requires EventSourced(env, log, e)
    ensures EventSourced(env, log + more, e)
  {
    hide InstalledWith, Entered, SoundRequest, SignsUnder, Redeemable, SpendsEntry;
    if e.Registered? {
      var key: Key :| InstalledWith(log, e.id, key) && SignsUnder(env, e, key);
      InstalledWithStays(log, more, e.id, key);
    } else if e.Redeemed? {
      var key: Key :| InstalledWith(log, e.id, key) && Redeemable(env, key, e.output);
      InstalledWithStays(log, more, e.id, key);
    } else if e.Signed? {
      var reg: RegisteredInput :| Entered(log, e.id, reg) && SpendsEntry(e, reg);
      EnteredStays(log, more, e.id, reg);
    }
  }

  lemma AllSourcedGrows(env: Env, log: seq<Event>, e: Event)
    requires AllSourced(env, log) && EventSourced(env, log + [e], e)
    ensures AllSourced(env, log + [e])
  {
    hide EventSourced;
    forall i | 0 <= i < |log + [e]| ensures EventSourced(env, log + [e], (log + [e])[i]) {
      if i < |log| {
        EventSourcedStays(env, log, [e], log[i]);
      }
    }
  }

  lemma RoundSourcedStays(log: seq<Event>, more: seq<Event>, r: Round)
    requires RoundSourced(log, r)
    ensures RoundSourced(log + more, r)
  {
    hide InstalledWith, Entered, TokenTaken, OutputTaken;
    if r.inner.Some? {
      var inner := r.inner.value;
      InstalledWithStays(log, more, r.id, inner.key);
      forall key | key in inner.inputs ensures Entered(log + more, r.id, inner.inputs[key]) {
        EnteredStays(log, more, r.id, inner.inputs[key]);
      }
      forall j | 0 <= j < |inner.outputs| ensures OutputTaken(log + more, r.id, inner.outputs[j]) {
        OutputTakenStays(log, more, r.id, inner.outputs[j]);
      }
      forall token | token in inner.redeemed ensures TokenTaken(log + more, r.id, token) {
        TokenTakenStays(log, more, r.id, token);
      }
    }
  }

  // What the record says depends on the round's contents alone.
  lemma SameContents(env: Env, log: seq<Event>, r: Round, t: Round)
    requires RoundSourced(log, r) && RoundHolds(env, log, r) && t.id == r.id
    requires r.inner.Some? && t.inner.Some? && t.inner.value == r.inner.value.(sigs := t.inner.value.sigs)
    ensures RoundSourced(log, t) && RoundHolds(env, log, t)
  {
    hide InstalledWith, Entered, TokenTaken, OutputTaken, TokenIssued;
    forall i | 0 <= i < |log| && log[i].id == r.id ensures EventHeld(env, t.inner.value, log[i]) {
      assert EventHeld(env, r.inner.value, log[i]);
    }
  }

  // The log grows by an event that brings neither input nor output.
  lemma PlainEventKeepsSourced(env: Env, s: System, e: Event)
    requires Sourced(env, s) && !e.Registered? && !e.Redeemed? && EventSourced(env, s.log + [e], e)
    ensures Sourced(env, s.(log := s.log + [e]))
  {
    hide AllSourced, RoundSourced, EventSourced;
    AllSourcedGrows(env, s.log, e);
    RoundSourcedStays(s.log, [e], s.round);
  }

  // -- the changes ----------------------------------------------------------------------------

  lemma InstallKeepsSourced(env: Env, s: System, t: System)
    requires Sourced(env, s) && Lived(s) && Installs(s, t)
    ensures Sourced(env, t)
  {
    hide AllSourced, Ordered, InstalledBy;
    var e := t.log[|s.log|];
    assert t.log == s.log + [e];
    AllSourcedGrows(env, s.log, e);
    assert IsInstallation(t.log[|s.log|], t.round.id, t.round.inner.value.key);
  }

  lemma NewestInstalled(env: Env, s: System, e: Event)
    requires RoundSourced(s.log, s.round) && s.round.inner.Some?
    ensures InstalledWith(s.log + [e], s.round.id, s.round.inner.value.key)
  {
    InstalledWithStays(s.log, [e], s.round.id, s.round.inner.value.key);
  }

  lemma AdmitKeepsSourced(env: Env, s: System, t: System, e: Event)
    requires Sourced(env, s) && s.round.inner.Some? && AdmitsAs(env, s, t, e) && t.round.id == s.round.id
    ensures Sourced(env, t)
  {
    hide AllSourced, RoundSourced, InstalledWith, SoundRequest, Outpoints.Parse, RoundHolds;
    var inner := s.round.inner.value;
    NewestInstalled(env, s, e);
    assert SignsUnder(env, e, inner.key);
    assert EventSourced(env, t.log, e);
    AllSourcedGrows(env, s.log, e);
    RoundSourcedStays(s.log, [e], s.round);
    EntryKeepsRound(s.log, e, s.round, t.round);
    EntryIsHeld(env, s.log, e, s.round, t.round);
  }

  lemma EntryIsHeld(env: Env, log: seq<Event>, e: Event, r: Round, t: Round)
    requires RoundHolds(env, log, r) && t.id == r.id && r.inner.Some?
    requires e.Registered? && e.utxo !in r.inner.value.inputs && SoundReply(env, r.inner.value, e)
    requires t.inner == WithInput(r.inner.value, e)
    ensures RoundHolds(env, log + [e], t)
  {
    hide Outpoints.Parse, TokenIssued;
    assert TokenIssued(env, r.inner.value.secret, e) by { TokenIsIssued(env, r.inner.value, e); }
    forall i | 0 <= i < |log| && log[i].id == r.id ensures EventHeld(env, t.inner.value, log[i]) {
      assert EventHeld(env, r.inner.value, log[i]);
    }
  }

  lemma TokenIsIssued(env: Env, inner: Inner, e: Event)
    requires e.Registered? && SoundReply(env, inner, e)
    ensures TokenIssued(env, inner.secret, e)
  {
    hide Outpoints.Parse;
  }

  lemma EntryKeepsRound(log: seq<Event>, e: Event, r: Round, t: Round)
    requires RoundSourced(log + [e], r) && r.inner.Some? && e.Registered? && e.id == r.id == t.id
    requires t.inner == WithInput(r.inner.value, e)
    ensures RoundSourced(log + [e], t)
  {
    hide InstalledWith, TokenTaken, OutputTaken;
    var inputs := t.inner.value.inputs;
    assert IsEntry((log + [e])[|log|], t.id, EntryOf(e));
    forall key | key in inputs ensures Entered(log + [e], t.id, inputs[key]) {
      assert key != e.utxo ==> inputs[key] == r.inner.value.inputs[key];
    }
  }

  lemma RedeemKeepsSourced(env: Env, s: System, t: System, output: OutputRequest)
    requires Sourced(env, s) && s.round.inner.Some? && RedeemsAs(env, s, t, output) && t.round.id == s.round.id
    ensures Sourced(env, t)
  {
    hide AllSourced, RoundSourced, InstalledWith, RoundHolds, Redeemable;
    var e := Redeemed(s.round.id, output);
    NewestInstalled(env, s, e);
    assert EventSourced(env, t.log, e);
    AllSourcedGrows(env, s.log, e);
    RoundSourcedStays(s.log, [e], s.round);
    OutputKeepsRound(s.log, e, s.round, t.round);
    OutputIsHeld(env, s.log, e, s.round, t.round);
  }

  lemma OutputIsHeld(env: Env, log: seq<Event>, e: Event, r: Round, t: Round)
    requires RoundHolds(env, log, r) && t.id == r.id && r.inner.Some? && e.Redeemed?
    requires t.inner == Some(r.inner.value.(
               redeemed := r.inner.value.redeemed + {e.output.token},
               outputs := r.inner.value.outputs + [RegisteredOutput(e.output.address, e.output.amountSats)]))
    ensures RoundHolds(env, log + [e], t)
  {
    hide TokenIssued;
    forall i | 0 <= i < |log| && log[i].id == r.id ensures EventHeld(env, t.inner.value, log[i]) {
      assert EventHeld(env, r.inner.value, log[i]);
    }
  }

  lemma OutputKeepsRound(log: seq<Event>, e: Event, r: Round, t: Round)
    requires RoundSourced(log + [e], r) && r.inner.Some? && e.Redeemed? && e.id == r.id == t.id
    requires t.inner == Some(r.inner.value.(
               redeemed := r.inner.value.redeemed + {e.output.token},
               outputs := r.inner.value.outputs + [RegisteredOutput(e.output.address, e.output.amountSats)]))
    ensures RoundSourced(log + [e], t)
  {
    hide InstalledWith, Entered;
    var inner := t.inner.value;
    assert TakesToken((log + [e])[|log|], t.id, e.output.token);
    assert TakesOutput((log + [e])[|log|], t.id, RegisteredOutput(e.output.address, e.output.amountSats));
    forall j | 0 <= j < |inner.outputs| ensures OutputTaken(log + [e], t.id, inner.outputs[j]) {
      assert j < |r.inner.value.outputs| ==> inner.outputs[j] == r.inner.value.outputs[j];
    }
  }

  lemma ProgressKeepsSourced(env: Env, s: System, t: System)
    requires Sourced(env, s) && Progresses(env, s, t)
    ensures Sourced(env, t)
  {
    hide AllSourced, RoundSourced, RoundHolds, AdmitsAs, RedeemsAs;
    if Admits(env, s, t) {
      var e: Event :| AdmitsAs(env, s, t, e);
      AdmitKeepsSourced(env, s, t, e);
    } else if Redeems(env, s, t) {
      var output: OutputRequest :| RedeemsAs(env, s, t, output);
      RedeemKeepsSourced(env, s, t, output);
    } else {
      SameContents(env, s.log, s.round, t.round);
    }
  }

  // A recorded signature is for the coin registered under its outpoint.
  lemma SignedSpends(env: Env, r: Round, psbt: Psbt, key: string, e: Event)
    requires InSigning(env, r, psbt) && SoundSigned(env, r, psbt, key, e)
    ensures r.inner.Some? && key in r.inner.value.inputs && SpendsEntry(e, r.inner.value.inputs[key])
    ensures e.Signed? && e.id == r.id
  {
    hide Collecting, Outpoints.Render, Witnesses, InputsOk, SpendsExactly, HoldsCoin;
    InSigningFacts(env, r, psbt);
    CollectingFacts(env, r.inner.value, psbt);
    KeyIsItsUtxo(env, r.inner.value.inputs, key);
    SpentIsRegistered(psbt, r.inner.value.inputs, e.index);
  }

  lemma SignedIsSourced(env: Env, s: System, psbt: Psbt, key: string, e: Event)
    requires RoundSourced(s.log, s.round) && InSigning(env, s.round, psbt) && SoundSigned(env, s.round, psbt, key, e)
    ensures EventSourced(env, s.log + [e], e)
  {
    hide InSigning, SoundSigned, InstalledWith, TokenTaken, OutputTaken, Entered, SpendsEntry;
    SignedSpends(env, s.round, psbt, key, e);
    EnteredStays(s.log, [e], s.round.id, s.round.inner.value.inputs[key]);
  }

  lemma KeyIsItsUtxo(env: Env, inputs: map<string, RegisteredInput>, key: string)
    requires env.cfg.bip.AllowsSomething() && InputsOk(env, inputs) && key in inputs
    ensures inputs[key].utxo == key
  {
    hide Outpoints.Parse, Outpoints.Render, RegistrationFloor;
    assert InputOk(env, key, inputs[key]);
  }

  lemma SpentIsRegistered(psbt: Psbt, inputs: map<string, RegisteredInput>, i: nat)
    requires SpendsExactly(psbt, inputs) && i < |psbt.unsigned.inputs|
    ensures |psbt.inputs| == |psbt.unsigned.inputs| && KeyAt(psbt, i) in inputs
    ensures HoldsCoin(psbt.inputs[i], inputs[KeyAt(psbt, i)])
  {
    hide Outpoints.Render, Pristine, HoldsCoin;
  }

  lemma SignKeepsSourced(env: Env, s: System, t: System)
    requires Sourced(env, s) && Signs(env, s, t)
    ensures Sourced(env, t)
  {
    hide AllSourced, RoundSourced, RoundHolds, InSigning, SoundSigned, EventSourced, WithSig, FullySigned, SignedTx;
    var psbt: Psbt, key: string, e: Event :| SignsWith(env, s, t, psbt, key, e);
    SigningIsLive(env, s, t, psbt, key, e);
    SignedIsSourced(env, s, psbt, key, e);
    PlainEventKeepsSourced(env, s, e);
    var mid := s.(log := s.log + [e]);
    if t.round.phase == Broadcast {
      CarriesNobody(env, t.log, t.log[|s.log| + 1]);
      PlainEventKeepsSourced(env, mid, t.log[|s.log| + 1]);
    }
    WithSigKeepsInputs(s.round, key, e.sig);
    SameContents(env, t.log, s.round, t.round);
  }

  lemma CarriesNobody(env: Env, log: seq<Event>, e: Event)
    requires !e.Registered? && !e.Redeemed? && !e.Signed?
    ensures EventSourced(env, log, e)
  {
  }

  lemma ChangeKeepsSourced(env: Env, s: System, t: System)
    requires Sourced(env, s) && Lived(s) && Change(env, s, t)
    ensures Sourced(env, t)
  {
    hide AllSourced, RoundSourced, RoundHolds, Lived, Installs, Progresses, Signs, Judged, EventSourced, InSigning,
      Joined;
    if Installs(s, t) {
      InstallKeepsSourced(env, s, t);
    } else if Progresses(env, s, t) {
      ProgressKeepsSourced(env, s, t);
    } else if Signs(env, s, t) {
      SignKeepsSourced(env, s, t);
    } else if Shows(env, s, t) {
      var e := t.log[|s.log|];
      CarriesNobody(env, t.log, e);
      PlainEventKeepsSourced(env, s, e);
    } else if Ends(env, s, t) {
      EndKeepsSourced(env, s, t);
    }
  }

  lemma EndKeepsSourced(env: Env, s: System, t: System)
    requires Sourced(env, s) && Ends(env, s, t)
    ensures Sourced(env, t)
  {
    hide AllSourced, EventSourced, InstalledWith, Entered, TokenTaken, OutputTaken, Revalidate, SigningTimeoutVerdict,
      BroadcastFailureVerdict;
    var e := t.log[|s.log|];
    assert t.log == s.log + [e];
    CarriesNobody(env, t.log, e);
    AllSourcedGrows(env, s.log, e);
  }

  lemma StartIsSourced(env: Env, boot: Boot)
    ensures Sourced(env, Start(boot))
  {
  }

  // In every reachable state all of it is on record.
  lemma {:induction false} RunIsSourced(env: Env, boot: Boot, acts: seq<Label>)
    requires Sane(env.cfg)
    ensures Sourced(env, Run(env, boot, acts))
    decreases |acts|
  {
    hide Core, Step, Change, Sourced, Lived, OneTx, Accounted, Reckoned, AdmittedUnbanned;
    if acts == [] {
      StartIsSourced(env, boot);
    } else {
      var s := Run(env, boot, acts[..|acts| - 1]);
      RunIsSourced(env, boot, acts[..|acts| - 1]);
      RunKeepsInvariant(env, boot, acts[..|acts| - 1]);
      StepIsChange(env, s, acts[|acts| - 1]);
      ChangeKeepsSourced(env, s, Step(env, s, acts[|acts| - 1]));
    }
  }

  // -- main results ------------------------------------------------------------------------

  // A round has one key.
  lemma OneKey(log: seq<Event>, id: RoundId, a: Key, b: Key)
    requires Ordered(log) && InstalledWith(log, id, a) && InstalledWith(log, id, b)
    ensures a == b
  {
    hide InstalledBy;
    var i :| 0 <= i < |log| && IsInstallation(log[i], id, a);
    var j :| 0 <= j < |log| && IsInstallation(log[j], id, b);
  }

  lemma RunFacts(env: Env, boot: Boot, acts: seq<Label>)
    requires Sane(env.cfg)
    ensures var s := Run(env, boot, acts);
            Sourced(env, s) && Core(env, s) && Ordered(s.log) && OneTx(env, s)
  {
    hide Run, Core, Sourced, Ordered, Current, OneTx, Accounted, Reckoned, AdmittedUnbanned;
    RunIsSourced(env, boot, acts);
    RunKeepsInvariant(env, boot, acts);
  }

  // Every registered coin covers the denomination and the announced fee, and
  // the proof sent with it verified for this very outpoint, under the type its
  // script has on the chain.
  lemma EveryCoinWasProven(env: Env, boot: Boot, acts: seq<Label>, i: nat)
    requires Sane(env.cfg)
    requires i < |Run(env, boot, acts).log| && Run(env, boot, acts).log[i].Registered?
    ensures var e := Run(env, boot, acts).log[i];
            && Outpoints.Parse(e.form.utxo).Some? && e.form.proof.Some?
            && var op, proof, coin := Outpoints.Parse(e.form.utxo).value, e.form.proof.value, e.coin;
               && e.utxo == Outpoints.Render(op)
               && coin.valueSats >= env.cfg.denominationSats
                                    + EstimateFeeShare(env.cfg.bip, env.cfg.minParticipants, env.cfg.feeRate)
               && env.detectScriptType(coin.script) == Some(coin.scriptType) && env.cfg.bip.Allows(coin.scriptType)
               && exists stack: Witness ::
                    && env.verifyOwnership(coin.scriptType, coin.script, stack, op, e.provenFor)
                    && ((proof.version == 1 && stack == proof.stack)
                        || (&& proof.version == 2 && proof.declared == Some(coin.scriptType)
                            && proof.psbtInput.Some? && env.decodePsbtWitness(proof.psbtInput.value) == Some(stack)))
  {
    hide Run, Core, RoundSourced, RoundHolds, Ordered, OneTx, EstimateFeeShare, Outpoints.Parse,
      Outpoints.Render, InstalledWith, SignsUnder;
    RunFacts(env, boot, acts);
    assert EventSourced(env, Run(env, boot, acts).log, Run(env, boot, acts).log[i]);
  }

  // Every token redeemed in a round was signed under the key that the round
  // publishes, as a signature posted with it showed.
  lemma EveryTokenWasSigned(env: Env, boot: Boot, acts: seq<Label>, token: Token) returns (i: nat)
    requires Sane(env.cfg)
    requires Run(env, boot, acts).round.inner.Some?
    requires token in Run(env, boot, acts).round.inner.value.redeemed
    ensures var s := Run(env, boot, acts);
            && i < |s.log| && s.log[i].Redeemed? && s.log[i].id == s.round.id
            && var output := s.log[i].output;
               && output.token == token && s.round.publicKey.Some?
               && env.verifyToken(s.round.publicKey.value, token, output.signature, output.randomizer)
               && env.parseAddress(output.address).Some?
               && env.tokenMessage(env.parseAddress(output.address).value, env.cfg.denominationSats) == token
  {
    hide Run, InnerOk, TasksOk, PcOk, RoundHolds, Ordered, OneTx, InstalledWith, Entered, OutputTaken,
      SignsUnder, SoundRequest;
    RunFacts(env, boot, acts);
    var s := Run(env, boot, acts);
    i :| 0 <= i < |s.log| && TakesToken(s.log[i], s.round.id, token);
    assert EventSourced(env, s.log, s.log[i]);
    var key: Key :| InstalledWith(s.log, s.round.id, key) && Redeemable(env, key, s.log[i].output);
    OneKey(s.log, s.round.id, key, s.round.inner.value.key);
  }

  // Every recorded signature decodes to a witness that verified against the
  // round's transaction at an input that spends the registered coin, under the
  // type found at registration.
  lemma EverySignatureWasVerified(env: Env, boot: Boot, acts: seq<Label>, i: nat) returns (j: nat)
    requires Sane(env.cfg)
    requires i < |Run(env, boot, acts).log| && Run(env, boot, acts).log[i].Signed?
    ensures var log := Run(env, boot, acts).log;
            && j < |log| && log[j].Registered? && log[j].id == log[i].id && log[j].utxo == log[i].utxo
            && var e, coin := log[i], log[j].coin;
               && e.index < |e.psbt.inputs| && e.index < |e.psbt.unsigned.inputs|
               && Outpoints.Render(e.psbt.unsigned.inputs[e.index].previousOutput) == e.utxo
               && e.psbt.inputs[e.index].witnessUtxo == Some(TxOut(coin.valueSats, coin.script))
               && env.decodeWitness(e.sig).Some?
               && env.verifyWitness(e.psbt.unsigned, e.psbt.inputs, e.index, coin.scriptType,
                    env.decodeWitness(e.sig).value)
  {
    hide Run, Core, RoundSourced, RoundHolds, Ordered, Agreed, AllCarry, AllFaithful, OnRecord, InFlight,
      Outpoints.Render, RegistrationSourced, OutputSourced;
    RunFacts(env, boot, acts);
    var log := Run(env, boot, acts).log;
    assert EventSourced(env, log, log[i]) && Verified(env, log[i]);
    var reg: RegisteredInput :| Entered(log, log[i].id, reg) && SpendsEntry(log[i], reg);
    j :| 0 <= j < |log| && IsEntry(log[j], log[i].id, reg);
  }

  // The session token given out at registration is the one that signing asks
  // for: whatever spelling of the outpoint is sent, a participant who has not
  // signed yet is turned away for the token if and only if it is another one,
  // or not of 32 bytes.
  lemma IssuedTokenDecides(
    env: Env, boot: Boot, acts: seq<Label>, i: nat, req: SignRequest, orders: SignOrders)
    requires Sane(env.cfg)
    requires var s := Run(env, boot, acts);
             && s.round.phase == Signing && OrdersFit(s.round, orders)
             && i < |s.log| && s.log[i].Registered? && s.log[i].id == s.round.id
             && s.round.inner.Some? && s.log[i].utxo !in s.round.inner.value.sigs
             && Outpoints.Parse(req.utxo).Some? && Outpoints.Parse(req.utxo) == Outpoints.Parse(s.log[i].form.utxo)
    ensures var s := Run(env, boot, acts);
            PostSign(env, s.round, req, orders).1 == Rejected(SessionInvalid) <==>
            req.token != s.log[i].reply.sessionToken || |req.token| != 32
  {
    hide Run, RoundOk, TasksOk, PcOk, RoundSourced, Ordered, OneTx, InSigning, ProcessSign, Outpoints.Parse,
      Outpoints.Render, Acceptable, DetailsOk, OrdersFit;
    RunFacts(env, boot, acts);
    var s := Run(env, boot, acts);
    assert EventSourced(env, s.log, s.log[i]);
    assert EventHeld(env, s.round.inner.value, s.log[i]);
    CoreRoundOk(env, s);
    var psbt := SigningCollects(env, s.round);
    EntitledOrNot(env, s.round, psbt, Outpoints.Parse(req.utxo).value, req.signature, req.token, orders);
  }

  // Only who is not entitled is told so.
  lemma EntitledOrNot(
    env: Env, r: Round, psbt: Psbt, op: OutPoint, sig: Bytes, token: Bytes, orders: SignOrders)
    requires InSigning(env, r, psbt) && OrdersFit(r, orders)
    ensures ProcessSign(env, r, op, sig, token, orders).1 == Rejected(SessionInvalid) <==> !Entitled(env, r, op, token)
  {
    hide InSigning, Entitled, ProcessSign, Outpoints.Render, OrdersFit, FullySigned, SignedTx, FeeLeft, SigOk, WithSig;
    SubmissionDecides(env, r, psbt, op, sig, token, orders);
  }
}
