// Signature collection: what each submission does in a reachable Signing
// state, and why the last one puts the round in flight.
module SigningRound {
  import opened Base
  import opened Transactions
  import opened World
  import opened Rounds
  import opened Canonical
  import opened Assembly
  import opened RoundInvariant
  import Outpoints

  // A registered participant who has not signed yet, with the session token of its outpoint.
  predicate Entitled(env: Env, r: Round, op: OutPoint, token: Bytes) {
    && r.inner.Some?
    && env.sessionToken(r.inner.value.secret, op) == token
    && Outpoints.Render(op) in r.inner.value.inputs
    && Outpoints.Render(op) !in r.inner.value.sigs
  }

  // The submission is a fresh, valid signature of a registered participant.
  ghost predicate Acceptable(env: Env, r: Round, psbt: Psbt, op: OutPoint, sig: Bytes, token: Bytes) {
    && Entitled(env, r, op, token)
    && SigOk(env, psbt, Outpoints.Render(op), r.inner.value.inputs[Outpoints.Render(op)].scriptType, sig)
  }

  // The round with one more recorded signature.
  function WithSig(r: Round, key: string, sig: Bytes): Round {
    if r.inner == None then r
    else r.(inner := Some(r.inner.value.(sigs := r.inner.value.sigs[key := sig])))
  }

  // `psbt` is the round's transaction and the recorded signatures verify against it.
  ghost predicate Collecting(env: Env, inner: Inner, psbt: Psbt) {
    && env.cfg.bip.AllowsSomething() && InputsOk(env, inner.inputs)
    && Canon(env, inner.inputs, inner.outputs) == Some(psbt)
    && SpendsExactly(psbt, inner.inputs)
    && psbt.unsigned == Strip(psbt.unsigned)
    && Funded(psbt)
    && inner.sigs.Keys <= inner.inputs.Keys
    && SigsOk(env, inner, psbt)
  }

  ghost predicate InSigning(env: Env, r: Round, psbt: Psbt) {
    && r.phase == Signing && r.inner.Some? && r.count == |r.inner.value.inputs|
    && Collecting(env, r.inner.value, psbt)
  }

  // The complete case analysis of one submission.
  ghost predicate SubmissionOutcome(
    env: Env, r: Round, psbt: Psbt, op: OutPoint, sig: Bytes, token: Bytes, orders: SignOrders,
    after: Round, outcome: SignOutcome)
  {
    if !Acceptable(env, r, psbt, op, sig, token) then
      after == r && outcome == Rejected(if Entitled(env, r, op, token) then InvalidSignature else SessionInvalid)
    else RecordingOutcome(env, WithSig(r, Outpoints.Render(op), sig), psbt, orders, after, outcome)
  }

  // Recorded; and in flight once complete, unless over the fee-rate ceiling.
  ghost predicate RecordingOutcome(
    env: Env, signed: Round, psbt: Psbt, orders: SignOrders, after: Round, outcome: SignOutcome)
  {
    && signed.inner.Some?
    && var sigs := signed.inner.value.sigs;
       if |sigs| < signed.count then after == signed && outcome == Recorded
       else
         && sigs.Keys == signed.inner.value.inputs.Keys
         && FullySigned(env, psbt, sigs)
         && if env.feeRateOk(SignedTx(env, psbt, sigs), FeeLeft(psbt)) then
              && after == signed.(phase := Broadcast)
              && outcome == ReadyToBroadcast(SignedTx(env, psbt, sigs), orders.snapshot)
            else after == signed && outcome == Rejected(BroadcastRejected)
  }

  // -- facts about a reachable signable round ---------------------------------------

  lemma CollectingFacts(env: Env, inner: Inner, psbt: Psbt)
    requires Collecting(env, inner, psbt)
    ensures env.cfg.bip.AllowsSomething() && InputsOk(env, inner.inputs)
    ensures Canon(env, inner.inputs, inner.outputs) == Some(psbt)
    ensures SpendsExactly(psbt, inner.inputs) && Funded(psbt) && psbt.unsigned == Strip(psbt.unsigned)
    ensures inner.sigs.Keys <= inner.inputs.Keys && SigsOk(env, inner, psbt)
  {
    hide Canon, InputsOk, SigsOk, Funded, Strip, SpendsExactly;
  }

  lemma SignableFacts(env: Env, r: Round)
    requires env.cfg.bip.AllowsSomething() && RoundOk(env, r) && Signable(r.phase)
    ensures r.inner.Some? && r.count == |r.inner.value.inputs|
    ensures InputsOk(env, r.inner.value.inputs)
    ensures r.inner.value.sigs.Keys <= r.inner.value.inputs.Keys
    ensures Canon(env, r.inner.value.inputs, r.inner.value.outputs).Some?
    ensures SigsOk(env, r.inner.value, Canon(env, r.inner.value.inputs, r.inner.value.outputs).value)
  {
    hide InputsOk, OutputsOk, Canon, SigsOk, AssembleFinal;
  }

  lemma SignableCollects(env: Env, r: Round) returns (psbt: Psbt)
    requires Sane(env.cfg) && RoundOk(env, r) && Signable(r.phase)
    ensures r.inner.Some? && r.count == |r.inner.value.inputs|
    ensures Collecting(env, r.inner.value, psbt)
  {
    hide InputsOk, Canon, SpendsExactly, OutputSum, PrevoutSum, Strip, SigsOk, Buildable, RoundOk;
    SignableIsBuildable(env, r);
    SignableFacts(env, r);
    var inner := r.inner.value;
    CanonSpendsExactly(env, inner.inputs, inner.outputs);
    CanonPaysNoMoreThanItHolds(env, inner.inputs, inner.outputs);
    psbt := Canon(env, inner.inputs, inner.outputs).value;
  }

  // Every registered outpoint has its place in the canonical transaction.
  lemma RegisteredHasPosition(psbt: Psbt, inputs: map<string, RegisteredInput>, op: OutPoint)
    requires SpendsExactly(psbt, inputs)
    requires Outpoints.Render(op) in inputs
    ensures Position(psbt.unsigned.inputs, op).Some?
  {
    hide Outpoints.Render;
    var i :| 0 <= i < |psbt.unsigned.inputs|
      && Outpoints.Render(psbt.unsigned.inputs[i].previousOutput) == Outpoints.Render(op);
    Outpoints.RenderIsInjective(psbt.unsigned.inputs[i].previousOutput, op);
  }

  // All keys signed and all signatures verified: everything decodes.
  lemma CompleteIsFullySigned(env: Env, inner: Inner, psbt: Psbt)
    requires SpendsExactly(psbt, inner.inputs)
    requires inner.sigs.Keys == inner.inputs.Keys
    requires SigsOk(env, inner, psbt)
    ensures FullySigned(env, psbt, inner.sigs)
  {
    hide Outpoints.Render, Outpoints.Parse, SigOk, Pristine;
    forall i | 0 <= i < |psbt.inputs|
      ensures KeyAt(psbt, i) in inner.sigs && env.decodeWitness(inner.sigs[KeyAt(psbt, i)]).Some?
    {
      assert KeyAt(psbt, i) in inner.inputs.Keys;
      VerifiedDecodes(env, psbt, KeyAt(psbt, i), inner.inputs[KeyAt(psbt, i)].scriptType, inner.sigs[KeyAt(psbt, i)]);
    }
  }

  lemma VerifiedDecodes(env: Env, psbt: Psbt, key: string, st: ScriptType, sig: Bytes)
    requires SigOk(env, psbt, key, st, sig)
    ensures env.decodeWitness(sig).Some?
  {
    hide Outpoints.Parse, Position;
  }

  // As many signatures as participants: nobody is missing.
  lemma FullCountIsComplete(inner: Inner)
    requires inner.sigs.Keys <= inner.inputs.Keys
    ensures |inner.sigs| <= |inner.inputs|
    ensures |inner.sigs| == |inner.inputs| <==> inner.sigs.Keys == inner.inputs.Keys
  {
    assert |inner.sigs.Keys| == |inner.sigs| && |inner.inputs.Keys| == |inner.inputs|;
    SubsetSize(inner.sigs.Keys, inner.inputs.Keys);
    if |inner.sigs| == |inner.inputs| {
      SubsetOfSameSize(inner.sigs.Keys, inner.inputs.Keys);
    }
  }

  // -- one submission ------------------------------------------------------------------

  // The build behind a verification is the round's transaction.
  lemma VerificationBuild(env: Env, inner: Inner, psbt: Psbt, order: seq<string>)
    requires Collecting(env, inner, psbt)
    requires Enumerates(order, inner.inputs.Keys)
    ensures forall i :: 0 <= i < |order| ==> order[i] in inner.inputs
    ensures BuildCanonical(env, inner.inputs, inner.outputs, order) == Some(psbt)
  {
    hide BuildCanonical, Canon, InputsOk, Collecting;
    CollectingFacts(env, inner, psbt);
    OrderIsForgotten(env, inner.inputs, inner.outputs, order);
  }

  // Rejected submissions leave no trace; an acceptable one is recorded.
  lemma SubmissionSplits(
    env: Env, r: Round, psbt: Psbt, op: OutPoint, sig: Bytes, token: Bytes, orders: SignOrders)
    requires r.inner.Some? && OrdersFit(r, orders)
    requires BuildCanonical(env, r.inner.value.inputs, r.inner.value.outputs, orders.verify) == Some(psbt)
    requires Outpoints.Render(op) in r.inner.value.inputs ==> Position(psbt.unsigned.inputs, op).Some?
    ensures if Acceptable(env, r, psbt, op, sig, token)
            then ProcessSign(env, r, op, sig, token, orders)
                 == AfterRecording(env, WithSig(r, Outpoints.Render(op), sig), orders)
            else ProcessSign(env, r, op, sig, token, orders).0 == r
                 && ProcessSign(env, r, op, sig, token, orders).1
                    == Rejected(if Entitled(env, r, op, token) then InvalidSignature else SessionInvalid)
  {
    hide Outpoints.Render, Outpoints.Parse, BuildCanonical, VerifyInputSignature, AfterRecording, OrdersFit, Position;
    Outpoints.RenderParses(op);
    var key := Outpoints.Render(op);
    if key in r.inner.value.inputs {
      VerificationDecides(env, psbt, Position(psbt.unsigned.inputs, op).value, r.inner.value.inputs[key].scriptType,
        sig);
    }
    assert key in r.inner.value.inputs ==>
        (SigOk(env, psbt, key, r.inner.value.inputs[key].scriptType, sig) <==>
         VerifyInputSignature(env, psbt, Position(psbt.unsigned.inputs, op).value,
           r.inner.value.inputs[key].scriptType, sig));
  }

  // A recorded signature keeps the collection sound.
  lemma RecordingCollects(env: Env, r: Round, psbt: Psbt, op: OutPoint, sig: Bytes, token: Bytes)
    requires InSigning(env, r, psbt)
    requires Acceptable(env, r, psbt, op, sig, token)
    ensures InSigning(env, WithSig(r, Outpoints.Render(op), sig), psbt)
    ensures |WithSig(r, Outpoints.Render(op), sig).inner.value.sigs| == |r.inner.value.sigs| + 1
  {
    hide Outpoints.Render, SigOk, Canon, SpendsExactly, Strip, Funded, InputsOk;
    var key := Outpoints.Render(op);
    assert r.inner.value.sigs[key := sig].Keys == r.inner.value.sigs.Keys + {key};
  }

  lemma CompletedDecides(env: Env, r: Round, psbt: Psbt, orders: SignOrders)
    requires r.phase == Signing && r.inner.Some? && |r.inner.value.sigs| >= r.count
    requires OrdersFit(r, orders)
    requires BuildCanonical(env, r.inner.value.inputs, r.inner.value.outputs, orders.assemble) == Some(psbt)
    requires r.inner.value.sigs.Keys == r.inner.value.inputs.Keys
    requires FullySigned(env, psbt, r.inner.value.sigs) && Funded(psbt)
    ensures var (after, outcome) := AfterRecording(env, r, orders);
            RecordingOutcome(env, r, psbt, orders, after, outcome)
  {
    hide BuildCanonical, AssembleFinal, SignedTx, FullySigned, Funded, FeeLeft, OrdersFit;
    FundedHasValue(psbt);
    AssemblyDecides(env, psbt, r.inner.value.sigs);
  }

  lemma FundedHasValue(psbt: Psbt)
    requires Funded(psbt)
    ensures PrevoutSum(psbt.inputs).Some?
  {
  }

  lemma PartialDecides(env: Env, r: Round, psbt: Psbt, orders: SignOrders)
    requires r.inner.Some? && |r.inner.value.sigs| < r.count && OrdersFit(r, orders)
    ensures var (after, outcome) := AfterRecording(env, r, orders);
            RecordingOutcome(env, r, psbt, orders, after, outcome)
  {
    hide BuildCanonical, AssembleFinal, SignedTx, FullySigned, Funded, FeeLeft, OrdersFit;
  }

  lemma FittingOrders(r: Round, orders: SignOrders)
    requires r.inner.Some? && OrdersFit(r, orders)
    ensures Enumerates(orders.verify, r.inner.value.inputs.Keys)
    ensures Enumerates(orders.assemble, r.inner.value.inputs.Keys)
    ensures Enumerates(orders.snapshot, r.inner.value.inputs.Keys)
  {
    hide Enumerates;
  }

  lemma RecordingDecides(env: Env, r: Round, psbt: Psbt, orders: SignOrders)
    requires r.phase == Signing && r.inner.Some? && r.count == |r.inner.value.inputs|
    requires Collecting(env, r.inner.value, psbt)
    requires OrdersFit(r, orders)
    ensures var (after, outcome) := AfterRecording(env, r, orders);
            RecordingOutcome(env, r, psbt, orders, after, outcome)
  {
    hide *;
    CollectingFacts(env, r.inner.value, psbt);
    FullCountIsComplete(r.inner.value);
    if |r.inner.value.sigs| >= r.count {
      FittingOrders(r, orders);
      CompleteIsFullySigned(env, r.inner.value, psbt);
      VerificationBuild(env, r.inner.value, psbt, orders.assemble);
      CompletedDecides(env, r, psbt, orders);
    } else {
      PartialDecides(env, r, psbt, orders);
    }
  }

  lemma InSigningFacts(env: Env, r: Round, psbt: Psbt)
    requires InSigning(env, r, psbt)
    ensures r.phase == Signing && r.inner.Some? && r.count == |r.inner.value.inputs|
    ensures Collecting(env, r.inner.value, psbt)
  {
    hide Collecting;
  }

  lemma SubmissionDecides(
    env: Env, r: Round, psbt: Psbt, op: OutPoint, sig: Bytes, token: Bytes, orders: SignOrders)
    requires InSigning(env, r, psbt) && OrdersFit(r, orders)
    ensures var (after, outcome) := ProcessSign(env, r, op, sig, token, orders);
            SubmissionOutcome(env, r, psbt, op, sig, token, orders, after, outcome)
  {
    hide Collecting, InSigning, Canon, ProcessSign, AfterRecording, RecordingOutcome, Acceptable, Outpoints.Render,
      BuildCanonical, Position, SpendsExactly, Enumerates, WithSig;
    InSigningFacts(env, r, psbt);
    CollectingFacts(env, r.inner.value, psbt);
    VerificationBuild(env, r.inner.value, psbt, orders.verify);
    if Outpoints.Render(op) in r.inner.value.inputs {
      RegisteredHasPosition(psbt, r.inner.value.inputs, op);
    }
    SubmissionSplits(env, r, psbt, op, sig, token, orders);
    if Acceptable(env, r, psbt, op, sig, token) {
      var signed := WithSig(r, Outpoints.Render(op), sig);
      RecordingCollects(env, r, psbt, op, sig, token);
      InSigningFacts(env, signed, psbt);
      WithSigKeepsInputs(r, Outpoints.Render(op), sig);
      RecordingDecides(env, signed, psbt, orders);
    }
  }

  lemma WithSigKeepsInputs(r: Round, key: string, sig: Bytes)
    requires r.inner.Some?
    ensures WithSig(r, key, sig).inner == Some(r.inner.value.(sigs := r.inner.value.sigs[key := sig]))
    ensures WithSig(r, key, sig) == r.(inner := WithSig(r, key, sig).inner)
  {
  }

  // -- main results ---------------------------------------------------------------------

  // The last missing signature always puts the round in flight - assembly can
  // fail for no reason but the fee-rate ceiling, and then the round stays in
  // Signing with every signature recorded.
  lemma LastSignatureGoesInFlight(
    env: Env, r: Round, psbt: Psbt, op: OutPoint, sig: Bytes, token: Bytes, orders: SignOrders)
    requires InSigning(env, r, psbt) && OrdersFit(r, orders)
    requires Acceptable(env, r, psbt, op, sig, token)
    requires |r.inner.value.sigs| + 1 == |r.inner.value.inputs|
    ensures var sigs := r.inner.value.sigs[Outpoints.Render(op) := sig];
            var after := ProcessSign(env, r, op, sig, token, orders).0;
            && sigs.Keys == r.inner.value.inputs.Keys
            && FullySigned(env, psbt, sigs)
            && after.inner == Some(r.inner.value.(sigs := sigs))
            && after.phase == if env.feeRateOk(SignedTx(env, psbt, sigs), FeeLeft(psbt)) then Broadcast else Signing
  {
    hide InSigning, Collecting, ProcessSign, Acceptable, Outpoints.Render, FullySigned, SignedTx, FeeLeft;
    InSigningFacts(env, r, psbt);
    RecordingCollects(env, r, psbt, op, sig, token);
    SubmissionDecides(env, r, psbt, op, sig, token, orders);
  }

  // Collection in progress is what the invariant asks of both signable phases.
  lemma CollectionIsOk(env: Env, phase: Phase, inner: Inner, psbt: Psbt)
    requires Collecting(env, inner, psbt) && Signable(phase)
    requires inner.sigs.Keys <= inner.inputs.Keys
    requires phase == Signing && inner.sigs.Keys == inner.inputs.Keys ==>
               FullySigned(env, psbt, inner.sigs) && !env.feeRateOk(SignedTx(env, psbt, inner.sigs), FeeLeft(psbt))
    requires phase == Broadcast ==> inner.sigs.Keys == inner.inputs.Keys
    ensures SigningOk(env, phase, inner)
  {
    hide Collecting, Canon, InputsOk, SigsOk, AssembleFinal, Funded, FeeLeft, Strip, SignedTx, FullySigned,
      SpendsExactly;
    CollectingFacts(env, inner, psbt);
    if phase == Signing && inner.sigs.Keys == inner.inputs.Keys {
      FundedHasValue(psbt);
      AssemblyDecides(env, psbt, inner.sigs);
    }
  }

  lemma SameRoundOtherSigs(env: Env, r: Round, phase: Phase, inner: Inner)
    requires env.cfg.bip.AllowsSomething() && RoundOk(env, r) && r.phase == Signing
    requires r.inner.Some? && inner == r.inner.value.(sigs := inner.sigs) && inner.sigs.Keys <= inner.inputs.Keys
    requires Signable(phase) && SigningOk(env, phase, inner)
    ensures RoundOk(env, r.(phase := phase, inner := Some(inner)))
  {
    hide InputsOk, OutputsOk, SigningOk;
  }

  lemma SubmissionKeepsOk(env: Env, r: Round, op: OutPoint, sig: Bytes, token: Bytes, orders: SignOrders)
    requires Sane(env.cfg) && RoundOk(env, r) && r.phase == Signing && OrdersFit(r, orders)
    ensures RoundOk(env, ProcessSign(env, r, op, sig, token, orders).0)
  {
    hide RoundOk, Collecting, ProcessSign, Acceptable, Outpoints.Render, FullySigned, SignedTx, FeeLeft, SigningOk,
      Canon, InputsOk, SigsOk, Funded, Strip, SpendsExactly, WithSig, Enumerates;
    var psbt := SignableCollects(env, r);
    SubmissionDecides(env, r, psbt, op, sig, token, orders);
    if Acceptable(env, r, psbt, op, sig, token) {
      RecordingCollects(env, r, psbt, op, sig, token);
      WithSigKeepsInputs(r, Outpoints.Render(op), sig);
      var inner := WithSig(r, Outpoints.Render(op), sig).inner.value;
      CollectingFacts(env, inner, psbt);
      FullCountIsComplete(inner);
      var after := ProcessSign(env, r, op, sig, token, orders).0;
      CollectionIsOk(env, after.phase, inner, psbt);
      SameRoundOtherSigs(env, r, after.phase, inner);
    }
  }
}
