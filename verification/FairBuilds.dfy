// Every transaction of every run is an honest build: the money in it is
// conserved, its outputs are alike and nobody pays more than was announced.
module FairBuilds {
  import opened Base
  import opened Fees
  import opened Transactions
  import opened InputOrder
  import opened World
  import opened Ownership
  import opened Rounds
  import opened Blame
  import opened Canonical
  import opened Assembly
  import opened RoundInvariant
  import opened SigningRound
  import opened Protocol
  import opened Changes
  import opened Steps
  import opened OneTransaction
  import opened Provenance
  import Outpoints
  import CoinJoinTx

  // `psbt` is what the builder makes of these participants and output scripts.
  ghost predicate Built(env: Env, psbt: Psbt, ps: seq<ParticipantInput>, scripts: seq<Script>) {
    && CoinJoinTx.BuildSpec(ps, scripts, env.cfg.denominationSats, env.cfg.feeRate, env.cfg.bip.outputScriptType)
       == Ok(psbt)
    && env.cfg.minParticipants <= |ps| == |scripts| <= env.cfg.maxParticipants
    && DistinctOutpoints(ps)
    && CoinJoinTx.AllAllowed(ps, env.cfg.bip)
    && (forall i, j :: 0 <= i < j < |scripts| ==> scripts[i] != scripts[j])
  }

  lemma SignableOutputs(env: Env, r: Round)
    requires env.cfg.bip.AllowsSomething() && RoundOk(env, r) && Signable(r.phase)
    ensures r.inner.Some?
    ensures OutputsOk(env, r.inner.value.outputs, r.inner.value.redeemed)
    ensures env.cfg.minParticipants <= |r.inner.value.inputs| == |r.inner.value.outputs| <= env.cfg.maxParticipants
  {
    hide InputsOk, OutputsOk, SigningOk;
  }

  lemma BuildCanonicalIs(
    env: Env, inner: Inner, order: seq<string>, ps: seq<ParticipantInput>, scripts: seq<Script>, psbt: Psbt)
    requires forall i :: 0 <= i < |order| ==> order[i] in inner.inputs
    requires BuildCanonical(env, inner.inputs, inner.outputs, order) == Some(psbt)
    requires Participants(env, inner.inputs, order) == Some(ps) && OutputScripts(env, inner.outputs) == Some(scripts)
    ensures CoinJoinTx.BuildSpec(
              ps, scripts, env.cfg.denominationSats, env.cfg.feeRate, env.cfg.bip.outputScriptType) == Ok(psbt)
  {
    hide CoinJoinTx.BuildSpec, Participants, OutputScripts;
  }

  // The participants and scripts are the registered ones, in the order of one
  // iteration of the map and in the order of registration.
  ghost predicate FromRound(
    env: Env, inner: Inner, order: seq<string>, ps: seq<ParticipantInput>, scripts: seq<Script>)
  {
    && Enumerates(order, inner.inputs.Keys)
    && |ps| == |order| && (forall i :: 0 <= i < |order| ==> Some(ps[i]) == ToParticipant(env, inner.inputs[order[i]]))
    && |scripts| == |inner.outputs|
    && (forall i :: 0 <= i < |scripts| ==> scripts[i] == ScriptOf(env, inner.outputs[i]))
  }

  lemma SigningIsBuilt(env: Env, r: Round, psbt: Psbt)
    returns (order: seq<string>, ps: seq<ParticipantInput>, scripts: seq<Script>)
    requires Sane(env.cfg) && RoundOk(env, r) && InSigning(env, r, psbt)
    ensures Built(env, psbt, ps, scripts)
    ensures r.inner.Some? && FromRound(env, r.inner.value, order, ps, scripts)
  {
    hide RoundOk, InSigning, Collecting, SpendsExactly, InputsOk, SigsOk, Participants, OutputScripts, ToParticipant,
      CoinJoinTx.BuildSpec, CoinJoinTx.AllCanPay, BuildCanonical, DistinctOutpoints, ScriptOf, IsTokenOf;
    InSigningFacts(env, r, psbt);
    var inner := r.inner.value;
    CollectingFacts(env, inner, psbt);
    SignableOutputs(env, r);
    order := SomeOrder(inner.inputs.Keys);
    VerificationBuild(env, inner, psbt, order);
    EnumerationLength(order, inner.inputs.Keys);
    assert |inner.inputs.Keys| == |inner.inputs|;
    ParticipantsOf(env, inner.inputs, order);
    ParticipantsDistinct(env, inner.inputs, order);
    OutputScriptsOf(env, inner.outputs);
    ps, scripts := Participants(env, inner.inputs, order).value, OutputScripts(env, inner.outputs).value;
    BuildCanonicalIs(env, inner, order, ps, scripts, psbt);
    GateHolds(env, inner.inputs, order, ps);
  }

  // -- whose transaction it is -----------------------------------------------------------

  // This participant is who registered with this event.
  predicate Joins(env: Env, e: Event, id: RoundId, p: ParticipantInput) {
    && e.Registered? && e.id == id && e.utxo == Outpoints.Render(p.outpoint)
    && p.valueSats == e.coin.valueSats && p.scriptPubkey == e.coin.script && p.scriptType == e.coin.scriptType
    && env.parseAddress(e.form.changeAddress) == Some(p.changeScript)
  }

  // This script is what the address of this accepted output stands for.
  predicate Names(env: Env, e: Event, id: RoundId, script: Script) {
    e.Redeemed? && e.id == id && env.parseAddress(e.output.address) == Some(script)
  }

  ghost predicate HasJoined(env: Env, log: seq<Event>, id: RoundId, p: ParticipantInput) {
    exists k :: 0 <= k < |log| && Joins(env, log[k], id, p)
  }

  ghost predicate IsNamed(env: Env, log: seq<Event>, id: RoundId, script: Script) {
    exists k :: 0 <= k < |log| && Names(env, log[k], id, script)
  }

  ghost predicate TakesPart(env: Env, e: Event, ps: seq<ParticipantInput>) {
    exists p :: p in ps && Joins(env, e, e.id, p)
  }

  ghost predicate IsPaid(env: Env, e: Event, scripts: seq<Script>) {
    exists script :: script in scripts && Names(env, e, e.id, script)
  }

  // The participants are those registered in round `id`, and the scripts those
  // of its accepted outputs: nobody is left out and nobody is added.
  ghost predicate Provided(
    env: Env, log: seq<Event>, id: RoundId, ps: seq<ParticipantInput>, scripts: seq<Script>)
  {
    && (forall p :: p in ps ==> HasJoined(env, log, id, p))
    && (forall script :: script in scripts ==> IsNamed(env, log, id, script))
    && (forall k :: 0 <= k < |log| && log[k].id == id && log[k].Registered? ==> TakesPart(env, log[k], ps))
    && (forall k :: 0 <= k < |log| && log[k].id == id && log[k].Redeemed? ==> IsPaid(env, log[k], scripts))
  }

  lemma EntryJoins(env: Env, e: Event, id: RoundId, key: string, reg: RegisteredInput, p: ParticipantInput)
    requires env.cfg.bip.AllowsSomething() && InputOk(env, key, reg)
    requires IsEntry(e, id, reg) && ToParticipant(env, reg) == Some(p)
    ensures Joins(env, e, id, p)
  {
    hide Outpoints.Parse, Outpoints.Render, RegistrationFloor;
  }

  lemma ParticipantsJoined(
    env: Env, log: seq<Event>, r: Round, order: seq<string>, ps: seq<ParticipantInput>, scripts: seq<Script>)
    requires env.cfg.bip.AllowsSomething() && RoundSourced(log, r) && r.inner.Some?
    requires InputsOk(env, r.inner.value.inputs) && FromRound(env, r.inner.value, order, ps, scripts)
    ensures forall p :: p in ps ==> HasJoined(env, log, r.id, p)
  {
    hide InstalledWith, TokenTaken, OutputTaken, InputOk, IsEntry, ToParticipant, Joins, ScriptOf;
    forall p | p in ps ensures HasJoined(env, log, r.id, p) {
      var i :| 0 <= i < |ps| && ps[i] == p;
      var reg := r.inner.value.inputs[order[i]];
      var k :| 0 <= k < |log| && IsEntry(log[k], r.id, reg);
      EntryJoins(env, log[k], r.id, order[i], reg, p);
    }
  }

  lemma ScriptsNamed(
    env: Env, log: seq<Event>, r: Round, order: seq<string>, ps: seq<ParticipantInput>, scripts: seq<Script>)
    requires RoundSourced(log, r) && r.inner.Some? && FromRound(env, r.inner.value, order, ps, scripts)
    requires OutputsOk(env, r.inner.value.outputs, r.inner.value.redeemed)
    ensures forall script :: script in scripts ==> IsNamed(env, log, r.id, script)
  {
    hide InstalledWith, Entered, TokenTaken, ToParticipant, IsTokenOf;
    forall script | script in scripts ensures IsNamed(env, log, r.id, script) {
      var j :| 0 <= j < |scripts| && scripts[j] == script;
      var k :| 0 <= k < |log| && TakesOutput(log[k], r.id, r.inner.value.outputs[j]);
      assert Names(env, log[k], r.id, script);
    }
  }

  lemma EverybodyTakesPart(
    env: Env, log: seq<Event>, r: Round, order: seq<string>, ps: seq<ParticipantInput>, scripts: seq<Script>)
    requires env.cfg.bip.AllowsSomething() && RoundHolds(env, log, r) && r.inner.Some?
    requires InputsOk(env, r.inner.value.inputs) && FromRound(env, r.inner.value, order, ps, scripts)
    ensures forall k :: 0 <= k < |log| && log[k].id == r.id && log[k].Registered? ==> TakesPart(env, log[k], ps)
  {
    hide InputOk, ToParticipant, Joins, ScriptOf, TokenIssued;
    forall k | 0 <= k < |log| && log[k].id == r.id && log[k].Registered? ensures TakesPart(env, log[k], ps) {
      assert EventHeld(env, r.inner.value, log[k]);
      var reg := r.inner.value.inputs[log[k].utxo];
      assert log[k].utxo in order;
      var i :| 0 <= i < |order| && order[i] == log[k].utxo;
      EntryJoins(env, log[k], r.id, order[i], reg, ps[i]);
    }
  }

  lemma EverybodyIsPaid(
    env: Env, log: seq<Event>, r: Round, order: seq<string>, ps: seq<ParticipantInput>, scripts: seq<Script>)
    requires RoundHolds(env, log, r) && r.inner.Some? && FromRound(env, r.inner.value, order, ps, scripts)
    requires OutputsOk(env, r.inner.value.outputs, r.inner.value.redeemed)
    ensures forall k :: 0 <= k < |log| && log[k].id == r.id && log[k].Redeemed? ==> IsPaid(env, log[k], scripts)
  {
    hide ToParticipant, TokenIssued, IsTokenOf;
    forall k | 0 <= k < |log| && log[k].id == r.id && log[k].Redeemed? ensures IsPaid(env, log[k], scripts) {
      assert EventHeld(env, r.inner.value, log[k]);
      var out := RegisteredOutput(log[k].output.address, log[k].output.amountSats);
      var j :| 0 <= j < |r.inner.value.outputs| && r.inner.value.outputs[j] == out;
      assert Names(env, log[k], r.id, scripts[j]);
    }
  }

  lemma SigningIsProvided(env: Env, s: System, psbt: Psbt)
    returns (ps: seq<ParticipantInput>, scripts: seq<Script>)
    requires Sane(env.cfg) && RoundOk(env, s.round) && Sourced(env, s) && InSigning(env, s.round, psbt)
    ensures Built(env, psbt, ps, scripts) && Provided(env, s.log, s.round.id, ps, scripts)
  {
    hide RoundOk, InSigning, Collecting, Built, FromRound, InputsOk, OutputsOk, AllSourced, RoundSourced, RoundHolds,
      HasJoined, IsNamed, TakesPart, IsPaid;
    InSigningFacts(env, s.round, psbt);
    CollectingFacts(env, s.round.inner.value, psbt);
    SignableOutputs(env, s.round);
    var order: seq<string>;
    order, ps, scripts := SigningIsBuilt(env, s.round, psbt);
    ParticipantsJoined(env, s.log, s.round, order, ps, scripts);
    ScriptsNamed(env, s.log, s.round, order, ps, scripts);
    EverybodyTakesPart(env, s.log, s.round, order, ps, scripts);
    EverybodyIsPaid(env, s.log, s.round, order, ps, scripts);
  }

  // -- over whole runs -----------------------------------------------------------------

  // The transaction is a build for the participants and outputs on record so far.
  ghost predicate HonestlyBuilt(env: Env, log: seq<Event>, id: RoundId, psbt: Psbt) {
    exists ps: seq<ParticipantInput>, scripts: seq<Script> ::
      Built(env, psbt, ps, scripts) && Provided(env, log, id, ps, scripts)
  }

  ghost predicate HonestAt(env: Env, log: seq<Event>, i: nat)
    requires i < |log|
  {
    Carries(log[i]) ==> HonestlyBuilt(env, log[..i], log[i].id, log[i].psbt)
  }

  ghost predicate AllHonest(env: Env, log: seq<Event>) {
    forall i :: 0 <= i < |log| ==> HonestAt(env, log, i)
  }

  lemma SigningIsHonest(env: Env, s: System, psbt: Psbt)
    requires Sane(env.cfg) && RoundOk(env, s.round) && Sourced(env, s) && InSigning(env, s.round, psbt)
    ensures HonestlyBuilt(env, s.log, s.round.id, psbt)
  {
    hide RoundOk, InSigning, Built, Provided, Sourced;
    var ps, scripts := SigningIsProvided(env, s, psbt);
  }

  // An event that neither registers nor redeems changes nothing in the record.
  lemma HonestAfter(env: Env, log: seq<Event>, e: Event, id: RoundId, psbt: Psbt)
    requires HonestlyBuilt(env, log, id, psbt) && !e.Registered? && !e.Redeemed?
    ensures HonestlyBuilt(env, log + [e], id, psbt)
  {
    hide Built, Joins, Names, TakesPart, IsPaid;
    var ps: seq<ParticipantInput>, scripts: seq<Script> :|
      Built(env, psbt, ps, scripts) && Provided(env, log, id, ps, scripts);
    forall p | p in ps ensures HasJoined(env, log + [e], id, p) {
      var k :| 0 <= k < |log| && Joins(env, log[k], id, p);
      assert (log + [e])[k] == log[k];
    }
    forall script | script in scripts ensures IsNamed(env, log + [e], id, script) {
      var k :| 0 <= k < |log| && Names(env, log[k], id, script);
      assert (log + [e])[k] == log[k];
    }
    assert Provided(env, log + [e], id, ps, scripts);
  }

  lemma HonestGrows(env: Env, log: seq<Event>, e: Event)
    requires AllHonest(env, log) && (Carries(e) ==> HonestlyBuilt(env, log, e.id, e.psbt))
    ensures AllHonest(env, log + [e])
  {
    hide HonestlyBuilt;
    forall i | 0 <= i < |log + [e]| ensures HonestAt(env, log + [e], i) {
      if i < |log| {
        assert (log + [e])[..i] == log[..i];
        assert HonestAt(env, log, i);
      } else {
        assert (log + [e])[..i] == log;
      }
    }
  }

  lemma ShowKeepsHonest(env: Env, s: System, t: System)
    requires Sane(env.cfg) && RoundOk(env, s.round) && Sourced(env, s)
    requires AllHonest(env, s.log) && Shows(env, s, t)
    ensures AllHonest(env, t.log)
  {
    hide RoundOk, InSigning, HonestlyBuilt, AllHonest, Sourced;
    var psbt: Psbt :| InSigning(env, s.round, psbt) && t.log == s.log + [Shown(s.round.id, psbt)];
    SigningIsHonest(env, s, psbt);
    HonestGrows(env, s.log, Shown(s.round.id, psbt));
  }

  lemma SignKeepsHonest(env: Env, s: System, t: System)
    requires Sane(env.cfg) && RoundOk(env, s.round) && Sourced(env, s)
    requires AllHonest(env, s.log) && Signs(env, s, t)
    ensures AllHonest(env, t.log)
  {
    hide RoundOk, InSigning, HonestlyBuilt, AllHonest, Sourced, WithSig, SignedTx, FullySigned, Witnesses,
      Outpoints.Render, Joined, SignedBy;
    var psbt: Psbt, key: string, e: Event :| SignsWith(env, s, t, psbt, key, e);
    SigningIsHonest(env, s, psbt);
    HonestGrows(env, s.log, e);
    if t.round.phase == Broadcast {
      HonestAfter(env, s.log, e, s.round.id, psbt);
      HonestGrows(env, s.log + [e], t.log[|s.log| + 1]);
    }
  }

  lemma ChangeKeepsHonest(env: Env, s: System, t: System)
    requires Sane(env.cfg) && RoundOk(env, s.round) && Sourced(env, s)
    requires AllHonest(env, s.log) && Change(env, s, t)
    ensures AllHonest(env, t.log)
  {
    hide RoundOk, HonestlyBuilt, AllHonest, Sourced, Shows, Signs, Joined, SignedBy, Judged, SoundRegistration,
      Redeemable;
    if Shows(env, s, t) {
      ShowKeepsHonest(env, s, t);
    } else if Signs(env, s, t) {
      SignKeepsHonest(env, s, t);
    } else if t.log != s.log {
      PlainChange(env, s, t);
      HonestGrows(env, s.log, t.log[|s.log|]);
    }
  }

  // Other changes add one event that carries no transaction.
  lemma PlainChange(env: Env, s: System, t: System)
    requires Change(env, s, t) && !Shows(env, s, t) && !Signs(env, s, t) && t.log != s.log
    ensures |t.log| == |s.log| + 1 && t.log == s.log + [t.log[|s.log|]] && !Carries(t.log[|s.log|])
  {
    hide Shows, Signs, Joined, SignedBy, Revalidate, SoundRequest, SoundReply, Redeemable, SigningTimeoutVerdict,
      BroadcastFailureVerdict;
  }

  lemma {:induction false} RunIsHonest(env: Env, boot: Boot, acts: seq<Label>)
    requires Sane(env.cfg)
    ensures AllHonest(env, Run(env, boot, acts).log)
    decreases |acts|
  {
    hide Core, Step, Change, RoundOk, HonestlyBuilt, Sourced;
    if acts != [] {
      var s := Run(env, boot, acts[..|acts| - 1]);
      RunIsHonest(env, boot, acts[..|acts| - 1]);
      RunIsSound(env, boot, acts[..|acts| - 1]);
      RunIsSourced(env, boot, acts[..|acts| - 1]);
      CoreRoundOk(env, s);
      StepIsChange(env, s, acts[|acts| - 1]);
      ChangeKeepsHonest(env, s, Step(env, s, acts[|acts| - 1]));
    }
  }

  // -- what an honest build pays -----------------------------------------------------------

  // A settlement of these coins, in canonical order, among distinct scripts,
  // for a share of the fee rate times the size with change for everybody, and
  // no less than the rate for its own size but for rounding.
  ghost predicate PaysFairly(
    env: Env, psbt: Psbt, ps: seq<ParticipantInput>, scripts: seq<Script>, share: nat)
    requires env.cfg.bip.AllowsSomething()
  {
    var n, c, fee := |ps|, env.cfg, CoinJoinTx.InputSum(ps) - OutputSum(psbt.unsigned.outputs);
    var total := c.feeRate * CoinJoinTx.TxVbytes(ps, 2 * n, c.bip.outputScriptType);
    && c.minParticipants <= n == |scripts| <= c.maxParticipants
    && StrictlyAscending(ps)
    && (forall i, j :: 0 <= i < j < |scripts| ==> scripts[i] != scripts[j])
    && CoinJoinTx.Settles(psbt, ps, scripts, c.denominationSats, share)
    && n * share <= total < n * share + n
    && share <= EstimateFeeShare(c.bip, c.minParticipants, c.feeRate)
    && PrevoutSum(psbt.inputs) == Some(CoinJoinTx.InputSum(ps))
    && c.feeRate * CoinJoinTx.TxVbytes(ps, |psbt.unsigned.outputs|, c.bip.outputScriptType) - (n - 1) <= fee
    && fee <= total + 293 * n
  }

  lemma SortedIsSame(ps: seq<ParticipantInput>)
    requires DistinctOutpoints(ps)
    ensures multiset(Sort(ps)) == multiset(ps) && |Sort(ps)| == |ps| && DistinctOutpoints(Sort(ps))
    ensures forall p :: p in Sort(ps) <==> p in ps
    ensures StrictlyAscending(Sort(ps)) && Sort(Sort(ps)) == Sort(ps)
  {
    hide Sort;
    var sorted := Sort(ps);
    SortSorts(ps);
    SortForgetsOrder(ps, sorted);
    DistinctSurvivesRearrangement(ps, sorted);
    assert |multiset(ps)| == |ps| && |multiset(sorted)| == |sorted|;
    assert forall p :: p in ps <==> p in multiset(ps);
    assert forall p :: p in sorted <==> p in multiset(sorted);
  }

  // In canonical order it is the same build for the same people.
  lemma SortedBuilt(
    env: Env, psbt: Psbt, log: seq<Event>, id: RoundId, ps: seq<ParticipantInput>, scripts: seq<Script>)
    requires Built(env, psbt, ps, scripts) && Provided(env, log, id, ps, scripts)
    ensures Built(env, psbt, Sort(ps), scripts) && Provided(env, log, id, Sort(ps), scripts)
    ensures StrictlyAscending(Sort(ps)) && Sort(Sort(ps)) == Sort(ps)
  {
    hide CoinJoinTx.BuildSpec, Joins, Names, IsPaid, IsNamed, HasJoined, Sort, DistinctOutpoints, StrictlyAscending;
    SortedIsSame(ps);
    CoinJoinTx.BuildForgetsOrder(ps, Sort(ps), scripts, env.cfg.denominationSats, env.cfg.feeRate,
      env.cfg.bip.outputScriptType);
    assert forall i :: 0 <= i < |Sort(ps)| ==> Sort(ps)[i] in ps;
    assert CoinJoinTx.AllAllowed(Sort(ps), env.cfg.bip);
  }

  lemma HonestBuildsPayFairly(env: Env, psbt: Psbt, ps: seq<ParticipantInput>, scripts: seq<Script>)
    returns (share: nat)
    requires Sane(env.cfg) && Built(env, psbt, ps, scripts) && StrictlyAscending(ps) && Sort(ps) == ps
    ensures PaysFairly(env, psbt, ps, scripts, share)
  {
    hide CoinJoinTx.BuildSpec, CoinJoinTx.FeeShare, CoinJoinTx.TxVbytes, EstimateFeeShare, OutputSum, PrevoutSum, Sort,
      CoinJoinTx.InputSum, DistinctOutpoints, StrictlyAscending, CoinJoinTx.AllAllowed, CoinJoinTx.Settles,
      CoinJoinTx.AllCanPay;
    var c := env.cfg;
    share := CoinJoinTx.BuildSettles(ps, scripts, c.denominationSats, c.feeRate, c.bip.outputScriptType);
    CoinJoinTx.ValueIsConserved(ps, scripts, c.denominationSats, c.feeRate, c.bip.outputScriptType);
    CoinJoinTx.PaysForItsSize(ps, scripts, c.denominationSats, c.feeRate, c.bip.outputScriptType);
    CoinJoinTx.EstimateCoversFeeShare(ps, c.bip, c.minParticipants, c.feeRate);
    BuiltPrevouts(ps, scripts, c.denominationSats, c.feeRate, c.bip.outputScriptType);
  }

  lemma BuiltPrevouts(
    ps: seq<ParticipantInput>, scripts: seq<Script>, denomination: nat, feeRate: nat, outputType: ScriptType)
    requires CoinJoinTx.BuildSpec(ps, scripts, denomination, feeRate, outputType).Ok?
    ensures PrevoutSum(CoinJoinTx.BuildSpec(ps, scripts, denomination, feeRate, outputType).value.inputs)
            == Some(CoinJoinTx.InputSum(ps))
  {
    hide CoinJoinTx.FeeShare, CoinJoinTx.InputSum, PrevoutSum, Sort;
    CoinJoinTx.PrevoutsSum(Sort(ps));
    CoinJoinTx.InputSumOfSort(ps);
  }

  // Every transaction that any run shows, signs or assembles is that of the
  // round's own participants and outputs, and pays fairly.
  lemma EveryTransactionIsFair(env: Env, boot: Boot, acts: seq<Label>, i: nat)
    returns (ps: seq<ParticipantInput>, scripts: seq<Script>, share: nat)
    requires Sane(env.cfg)
    requires i < |Run(env, boot, acts).log| && Carries(Run(env, boot, acts).log[i])
    ensures var log := Run(env, boot, acts).log;
            && Provided(env, log[..i], log[i].id, ps, scripts)
            && PaysFairly(env, log[i].psbt, ps, scripts, share)
  {
    hide Run, Built, PaysFairly, Provided, Sort, StrictlyAscending;
    RunIsHonest(env, boot, acts);
    var log := Run(env, boot, acts).log;
    assert HonestAt(env, log, i);
    ps, scripts :| Built(env, log[i].psbt, ps, scripts) && Provided(env, log[..i], log[i].id, ps, scripts);
    SortedBuilt(env, log[i].psbt, log[..i], log[i].id, ps, scripts);
    ps := Sort(ps);
    share := HonestBuildsPayFairly(env, log[i].psbt, ps, scripts);
  }

  // -- what a round is said to cost ---------------------------------------------------------

  // The displayed share is the estimate for a round of this size: no less than
  // the charged one, and no more than the estimate every input was registered under.
  ghost predicate QuotesFairly(env: Env, d: TxDisplay, ps: seq<ParticipantInput>)
    requires env.cfg.bip.AllowsSomething()
  {
    && ps != [] && |ps| < 0x1_0000_0000 && d.feeTotalSats == |ps| * d.feePerParticipantSats
    && d.feePerParticipantSats == EstimateFeeShare(env.cfg.bip, |ps|, env.cfg.feeRate)
    && CoinJoinTx.FeeShare(ps, env.cfg.feeRate, env.cfg.bip.outputScriptType) <= d.feePerParticipantSats
    && d.feePerParticipantSats <= EstimateFeeShare(env.cfg.bip, env.cfg.minParticipants, env.cfg.feeRate)
  }

  lemma EstimateIsFair(env: Env, ps: seq<ParticipantInput>, n: U32)
    requires Sane(env.cfg) && CoinJoinTx.AllAllowed(ps, env.cfg.bip)
    requires env.cfg.minParticipants <= n == |ps|
    ensures ps != []
    ensures CoinJoinTx.FeeShare(ps, env.cfg.feeRate, env.cfg.bip.outputScriptType)
            <= EstimateFeeShare(env.cfg.bip, n, env.cfg.feeRate)
            <= EstimateFeeShare(env.cfg.bip, env.cfg.minParticipants, env.cfg.feeRate)
  {
    hide CoinJoinTx.FeeShare, EstimateFeeShare, CoinJoinTx.AllAllowed;
    CoinJoinTx.EstimateCoversFeeShare(ps, env.cfg.bip, n, env.cfg.feeRate);
    EstimateFallsWithRoundSize(env.cfg.bip, env.cfg.minParticipants, n, env.cfg.feeRate);
  }

  // Whatever a reachable round displays is an honest build with a fair quote.
  lemma DisplayIsFair(env: Env, boot: Boot, acts: seq<Label>, order: seq<string>)
    returns (ps: seq<ParticipantInput>, scripts: seq<Script>)
    requires Sane(env.cfg)
    requires var r := Run(env, boot, acts).round;
             r.phase == Signing && r.inner.Some? && Enumerates(order, r.inner.value.inputs.Keys)
    ensures var r := Run(env, boot, acts).round;
            && Display(env, r, order).Some?
            && Display(env, r, order).value.round == r.id
            && Built(env, Display(env, r, order).value.psbt, ps, scripts)
            && QuotesFairly(env, Display(env, r, order).value, ps)
  {
    hide Run, Core, RoundOk, InSigning, Built, QuotesFairly, Display, FromRound;
    var r := Run(env, boot, acts).round;
    RunIsSound(env, boot, acts);
    CoreRoundOk(env, Run(env, boot, acts));
    var psbt := SigningCollects(env, r);
    var own: seq<string>;
    own, ps, scripts := SigningIsBuilt(env, r, psbt);
    SameParticipantCount(env, r, psbt, own, order, ps, scripts);
    ShownIsCanonical(env, r, order, psbt);
    DisplayQuotes(env, r, order, psbt, ps, scripts);
  }

  lemma SameParticipantCount(
    env: Env, r: Round, psbt: Psbt, own: seq<string>, order: seq<string>, ps: seq<ParticipantInput>,
    scripts: seq<Script>)
    requires r.inner.Some? && FromRound(env, r.inner.value, own, ps, scripts)
    requires Enumerates(order, r.inner.value.inputs.Keys)
    ensures |ps| == |order|
  {
    hide ToParticipant, ScriptOf;
    EnumerationLength(own, r.inner.value.inputs.Keys);
    EnumerationLength(order, r.inner.value.inputs.Keys);
  }

  lemma DisplayQuotes(
    env: Env, r: Round, order: seq<string>, psbt: Psbt, ps: seq<ParticipantInput>, scripts: seq<Script>)
    requires Sane(env.cfg) && r.inner.Some? && Enumerates(order, r.inner.value.inputs.Keys)
    requires GetTx(env, r, order) == Some(psbt) && Built(env, psbt, ps, scripts) && |ps| == |order|
    ensures Display(env, r, order).Some? && Display(env, r, order).value.psbt == psbt
    ensures Display(env, r, order).value.round == r.id
    ensures QuotesFairly(env, Display(env, r, order).value, ps)
  {
    hide GetTx, CoinJoinTx.BuildSpec, CoinJoinTx.FeeShare, EstimateFeeShare, DistinctOutpoints, CoinJoinTx.AllAllowed;
    EstimateIsFair(env, ps, |ps|);
  }
}
