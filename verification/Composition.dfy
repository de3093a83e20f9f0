// Client and coordinator together: whatever a reachable round shows an honest
// client, the client's own checks let it sign.
module Composition {
  import opened Base
  import opened Fees
  import opened Transactions
  import opened InputOrder
  import opened World
  import opened Rounds
  import opened Canonical
  import opened RoundInvariant
  import opened SigningRound
  import opened ClientCheck
  import opened Protocol
  import opened Steps
  import opened FairBuilds
  import Outpoints
  import CoinJoinTx

  // The client registered its outpoint with its change address and redeemed a
  // token for its output script; nobody else pays its two scripts.
  ghost predicate Participates(env: Env, inner: Inner, w: Wallet) {
    && w.denomination == env.cfg.denominationSats
    && Outpoints.Render(w.outpoint) in inner.inputs
    && (forall key :: key in inner.inputs ==>
          ChangeIs(env, inner.inputs[key], w, key == Outpoints.Render(w.outpoint)))
    && (exists k :: 0 <= k < |inner.outputs| && ScriptOf(env, inner.outputs[k]) == w.outputScript)
    && (forall k :: 0 <= k < |inner.outputs| && ScriptOf(env, inner.outputs[k]) != w.outputScript ==>
          ScriptOf(env, inner.outputs[k]) != w.changeScript)
  }

  predicate ChangeIs(env: Env, reg: RegisteredInput, w: Wallet, mine: bool) {
    && env.parseAddress(reg.changeAddress).Some?
    && var script := env.parseAddress(reg.changeAddress).value;
       if mine then script == w.changeScript else !w.Owns(script)
  }

  // Output scripts are distinct, so one of them is ours.
  lemma OneOutputIsOurs(env: Env, outputs: seq<RegisteredOutput>, scripts: seq<Script>, w: Wallet)
    requires |scripts| == |outputs| && forall i :: 0 <= i < |outputs| ==> scripts[i] == ScriptOf(env, outputs[i])
    requires forall i, j :: 0 <= i < j < |outputs| ==> ScriptOf(env, outputs[i]) != ScriptOf(env, outputs[j])
    requires exists k :: 0 <= k < |outputs| && ScriptOf(env, outputs[k]) == w.outputScript
    requires forall k :: 0 <= k < |outputs| && ScriptOf(env, outputs[k]) != w.outputScript ==>
               ScriptOf(env, outputs[k]) != w.changeScript
    ensures OwnsExactlyOne(scripts, w)
  {
    hide ScriptOf;
    var k :| 0 <= k < |outputs| && ScriptOf(env, outputs[k]) == w.outputScript;
    assert scripts[k] == w.outputScript;
    forall i | 0 <= i < |scripts| && i != k ensures !w.Owns(scripts[i]) {
      assert scripts[i] == ScriptOf(env, outputs[i]);
    }
  }

  // Our entry among the participants, and strangers elsewhere.
  lemma OurEntry(
    env: Env, inner: Inner, w: Wallet, order: seq<string>, ps: seq<ParticipantInput>) returns (m: nat)
    requires Participates(env, inner, w) && Enumerates(order, inner.inputs.Keys)
    requires env.cfg.bip.AllowsSomething() && InputsOk(env, inner.inputs)
    requires |ps| == |order|
    requires forall i :: 0 <= i < |order| ==> Some(ps[i]) == ToParticipant(env, inner.inputs[order[i]])
    ensures m < |ps| && order[m] == Outpoints.Render(w.outpoint)
    ensures ps[m].outpoint == w.outpoint && ps[m].changeScript == w.changeScript
    ensures forall p :: p in ps && p != ps[m] ==> !w.Owns(p.changeScript)
  {
    hide Outpoints.Render, Outpoints.Parse, ScriptOf;
    var key := Outpoints.Render(w.outpoint);
    assert key in order;
    m :| 0 <= m < |order| && order[m] == key;
    Outpoints.RenderParses(w.outpoint);
    assert InputOk(env, key, inner.inputs[key]) && ChangeIs(env, inner.inputs[key], w, true);
    forall p | p in ps && p != ps[m] ensures !w.Owns(p.changeScript) {
      var j :| 0 <= j < |ps| && ps[j] == p;
      assert order[j] != key;
      assert ChangeIs(env, inner.inputs[order[j]], w, false);
    }
  }

  // The builder's view of a reachable signing round, with us in it.
  ghost predicate HonestBuild(
    env: Env, psbt: Psbt, ps: seq<ParticipantInput>, scripts: seq<Script>, w: Wallet, me: ParticipantInput)
  {
    Built(env, psbt, ps, scripts) && HonestRound(ps, scripts, w, me)
  }

  lemma SigningIsOurs(env: Env, r: Round, psbt: Psbt, w: Wallet)
    returns (ps: seq<ParticipantInput>, scripts: seq<Script>, me: ParticipantInput)
    requires Sane(env.cfg) && RoundOk(env, r) && InSigning(env, r, psbt)
    requires Participates(env, r.inner.value, w)
    ensures HonestBuild(env, psbt, ps, scripts, w, me)
  {
    hide RoundOk, InSigning, Collecting, InputsOk, Participates, CoinJoinTx.BuildSpec, CoinJoinTx.AllAllowed,
      DistinctOutpoints, OwnsExactlyOne, ScriptOf, ToParticipant, IsTokenOf;
    InSigningFacts(env, r, psbt);
    CollectingFacts(env, r.inner.value, psbt);
    SignableOutputs(env, r);
    var order: seq<string>;
    order, ps, scripts := SigningIsBuilt(env, r, psbt);
    OursAmongOutputs(env, r.inner.value, scripts, w);
    var m := OurEntry(env, r.inner.value, w, order, ps);
    me := ps[m];
  }

  lemma OursAmongOutputs(env: Env, inner: Inner, scripts: seq<Script>, w: Wallet)
    requires OutputsOk(env, inner.outputs, inner.redeemed) && Participates(env, inner, w)
    requires |scripts| == |inner.outputs|
    requires forall i :: 0 <= i < |inner.outputs| ==> scripts[i] == ScriptOf(env, inner.outputs[i])
    ensures OwnsExactlyOne(scripts, w)
  {
    hide ScriptOf, OwnsExactlyOne, Outpoints.Render;
    OneOutputIsOurs(env, inner.outputs, scripts, w);
  }

  // The round can show this client a transaction, and the client's floor and
  // cap leave room for the smallest round, its fee estimate and the largest dust.
  ghost predicate MayBeShown(env: Env, r: Round, order: seq<string>, w: Wallet)
    requires env.cfg.bip.AllowsSomething()
  {
    && r.inner.Some? && Enumerates(order, r.inner.value.inputs.Keys)
    && GetTx(env, r, order).Some?
    && Participates(env, r.inner.value, w)
    && w.anonymityFloor <= env.cfg.minParticipants
    && EstimateFeeShare(env.cfg.bip, env.cfg.minParticipants, env.cfg.feeRate) + 293 <= w.FeeCap()
  }

  lemma ShownIsAccepted(env: Env, r: Round, order: seq<string>, w: Wallet)
    requires Sane(env.cfg) && RoundOk(env, r) && MayBeShown(env, r, order, w)
    ensures Accept(GetTx(env, r, order).value, w).Ok?
  {
    hide RoundOk, InSigning, Participates, Accept, EstimateFeeShare, BuildCanonical, Enumerates, HonestBuild;
    SigningIsShown(env, r, order, w);
    var psbt := SigningCollects(env, r);
    ShownIsCanonical(env, r, order, psbt);
    var ps, scripts, me := SigningIsOurs(env, r, psbt, w);
    SameDenomination(env, r.inner.value, w);
    HonestBuildIsAccepted(env, psbt, ps, scripts, w, me);
  }

  lemma SigningIsShown(env: Env, r: Round, order: seq<string>, w: Wallet)
    requires env.cfg.bip.AllowsSomething() && MayBeShown(env, r, order, w)
    ensures r.phase == Signing
  {
    hide Participates, EstimateFeeShare, BuildCanonical;
  }

  lemma SameDenomination(env: Env, inner: Inner, w: Wallet)
    requires Participates(env, inner, w)
    ensures w.denomination == env.cfg.denominationSats
  {
    hide Outpoints.Render, ScriptOf;
  }

  // Such a client signs whatever a reachable round shows it, for every number
  // of participants, every mix of script types and every iteration order.
  lemma ShownTransactionIsAccepted(env: Env, boot: Boot, acts: seq<Label>, order: seq<string>, w: Wallet)
    requires Sane(env.cfg) && MayBeShown(env, Run(env, boot, acts).round, order, w)
    ensures GetTx(env, Run(env, boot, acts).round, order).Some?
    ensures Accept(GetTx(env, Run(env, boot, acts).round, order).value, w).Ok?
  {
    hide Run, Core, RoundOk, Participates, Accept, EstimateFeeShare, GetTx, Enumerates;
    RunIsSound(env, boot, acts);
    CoreRoundOk(env, Run(env, boot, acts));
    ShownIsAccepted(env, Run(env, boot, acts).round, order, w);
  }

  lemma HonestBuildIsAccepted(
    env: Env, psbt: Psbt, ps: seq<ParticipantInput>, scripts: seq<Script>, w: Wallet, me: ParticipantInput)
    requires Sane(env.cfg) && HonestBuild(env, psbt, ps, scripts, w, me)
    requires w.denomination == env.cfg.denominationSats && w.anonymityFloor <= env.cfg.minParticipants
    requires EstimateFeeShare(env.cfg.bip, env.cfg.minParticipants, env.cfg.feeRate) + 293 <= w.FeeCap()
    ensures Accept(psbt, w).Ok?
  {
    hide CoinJoinTx.BuildSpec, CoinJoinTx.FeeShare, EstimateFeeShare, Accept, HonestRound, CoinJoinTx.AllAllowed;
    CoinJoinTx.EstimateCoversFeeShare(ps, env.cfg.bip, env.cfg.minParticipants, env.cfg.feeRate);
    RoomForDustIsEnough(ps, scripts, env.cfg.feeRate, env.cfg.bip.outputScriptType, w, me);
  }
}
