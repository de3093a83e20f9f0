// A world in which every check passes, and a cast of any size for it: the
// hypotheses of an honest round can be met under every valid configuration.
module Permissive {
  import opened Base
  import opened Config
  import opened Fees
  import opened Transactions
  import opened World
  import opened Ownership
  import opened Rounds
  import opened Canonical
  import opened HonestRounds
  import opened RoundInvariant
  import opened Protocol
  import Outpoints

  const ZEROS: Bytes := seq(32, _ => 0)

  function TokenFor(script: Script): Token {
    if script == [] then ZEROS else [script[0]] + seq(31, _ => 0)
  }

  function SomeAllowed(bip: BipConfig): (st: ScriptType)
    requires bip.AllowsSomething()
    ensures bip.Allows(st)
  {
    if bip.allowP2wpkh then P2wpkh else if bip.allowP2tr then P2tr else P2shP2wpkh
  }

  // Addresses are told apart by their length, tokens by the first byte. The
  // fee-rate ceiling allows everything or nothing.
  function EnvFor(c: CoordinatorConfig, below: bool): (env: Env)
    requires Sane(c)
    ensures env.cfg == c
  {
    Env(
      c,
      (address: string) => Some([|address| % 0x100]),
      (script: Script, amount: nat) => TokenFor(script),
      (key: Key, blinded: Bytes) => Some([]),
      (key: Key, token: Token, signature: Bytes, randomizer: Option<Bytes>) => true,
      (secret: Secret, op: OutPoint) => ZEROS,
      (encoded: Bytes) => Some([]),
      (tx: Tx, inputs: seq<PsbtInput>, index: nat, st: ScriptType, stack: Witness) => true,
      (data: Bytes) => [],
      (tx: Tx, fee: nat) => below,
      (script: Script) => Some(SomeAllowed(c.bip)),
      (st: ScriptType, script: Script, stack: Witness, op: OutPoint, round: RoundId) => true,
      (encoded: string) => None,
      (text: string) => text)
  }

  function PlayerFor(c: CoordinatorConfig, i: nat): Player
    requires Sane(c) && i < 100
  {
    var op := OutPoint(ZEROS, i);
    var address := seq(i, _ => 'x');
    Player(
      InputForm(Outpoints.Render(op), Some(OwnershipProof(1, [], None, None)), Some(seq(256, _ => 0)), address),
      op,
      Answer(Some(ChainOutput(RegistrationFloor(c), []))),
      UtxoDetails(RegistrationFloor(c), [], SomeAllowed(c.bip)),
      OutputRequest(TokenFor([i]), [], None, c.denominationSats, address),
      SignRequest(Outpoints.Render(op), [], ZEROS))
  }

  function CastFor(c: CoordinatorConfig, n: nat): (cast: seq<Player>)
    requires Sane(c) && n <= 100
    ensures |cast| == n
  {
    seq(n, i requires 0 <= i < n => PlayerFor(c, i))
  }

  lemma PlayersAreGood(c: CoordinatorConfig, below: bool, key: Key, id: RoundId, i: nat)
    requires Sane(c) && i < 100
    ensures GoodInput(EnvFor(c, below), key, id, PlayerFor(c, i))
    ensures Redeemable(EnvFor(c, below), key, PlayerFor(c, i).output)
  {
    hide Outpoints.Render, Outpoints.Parse, EstimateFeeShare;
    Outpoints.RenderParses(OutPoint(ZEROS, i));
    assert [i % 0x100] == [i];
    GoodDispatch(c, below, OutPoint(ZEROS, i), id);
  }

  lemma GoodDispatch(c: CoordinatorConfig, below: bool, op: OutPoint, id: RoundId)
    requires Sane(c)
    ensures DispatchOwnershipProof(EnvFor(c, below), [], OwnershipProof(1, [], None, None), op, id) ==
            Ok(SomeAllowed(c.bip))
  {
  }

  lemma CastIsDistinct(c: CoordinatorConfig, n: nat)
    requires Sane(c) && n <= 100
    ensures Distinct(CastFor(c, n))
  {
    hide Outpoints.Render, RegistrationFloor;
    forall i, j | 0 <= i < j < n
      ensures PlayerFor(c, i).op != PlayerFor(c, j).op
      ensures PlayerFor(c, i).output.token != PlayerFor(c, j).output.token
    {
      assert TokenFor([i])[0] == i && TokenFor([j])[0] == j;
    }
  }

  lemma PlayersRegisterWell(c: CoordinatorConfig, below: bool, n: nat)
    requires Sane(c) && c.minParticipants <= n <= c.maxParticipants
    ensures Buildable(EnvFor(c, below), CastInputs(CastFor(c, n)), CastOutputs(CastFor(c, n)))
  {
    hide Outpoints.Render, Outpoints.Parse, RegistrationFloor, CastInputs, EnvFor, PlayerFor, Distinct;
    var env, cast := EnvFor(c, below), CastFor(c, n);
    CastIsDistinct(c, n);
    CastSize(cast);
    forall k | k in CastInputs(cast) ensures InputOk(env, k, CastInputs(cast)[k]) {
      CastKeys(cast, k);
      var i :| 0 <= i < |cast| && KeyOf(cast[i]) == k;
      CastReg(cast, i);
      PlayerRegistersWell(c, below, i);
    }
    forall i | 0 <= i < n ensures env.parseAddress(CastOutputs(cast)[i].address).Some? {
      AddressesParse(c, below, CastOutputs(cast)[i].address);
    }
  }

  lemma AddressesParse(c: CoordinatorConfig, below: bool, address: string)
    requires Sane(c)
    ensures EnvFor(c, below).parseAddress(address).Some?
  {
  }

  lemma PlayerRegistersWell(c: CoordinatorConfig, below: bool, i: nat)
    requires Sane(c) && i < 100
    ensures InputOk(EnvFor(c, below), KeyOf(PlayerFor(c, i)), RegOf(PlayerFor(c, i)))
  {
    hide Outpoints.Render, Outpoints.Parse, RegistrationFloor;
    Outpoints.RenderParses(OutPoint(ZEROS, i));
  }

  lemma EverySignatureIsGood(c: CoordinatorConfig, below: bool, secret: Secret, psbt: Psbt, i: nat)
    requires Sane(c) && i < 100
    requires |psbt.unsigned.inputs| == |psbt.inputs|
    requires forall k :: 0 <= k < |psbt.inputs| ==> Pristine(psbt.inputs[k])
    ensures AtCeiling(EnvFor(c, below), psbt, below) && GoodSignature(EnvFor(c, below), secret, psbt, PlayerFor(c, i))
  {
    hide Outpoints.Render, Outpoints.Parse, RegistrationFloor, Strip;
    Outpoints.RenderParses(OutPoint(ZEROS, i));
  }

  // Whatever the keys and the round id, the cast does everything right.
  lemma CastIsGood(c: CoordinatorConfig, below: bool, n: nat, key: Key, secret: Secret, id: RoundId)
    requires Sane(c) && c.minParticipants <= n <= c.maxParticipants
    ensures GoodCast(EnvFor(c, below), key, secret, id, CastFor(c, n))
    ensures CeilingOf(EnvFor(c, below), CastFor(c, n), below)
  {
    hide EnvFor, PlayerFor, GoodInput, Redeemable, GoodSignature, AtCeiling, Distinct, Canon, CastInputs,
      CastOutputs, Buildable, Strip;
    var env, cast := EnvFor(c, below), CastFor(c, n);
    CastIsDistinct(c, n);
    forall i | 0 <= i < n ensures GoodInput(env, key, id, cast[i]) && Redeemable(env, key, cast[i].output) {
      PlayersAreGood(c, below, key, id, i);
    }
    PlayersRegisterWell(c, below, n);
    CanonSpendsExactly(env, CastInputs(cast), CastOutputs(cast));
    var psbt := Canon(env, CastInputs(cast), CastOutputs(cast)).value;
    ExactlyIsPristine(psbt, CastInputs(cast));
    forall i | 0 <= i < n ensures AtCeiling(env, psbt, below) && GoodSignature(env, secret, psbt, cast[i]) {
      EverySignatureIsGood(c, below, secret, psbt, i);
    }
    assert AtCeiling(env, psbt, below) by {
      EverySignatureIsGood(c, below, secret, psbt, 0);
    }
  }

  lemma ExactlyIsPristine(psbt: Psbt, inputs: map<string, RegisteredInput>)
    requires SpendsExactly(psbt, inputs)
    ensures |psbt.unsigned.inputs| == |psbt.inputs|
    ensures forall k :: 0 <= k < |psbt.inputs| ==> Pristine(psbt.inputs[k])
  {
    hide Outpoints.Render, Pristine;
  }
}
