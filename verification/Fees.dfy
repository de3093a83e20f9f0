// The virtual sizes of inputs and outputs, and the fee estimate that gates
// input registration.
module Fees {
  import opened Base
  import opened Config

  const TX_OVERHEAD_VBYTES := 10

  function InputVbytes(st: ScriptType): nat {
    match st
    case P2wpkh => 68
    case P2tr => 58
    case P2shP2wpkh => 91
  }

  function OutputVbytes(st: ScriptType): nat {
    match st
    case P2wpkh => 31
    case P2tr => 43
    case P2shP2wpkh => 32
  }

  // The heaviest input the operator allows.
  function WorstInputVbytes(bip: BipConfig): (worst: nat)
    requires bip.AllowsSomething()
    ensures forall st :: bip.Allows(st) ==> InputVbytes(st) <= worst
    ensures exists st :: bip.Allows(st) && InputVbytes(st) == worst
  {
    if bip.allowP2shP2wpkh then assert bip.Allows(P2shP2wpkh); InputVbytes(P2shP2wpkh)
    else if bip.allowP2wpkh then assert bip.Allows(P2wpkh); InputVbytes(P2wpkh)
    else assert bip.Allows(P2tr); InputVbytes(P2tr)
  }

  function FeeFor(vsize: nat, feeRate: nat): nat {
    vsize * feeRate
  }

  // Integer division: the remainder is absorbed.
  function PerHead(total: nat, n: nat): nat
    requires n > 0
  {
    total / n
  }

  // What a participant of an n-person round is assumed to pay at most.
  function EstimateFeeShare(bip: BipConfig, n: U32, feeRate: nat): nat
    requires bip.AllowsSomething()
  {
    if n == 0 then 0
    else
      var vsize := TX_OVERHEAD_VBYTES + WorstInputVbytes(bip) * n + OutputVbytes(bip.outputScriptType) * 2 * n;
      PerHead(FeeFor(vsize, feeRate), n)
  }

  // -- floor division ------------------------------------------------------

  lemma DivideBounds(x: nat, n: nat)
    requires n > 0
    ensures n * (x / n) <= x < n * (x / n) + n
  {
  }

  lemma ScaleOrder(n: nat, p: int, q: int)
    requires n > 0
    ensures p < q ==> n * p + n <= n * q
  {
    assert n * q == n * p + n * (q - p);
    if p < q {
      Scale(1, q - p, n);
    }
  }

  lemma Scale(m: nat, n: nat, k: nat)
    requires m <= n
    ensures m * k <= n * k
  {
  }

  // A quotient is the only number that fits between its multiples.
  lemma QuotientIsUnique(x: nat, n: nat, q: nat)
    requires n > 0
    requires n * q <= x < n * q + n
    ensures x / n == q
  {
    DivideBounds(x, n);
    ScaleOrder(n, x / n, q);
    ScaleOrder(n, q, x / n);
  }

  lemma DivideMonotone(x: nat, y: nat, n: nat)
    requires n > 0 && x <= y
    ensures x / n <= y / n
  {
    DivideBounds(x, n);
    DivideBounds(y, n);
    ScaleOrder(n, y / n, x / n);
  }

  lemma DivideAntitone(x: nat, m: nat, n: nat)
    requires 0 < m <= n
    ensures x / n <= x / m
  {
    DivideBounds(x, n);
    DivideBounds(x, m);
    ScaleOrder(m, x / m, x / n);
    Scale(m, n, x / n);
  }

  // Splitting a per-head cost off a shared one: only the shared part is rounded.
  lemma DivideSplitsPerHead(shared: nat, perHead: nat, n: nat)
    requires n > 0
    ensures (shared + perHead * n) / n == shared / n + perHead
  {
    DivideBounds(shared, n);
    var q := shared / n + perHead;
    assert n * q == n * (shared / n) + perHead * n;
    QuotientIsUnique(shared + perHead * n, n, q);
  }

  // The closed form of the estimate: the fixed overhead is shared, everything
  // else is paid per head.
  lemma EstimateClosedForm(bip: BipConfig, n: U32, feeRate: nat)
    requires bip.AllowsSomething()
    ensures EstimateFeeShare(bip, n, feeRate) ==
            if n == 0 then 0
            else 10 * feeRate / n + (WorstInputVbytes(bip) + 2 * OutputVbytes(bip.outputScriptType)) * feeRate
  {
    if n > 0 {
      var perHead := (WorstInputVbytes(bip) + 2 * OutputVbytes(bip.outputScriptType)) * feeRate;
      var w, o := WorstInputVbytes(bip), OutputVbytes(bip.outputScriptType);
      assert w * n + o * 2 * n == (w + 2 * o) * n;
      Distribute(TX_OVERHEAD_VBYTES, w + 2 * o, n, feeRate);
      DivideSplitsPerHead(TX_OVERHEAD_VBYTES * feeRate, perHead, n);
    }
  }

  lemma Distribute(a: nat, b: nat, n: nat, r: nat)
    ensures (a + b * n) * r == a * r + b * r * n
  {
    assert b * n * r == b * r * n;
  }

  // The estimate never rises with the size of the round, so the smallest
  // permitted round is the one to require funds for.
  lemma EstimateFallsWithRoundSize(bip: BipConfig, m: U32, n: U32, feeRate: nat)
    requires bip.AllowsSomething() && 0 < m <= n
    ensures EstimateFeeShare(bip, n, feeRate) <= EstimateFeeShare(bip, m, feeRate)
  {
    EstimateClosedForm(bip, m, feeRate);
    EstimateClosedForm(bip, n, feeRate);
    DivideAntitone(TX_OVERHEAD_VBYTES * feeRate, m, n);
  }
}
