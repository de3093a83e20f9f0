// Outpoint keys, character by character: the `txid:vout` text under which
// inputs are registered, signed for and banned, and the parser that accepts
// other spellings of it.
module Outpoints {
  import opened Base

  // -- hexadecimal -------------------------------------------------------

  function HexDigit(n: int): char
    requires 0 <= n < 16
  {
    "0123456789abcdef"[n]
  }

  function HexValue(c: char): Option<int> {
    if '0' <= c <= '9' then Some(c as int - '0' as int)
    else if 'a' <= c <= 'f' then Some(c as int - 'a' as int + 10)
    else if 'A' <= c <= 'F' then Some(c as int - 'A' as int + 10)
    else None
  }

  // Display form: last byte first, two lower-case digits a byte.
  function Hex(bytes: Bytes): (s: string)
    ensures |s| == 2 * |bytes|
  {
    if bytes == [] then ""
    else
      var b := bytes[|bytes| - 1];
      [HexDigit(b / 16), HexDigit(b % 16)] + Hex(bytes[..|bytes| - 1])
  }

  function ParseHex(s: string): Option<Bytes> {
    if s == "" then Some([])
    else if |s| == 1 then None
    else
      match (HexValue(s[0]), HexValue(s[1]), ParseHex(s[2..]))
      case (Some(hi), Some(lo), Some(rest)) =>
        assert 0 <= hi < 16 && 0 <= lo < 16;
        Some(rest + [hi * 16 + lo])
      case _ => None
  }

  function ParseTxid(s: string): Option<Txid> {
    if |s| != 64 then None
    else
      match ParseHex(s)
      case None => None
      case Some(bytes) => if |bytes| == 32 then Some(bytes) else None
  }

  // -- decimal -----------------------------------------------------------

  function Digit(n: int): char
    requires 0 <= n < 10
  {
    "0123456789"[n]
  }

  function Decimal(n: nat): (s: string)
    ensures s != ""
  {
    if n < 10 then [Digit(n)] else Decimal(n / 10) + [Digit(n % 10)]
  }

  // The number a run of decimal digits denotes; the empty run denotes 0.
  function DecimalValue(s: string): Option<nat> {
    if s == "" then Some(0)
    else
      var c := s[|s| - 1];
      match DecimalValue(s[..|s| - 1])
      case None => None
      case Some(v) =>
        if '0' <= c <= '9' then Some(10 * v + (c as int - '0' as int)) else None
  }

  // Rust's unsigned 32-bit parser: one optional `+`, at least one digit, no overflow.
  function ParseVout(s: string): Option<U32> {
    var digits := if s != "" && s[0] == '+' then s[1..] else s;
    if digits == "" then None
    else
      match DecimalValue(digits)
      case None => None
      case Some(v) => if v < 0x1_0000_0000 then Some(v) else None
  }

  // -- keys --------------------------------------------------------------

  function LastColon(s: string): (r: Option<nat>)
    ensures r.Some? ==> r.value < |s| && s[r.value] == ':' && ':' !in s[r.value + 1..]
    ensures r.None? ==> ':' !in s
  {
    if s == "" then None
    else if s[|s| - 1] == ':' then Some(|s| - 1)
    else
      var r := LastColon(s[..|s| - 1]);
      assert s == s[..|s| - 1] + [s[|s| - 1]];
      assert r.Some? ==> s[r.value + 1..] == s[..|s| - 1][r.value + 1..] + [s[|s| - 1]];
      r
  }

  // The canonical key of an outpoint.
  function Render(op: OutPoint): string {
    Hex(op.txid) + ":" + Decimal(op.vout)
  }

  // Split at the last colon, then parse both halves.
  function Parse(s: string): Option<OutPoint> {
    match LastColon(s)
    case None => None
    case Some(i) =>
      match ParseVout(s[i + 1..])
      case None => None
      case Some(vout) =>
        match ParseTxid(s[..i])
        case None => None
        case Some(txid) => Some(OutPoint(txid, vout))
  }

  // -- an independent description of the accepted spellings ----------------

  function LowerChar(c: char): char {
    if 'A' <= c <= 'Z' then (c as int + 32) as char else c
  }

  function Lower(s: string): string {
    seq(|s|, i requires 0 <= i < |s| => LowerChar(s[i]))
  }

  function Zeros(count: nat): string {
    seq(count, _ => '0')
  }

  // `digits` is `n` in decimal behind any number of leading zeros.
  ghost predicate PaddedDecimal(digits: string, n: nat) {
    exists count: nat :: digits == Zeros(count) + Decimal(n)
  }

  // Everything a client may write for `op`: hex digits of either case, a
  // colon, an optional plus sign, leading zeros.
  ghost predicate Spells(s: string, op: OutPoint) {
    && |s| >= 66
    && Lower(s[..64]) == Hex(op.txid)
    && s[64] == ':'
    && (PaddedDecimal(s[65..], op.vout) || (s[65] == '+' && PaddedDecimal(s[66..], op.vout)))
  }

  // -- hexadecimal lemmas --------------------------------------------------

  lemma HexDigitsMatch(c: char, n: int)
    requires 0 <= n < 16
    ensures HexValue(c) == Some(n) <==> LowerChar(c) == HexDigit(n)
  {
    assert HexDigit(n) == if n < 10 then ('0' as int + n) as char else ('a' as int + n - 10) as char;
  }

  lemma LowerSplits(s: string)
    requires |s| >= 2
    ensures Lower(s) == [LowerChar(s[0]), LowerChar(s[1])] + Lower(s[2..])
  {
  }

  lemma {:induction false} ParsedHexIsLowered(s: string, bytes: Bytes)
    requires ParseHex(s) == Some(bytes)
    ensures Lower(s) == Hex(bytes)
  {
    if s != "" {
      var hi, lo, init := HexValue(s[0]).value, HexValue(s[1]).value, ParseHex(s[2..]).value;
      assert bytes == init + [hi * 16 + lo];
      ParsedHexIsLowered(s[2..], init);
      HexDigitsMatch(s[0], hi);
      HexDigitsMatch(s[1], lo);
      HexOfAppended(init, hi, lo);
      LowerSplits(s);
    }
  }

  lemma HexOfAppended(init: Bytes, hi: int, lo: int)
    requires 0 <= hi < 16 && 0 <= lo < 16
    ensures Hex(init + [hi * 16 + lo]) == [HexDigit(hi), HexDigit(lo)] + Hex(init)
  {
    hide HexDigit;
    var b: Byte := hi * 16 + lo;
    assert b / 16 == hi && b % 16 == lo;
    HexAppends(init, b);
  }

  lemma HexAppends(init: Bytes, b: Byte)
    ensures Hex(init + [b]) == [HexDigit(b / 16), HexDigit(b % 16)] + Hex(init)
  {
    hide HexDigit;
    assert (init + [b])[..|init|] == init;
  }

  // Equal lowered digits: the first two give the last byte, the others the rest.
  lemma LoweredHexSplits(s: string, init: Bytes, b: Byte)
    requires |s| >= 2
    requires Lower(s) == [HexDigit(b / 16), HexDigit(b % 16)] + Hex(init)
    ensures Lower(s[2..]) == Hex(init)
    ensures HexValue(s[0]) == Some(b / 16) && HexValue(s[1]) == Some(b % 16)
  {
    LowerSplits(s);
    HexDigitsMatch(s[0], b / 16);
    HexDigitsMatch(s[1], b % 16);
    hide *;
    var rhs := [HexDigit(b / 16), HexDigit(b % 16)] + Hex(init);
    assert LowerChar(s[0]) == rhs[0] && LowerChar(s[1]) == rhs[1];
    assert Lower(s[2..]) == Lower(s)[2..] && Hex(init) == rhs[2..];
  }

  lemma {:induction false} LoweredHexParses(s: string, bytes: Bytes)
    requires Lower(s) == Hex(bytes)
    ensures ParseHex(s) == Some(bytes)
  {
    hide HexValue, HexDigit, LowerChar;
    assert |Lower(s)| == |s|;
    if bytes != [] {
      var init, b := bytes[..|bytes| - 1], bytes[|bytes| - 1];
      LoweredHexSplits(s, init, b);
      LoweredHexParses(s[2..], init);
      assert bytes == init + [b];
    }
  }

  lemma {:induction false} HexIsLower(bytes: Bytes)
    ensures Lower(Hex(bytes)) == Hex(bytes)
    ensures ':' !in Hex(bytes)
  {
    hide Hex;
    HexUnfolds(bytes);
    if bytes != [] {
      var init, b := bytes[..|bytes| - 1], bytes[|bytes| - 1];
      HexIsLower(init);
      assert Lower(Hex(bytes)) == [LowerChar(HexDigit(b / 16)), LowerChar(HexDigit(b % 16))] + Lower(Hex(init));
    }
  }

  lemma HexUnfolds(bytes: Bytes)
    ensures bytes == [] ==> Hex(bytes) == ""
    ensures bytes != [] ==>
              var b := bytes[|bytes| - 1];
              Hex(bytes) == [HexDigit(b / 16), HexDigit(b % 16)] + Hex(bytes[..|bytes| - 1])
  {
    hide HexDigit;
  }

  // -- decimal lemmas ------------------------------------------------------

  lemma {:induction false} DecimalRoundTrip(n: nat)
    ensures DecimalValue(Decimal(n)) == Some(n)
    ensures forall c :: c in Decimal(n) ==> '0' <= c <= '9'
  {
    if n >= 10 {
      DecimalRoundTrip(n / 10);
      assert Decimal(n)[..|Decimal(n)| - 1] == Decimal(n / 10);
    }
  }

  // Leading zeros do not change the value, and nothing else has that value.
  lemma {:induction false} DecimalSpellings(digits: string, n: nat)
    requires digits != ""
    ensures DecimalValue(digits) == Some(n) <==> PaddedDecimal(digits, n)
  {
    if DecimalValue(digits) == Some(n) {
      ValueIsPadded(digits, n);
    }
    if PaddedDecimal(digits, n) {
      var zeros: nat :| digits == Zeros(zeros) + Decimal(n);
      PaddingKeepsValue(zeros, n);
    }
  }

  lemma ValueOfAppended(init: string, d: nat)
    requires d < 10 && DecimalValue(init).Some?
    ensures DecimalValue(init + [Digit(d)]) == Some(10 * DecimalValue(init).value + d)
  {
    assert (init + [Digit(d)])[..|init|] == init;
  }

  lemma {:induction false} PaddingKeepsValue(zeros: nat, n: nat)
    ensures DecimalValue(Zeros(zeros) + Decimal(n)) == Some(n)
    decreases n
  {
    hide DecimalValue, Digit, Zeros;
    if n < 10 {
      ZerosAreZero(zeros);
      ValueOfAppended(Zeros(zeros), n);
    } else {
      PaddingKeepsValue(zeros, n / 10);
      ValueOfAppended(Zeros(zeros) + Decimal(n / 10), n % 10);
      assert Zeros(zeros) + Decimal(n) == Zeros(zeros) + Decimal(n / 10) + [Digit(n % 10)];
    }
  }

  lemma {:induction false} ZerosAreZero(zeros: nat)
    ensures DecimalValue(Zeros(zeros)) == Some(0)
  {
    if zeros > 0 {
      ZerosAreZero(zeros - 1);
      assert Zeros(zeros)[..zeros - 1] == Zeros(zeros - 1);
    }
  }

  lemma AppendedDigit(zeros: nat, v: nat, d: nat)
    requires d < 10
    ensures PaddedDecimal(Zeros(zeros) + Decimal(v) + [Digit(d)], 10 * v + d)
  {
    var digits := Zeros(zeros) + Decimal(v) + [Digit(d)];
    if v == 0 {
      assert digits == Zeros(zeros + 1) + Decimal(d);
    } else {
      assert (10 * v + d) / 10 == v && (10 * v + d) % 10 == d;
      assert digits == Zeros(zeros) + Decimal(10 * v + d);
    }
  }

  // The last digit of a run, and the value of the others.
  lemma LastDigit(digits: string, n: nat) returns (v: nat, d: nat)
    requires digits != "" && DecimalValue(digits) == Some(n)
    ensures d < 10 && n == 10 * v + d
    ensures DecimalValue(digits[..|digits| - 1]) == Some(v)
    ensures digits == digits[..|digits| - 1] + [Digit(d)]
  {
    d := digits[|digits| - 1] as int - '0' as int;
    v := DecimalValue(digits[..|digits| - 1]).value;
  }

  lemma {:induction false} ValueIsPadded(digits: string, n: nat)
    requires digits != ""
    requires DecimalValue(digits) == Some(n)
    ensures PaddedDecimal(digits, n)
  {
    hide DecimalValue, Digit, Decimal, Zeros, PaddedDecimal;
    var init := digits[..|digits| - 1];
    var v, d := LastDigit(digits, n);
    if init == "" {
      OneDigit(digits, v, d);
    } else {
      ValueIsPadded(init, v);
      PaddedAppends(init, v, d);
    }
  }

  lemma OneDigit(digits: string, v: nat, d: nat)
    requires d < 10 && digits == [Digit(d)] && DecimalValue("") == Some(v)
    ensures PaddedDecimal(digits, 10 * v + d)
  {
    assert digits == Zeros(0) + Decimal(d);
  }

  lemma PaddedAppends(init: string, v: nat, d: nat)
    requires PaddedDecimal(init, v) && d < 10
    ensures PaddedDecimal(init + [Digit(d)], 10 * v + d)
  {
    hide Decimal, Zeros, Digit;
    var zeros: nat :| init == Zeros(zeros) + Decimal(v);
    AppendedDigit(zeros, v, d);
  }

  // -- main results --------------------------------------------------------

  lemma ParsedVoutIsPadded(s: string, vout: U32)
    requires s != ""
    ensures ParseVout(s) == Some(vout) <==>
            PaddedDecimal(s, vout) || (s[0] == '+' && PaddedDecimal(s[1..], vout))
  {
    if s[0] == '+' {
      if PaddedDecimal(s, vout) {
        PaddedIsDigits(s, vout);
        assert false;
      }
      if s[1..] != "" {
        DecimalSpellings(s[1..], vout);
      } else if PaddedDecimal(s[1..], vout) {
        PaddedIsDigits(s[1..], vout);
        assert false;
      }
    } else {
      DecimalSpellings(s, vout);
    }
  }

  lemma PaddedIsDigits(s: string, n: nat)
    requires PaddedDecimal(s, n)
    ensures s != ""
    ensures forall i :: 0 <= i < |s| ==> '0' <= s[i] <= '9'
  {
    DecimalRoundTrip(n);
    var count: nat :| s == Zeros(count) + Decimal(n);
    forall i | 0 <= i < |s| ensures '0' <= s[i] <= '9' {
      if i >= count {
        assert s[i] == Decimal(n)[i - count];
        assert s[i] in Decimal(n);
      }
    }
  }

  // A colon at `i` with none after it is the last one.
  lemma LastColonAt(s: string, i: nat)
    requires i < |s| && s[i] == ':'
    requires forall j :: i < j < |s| ==> s[j] != ':'
    ensures LastColon(s) == Some(i)
  {
    if i < |s| - 1 {
      LastColonAt(s[..|s| - 1], i);
    }
  }

  lemma SpelledColon(s: string, op: OutPoint)
    requires Spells(s, op)
    ensures LastColon(s) == Some(64)
  {
    var digits := if PaddedDecimal(s[65..], op.vout) then s[65..] else s[66..];
    PaddedIsDigits(digits, op.vout);
    forall j | 64 < j < |s| ensures s[j] != ':' {
      var offset := |s| - |digits|;
      if j >= offset {
        assert s[j] == digits[j - offset];
      }
    }
    LastColonAt(s, 64);
  }

  // The parser accepts a text for an outpoint exactly when the text spells it.
  lemma ParseAcceptsExactlySpellings(s: string, op: OutPoint)
    ensures Parse(s) == Some(op) <==> Spells(s, op)
  {
    if Parse(s) == Some(op) {
      assert LastColon(s) == Some(64);
      ParsedHexIsLowered(s[..64], op.txid);
    }
    if Spells(s, op) {
      SpelledColon(s, op);
      LoweredHexParses(s[..64], op.txid);
    }
    if LastColon(s) == Some(64) && |s| >= 66 {
      ParsedVoutIsPadded(s[65..], op.vout);
      assert s[65..][1..] == s[66..];
    }
  }

  // Parsing a rendered key gives the outpoint back.
  lemma RenderParses(op: OutPoint)
    ensures Parse(Render(op)) == Some(op)
  {
    HexIsLower(op.txid);
    var s := Render(op);
    assert s[..64] == Hex(op.txid);
    assert s[65..] == Zeros(0) + Decimal(op.vout);
    ParseAcceptsExactlySpellings(s, op);
  }

  // Distinct outpoints have distinct keys.
  lemma RenderIsInjective(p: OutPoint, q: OutPoint)
    requires Render(p) == Render(q)
    ensures p == q
  {
    RenderParses(p);
    RenderParses(q);
  }

  // However a client spells an outpoint, the key derived from it is the one
  // under which the same outpoint was registered or banned before.
  lemma SpellingsShareOneKey(s: string, t: string, op: OutPoint)
    requires Spells(s, op) && Parse(t).Some?
    ensures Parse(s).Some?
    ensures Render(Parse(s).value) == Render(Parse(t).value) <==> Spells(t, op)
  {
    ParseAcceptsExactlySpellings(s, op);
    ParseAcceptsExactlySpellings(t, op);
    if Render(Parse(s).value) == Render(Parse(t).value) {
      RenderIsInjective(Parse(s).value, Parse(t).value);
    }
  }

  // -- character by character -------------------------------------------------

  // A number without its last digits.
  function CutOff(n: nat, digits: nat): nat {
    if digits == 0 then n else CutOff(n / 10, digits - 1)
  }

  lemma {:induction false} HexReads(bytes: Bytes, k: nat)
    requires k < |bytes|
    ensures var b := bytes[|bytes| - 1 - k];
            Hex(bytes)[2 * k] == "0123456789abcdef"[b / 16] && Hex(bytes)[2 * k + 1] == "0123456789abcdef"[b % 16]
  {
    if k > 0 {
      HexReads(bytes[..|bytes| - 1], k - 1);
    }
  }

  lemma {:induction false} DecimalReads(n: nat, j: nat)
    requires j < |Decimal(n)|
    ensures Decimal(n)[|Decimal(n)| - 1 - j] == "0123456789"[CutOff(n, j) % 10]
  {
    if j > 0 {
      DecimalReads(n / 10, j - 1);
    }
  }

  lemma {:induction false} DecimalStarts(n: nat)
    ensures |Decimal(n)| > 1 ==> Decimal(n)[0] != '0'
    ensures CutOff(n, |Decimal(n)|) == 0
  {
    if n >= 10 {
      DecimalStarts(n / 10);
      assert n / 10 < 10 ==> Decimal(n / 10)[0] == Digit(n / 10);
    }
  }

  // The key: two lower-case digits for each byte of the id, the last byte first,
  // a colon, and the index in decimal without leading zeros.
  lemma RenderReads(op: OutPoint)
    ensures |Render(op)| > 65 && Render(op)[64] == ':'
    ensures forall k :: 0 <= k < 32 ==>
              var b := op.txid[31 - k];
              Render(op)[2 * k] == "0123456789abcdef"[b / 16] && Render(op)[2 * k + 1] == "0123456789abcdef"[b % 16]
    ensures var digits := Render(op)[65..];
            && (|digits| > 1 ==> digits[0] != '0') && CutOff(op.vout, |digits|) == 0
            && forall j :: 0 <= j < |digits| ==> digits[|digits| - 1 - j] == "0123456789"[CutOff(op.vout, j) % 10]
  {
    hide Hex, Decimal, CutOff;
    var hex, digits := Hex(op.txid), Decimal(op.vout);
    assert Render(op)[65..] == digits;
    DecimalStarts(op.vout);
    forall k | 0 <= k < 32
      ensures var b := op.txid[31 - k];
              Render(op)[2 * k] == "0123456789abcdef"[b / 16] && Render(op)[2 * k + 1] == "0123456789abcdef"[b % 16]
    {
      HexReads(op.txid, k);
      assert Render(op)[2 * k] == hex[2 * k] && Render(op)[2 * k + 1] == hex[2 * k + 1];
    }
    forall j | 0 <= j < |digits| ensures digits[|digits| - 1 - j] == "0123456789"[CutOff(op.vout, j) % 10] {
      DecimalReads(op.vout, j);
    }
  }
}
