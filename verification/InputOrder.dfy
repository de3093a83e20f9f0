// The canonical order of inputs: ascending by outpoint, and the stable sort
// that establishes it.
module InputOrder {
  import opened Base

  datatype ParticipantInput = ParticipantInput(
    outpoint: OutPoint,
    valueSats: nat,
    scriptPubkey: Script,
    changeScript: Script,
    scriptType: ScriptType)

  // Lexicographic order on bytes.
  predicate BytesAtMost(a: Bytes, b: Bytes) {
    || a == []
    || (b != [] && (a[0] < b[0] || (a[0] == b[0] && BytesAtMost(a[1..], b[1..]))))
  }

  predicate AtMost(p: OutPoint, q: OutPoint) {
    if p.txid == q.txid then p.vout <= q.vout else BytesAtMost(p.txid, q.txid)
  }

  predicate Ascending(s: seq<ParticipantInput>) {
    forall i, j :: 0 <= i < j < |s| ==> AtMost(s[i].outpoint, s[j].outpoint)
  }

  predicate StrictlyAscending(s: seq<ParticipantInput>) {
    forall i, j :: 0 <= i < j < |s| ==>
      AtMost(s[i].outpoint, s[j].outpoint) && s[i].outpoint != s[j].outpoint
  }

  predicate DistinctOutpoints(s: seq<ParticipantInput>) {
    forall i, j :: 0 <= i < j < |s| ==> s[i].outpoint != s[j].outpoint
  }

  // Stable insertion: behind everything that is at most x.
  function Insert(s: seq<ParticipantInput>, x: ParticipantInput): seq<ParticipantInput> {
    if s == [] || AtMost(s[|s| - 1].outpoint, x.outpoint) then s + [x]
    else Insert(s[..|s| - 1], x) + [s[|s| - 1]]
  }

  function Sort(s: seq<ParticipantInput>): seq<ParticipantInput> {
    if s == [] then [] else Insert(Sort(s[..|s| - 1]), s[|s| - 1])
  }

  // -- the order is total ----------------------------------------------------

  lemma {:induction false} BytesOrder(a: Bytes, b: Bytes, c: Bytes)
    ensures BytesAtMost(a, b) || BytesAtMost(b, a)
    ensures BytesAtMost(a, b) && BytesAtMost(b, a) ==> a == b
    ensures BytesAtMost(a, b) && BytesAtMost(b, c) ==> BytesAtMost(a, c)
  {
    if a != [] && b != [] {
      BytesOrder(a[1..], b[1..], if c == [] then [] else c[1..]);
      assert a == [a[0]] + a[1..] && b == [b[0]] + b[1..];
    }
  }

  lemma OutPointOrder(p: OutPoint, q: OutPoint, r: OutPoint)
    ensures AtMost(p, q) || AtMost(q, p)
    ensures AtMost(p, q) && AtMost(q, p) ==> p == q
    ensures AtMost(p, q) && AtMost(q, r) ==> AtMost(p, r)
  {
    BytesOrder(p.txid, q.txid, r.txid);
    BytesOrder(q.txid, p.txid, r.txid);
    BytesOrder(q.txid, r.txid, p.txid);
  }

  // The first byte in which two ids differ decides, or the output index.
  ghost predicate Precedes(p: OutPoint, q: OutPoint) {
    || (p.txid == q.txid && p.vout <= q.vout)
    || exists k :: FirstLess(p.txid, q.txid, k)
  }

  predicate FirstLess(a: Bytes, b: Bytes, k: int) {
    0 <= k < |a| && k < |b| && a[..k] == b[..k] && a[k] < b[k]
  }

  lemma {:induction false} BytesByFirstLess(a: Bytes, b: Bytes) returns (k: int)
    requires |a| == |b| && a != b
    ensures if BytesAtMost(a, b) then FirstLess(a, b, k) else FirstLess(b, a, k)
  {
    if a[0] != b[0] {
      k := 0;
    } else {
      assert a == [a[0]] + a[1..] && b == [b[0]] + b[1..];
      k := BytesByFirstLess(a[1..], b[1..]);
      assert a[..k + 1] == [a[0]] + a[1..][..k] && b[..k + 1] == [b[0]] + b[1..][..k];
      k := k + 1;
    }
  }

  lemma PrefixAgrees(a: Bytes, b: Bytes, k: int, m: int)
    ensures 0 <= m < k <= |a| && k <= |b| && a[..k] == b[..k] ==> a[m] == b[m]
  {
    if 0 <= m < k <= |a| && k <= |b| && a[..k] == b[..k] {
      assert a[m] == a[..k][m];
    }
  }

  lemma OneFirstLess(a: Bytes, b: Bytes, i: int, j: int)
    requires FirstLess(a, b, i)
    ensures !FirstLess(b, a, j)
  {
    PrefixAgrees(a, b, i, j);
    PrefixAgrees(a, b, j, i);
  }

  lemma AtMostMeansPrecedes(p: OutPoint, q: OutPoint)
    ensures AtMost(p, q) <==> Precedes(p, q)
  {
    if p.txid != q.txid {
      var k := BytesByFirstLess(p.txid, q.txid);
      if !BytesAtMost(p.txid, q.txid) {
        forall j ensures !FirstLess(p.txid, q.txid, j) {
          OneFirstLess(q.txid, p.txid, k, j);
        }
      }
    }
  }

  // -- sorting ---------------------------------------------------------------

  lemma {:induction false} InsertSorts(s: seq<ParticipantInput>, x: ParticipantInput)
    requires Ascending(s)
    ensures Ascending(Insert(s, x))
    ensures multiset(Insert(s, x)) == multiset(s) + multiset{x}
  {
    if s == [] {
    } else if AtMost(s[|s| - 1].outpoint, x.outpoint) {
      forall i | 0 <= i < |s| ensures AtMost(s[i].outpoint, x.outpoint) {
        OutPointOrder(s[i].outpoint, s[|s| - 1].outpoint, x.outpoint);
      }
    } else {
      var init, last := s[..|s| - 1], s[|s| - 1];
      assert s == init + [last];
      InsertSorts(init, x);
      OutPointOrder(last.outpoint, x.outpoint, x.outpoint);
      forall y | y in Insert(init, x) ensures AtMost(y.outpoint, last.outpoint) {
        assert y in multiset(init) + multiset{x};
      }
    }
  }

  // Sorting orders the inputs and neither adds nor loses one.
  lemma {:induction false} SortSorts(s: seq<ParticipantInput>)
    ensures Ascending(Sort(s))
    ensures multiset(Sort(s)) == multiset(s)
    ensures |Sort(s)| == |s|
  {
    if s == [] {
    } else {
      var init, last := s[..|s| - 1], s[|s| - 1];
      SortSorts(init);
      InsertSorts(Sort(init), last);
      assert multiset(s) == multiset(init) + multiset{last} by { assert s == init + [last]; }
      assert |multiset(Sort(s))| == |Sort(s)|;
    }
  }

  // Distinct outpoints stay distinct in any rearrangement.
  lemma DistinctSurvivesRearrangement(a: seq<ParticipantInput>, b: seq<ParticipantInput>)
    requires DistinctOutpoints(a) && multiset(a) == multiset(b)
    ensures DistinctOutpoints(b)
  {
    forall i, j | 0 <= i < j < |b| ensures b[i].outpoint != b[j].outpoint {
      if b[i].outpoint == b[j].outpoint {
        assert b[i] in multiset(a) && b[j] in multiset(a);
        var k :| 0 <= k < |a| && a[k] == b[i];
        var l :| 0 <= l < |a| && a[l] == b[j];
        assert k == l;
        TwoCopies(b, i, j);
        OneCopy(a, k);
      }
    }
  }

  lemma TwoCopies(s: seq<ParticipantInput>, i: nat, j: nat)
    requires i < j < |s| && s[i] == s[j]
    ensures multiset(s)[s[i]] >= 2
  {
    assert s == s[..j] + s[j..];
    assert s[..j][i] in s[..j] && s[j..][0] in s[j..];
  }

  lemma OneCopy(s: seq<ParticipantInput>, k: nat)
    requires k < |s| && DistinctOutpoints(s)
    ensures multiset(s)[s[k]] == 1
  {
    assert s == s[..k] + [s[k]] + s[k + 1..];
    assert s[k] !in s[..k] && s[k] !in s[k + 1..];
  }

  lemma SameFirst(a: seq<ParticipantInput>, b: seq<ParticipantInput>)
    requires a != [] && b != []
    requires Ascending(a) && Ascending(b)
    requires DistinctOutpoints(a)
    requires multiset(a) == multiset(b)
    ensures a[0] == b[0]
  {
    assert a[0] in multiset(b) && b[0] in multiset(a);
    var k :| 0 <= k < |b| && b[k] == a[0];
    var l :| 0 <= l < |a| && a[l] == b[0];
    OutPointOrder(a[0].outpoint, b[0].outpoint, b[0].outpoint);
  }

  // There is only one ascending arrangement of inputs with distinct outpoints.
  lemma {:induction false} AscendingIsUnique(a: seq<ParticipantInput>, b: seq<ParticipantInput>)
    requires Ascending(a) && Ascending(b)
    requires DistinctOutpoints(a)
    requires multiset(a) == multiset(b)
    ensures a == b
    decreases |a|
  {
    assert |multiset(a)| == |a| && |multiset(b)| == |b|;
    if a == [] {
    } else {
      SameFirst(a, b);
      DropFirst(a);
      DropFirst(b);
      AscendingIsUnique(a[1..], b[1..]);
      assert a == [a[0]] + a[1..] && b == [b[0]] + b[1..];
    }
  }

  lemma DropFirst(s: seq<ParticipantInput>)
    requires s != []
    ensures multiset(s[1..]) == multiset(s) - multiset{s[0]}
    ensures Ascending(s) ==> Ascending(s[1..])
    ensures DistinctOutpoints(s) ==> DistinctOutpoints(s[1..])
  {
    assert s == [s[0]] + s[1..];
  }

  // The canonical order does not depend on the order inputs arrive in.
  lemma SortForgetsOrder(a: seq<ParticipantInput>, b: seq<ParticipantInput>)
    requires multiset(a) == multiset(b) && DistinctOutpoints(a)
    ensures Sort(a) == Sort(b)
    ensures StrictlyAscending(Sort(a))
  {
    SortSorts(a);
    SortSorts(b);
    DistinctSurvivesRearrangement(a, Sort(a));
    AscendingIsUnique(Sort(a), Sort(b));
  }

  // -- the sort in place -----------------------------------------------------

  // Moves a[k] down to its place in the sorted prefix a[..k].
  method SinkIntoPlace(a: array<ParticipantInput>, k: nat)
    requires k < a.Length
    modifies a
    ensures a[..k + 1] == Insert(old(a[..k]), old(a[k]))
    ensures a[k + 1..] == old(a[k + 1..])
  {
    ghost var prefix, x := a[..k], a[k];
    if k > 0 && !AtMost(a[k - 1].outpoint, a[k].outpoint) {
      ghost var rest := a[k + 1..];
      a[k - 1], a[k] := a[k], a[k - 1];
      assert a[..k - 1] == prefix[..k - 1];
      assert a[k..] == [prefix[k - 1]] + rest;
      SinkIntoPlace(a, k - 1);
      assert a[..k + 1] == a[..k] + [a[k..][0]];
      assert a[k + 1..] == a[k..][1..];
    } else {
      assert a[..k + 1] == prefix + [x];
    }
  }

  method SortInPlace(a: array<ParticipantInput>)
    modifies a
    ensures a[..] == Sort(old(a[..]))
  {
    ghost var was := a[..];
    var k := 0;
    while k < a.Length
      invariant 0 <= k <= a.Length
      invariant a[..k] == Sort(was[..k])
      invariant a[k..] == was[k..]
    {
      assert a[k] == a[k..][0] == was[k];
      assert was[..k + 1][..k] == was[..k];
      assert a[k + 1..] == a[k..][1..] == was[k + 1..];
      SinkIntoPlace(a, k);
      k := k + 1;
    }
    assert a[..] == a[..k] && was[..k] == was;
  }
}
