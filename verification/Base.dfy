// Values shared by every module: options, results, bytes and outpoints.
module Base {

  datatype Option<+T> = None | Some(value: T)

  datatype Result<+T, +E> = Ok(value: T) | Err(error: E)

  type Byte = b: int | 0 <= b < 0x100

  type U32 = n: int | 0 <= n < 0x1_0000_0000

  type Bytes = seq<Byte>

  type Script = Bytes

  // The elements of one input's witness stack.
  type Witness = seq<Bytes>

  // A transaction id in internal byte order; display order is the reverse.
  type Txid = s: Bytes | |s| == 32 witness seq(32, _ => 0)

  datatype OutPoint = OutPoint(txid: Txid, vout: U32)

  datatype ScriptType = P2wpkh | P2tr | P2shP2wpkh

  // `order` visits every element of `keys` exactly once: one possible
  // iteration of a hash map or hash set.
  ghost predicate Enumerates<T>(order: seq<T>, keys: set<T>) {
    && (forall i :: 0 <= i < |order| ==> order[i] in keys)
    && (forall k :: k in keys ==> k in order)
    && (forall i, j :: 0 <= i < j < |order| ==> order[i] != order[j])
  }

  // Some enumeration of a finite set.
  ghost function SomeOrder<T>(keys: set<T>): (order: seq<T>)
    ensures Enumerates(order, keys)
  {
    if keys == {} then
      []
    else
      var k :| k in keys;
      var rest := SomeOrder(keys - {k});
      assert forall x :: x in keys ==> x == k || x in keys - {k};
      [k] + rest
  }

  // Every enumeration is as long as the set is large.
  lemma {:induction false} EnumerationLength<T>(order: seq<T>, keys: set<T>)
    requires Enumerates(order, keys)
    ensures |order| == |keys|
    decreases |order|
  {
    if order == [] {
      assert keys == {};
    } else {
      var rest := order[1..];
      assert forall k :: k in keys - {order[0]} ==> k in rest by {
        forall k | k in keys - {order[0]} ensures k in rest {
          var i :| 0 <= i < |order| && order[i] == k;
          assert rest[i - 1] == k;
        }
      }
      assert Enumerates(rest, keys - {order[0]});
      EnumerationLength(rest, keys - {order[0]});
    }
  }

  // Two finite sets, one inside the other and equally large, are the same set.
  lemma SubsetOfSameSize<T>(small: set<T>, large: set<T>)
    requires small <= large
    requires |small| == |large|
    ensures small == large
  {
    assert |large - small| + |small * large| == |large|;
    assert small * large == small;
  }

  // A subset is no larger than its superset.
  lemma SubsetSize<T>(small: set<T>, large: set<T>)
    requires small <= large
    ensures |small| <= |large|
  {
    assert small + (large - small) == large;
  }
}
