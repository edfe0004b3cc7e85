/** The sorted string map of internal/sortedmap: a map from keys to values plus
    a list of the keys that every Put keeps in ascending order. */
module SortedMap {
  import opened GoStrings

  ghost predicate Sorted(keys: seq<string>)
  {
    forall i, j :: 0 <= i < j < |keys| ==> LessEq(keys[i], keys[j])
  }

  /** The index sort.Search finds for the predicate "keys[i] >= k": the first
      index whose key is not smaller than k, or |keys| when there is none. */
  ghost function InsertionPoint(keys: seq<string>, k: string): (i: nat)
    ensures i <= |keys|
  {
    if keys == [] || LessEq(k, keys[0]) then 0 else 1 + InsertionPoint(keys[1..], k)
  }

  /** keys with k inserted at its insertion point. */
  ghost function Insert(keys: seq<string>, k: string): seq<string>
  {
    var i := InsertionPoint(keys, k);
    keys[..i] + [k] + keys[i..]
  }

  lemma {:induction false} InsertionPointBounds(keys: seq<string>, k: string)
    requires Sorted(keys)
    ensures forall j :: 0 <= j < InsertionPoint(keys, k) ==> !LessEq(k, keys[j])
    ensures forall j :: InsertionPoint(keys, k) <= j < |keys| ==> LessEq(k, keys[j])
  {
    if keys != [] {
      if LessEq(k, keys[0]) {
        forall j | 0 <= j < |keys| ensures LessEq(k, keys[j]) {
          if j > 0 { LessEqTransitive(k, keys[0], keys[j]); }
        }
      } else {
        assert Sorted(keys[1..]);
        InsertionPointBounds(keys[1..], k);
        forall j | 1 <= j < |keys| ensures keys[1..][j - 1] == keys[j] { }
      }
    }
  }

  /** Elements of keys[..i] + [k] + keys[i..]: the keys before i are kept and
      the rest are shifted right by one. */
  lemma InsertAt(keys: seq<string>, k: string, i: nat)
    requires i <= |keys|
    ensures var r := keys[..i] + [k] + keys[i..];
      |r| == |keys| + 1 && r[i] == k
      && (forall j :: 0 <= j < i ==> r[j] == keys[j])
      && (forall j :: i < j < |r| ==> r[j] == keys[j - 1])
      && multiset(r) == multiset(keys) + multiset{k}
  {
    assert keys == keys[..i] + keys[i..];
  }

  /** Inserting at the insertion point keeps the key list sorted, lengthens it
      by exactly one (a key already present is listed again), keeps the keys
      before the insertion point and shifts the rest right by one. */
  lemma InsertKeepsSorted(keys: seq<string>, k: string)
    requires Sorted(keys)
    ensures Sorted(Insert(keys, k))
    ensures |Insert(keys, k)| == |keys| + 1
    ensures multiset(Insert(keys, k)) == multiset(keys) + multiset{k}
    ensures var i := InsertionPoint(keys, k);
      Insert(keys, k)[i] == k
      && (forall j :: 0 <= j < i ==> Insert(keys, k)[j] == keys[j])
      && (forall j :: i < j < |keys| + 1 ==> Insert(keys, k)[j] == keys[j - 1])
  {
    var i := InsertionPoint(keys, k);
    var r := keys[..i] + [k] + keys[i..];
    assert r == Insert(keys, k);
    InsertionPointBounds(keys, k);
    InsertAt(keys, k, i);
    forall a, b | 0 <= a < b < |r| ensures LessEq(r[a], r[b]) {
      SortedPair(keys, k, i, r, a, b);
    }
  }

  lemma SortedPair(keys: seq<string>, k: string, i: nat, r: seq<string>, a: nat, b: nat)
    requires Sorted(keys) && i <= |keys|
    requires forall j :: 0 <= j < i ==> !LessEq(k, keys[j])
    requires forall j :: i <= j < |keys| ==> LessEq(k, keys[j])
    requires |r| == |keys| + 1 && r[i] == k
    requires forall j :: 0 <= j < i ==> r[j] == keys[j]
    requires forall j :: i < j < |r| ==> r[j] == keys[j - 1]
    requires a < b < |r|
    ensures LessEq(r[a], r[b])
  {
    if b == i {
      LessEqTotal(k, keys[a]);
    } else if a < i && b < i {
      assert r[a] == keys[a] && r[b] == keys[b];
    } else if a < i {
      assert r[a] == keys[a] && r[b] == keys[b - 1];
    } else if a == i {
      assert r[b] == keys[b - 1];
    } else {
      assert r[a] == keys[a - 1] && r[b] == keys[b - 1];
    }
  }

  class SortedMap {
    var data: map<string, string>
    var keys: seq<string>

    /** The key list is sorted and lists exactly the keys of data. */
    ghost predicate Valid()
      reads this
    {
      Sorted(keys) && forall k :: k in data <==> k in keys
    }

    /** New: an empty map with an empty key list. */
    constructor ()
      ensures Valid() && data == map[] && keys == []
    {
      data := map[];
      keys := [];
    }

    /** sort.Search over the key list for the predicate keys[i] >= k. */
    method Search(k: string) returns (i: nat)
      requires Valid()
      ensures i == InsertionPoint(keys, k)
      ensures forall j :: 0 <= j < i ==> !LessEq(k, keys[j])
      ensures forall j :: i <= j < |keys| ==> LessEq(k, keys[j])
    {
      InsertionPointBounds(keys, k);
      var lo, hi := 0, |keys|;
      while lo < hi
        invariant 0 <= lo <= hi <= |keys|
        invariant forall j :: 0 <= j < lo ==> !LessEq(k, keys[j])
        invariant forall j :: hi <= j < |keys| ==> LessEq(k, keys[j])
      {
        var h := (lo + hi) / 2;
        if !LessEq(k, keys[h]) {
          forall j | 0 <= j <= h ensures !LessEq(k, keys[j]) {
            if j < h { NotAbove(k, keys[j], keys[h]); }
          }
          lo := h + 1;
        } else {
          forall j | h <= j < |keys| ensures LessEq(k, keys[j]) {
            if j > h { LessEqTransitive(k, keys[h], keys[j]); }
          }
          hi := h;
        }
      }
      InsertionPointUnique(keys, k, lo);
      i := lo;
    }

    /** Put stores v under k and inserts k into the key list at the first
        index whose key is >= k, shifting the rest right by one. */
    method Put(k: string, v: string)
      requires Valid()
      modifies this
      ensures Valid()
      ensures data == old(data)[k := v]
      ensures keys == Insert(old(keys), k)
    {
      var i := Search(k);
      data := data[k := v];
      InsertKeepsSorted(keys, k);
      InsertAt(keys, k, i);
      keys := keys[..i] + [k] + keys[i..];
      assert forall x :: x in keys <==> x in old(keys) || x == k by {
        assert forall x :: x in keys <==> x in multiset(keys);
        assert forall x :: x in old(keys) <==> x in multiset(old(keys));
      }
    }

    /** Get returns the value last stored under k, and "" for a key that was
        never put. */
    function Get(k: string): (v: string)
      reads this
      requires Valid()
      ensures k in data ==> v == data[k]
      ensures k !in keys ==> v == ""
    {
      if k in data then data[k] else ""
    }

    /** Keys returns the sorted key list. */
    function Keys(): (ks: seq<string>)
      reads this
      requires Valid()
      ensures Sorted(ks)
      ensures forall k :: k in ks <==> k in data
    {
      keys
    }
  }

  lemma NotAbove(k: string, x: string, y: string)
    requires LessEq(x, y) && !LessEq(k, y)
    ensures !LessEq(k, x)
  {
    if LessEq(k, x) { LessEqTransitive(k, x, y); }
  }

  lemma {:induction false} InsertionPointUnique(keys: seq<string>, k: string, i: nat)
    requires i <= |keys|
    requires forall j :: 0 <= j < i ==> !LessEq(k, keys[j])
    requires forall j :: i <= j < |keys| ==> LessEq(k, keys[j])
    ensures InsertionPoint(keys, k) == i
  {
    if keys != [] && i > 0 {
      InsertionPointUnique(keys[1..], k, i - 1);
    }
  }
}
