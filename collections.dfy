/** The two array primitives the store builds on: `findIndex` by a key and
    `filter` that drops every element with a key. */
module Collections {
  import opened Records

  /** No element before position `j` has the key of `s[j]`. */
  ghost predicate IsFirst<T, K>(s: seq<T>, key: T -> K, j: int)
    requires 0 <= j < |s|
  {
    forall i :: 0 <= i < j ==> key(s[i]) != key(s[j])
  }

  /** `s.findIndex(x => key(x) === k)`, with `None` for -1. */
  function IndexOf<T, K(==)>(s: seq<T>, key: T -> K, k: K): (r: Option<nat>)
    ensures r.Some? ==> r.value < |s| && key(s[r.value]) == k && IsFirst(s, key, r.value)
    ensures r.None? ==> forall j :: 0 <= j < |s| ==> key(s[j]) != k
  {
    if |s| == 0 then None
    else if key(s[0]) == k then Some(0)
    else
      match IndexOf(s[1..], key, k)
      case None => None
      case Some(i) => Some(i + 1)
  }

  /** The lookup finds position `j` exactly when `j` is the first position
      holding its key. */
  lemma IndexOfFindsFirst<T, K>(s: seq<T>, key: T -> K, j: int)
    requires 0 <= j < |s|
    ensures IndexOf(s, key, key(s[j])) == Some(j) <==> IsFirst(s, key, j)
  {
  }

  /** Lookups only look at the keys: a sequence with the same keys at the
      same positions answers every lookup the same way. */
  lemma IndexOfSameKeys<T, U, K>(s: seq<T>, ks: T -> K, t: seq<U>, kt: U -> K, k: K)
    requires |s| == |t|
    requires forall j :: 0 <= j < |s| ==> ks(s[j]) == kt(t[j])
    ensures IndexOf(s, ks, k) == IndexOf(t, kt, k)
  {
  }

  /** Every position moved one place on. */
  function Shifted(ps: seq<nat>): (qs: seq<nat>)
    ensures |qs| == |ps| && forall i :: 0 <= i < |ps| ==> qs[i] == ps[i] + 1
  {
    seq(|ps|, i requires 0 <= i < |ps| => ps[i] + 1)
  }

  /** The positions `s.filter(x => key(x) !== k)` keeps. */
  function KeptPositions<T, K(==)>(s: seq<T>, key: T -> K, k: K): seq<nat>
    decreases |s|
  {
    if |s| == 0 then []
    else
      var rest := Shifted(KeptPositions(s[1..], key, k));
      if key(s[0]) != k then [0] + rest else rest
  }

  /** Every kept position is in range and holds another key. */
  lemma {:induction false} KeptPositionsSound<T, K>(s: seq<T>, key: T -> K, k: K)
    ensures forall i :: 0 <= i < |KeptPositions(s, key, k)| ==>
      KeptPositions(s, key, k)[i] < |s| && key(s[KeptPositions(s, key, k)[i]]) != k
    decreases |s|
  {
    if |s| > 0 {
      KeptPositionsSound(s[1..], key, k);
    }
  }

  /** The kept positions strictly increase. */
  lemma {:induction false} KeptPositionsIncrease<T, K>(s: seq<T>, key: T -> K, k: K)
    ensures forall i, j :: 0 <= i < j < |KeptPositions(s, key, k)| ==>
      KeptPositions(s, key, k)[i] < KeptPositions(s, key, k)[j]
    decreases |s|
  {
    if |s| > 0 {
      KeptPositionsIncrease(s[1..], key, k);
    }
  }

  /** Every position holding another key is kept. */
  lemma {:induction false} KeptPositionsComplete<T, K>(s: seq<T>, key: T -> K, k: K)
    ensures forall j :: 0 <= j < |s| && key(s[j]) != k ==> j in KeptPositions(s, key, k)
    decreases |s|
  {
    if |s| > 0 {
      KeptPositionsComplete(s[1..], key, k);
      var ps1 := KeptPositions(s[1..], key, k);
      var sh := Shifted(ps1);
      assert KeptPositions(s, key, k) == if key(s[0]) != k then [0] + sh else sh;
      forall j | 1 <= j < |s| && key(s[j]) != k
        ensures j in sh
      {
        assert key(s[1..][j - 1]) != k;
        var i :| 0 <= i < |ps1| && ps1[i] == j - 1;
        assert sh[i] == j;
      }
    }
  }

  /** `s.filter(x => key(x) !== k)`: only elements with another key, every
      one of them, and the length kept exactly when nothing had the key. */
  function RemoveAll<T(==), K(==)>(s: seq<T>, key: T -> K, k: K): (r: seq<T>)
    ensures |r| <= |s|
    ensures forall j :: 0 <= j < |r| ==> r[j] in s && key(r[j]) != k
    ensures forall j :: 0 <= j < |s| && key(s[j]) != k ==> s[j] in r
    ensures |r| == |s| <==> forall j :: 0 <= j < |s| ==> key(s[j]) != k
    ensures |r| == |s| ==> r == s
  {
    if |s| == 0 then []
    else if key(s[0]) == k then RemoveAll(s[1..], key, k)
    else [s[0]] + RemoveAll(s[1..], key, k)
  }

  /** The kept elements are those at the kept positions, in their order, so
      `filter` neither reorders nor merges duplicates. */
  lemma {:induction false} RemoveAllInOrder<T, K>(s: seq<T>, key: T -> K, k: K)
    ensures var r, ps := RemoveAll(s, key, k), KeptPositions(s, key, k);
      |r| == |ps| && forall i :: 0 <= i < |r| ==> ps[i] < |s| && r[i] == s[ps[i]]
    decreases |s|
  {
    if |s| > 0 {
      var t := s[1..];
      RemoveAllInOrder(t, key, k);
      var r1, ps1 := RemoveAll(t, key, k), KeptPositions(t, key, k);
      var sh := Shifted(ps1);
      assert forall i :: 0 <= i < |r1| ==> sh[i] < |s| && r1[i] == s[sh[i]];
      if key(s[0]) == k {
        assert RemoveAll(s, key, k) == r1 && KeptPositions(s, key, k) == sh;
      } else {
        var r, ps := [s[0]] + r1, [0] + sh;
        assert RemoveAll(s, key, k) == r && KeptPositions(s, key, k) == ps;
        forall i | 0 <= i < |r|
          ensures ps[i] < |s| && r[i] == s[ps[i]]
        {
          if i > 0 {
            assert r[i] == r1[i - 1] && ps[i] == sh[i - 1];
          }
        }
      }
    }
  }

  /** Filtering drops every copy of an element with the key and keeps every
      copy of any other element. */
  lemma {:induction false} RemoveAllCount<T, K>(s: seq<T>, key: T -> K, k: K, x: T)
    ensures multiset(RemoveAll(s, key, k))[x] == if key(x) == k then 0 else multiset(s)[x]
    decreases |s|
  {
    if |s| > 0 {
      assert s == [s[0]] + s[1..];
      RemoveAllCount(s[1..], key, k, x);
    }
  }
}
