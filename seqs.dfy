/** `Array.prototype.filter` on sequences, with the facts the stores rely on:
    membership is exactly "in the input and kept", and order is preserved. */
module Seqs {

  function Filter<T>(s: seq<T>, keep: T -> bool): (r: seq<T>)
    ensures |r| <= |s|
    ensures forall i :: 0 <= i < |r| ==> r[i] in s && keep(r[i])
    ensures forall i :: 0 <= i < |s| && keep(s[i]) ==> s[i] in r
  {
    if s == [] then [] else (if keep(s[0]) then [s[0]] else []) + Filter(s[1..], keep)
  }

  /** An element survives filtering exactly when it was there and is kept. */
  lemma FilterMembers<T>(s: seq<T>, keep: T -> bool)
    ensures forall x :: x in Filter(s, keep) <==> x in s && keep(x)
  {
    var r := Filter(s, keep);
    assert forall x :: x in s ==> exists i :: 0 <= i < |s| && s[i] == x;
    assert forall x :: x in r ==> exists i :: 0 <= i < |r| && r[i] == x;
  }

  /** Filtering a concatenation filters each part: the kept elements stay in
      their original relative order. */
  lemma {:induction false} FilterConcat<T>(s: seq<T>, t: seq<T>, keep: T -> bool)
    ensures Filter(s + t, keep) == Filter(s, keep) + Filter(t, keep)
  {
    if s == [] {
      assert s + t == t;
    } else {
      assert (s + t)[0] == s[0];
      assert (s + t)[1..] == s[1..] + t;
      FilterConcat(s[1..], t, keep);
    }
  }

  /** When every element is kept, nothing changes. */
  lemma {:induction false} FilterKeepsAll<T>(s: seq<T>, keep: T -> bool)
    requires forall i :: 0 <= i < |s| ==> keep(s[i])
    ensures Filter(s, keep) == s
  {
    if s != [] {
      FilterKeepsAll(s[1..], keep);
    }
  }

  /** The first element of a filter is the first element that is kept. */
  lemma {:induction false} FilterFirst<T>(s: seq<T>, keep: T -> bool, k: int)
    requires 0 <= k < |s| && keep(s[k])
    requires forall j :: 0 <= j < k ==> !keep(s[j])
    ensures Filter(s, keep) != [] && Filter(s, keep)[0] == s[k]
  {
    if k > 0 {
      FilterFirst(s[1..], keep, k - 1);
    }
  }

  /** A non-empty filter starts with the first element that is kept. */
  lemma FilterStartsAtFirstKept<T>(s: seq<T>, keep: T -> bool) returns (k: int)
    requires Filter(s, keep) != []
    ensures 0 <= k < |s| && keep(s[k]) && Filter(s, keep)[0] == s[k]
    ensures forall j :: 0 <= j < k ==> !keep(s[j])
  {
    k := 0;
    while !keep(s[k])
      invariant 0 <= k < |s| && Filter(s[k..], keep) == Filter(s, keep)
      invariant forall j :: 0 <= j < k ==> !keep(s[j])
      decreases |s| - k
    {
      assert s[k..][1..] == s[k + 1..];
      k := k + 1;
    }
    FilterFirst(s, keep, k);
  }

  /** The element at the end of a sequence is kept at the end of its filter. */
  lemma FilterSnoc<T>(s: seq<T>, x: T, keep: T -> bool)
    ensures Filter(s + [x], keep) == Filter(s, keep) + (if keep(x) then [x] else [])
  {
    FilterConcat(s, [x], keep);
  }
}
