/** Order-preserving filtering and concatenation of sequences. */
module Sequences {

  /** The elements of `s` that satisfy `keep`, in their original order, duplicates kept. */
  function Filter<T>(s: seq<T>, keep: T -> bool): (r: seq<T>)
    ensures |r| <= |s|
    ensures forall x :: x in r ==> x in s && keep(x)
    decreases |s|
  {
    if s == [] then []
    else Filter(s[..|s| - 1], keep) + (if keep(s[|s| - 1]) then [s[|s| - 1]] else [])
  }

  /** The positions of `s` whose elements satisfy `keep`, in increasing order. */
  function KeptPositions<T>(s: seq<T>, keep: T -> bool): (r: seq<nat>)
    decreases |s|
  {
    if s == [] then []
    else KeptPositions(s[..|s| - 1], keep) + (if keep(s[|s| - 1]) then [|s| - 1] else [])
  }

  /** `r` is the subsequence of `s` taken at the strictly increasing positions `idx`. */
  ghost predicate SubsequenceAt<T>(r: seq<T>, s: seq<T>, idx: seq<nat>)
  {
    && |idx| == |r|
    && (forall k :: 0 <= k < |idx| ==> idx[k] < |s| && r[k] == s[idx[k]])
    && (forall k, l :: 0 <= k < l < |idx| ==> idx[k] < idx[l])
  }

  /** One kept position per kept element, each within `s`, strictly increasing. */
  lemma {:induction false} KeptPositionsShape<T>(s: seq<T>, keep: T -> bool)
    ensures |KeptPositions(s, keep)| == |Filter(s, keep)|
    ensures forall k :: 0 <= k < |KeptPositions(s, keep)| ==> KeptPositions(s, keep)[k] < |s|
    ensures forall k, l :: 0 <= k < l < |KeptPositions(s, keep)| ==>
      KeptPositions(s, keep)[k] < KeptPositions(s, keep)[l]
    decreases |s|
  {
    if s != [] {
      KeptPositionsShape(s[..|s| - 1], keep);
    }
  }

  /** The k-th kept element is the element at the k-th kept position. */
  lemma {:induction false} KeptPositionsPick<T>(s: seq<T>, keep: T -> bool)
    ensures |KeptPositions(s, keep)| == |Filter(s, keep)|
    ensures forall k :: 0 <= k < |Filter(s, keep)| ==>
      KeptPositions(s, keep)[k] < |s| && Filter(s, keep)[k] == s[KeptPositions(s, keep)[k]]
    decreases |s|
  {
    KeptPositionsShape(s, keep);
    if s != [] {
      var n := |s| - 1;
      var init := s[..n];
      KeptPositionsPick(init, keep);
      KeptPositionsShape(init, keep);
      var f, idx := Filter(init, keep), KeptPositions(init, keep);
      assert forall k :: 0 <= k < |f| ==> f[k] == s[idx[k]];
    }
  }

  /** A position is kept exactly when its element satisfies `keep`. */
  lemma {:induction false} KeptPositionsExact<T>(s: seq<T>, keep: T -> bool)
    ensures forall i :: 0 <= i < |s| ==> (i in KeptPositions(s, keep) <==> keep(s[i]))
    decreases |s|
  {
    if s != [] {
      var n := |s| - 1;
      var init := s[..n];
      KeptPositionsExact(init, keep);
      KeptPositionsShape(init, keep);
      var idx := KeptPositions(init, keep);
      var last := if keep(s[n]) then [n] else [];
      assert KeptPositions(s, keep) == idx + last;
      assert n !in idx;
      forall i | 0 <= i < |s| ensures i in idx + last <==> keep(s[i]) {
        if i < n {
          assert init[i] == s[i];
          assert i in idx + last <==> i in idx;
        }
      }
    }
  }

  /**
   * Filter(s, keep) is the subsequence of `s` at exactly the positions whose
   * element satisfies `keep`.
   */
  lemma FilterIsSubsequence<T>(s: seq<T>, keep: T -> bool)
    ensures SubsequenceAt(Filter(s, keep), s, KeptPositions(s, keep))
    ensures forall i :: 0 <= i < |s| ==> (i in KeptPositions(s, keep) <==> keep(s[i]))
  {
    KeptPositionsShape(s, keep);
    KeptPositionsPick(s, keep);
    KeptPositionsExact(s, keep);
  }

  /** An element is kept exactly when it occurs in the input and satisfies `keep`. */
  lemma {:induction false} FilterMembership<T>(s: seq<T>, keep: T -> bool, x: T)
    ensures x in Filter(s, keep) <==> x in s && keep(x)
    decreases |s|
  {
    if s != [] {
      var n := |s| - 1;
      FilterMembership(s[..n], keep, x);
      assert s == s[..n] + [s[n]];
    }
  }

  /** Filtering keeps every copy of a kept element and no copy of a dropped one. */
  lemma {:induction false} FilterMultiplicity<T>(s: seq<T>, keep: T -> bool, x: T)
    ensures multiset(Filter(s, keep))[x] == if keep(x) then multiset(s)[x] else 0
    decreases |s|
  {
    if s != [] {
      var n := |s| - 1;
      FilterMultiplicity(s[..n], keep, x);
      assert s == s[..n] + [s[n]];
    }
  }

  /** When every element passes, filtering returns its input. */
  lemma {:induction false} FilterAllKept<T>(s: seq<T>, keep: T -> bool)
    requires forall i :: 0 <= i < |s| ==> keep(s[i])
    ensures Filter(s, keep) == s
    decreases |s|
  {
    if s != [] {
      var n := |s| - 1;
      FilterAllKept(s[..n], keep);
      assert s == s[..n] + [s[n]];
    }
  }

  /** The concatenation of `ss` in order. */
  function Flatten<T>(ss: seq<seq<T>>): (r: seq<T>)
    ensures ss != [] ==> |ss[0]| <= |r| && r[..|ss[0]|] == ss[0]
    decreases |ss|
  {
    if ss == [] then [] else Flatten(ss[..|ss| - 1]) + ss[|ss| - 1]
  }

  /** Concatenating two runs of parts concatenates their concatenations, in order. */
  lemma {:induction false} FlattenAppend<T>(a: seq<seq<T>>, b: seq<seq<T>>)
    ensures Flatten(a + b) == Flatten(a) + Flatten(b)
    decreases |b|
  {
    if b == [] {
      assert a + b == a;
    } else {
      var n := |b| - 1;
      assert (a + b)[..|a + b| - 1] == a + b[..n];
      FlattenAppend(a, b[..n]);
    }
  }

  /** The concatenation of one part is that part. */
  lemma FlattenSingle<T>(x: seq<T>)
    ensures Flatten([x]) == x
  {
    assert [x][..0] == [];
  }

  /** The concatenation is empty exactly when every part is. */
  lemma {:induction false} FlattenEmpty<T>(ss: seq<seq<T>>)
    ensures Flatten(ss) == [] <==> forall i :: 0 <= i < |ss| ==> ss[i] == []
    decreases |ss|
  {
    if ss != [] {
      var n := |ss| - 1;
      var init := ss[..n];
      FlattenEmpty(init);
      assert Flatten(ss) == Flatten(init) + ss[n];
      assert Flatten(ss) == [] <==> Flatten(init) == [] && ss[n] == [];
      assert forall i :: 0 <= i < n ==> init[i] == ss[i];
    }
  }

  /** An element occurs in the concatenation exactly when it occurs in one of the parts. */
  lemma {:induction false} FlattenMembership<T>(ss: seq<seq<T>>, x: T)
    ensures x in Flatten(ss) <==> exists i :: 0 <= i < |ss| && x in ss[i]
    decreases |ss|
  {
    if ss != [] {
      var n := |ss| - 1;
      FlattenMembership(ss[..n], x);
      assert forall i :: 0 <= i < n ==> ss[..n][i] == ss[i];
    }
  }
}
