/** The observable behaviour of the ordered set that holds a keyframe's style
    declarations: a sequence that keeps first-insertion order and never holds
    two equal elements. Only `append` is used by a keyframe, so only `append`
    is modelled. */
module OrderedSets {

  /** No element occurs at two positions: the ordered set's invariant. */
  ghost predicate NoDuplicates<T>(s: seq<T>) {
    forall i, j :: 0 <= i < j < |s| ==> s[i] != s[j]
  }

  /** `s` is an initial segment of `t`: nothing of `s` was removed or moved. */
  ghost predicate IsPrefix<T>(s: seq<T>, t: seq<T>) {
    |s| <= |t| && t[..|s|] == s
  }

  /** Appending to an ordered set: when an equal element is already present
      nothing changes (it keeps its original place); otherwise `x` becomes the
      last element. */
  function Append<T(==)>(s: seq<T>, x: T): (r: seq<T>)
    ensures IsPrefix(s, r) && |r| <= |s| + 1
    ensures x in r
    ensures r == s <==> x in s
    ensures forall k :: 0 <= k < |r| ==> r[k] in s || r[k] == x
    ensures NoDuplicates(s) ==> NoDuplicates(r)
  {
    if x in s then s else s + [x]
  }

  /** The position of the first occurrence of `x` in `s`. */
  function IndexOf<T(==)>(s: seq<T>, x: T): (i: nat)
    requires x in s
    ensures i < |s| && s[i] == x
    ensures forall j :: 0 <= j < i ==> s[j] != x
  {
    if s[0] == x then 0 else 1 + IndexOf(s[1..], x)
  }

  /** On a duplicate-free sequence the position of an element is the only one
      that holds it. */
  lemma {:induction false} IndexOfUnique<T>(s: seq<T>, x: T, k: nat)
    requires NoDuplicates(s)
    requires k < |s| && s[k] == x
    ensures IndexOf(s, x) == k
  {
    var i := IndexOf(s, x);
    assert s[i] == s[k];
  }

  /** Appending is characterised without reference to its code: on an ordered
      set, `r` is the result of appending `x` exactly when `r` is again an
      ordered set, keeps the old one as its prefix, holds `x`, and holds
      nothing that is neither `x` nor an old element. */
  lemma {:induction false} AppendCharacterized<T>(s: seq<T>, x: T, r: seq<T>)
    requires NoDuplicates(s)
    ensures r == Append(s, x) <==>
              && NoDuplicates(r)
              && IsPrefix(s, r)
              && x in r
              && forall k :: 0 <= k < |r| ==> r[k] in s || r[k] == x
  {
    if && NoDuplicates(r)
       && IsPrefix(s, r)
       && x in r
       && forall k :: 0 <= k < |r| ==> r[k] in s || r[k] == x
    {
      // Past the prefix every position holds `x`: an old element there would
      // be a second copy of something in the prefix.
      forall k | |s| <= k < |r|
        ensures r[k] == x
      {
        forall i | 0 <= i < |s|
          ensures s[i] != r[k]
        {
          assert r[i] == s[i];
        }
      }
      assert |r| > |s| ==> r[|s|] == x;
      if x in s {
        // `x` already sits in the prefix, so no position past it is left.
        var i :| 0 <= i < |s| && s[i] == x;
        assert r[i] == x;
        assert |r| == |s|;
        assert r == r[..|s|];
      } else {
        // `x` sits past the prefix, and only once: it is the one new element.
        var j := IndexOf(r, x);
        assert |s| <= j;
        IndexOfUnique(r, x, |s|);
        IndexOfUnique(r, x, |r| - 1);
        assert r == r[..|s|] + [r[|s|]];
      }
    }
  }

  /** A second append of the same element changes nothing. */
  lemma AppendIdempotent<T>(s: seq<T>, x: T)
    ensures Append(Append(s, x), x) == Append(s, x)
  {
  }

  /** Two fresh, distinct elements appended one after the other become the
      last two elements, in the order they were appended. */
  lemma AppendPairFresh<T>(s: seq<T>, x: T, y: T)
    requires x !in s && y !in s && x != y
    ensures Append(Append(s, x), y) == s + [x, y]
  {
    assert s + [x] + [y] == s + [x, y];
  }

  /** Repeating a pair of appends changes nothing. */
  lemma AppendPairIdempotent<T>(s: seq<T>, x: T, y: T)
    ensures Append(Append(Append(Append(s, x), y), x), y) == Append(Append(s, x), y)
  {
  }
}
