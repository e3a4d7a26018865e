/*
 * Width-independent facts about the bit sequence a bit set yields when it is
 * iterated bit 0 first (`bits()`, `into_iter()`): how many entries hold a given
 * value, and the ascending positions of those entries (`ones()` /
 * `set_indeces()` for `true`, `zeros()` / `unset_indeces()` for `false`).
 */
module BitSeq {

  /** Number of entries of `s` equal to `v`. */
  function Count(s: seq<bool>, v: bool): (n: nat)
    ensures n <= |s|
    decreases |s|
  {
    if s == [] then 0 else Count(s[..|s| - 1], v) + (if s[|s| - 1] == v then 1 else 0)
  }

  /** Every entry is either set or unset. */
  lemma {:induction false} CountBoth(s: seq<bool>)
    ensures Count(s, true) + Count(s, false) == |s|
    decreases |s|
  {
    if s != [] {
      CountBoth(s[..|s| - 1]);
    }
  }

  /** Strictly increasing. */
  predicate Ascending(p: seq<nat>) {
    forall a, b :: 0 <= a < b < |p| ==> p[a] < p[b]
  }

  /** The positions of the entries of `s` equal to `v`, lowest first. */
  function Positions(s: seq<bool>, v: bool): (p: seq<nat>)
    ensures Ascending(p)
    ensures forall k: nat :: k in p <==> k < |s| && s[k] == v
    ensures forall a :: 0 <= a < |p| ==> p[a] < |s|
    ensures |p| == Count(s, v)
    decreases |s|
  {
    if s == [] then []
    else
      var front := Positions(s[..|s| - 1], v);
      if s[|s| - 1] == v then front + [|s| - 1] else front
  }

  /** Dropping the last entry of an ascending sequence drops exactly its largest number. */
  lemma DropLast(p: seq<nat>)
    requires Ascending(p) && p != []
    ensures Ascending(p[..|p| - 1])
    ensures forall k :: k in p ==> k <= p[|p| - 1]
    ensures forall k :: k in p[..|p| - 1] <==> k in p && k < p[|p| - 1]
  {
    var m := |p| - 1;
    forall k | k in p
      ensures k <= p[m]
    {
      var i :| 0 <= i < |p| && p[i] == k;
    }
    forall k | k in p && k < p[m]
      ensures k in p[..m]
    {
      var i :| 0 <= i < |p| && p[i] == k;
      assert p[..m][i] == k;
    }
  }

  /** An ascending sequence is determined by the numbers it holds. */
  lemma {:induction false} AscendingUnique(p: seq<nat>, q: seq<nat>)
    requires Ascending(p) && Ascending(q)
    requires forall k :: k in p <==> k in q
    ensures p == q
    decreases |p|
  {
    if p != [] {
      assert p[0] in q;
    }
    if q != [] {
      assert q[0] in p;
    }
    if p != [] && q != [] {
      var m, n := |p| - 1, |q| - 1;
      DropLast(p);
      DropLast(q);
      // the last entry of each is the largest number of both
      assert p[m] in q && q[n] in p;
      assert p[m] == q[n];
      forall k
        ensures k in p[..m] <==> k in q[..n]
      {
        assert k in p <==> k in q;
      }
      AscendingUnique(p[..m], q[..n]);
      assert p == p[..m] + [p[m]];
      assert q == q[..n] + [q[n]];
    }
  }

  /** Positions are listed without repetition, in ascending order: they are fully
   *  described by which numbers they hold. */
  lemma PositionsExactly(s: seq<bool>, v: bool, p: seq<nat>)
    requires Ascending(p)
    requires forall k: nat :: k in p <==> k < |s| && s[k] == v
    ensures Positions(s, v) == p
    ensures Count(s, v) == |p|
  {
    AscendingUnique(Positions(s, v), p);
  }

  /** The numbers `lo`, `lo + 1`, ..., `hi - 1`. */
  function Range(lo: nat, hi: nat): (r: seq<nat>)
    requires lo <= hi
    ensures |r| == hi - lo
    ensures forall i :: 0 <= i < |r| ==> r[i] == lo + i
    ensures Ascending(r)
    ensures forall k: nat :: k in r <==> lo <= k < hi
  {
    var r := seq(hi - lo, i requires 0 <= i => lo + i);
    forall k: nat | lo <= k < hi
      ensures k in r
    {
      assert r[k - lo] == k;
    }
    r
  }

  /** Ascending numbers all below `lo`, followed by `lo` to `hi - 1`, are still
   *  ascending, and hold exactly the numbers of both parts. */
  lemma AppendRange(q: seq<nat>, lo: nat, hi: nat)
    requires lo <= hi && Ascending(q)
    requires forall a :: 0 <= a < |q| ==> q[a] < lo
    ensures Ascending(q + Range(lo, hi))
    ensures forall k: nat :: k in q + Range(lo, hi) <==> k in q || lo <= k < hi
  {
    var p := q + Range(lo, hi);
    forall a, b | 0 <= a < b < |p|
      ensures p[a] < p[b]
    {
      if b >= |q| {
        assert p[b] == lo + (b - |q|);
        if a >= |q| {
          assert p[a] == lo + (a - |q|);
        }
      }
    }
    forall k: nat
      ensures k in p <==> k in q || lo <= k < hi
    {
      assert k in p <==> k in q || k in Range(lo, hi);
    }
  }
}
