/** Counting, de-duplication and last-occurrence lookup over sequences. */
module Seqs {

  predicate Distinct<T(==)>(s: seq<T>) {
    forall i, j :: 0 <= i < j < |s| ==> s[i] != s[j]
  }

  /** Number of occurrences of `v` in `xs` (Python `xs.count(v)`, or `Counter(xs)[v]`). */
  function Count<T(==)>(xs: seq<T>, v: T): (n: nat)
    ensures n <= |xs|
    ensures n > 0 <==> v in xs
  {
    if xs == [] then 0
    else Count(xs[..|xs| - 1], v) + (if xs[|xs| - 1] == v then 1 else 0)
  }

  /** `Count` is the multiplicity of the multiset of `xs`. */
  lemma {:induction false} CountIsMultiplicity<T>(xs: seq<T>, v: T)
    ensures Count(xs, v) == multiset(xs)[v]
  {
    if xs != [] {
      var p := xs[..|xs| - 1];
      assert xs == p + [xs[|xs| - 1]];
      CountIsMultiplicity(p, v);
    }
  }

  /**
   * The distinct elements of `xs` in order of first occurrence: the key order
   * of a Python dict, or of a `Counter`, filled from `xs` left to right.
   */
  function Dedup<T(==)>(xs: seq<T>): (d: seq<T>)
    ensures forall i :: 0 <= i < |d| ==> d[i] in xs
    ensures forall i :: 0 <= i < |xs| ==> xs[i] in d
    ensures Distinct(d)
    ensures |d| <= |xs|
  {
    if xs == [] then []
    else
      var p := Dedup(xs[..|xs| - 1]);
      if xs[|xs| - 1] in p then p else p + [xs[|xs| - 1]]
  }

  /**
   * `Dedup` keeps first-occurrence order: if position `j` of `Dedup(xs)` holds
   * `xs[i]`, every earlier-or-equal position `k` holds a value already seen
   * in `xs[..i+1]`.
   */
  lemma {:induction false} DedupFirstSeen<T>(xs: seq<T>, k: nat, j: nat, i: nat)
    requires k <= j < |Dedup(xs)| && i < |xs| && xs[i] == Dedup(xs)[j]
    ensures Dedup(xs)[k] in xs[..i + 1]
  {
    var d := Dedup(xs);
    var p := xs[..|xs| - 1];
    var dp := Dedup(p);
    assert d[k] in xs;
    if i == |xs| - 1 {
      assert xs[..i + 1] == xs;
    } else {
      assert xs[i] == p[i];
      if j < |dp| {
        assert d[j] == dp[j] && d[k] == dp[k];
        DedupFirstSeen(p, k, j, i);
        assert p[..i + 1] == xs[..i + 1];
      } else {
        // position j would be the appended last element, which does not occur
        // in p, yet xs[i] == p[i] does
        assert false;
      }
    }
  }

  /** A sequence without repeats is its own de-duplication. */
  lemma {:induction false} DedupOfDistinct<T>(xs: seq<T>)
    requires Distinct(xs)
    ensures Dedup(xs) == xs
  {
    if xs != [] {
      var p := xs[..|xs| - 1];
      assert Distinct(p);
      DedupOfDistinct(p);
      assert xs[|xs| - 1] !in p;
      assert xs == p + [xs[|xs| - 1]];
    }
  }

  /** Index of the last occurrence of `v` in `xs`: which of several writes to one dict key survives. */
  function LastIndex<T(==)>(xs: seq<T>, v: T): (r: nat)
    requires v in xs
    ensures r < |xs| && xs[r] == v
    ensures forall j :: r < j < |xs| ==> xs[j] != v
  {
    if xs[|xs| - 1] == v then |xs| - 1
    else
      assert v in xs[..|xs| - 1] by {
        var i :| 0 <= i < |xs| && xs[i] == v;
        assert xs[..|xs| - 1][i] == v;
      }
      LastIndex(xs[..|xs| - 1], v)
  }

  /** Extending a sequence by one element: the new element's last occurrence is the new end, the others' are unchanged. */
  lemma {:induction false} LastIndexSnoc<T>(xs: seq<T>, x: T, v: T)
    requires v in xs + [x]
    ensures LastIndex(xs + [x], v) == if v == x then |xs| else LastIndex(xs, v)
  {
    var ys := xs + [x];
    assert ys[..|ys| - 1] == xs;
  }

  /** Extending a sequence by one element extends its de-duplication by it if it is new. */
  lemma {:induction false} DedupSnoc<T>(xs: seq<T>, x: T)
    ensures Dedup(xs + [x]) == if x in Dedup(xs) then Dedup(xs) else Dedup(xs) + [x]
  {
    var ys := xs + [x];
    assert ys[..|ys| - 1] == xs;
  }

  /** `[y for x in xs for y in f(x)]`: the pieces `f` gives for each element, in order. */
  function FlatMap<T, U>(f: T -> seq<U>, xs: seq<T>): seq<U> {
    if xs == [] then [] else f(xs[0]) + FlatMap(f, xs[1..])
  }

  /** Flattening distributes over concatenation. */
  lemma {:induction false} FlatMapConcat<T, U>(f: T -> seq<U>, a: seq<T>, b: seq<T>)
    ensures FlatMap(f, a + b) == FlatMap(f, a) + FlatMap(f, b)
  {
    if a == [] {
      assert a + b == b;
    } else {
      assert (a + b)[0] == a[0] && (a + b)[1..] == a[1..] + b;
      FlatMapConcat(f, a[1..], b);
    }
  }

  /** Everything in the result comes from some element. */
  lemma {:induction false} FlatMapSound<T, U>(f: T -> seq<U>, xs: seq<T>, y: U)
    requires y in FlatMap(f, xs)
    ensures exists i :: 0 <= i < |xs| && y in f(xs[i])
  {
    if y !in f(xs[0]) {
      FlatMapSound(f, xs[1..], y);
      var i :| 0 <= i < |xs[1..]| && y in f(xs[1..][i]);
      assert xs[i + 1] == xs[1..][i];
    }
  }

  /** Everything an element gives is in the result. */
  lemma {:induction false} FlatMapComplete<T, U>(f: T -> seq<U>, xs: seq<T>, i: nat, y: U)
    requires i < |xs| && y in f(xs[i])
    ensures y in FlatMap(f, xs)
  {
    assert xs == xs[..i] + ([xs[i]] + xs[i + 1..]);
    FlatMapConcat(f, xs[..i], [xs[i]] + xs[i + 1..]);
    assert ([xs[i]] + xs[i + 1..])[1..] == xs[i + 1..];
  }
}
