/**
 * The plurality vote both `predict_disease` functions take with
 * `Counter(model_predictions).most_common(1)[0][0]`. A `Counter` keeps its
 * keys in first-occurrence order and `most_common(1)` returns the first key
 * of greatest count in that order, so ties go to the value seen first.
 */
module Vote {
  import opened Seqs

  /** Index of the first occurrence of `v`. */
  function FirstIndex(xs: seq<int>, v: int): (i: nat)
    requires v in xs
    ensures i < |xs| && xs[i] == v && v !in xs[..i]
  {
    if xs[0] == v then 0
    else
      var i := FirstIndex(xs[1..], v);
      assert xs[..i + 1] == [xs[0]] + xs[1..][..i];
      i + 1
  }

  /** A value occurring in `xs[..i+1]` first occurs at or before `i`. */
  lemma FirstIndexAtMost(xs: seq<int>, v: int, i: nat)
    requires i < |xs| && v in xs[..i + 1]
    ensures v in xs && FirstIndex(xs, v) <= i
  {
    var j :| 0 <= j <= i && xs[..i + 1][j] == v;
    assert xs[j] == v;
  }

  /**
   * `r` is the value `most_common(1)` picks from `xs`: it occurs in `xs`, no
   * value occurs more often, and its first occurrence comes no later than
   * any position holding a value of the same count.
   */
  ghost predicate IsFirstPlurality(xs: seq<int>, r: int) {
    r in xs
    && (forall v :: Count(xs, v) <= Count(xs, r))
    && (forall i :: 0 <= i < |xs| && Count(xs, xs[i]) == Count(xs, r) ==> FirstIndex(xs, r) <= i)
  }

  /**
   * Position of the first candidate of greatest count, scanning left to right
   * and replacing the best only on a strictly greater count (Python's `max`).
   */
  function FirstMaxIndex(cands: seq<int>, xs: seq<int>): (k: nat)
    requires |cands| > 0
    ensures k < |cands|
    ensures forall j :: 0 <= j < |cands| ==> Count(xs, cands[j]) <= Count(xs, cands[k])
    ensures forall j :: 0 <= j < k ==> Count(xs, cands[j]) < Count(xs, cands[k])
  {
    if |cands| == 1 then 0
    else
      var k := FirstMaxIndex(cands[..|cands| - 1], xs);
      assert forall j :: 0 <= j < |cands| - 1 ==> cands[..|cands| - 1][j] == cands[j];
      if Count(xs, cands[|cands| - 1]) > Count(xs, cands[k]) then |cands| - 1 else k
  }

  /** `Counter(xs).most_common(1)[0][0]`; `xs` empty raises in Python, so it is excluded here. */
  function MostCommon(xs: seq<int>): (r: int)
    requires |xs| > 0
    ensures IsFirstPlurality(xs, r)
  {
    var cands := Dedup(xs);
    assert xs[0] in cands;
    var k := FirstMaxIndex(cands, xs);
    var r := cands[k];
    assert forall v :: Count(xs, v) <= Count(xs, r) by {
      forall v ensures Count(xs, v) <= Count(xs, r) {
        if v in xs {
          var i :| 0 <= i < |xs| && xs[i] == v;
          assert v in cands;
        }
      }
    }
    assert forall i :: 0 <= i < |xs| && Count(xs, xs[i]) == Count(xs, r) ==> FirstIndex(xs, r) <= i by {
      forall i | 0 <= i < |xs| && Count(xs, xs[i]) == Count(xs, r) ensures FirstIndex(xs, r) <= i {
        assert xs[i] in cands;
        var j :| 0 <= j < |cands| && cands[j] == xs[i];
        DedupFirstSeen(xs, k, j, i);
        FirstIndexAtMost(xs, r, i);
      }
    }
    r
  }

  /** The tie-break rule determines the winner: at most one value is the first plurality. */
  lemma {:induction false} FirstPluralityUnique(xs: seq<int>, r1: int, r2: int)
    requires IsFirstPlurality(xs, r1) && IsFirstPlurality(xs, r2)
    ensures r1 == r2
  {
    assert Count(xs, r1) == Count(xs, r2);
    var i1, i2 := FirstIndex(xs, r1), FirstIndex(xs, r2);
    assert Count(xs, xs[i2]) == Count(xs, r1);
    assert Count(xs, xs[i1]) == Count(xs, r2);
  }

  /** `MostCommon` is the one value meeting the plurality-and-tie-break rule. */
  lemma MostCommonCharacterised(xs: seq<int>, r: int)
    requires |xs| > 0
    ensures r == MostCommon(xs) <==> IsFirstPlurality(xs, r)
  {
    if IsFirstPlurality(xs, r) {
      FirstPluralityUnique(xs, r, MostCommon(xs));
    }
  }

  /**
   * When one value strictly outnumbers every other, the vote does not depend
   * on the order the models are listed in.
   */
  lemma OrderIndependentWhenUnique(xs: seq<int>, ys: seq<int>, w: int)
    requires |xs| > 0
    requires multiset(xs) == multiset(ys)
    requires forall v :: v != w ==> Count(xs, v) < Count(xs, w)
    ensures MostCommon(xs) == w
    ensures |ys| > 0 && MostCommon(ys) == w
  {
    assert |ys| == |multiset(ys)| == |xs|;
    var rx, ry := MostCommon(xs), MostCommon(ys);
    CountIsMultiplicity(xs, w);
    CountIsMultiplicity(ys, w);
    CountIsMultiplicity(ys, ry);
    CountIsMultiplicity(xs, ry);
  }

  /** Two voters for 2 and two for 3, with 2 seen first: 2 wins. */
  lemma TieGoesToFirstSeen()
    ensures MostCommon([2, 3, 2, 3]) == 2
  {
    var xs := [2, 3, 2, 3];
    assert xs[..3] == [2, 3, 2] && xs[..3][..2] == [2, 3] && xs[..3][..2][..1] == [2];
    assert Count(xs, 2) == 2 && Count(xs, 3) == 2;
    var r := MostCommon(xs);
    assert r == 2 || r == 3;
    assert Count(xs, xs[0]) == Count(xs, r);
    assert FirstIndex(xs, r) == 0;
  }

  /** Three voters for 5 and one for 12: 5 wins. */
  lemma MajorityWins()
    ensures MostCommon([5, 5, 5, 12]) == 5
  {
    var xs := [5, 5, 5, 12];
    assert xs[..3] == [5, 5, 5] && xs[..3][..2] == [5, 5] && xs[..3][..2][..1] == [5];
    assert Count(xs, 5) == 3 && Count(xs, 12) == 1;
    var r := MostCommon(xs);
    assert r == 5 || r == 12;
  }

  /** Two voters for 999 against two single votes: 999 wins. */
  lemma PairBeatsSingles()
    ensures MostCommon([999, 999, 3, 4]) == 999
  {
    var xs := [999, 999, 3, 4];
    assert xs[..3] == [999, 999, 3] && xs[..3][..2] == [999, 999] && xs[..3][..2][..1] == [999];
    assert Count(xs, 999) == 2 && Count(xs, 3) == 1 && Count(xs, 4) == 1;
    var r := MostCommon(xs);
    assert r == 999 || r == 3 || r == 4;
  }
}
