/**
 * A Python `dict` from strings to ints, as an association list in insertion
 * order (the order Python iterates a dict in, and the column order pandas
 * takes from `dict.keys()`).
 */
module PyDict {
  import opened Wrappers
  import opened Seqs

  type Dict = seq<(string, int)>

  function Keys<V>(d: seq<(string, V)>): (ks: seq<string>)
    ensures |ks| == |d|
    ensures forall i :: 0 <= i < |d| ==> ks[i] == d[i].0
  {
    if d == [] then [] else [d[0].0] + Keys(d[1..])
  }

  /** A well-formed dict: no key twice. */
  predicate Valid(d: Dict) {
    Distinct(Keys(d))
  }

  /** Every value is 0 or 1. */
  predicate Binary(d: Dict) {
    forall i :: 0 <= i < |d| ==> d[i].1 == 0 || d[i].1 == 1
  }

  /** The value stored under `k`, or `None`: how pandas reads one column of a dict-built frame. */
  function Get(d: Dict, k: string): (r: Option<int>)
    ensures r.None? <==> k !in Keys(d)
    ensures forall i :: 0 <= i < |d| && d[i].0 == k && Valid(d) ==> r == Some(d[i].1)
  {
    if d == [] then None
    else if d[0].0 == k then Some(d[0].1)
    else
      assert Keys(d) == [d[0].0] + Keys(d[1..]);
      Get(d[1..], k)
  }

  /**
   * `d[k] = v`: an existing key keeps its position and takes the new value,
   * a new key is appended.
   */
  function Put(d: Dict, k: string, v: int): (r: Dict)
    requires Valid(d)
    ensures Valid(r)
    ensures Keys(r) == if k in Keys(d) then Keys(d) else Keys(d) + [k]
    ensures Get(r, k) == Some(v)
    ensures forall j :: j != k ==> Get(r, j) == Get(d, j)
    ensures k in Keys(d) ==> (|r| == |d| && forall i :: 0 <= i < |d| ==> r[i] == (if d[i].0 == k then (k, v) else d[i]))
    ensures k !in Keys(d) ==> r == d + [(k, v)]
  {
    if k in Keys(d) then
      UpdateFacts(d, k, v);
      Update(d, k, v)
    else
      AppendFacts(d, k, v);
      d + [(k, v)]
  }

  /** The entries of `d` with the value under `k` replaced. */
  function Update(d: Dict, k: string, v: int): (r: Dict)
    ensures |r| == |d|
    ensures forall i :: 0 <= i < |d| ==> r[i] == (if d[i].0 == k then (k, v) else d[i])
  {
    seq(|d|, i requires 0 <= i < |d| => if d[i].0 == k then (k, v) else d[i])
  }

  /** Replacing a value keeps the keys and their order. */
  lemma UpdateKeys(d: Dict, k: string, v: int)
    ensures Keys(Update(d, k, v)) == Keys(d)
  {
    var r := Update(d, k, v);
    assert forall i :: 0 <= i < |d| ==> Keys(r)[i] == Keys(d)[i];
  }

  /** Replacing the value of a present key changes only that key's lookup. */
  lemma UpdateGet(d: Dict, k: string, v: int, j: string)
    requires Valid(d) && k in Keys(d)
    ensures Get(Update(d, k, v), j) == if j == k then Some(v) else Get(d, j)
  {
    var r := Update(d, k, v);
    UpdateKeys(d, k, v);
    if j in Keys(d) {
      var i :| 0 <= i < |d| && Keys(d)[i] == j;
      assert r[i] == if j == k then (k, v) else d[i];
    }
  }

  /** Replacing the value of a present key keeps the keys and changes only that lookup. */
  lemma UpdateFacts(d: Dict, k: string, v: int)
    requires Valid(d) && k in Keys(d)
    ensures Keys(Update(d, k, v)) == Keys(d)
    ensures Get(Update(d, k, v), k) == Some(v)
    ensures forall j :: j != k ==> Get(Update(d, k, v), j) == Get(d, j)
  {
    UpdateKeys(d, k, v);
    UpdateGet(d, k, v, k);
    forall j | j != k ensures Get(Update(d, k, v), j) == Get(d, j) {
      UpdateGet(d, k, v, j);
    }
  }

  /** Appending an entry appends its key. */
  lemma AppendKeys(d: Dict, k: string, v: int)
    ensures Keys(d + [(k, v)]) == Keys(d) + [k]
  {
    var r := d + [(k, v)];
    assert forall i :: 0 <= i < |r| ==> Keys(r)[i] == (Keys(d) + [k])[i];
  }

  /** Appending a new key changes only that key's lookup. */
  lemma AppendGet(d: Dict, k: string, v: int, j: string)
    requires Valid(d) && k !in Keys(d)
    ensures Get(d + [(k, v)], j) == if j == k then Some(v) else Get(d, j)
  {
    var r := d + [(k, v)];
    AppendKeys(d, k, v);
    assert Valid(r) by {
      assert Keys(r) == Keys(d) + [k];
    }
    if j == k {
      assert r[|d|] == (k, v);
    } else if j in Keys(d) {
      var i :| 0 <= i < |d| && Keys(d)[i] == j;
      assert r[i] == d[i];
    }
  }

  /** Appending a new key adds it at the end and changes only its lookup. */
  lemma AppendFacts(d: Dict, k: string, v: int)
    requires Valid(d) && k !in Keys(d)
    ensures Valid(d + [(k, v)])
    ensures Keys(d + [(k, v)]) == Keys(d) + [k]
    ensures Get(d + [(k, v)], k) == Some(v)
    ensures forall j :: j != k ==> Get(d + [(k, v)], j) == Get(d, j)
  {
    AppendKeys(d, k, v);
    AppendGet(d, k, v, k);
    forall j | j != k ensures Get(d + [(k, v)], j) == Get(d, j) {
      AppendGet(d, k, v, j);
    }
  }

  /** `sum(d.values())`. */
  function Total(d: Dict): int {
    if d == [] then 0 else d[0].1 + Total(d[1..])
  }

  /** The keys whose value is 1, in dict order. */
  function Marked(d: Dict): seq<string> {
    if d == [] then [] else (if d[0].1 == 1 then [d[0].0] else []) + Marked(d[1..])
  }

  /** For a dict of 0/1 values, the sum of the values is the number of keys set to 1. */
  lemma {:induction false} TotalOfBinary(d: Dict)
    requires Binary(d)
    ensures Total(d) == |Marked(d)|
    ensures 0 <= Total(d) <= |d|
  {
    if d != [] {
      assert Binary(d[1..]) by {
        forall i | 0 <= i < |d[1..]| ensures d[1..][i].1 == 0 || d[1..][i].1 == 1 {
          assert d[1..][i] == d[i + 1];
        }
      }
      TotalOfBinary(d[1..]);
    }
  }

  /** Raising values entry by entry (same keys, same order) never lowers the sum. */
  lemma {:induction false} TotalMonotone(d: Dict, e: Dict)
    requires |d| == |e|
    requires forall i :: 0 <= i < |d| ==> d[i].1 <= e[i].1
    ensures Total(d) <= Total(e)
  {
    if d != [] {
      assert forall i :: 0 <= i < |d[1..]| ==> d[1..][i].1 <= e[1..][i].1 by {
        forall i | 0 <= i < |d[1..]| ensures d[1..][i].1 <= e[1..][i].1 {
          assert d[1..][i] == d[i + 1] && e[1..][i] == e[i + 1];
        }
      }
      TotalMonotone(d[1..], e[1..]);
    }
  }

  /** `{k: v for k in ks}`: one entry per distinct key, in first-occurrence order. */
  function FromKeys(ks: seq<string>, v: int): (r: Dict)
    ensures Valid(r)
    ensures Keys(r) == Dedup(ks)
    ensures forall i :: 0 <= i < |r| ==> r[i].1 == v
  {
    if ks == [] then []
    else
      var n := |ks| - 1;
      assert ks == ks[..n] + [ks[n]];
      DedupSnoc(ks[..n], ks[n]);
      PutKeepsUniform(FromKeys(ks[..n], v), ks[n], v);
      Put(FromKeys(ks[..n], v), ks[n], v)
  }

  /** Storing `v` in a dict whose values are all `v` keeps them all `v`. */
  lemma PutKeepsUniform(d: Dict, k: string, v: int)
    requires Valid(d)
    requires forall i :: 0 <= i < |d| ==> d[i].1 == v
    ensures forall i :: 0 <= i < |Put(d, k, v)| ==> Put(d, k, v)[i].1 == v
  {
    if k !in Keys(d) {
      var r := d + [(k, v)];
      assert forall i :: 0 <= i < |r| ==> r[i] == if i < |d| then d[i] else (k, v);
    }
  }
}
