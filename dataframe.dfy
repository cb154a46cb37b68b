/**
 * A one-row pandas DataFrame and the classifiers that read it: a classifier
 * is a function from the row to the flattened array `model.predict` returns.
 */
module DataFrame {
  import opened Wrappers
  import opened PyDict

  /** One row: column names in order, each with its value or NaN (`None`). */
  type Row = seq<(string, Option<int>)>

  /** A trained model, seen only through `model.predict(row).flatten()`. */
  type Classifier = Row -> seq<int>

  /** `pd.DataFrame([d], columns=d.keys())`: the row is the dict itself, in key order. */
  function FromDict(d: Dict): (row: Row)
    ensures Keys(row) == Keys(d)
    ensures forall i :: 0 <= i < |d| ==> row[i] == (d[i].0, Some(d[i].1))
  {
    if d == [] then [] else [(d[0].0, Some(d[0].1))] + FromDict(d[1..])
  }

  /**
   * `pd.DataFrame([d], columns=columns)`: one column per requested name, in
   * that order, holding the dict's value or NaN when the dict lacks the key.
   */
  function Select(d: Dict, columns: seq<string>): (row: Row)
    ensures Keys(row) == columns
    ensures forall i :: 0 <= i < |columns| ==> row[i] == (columns[i], Get(d, columns[i]))
  {
    if columns == [] then [] else [(columns[0], Get(d, columns[0]))] + Select(d, columns[1..])
  }

  /** Every model's flattened prediction has a first element. */
  predicate AllPredict(models: seq<Classifier>, row: Row) {
    forall i :: 0 <= i < |models| ==> |models[i](row)| > 0
  }

  /** One vote per model, in model order: the first element of its prediction. */
  function FirstVotes(models: seq<Classifier>, row: Row): (votes: seq<int>)
    requires AllPredict(models, row)
    ensures |votes| == |models|
    ensures forall i :: 0 <= i < |models| ==> votes[i] == models[i](row)[0]
  {
    seq(|models|, i requires 0 <= i < |models| => models[i](row)[0])
  }
}
