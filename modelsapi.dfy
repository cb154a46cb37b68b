/**
 * The ensemble predictor of the top-level `modelsapi.py`: the 41-label class
 * table and a `predict_disease` that takes the models and labels as
 * arguments, keeps the first element of each model's prediction, converts
 * the votes to `int`, takes the plurality vote and looks the winner up in
 * the table with an upper-bound check.
 */
module RootModelsApi {
  import opened Wrappers
  import opened PyDict
  import opened DataFrame
  import opened Seqs
  import opened Vote

  /** The disease names, indexed by class. */
  const Classes: seq<string> := [
    "Fungal infection", "Allergy", "GERD", "Chronic cholestasis",
    "Drug Reaction", "Peptic ulcer disease", "AIDS", "Diabetes ",
    "Gastroenteritis", "Bronchial Asthma", "Hypertension ", "Migraine",
    "Cervical spondylosis", "Paralysis (brain hemorrhage)", "Jaundice", "Malaria",
    "Chicken pox", "Dengue", "Typhoid", "Hepatitis A",
    "Hepatitis B", "Hepatitis C", "Hepatitis D", "Hepatitis E",
    "Alcoholic hepatitis", "Tuberculosis", "Common Cold", "Pneumonia",
    "Dimorphic hemorrhoids (piles)", "Heart attack", "Varicose veins", "Hypothyroidism",
    "Hyperthyroidism", "Hypoglycemia", "Osteoarthritis", "Arthritis",
    "(Vertigo) Paroxysmal Positional Vertigo", "Acne", "Urinary tract infection", "Psoriasis",
    "Impetigo"
  ]

  /** What the lookup returns for an index past the end of the table. */
  const InvalidIndex := "Invalid index"

  /** The table has 41 labels; class 5 is peptic ulcer disease, class 11 migraine. */
  lemma ClassesShape()
    ensures |Classes| == 41
    ensures Classes[5] == "Peptic ulcer disease"
    ensures Classes[11] == "Migraine"
  {
  }

  /**
   * The lookup `classes[v]` guarded only by `v >= len(classes)`. Python
   * indexing lets a negative `v` count from the end, and raises `IndexError`
   * below `-len(classes)`.
   */
  function LookupLabel(classes: seq<string>, v: int): (r: Outcome<string>)
    ensures 0 <= v < |classes| ==> r == Ok(classes[v])
    ensures v >= |classes| ==> r == Ok(InvalidIndex)
    ensures -|classes| <= v < 0 ==> r == Ok(classes[|classes| + v])
    ensures v < -|classes| ==> r == Raised(IndexError)
  {
    if v >= |classes| then Ok(InvalidIndex)
    else if v >= 0 then Ok(classes[v])
    else if v >= -|classes| then Ok(classes[|classes| + v])
    else Raised(IndexError)
  }

  /**
   * For the indices a classifier can produce (never negative) the lookup
   * never raises, and it reports an invalid index exactly for indices past
   * the table, provided the table itself holds no label of that name.
   */
  lemma LookupOfClassIndex(classes: seq<string>, v: int)
    requires v >= 0
    requires InvalidIndex !in classes
    ensures LookupLabel(classes, v).Ok?
    ensures LookupLabel(classes, v).value == InvalidIndex <==> v >= |classes|
    ensures LookupLabel(classes, v).value in classes <==> v < |classes|
  {
  }

  /**
   * The loop over the models: each flattened prediction longer than one
   * element is cut down to its first element; a prediction of length 0 or 1
   * is kept as it is.
   */
  method CollectRaw(models: seq<Classifier>, row: Row) returns (raw: seq<seq<int>>)
    ensures |raw| == |models|
    ensures forall i :: 0 <= i < |models| ==> |raw[i]| <= 1
    ensures forall i :: 0 <= i < |models| ==> (|raw[i]| == 1 <==> |models[i](row)| > 0)
    ensures forall i :: 0 <= i < |models| && |raw[i]| == 1 ==> raw[i][0] == models[i](row)[0]
  {
    raw := [];
    for i := 0 to |models|
      invariant |raw| == i
      invariant forall j :: 0 <= j < i ==> |raw[j]| <= 1
      invariant forall j :: 0 <= j < i ==> (|raw[j]| == 1 <==> |models[j](row)| > 0)
      invariant forall j :: 0 <= j < i && |raw[j]| == 1 ==> raw[j][0] == models[j](row)[0]
    {
      var prediction := models[i](row);
      if |prediction| > 1 {
        prediction := [prediction[0]];
      }
      raw := raw + [prediction];
    }
  }

  /**
   * `[int(pred) for pred in model_predictions]`: a one-element array converts
   * to its element; `int()` of an empty array raises `TypeError`.
   */
  function ToInts(raw: seq<seq<int>>): (r: Outcome<seq<int>>)
    requires forall i :: 0 <= i < |raw| ==> |raw[i]| <= 1
    ensures r.Ok? <==> forall i :: 0 <= i < |raw| ==> |raw[i]| == 1
    ensures r.Ok? ==> (|r.value| == |raw| && forall i :: 0 <= i < |raw| ==> r.value[i] == raw[i][0])
    ensures r.Raised? ==> r.error == TypeError
  {
    if raw == [] then Ok([])
    else if |raw[0]| == 0 then Raised(TypeError)
    else
      match ToInts(raw[1..])
      case Raised(e) => Raised(e)
      case Ok(rest) => Ok([raw[0][0]] + rest)
  }

  /**
   * What `predict_disease(symptoms_input, models, classes)` returns: the votes
   * are the first elements of the models' predictions on the frame with the
   * given columns; an empty prediction raises `TypeError`, no models at all
   * leave `most_common(1)` empty and raise `IndexError`.
   */
  function Predicted(symptomsInput: Dict, columns: seq<string>, models: seq<Classifier>, classes: seq<string>)
    : Outcome<string>
  {
    var row := Select(symptomsInput, columns);
    if !AllPredict(models, row) then Raised(TypeError)
    else if |models| == 0 then Raised(IndexError)
    else LookupLabel(classes, MostCommon(FirstVotes(models, row)))
  }

  /**
   * `predict_disease`; `columns` stands for the module-level name the
   * function reads, which the file only binds in its demonstration block.
   */
  method PredictDisease(symptomsInput: Dict, columns: seq<string>, models: seq<Classifier>, classes: seq<string>)
    returns (r: Outcome<string>)
    ensures r == Predicted(symptomsInput, columns, models, classes)
  {
    var row := Select(symptomsInput, columns);
    var raw := CollectRaw(models, row);
    var predictions := ToInts(raw);
    if predictions.Raised? {
      assert !AllPredict(models, row);
      return Raised(predictions.error);
    }
    assert predictions.value == FirstVotes(models, row);
    if |predictions.value| == 0 {
      return Raised(IndexError);
    }
    var mostCommon := MostCommon(predictions.value);
    r := LookupLabel(classes, mostCommon);
  }

  /**
   * With every model answering with a class index of the table, the result
   * is the label of the first plurality of the votes; with an index past the
   * table it is the invalid-index message.
   */
  lemma PredictionOfClassIndices(d: Dict, columns: seq<string>, models: seq<Classifier>, classes: seq<string>)
    requires |models| > 0
    requires AllPredict(models, Select(d, columns))
    requires forall i :: 0 <= i < |models| ==> models[i](Select(d, columns))[0] >= 0
    ensures var votes := FirstVotes(models, Select(d, columns));
      forall v :: IsFirstPlurality(votes, v) ==>
        Predicted(d, columns, models, classes) == Ok(if v < |classes| then classes[v] else InvalidIndex)
  {
    var votes := FirstVotes(models, Select(d, columns));
    var w := MostCommon(votes);
    forall v | IsFirstPlurality(votes, v)
      ensures Predicted(d, columns, models, classes) == Ok(if v < |classes| then classes[v] else InvalidIndex)
    {
      FirstPluralityUnique(votes, v, w);
    }
  }

  /** Votes `[5, 5, 5, 12]` resolve to class 5 of the table. */
  lemma MajorityScenario()
    ensures LookupLabel(Classes, MostCommon([5, 5, 5, 12])) == Ok("Peptic ulcer disease")
  {
    MajorityWins();
    ClassesShape();
  }

  /** A winning index 999 against the 41-label table gives the invalid-index message. */
  lemma OutOfTableScenario()
    ensures LookupLabel(Classes, MostCommon([999, 999, 3, 4])) == Ok(InvalidIndex)
  {
    PairBeatsSingles();
    ClassesShape();
  }
}
