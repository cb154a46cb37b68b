/**
 * What the two disease-prediction pages share once Streamlit's rendering is
 * removed: the schema-keyed dict the manual form fills, the gate on the
 * number of selected symptoms, the `show_popup` flag that decides whether
 * the prediction expander is shown, and the text tab's blank check. The
 * pages differ only in how a selection becomes a value and in the gate's
 * threshold and messages, which are parameters here.
 */
module PredictPage {
  import opened Wrappers
  import opened Seqs
  import opened Text
  import opened PyDict
  import opened Session
  import opened AiAdvice
  import opened DataFrame
  import ModelsApi

  // ---------------------------------------------------------------------------
  // The manual form's dict

  /** The dict `for symptom in schema: symptoms_input[symptom] = value` leaves, value by value. */
  function Filled(schema: seq<string>, values: seq<int>): (d: Dict)
    requires |values| == |schema|
    ensures Valid(d)
    ensures Keys(d) == Dedup(schema)
  {
    if schema == [] then []
    else
      var n := |schema| - 1;
      assert schema == schema[..n] + [schema[n]];
      DedupSnoc(schema[..n], schema[n]);
      Put(Filled(schema[..n], values[..n]), schema[n], values[n])
  }

  /**
   * Every schema name holds the value given at its last occurrence (a later
   * assignment to the same key overwrites an earlier one).
   */
  lemma {:induction false} FilledFacts(schema: seq<string>, values: seq<int>)
    requires |values| == |schema|
    ensures forall k :: k in schema ==> Get(Filled(schema, values), k) == Some(values[LastIndex(schema, k)])
  {
    if schema != [] {
      var n := |schema| - 1;
      FilledFacts(schema[..n], values[..n]);
      forall k | k in schema ensures Get(Filled(schema, values), k) == Some(values[LastIndex(schema, k)]) {
        FilledGetStep(schema, values, k);
      }
    }
  }

  /** The induction step of `FilledFacts` for one key. */
  lemma FilledGetStep(schema: seq<string>, values: seq<int>, k: string)
    requires |values| == |schema| && k in schema
    requires var n := |schema| - 1;
      k in schema[..n] ==> Get(Filled(schema[..n], values[..n]), k) == Some(values[LastIndex(schema[..n], k)])
    ensures Get(Filled(schema, values), k) == Some(values[LastIndex(schema, k)])
  {
    var n := |schema| - 1;
    var s0, x := schema[..n], schema[n];
    assert schema == s0 + [x];
    LastIndexSnoc(s0, x, k);
    if k != x {
      assert k in s0;
    }
  }

  /** With 0/1 values the dict is 0/1 too, so its sum counts the keys set to 1. */
  lemma {:induction false} FilledBinary(schema: seq<string>, values: seq<int>)
    requires |values| == |schema|
    requires forall i :: 0 <= i < |values| ==> values[i] == 0 || values[i] == 1
    ensures Binary(Filled(schema, values))
    ensures Total(Filled(schema, values)) == |Marked(Filled(schema, values))|
  {
    var d := Filled(schema, values);
    FilledFacts(schema, values);
    forall i | 0 <= i < |d| ensures d[i].1 == 0 || d[i].1 == 1 {
      var k := d[i].0;
      assert k == Keys(d)[i];
      assert k in schema;
      assert Get(d, k) == Some(d[i].1);
    }
    TotalOfBinary(d);
  }

  /** One more selection: the dict of a longer prefix is the shorter one's with that assignment done. */
  lemma FilledSnoc(schema: seq<string>, values: seq<int>, i: nat)
    requires |values| == |schema| && i < |schema|
    ensures Valid(Filled(schema[..i], values[..i]))
    ensures Filled(schema[..i + 1], values[..i + 1]) == Put(Filled(schema[..i], values[..i]), schema[i], values[i])
  {
    assert schema[..i + 1][..i] == schema[..i] && values[..i + 1][..i] == values[..i];
  }

  /** The loop that fills the form's dict, one selection at a time. */
  method Fill(schema: seq<string>, values: seq<int>) returns (symptomsInput: Dict)
    requires |values| == |schema|
    ensures symptomsInput == Filled(schema, values)
  {
    symptomsInput := [];
    for i := 0 to |schema|
      invariant symptomsInput == Filled(schema[..i], values[..i])
    {
      FilledSnoc(schema, values, i);
      symptomsInput := Put(symptomsInput, schema[i], values[i]);
    }
    assert schema[..|schema|] == schema && values[..|values|] == values;
  }

  // ---------------------------------------------------------------------------
  // The gate and the popup flag

  /** A page's threshold and warnings: no selection warns, fewer than `minSelected` warns differently. */
  datatype Gate = Gate(minSelected: nat, noneWarning: string, fewWarning: string)

  /** What the manual tab shows on one run: a warning, and the expander's bundle if it is open. */
  datatype ManualView = ManualView(warning: Option<string>, popup: Option<Bundle>)

  /** The warning the branch chain on `selected_symptoms_count` gives, or `None` when it predicts. */
  function Warning(gate: Gate, count: int): (w: Option<string>)
    ensures w.None? <==> count != 0 && count >= gate.minSelected
  {
    if count == 0 then Some(gate.noneWarning)
    else if count < gate.minSelected then Some(gate.fewWarning)
    else None
  }

  /** Whether this run calls `predict_disease`: the form was submitted and the count passed the gate. */
  predicate Predicts(gate: Gate, symptomsInput: Dict, submitted: bool) {
    submitted && Warning(gate, Total(symptomsInput)).None?
  }

  /**
   * `predicted_disease` after the branch chain: `None` unless this run
   * predicts, else what `predict_disease` returns or raises.
   */
  function PredictedNow(gate: Gate, symptomsInput: Dict, submitted: bool,
                        models: seq<Classifier>, labels: seq<string>): Outcome<Option<string>>
    requires |models| == 4
  {
    if !Predicts(gate, symptomsInput, submitted) then Ok(None)
    else match ModelsApi.Predicted(Some(symptomsInput), models, labels)
      case Raised(e) => Raised(e)
      case Ok(disease) => Ok(Some(disease))
  }

  /** `show_popup` at the end of the run, from its value at the start. */
  function FlagAfter(gate: Gate, flag: Option<bool>, symptomsInput: Dict, submitted: bool,
                     models: seq<Classifier>, labels: seq<string>): Option<bool>
    requires |models| == 4
  {
    match PredictedNow(gate, symptomsInput, submitted, models, labels)
    case Ok(Some(_)) => Some(true)
    case _ => Initialised(flag)
  }

  /** What the manual tab shows (or the exception that ends the run), from the flag at the start. */
  function ManualShown(gate: Gate, flag: Option<bool>, symptomsInput: Dict, submitted: bool,
                       models: seq<Classifier>, labels: seq<string>, advisor: Advisor): Outcome<ManualView>
    requires |models| == 4
  {
    var warning := if submitted then Warning(gate, Total(symptomsInput)) else None;
    match PredictedNow(gate, symptomsInput, submitted, models, labels)
    case Raised(e) => Raised(e)
    case Ok(predicted) =>
      var popup := if FlagAfter(gate, flag, symptomsInput, submitted, models, labels) == Some(true)
                   then Some(DescribeDisease(predicted, advisor)) else None;
      Ok(ManualView(warning, popup))
  }

  /**
   * The manual tab for one run of the page script: initialise the flag, gate
   * the submitted dict, predict and raise the flag, then open the expander
   * when the flag is up, describing whatever `predicted_disease` holds.
   */
  method ManualTab(session: SessionState, gate: Gate, symptomsInput: Dict, submitted: bool,
                   models: seq<Classifier>, labels: seq<string>, advisor: Advisor)
    returns (r: Outcome<ManualView>)
    requires |models| == 4
    modifies session
    ensures session.showPopup == FlagAfter(gate, old(session.showPopup), symptomsInput, submitted, models, labels)
    ensures r == ManualShown(gate, old(session.showPopup), symptomsInput, submitted, models, labels, advisor)
  {
    session.InitShowPopup();
    var predicted: Option<string> := None;
    var warning: Option<string> := None;
    if submitted {
      var count := Total(symptomsInput);
      if count == 0 {
        warning := Some(gate.noneWarning);
      } else if count < gate.minSelected {
        warning := Some(gate.fewWarning);
      } else {
        var disease := ModelsApi.PredictDisease(Some(symptomsInput), models, labels);
        if disease.Raised? {
          return Raised(disease.error);
        }
        predicted := Some(disease.value);
        session.SetShowPopup();
      }
    }
    var popup: Option<Bundle> := None;
    if session.showPopup == Some(true) {
      var shown := EntryPoint("predicted_disease", predicted, models, labels, advisor);
      popup := Some(shown.value.value);
    }
    return Ok(ManualView(warning, popup));
  }

  /** The expander is open exactly when the flag is up at the end of the run. */
  lemma {:induction false} PopupIffFlag(gate: Gate, flag: Option<bool>, symptomsInput: Dict, submitted: bool,
                                        models: seq<Classifier>, labels: seq<string>, advisor: Advisor)
    requires |models| == 4
    requires ManualShown(gate, flag, symptomsInput, submitted, models, labels, advisor).Ok?
    ensures ManualShown(gate, flag, symptomsInput, submitted, models, labels, advisor).value.popup.Some?
            <==> FlagAfter(gate, flag, symptomsInput, submitted, models, labels) == Some(true)
  {
  }

  /**
   * The flag is always set after a run. Once up it stays up, and it goes up
   * only on a run that predicted a disease.
   */
  lemma {:induction false} FlagOnlyRises(gate: Gate, flag: Option<bool>, symptomsInput: Dict, submitted: bool,
                                         models: seq<Classifier>, labels: seq<string>)
    requires |models| == 4
    ensures FlagAfter(gate, flag, symptomsInput, submitted, models, labels).Some?
    ensures flag == Some(true) ==> FlagAfter(gate, flag, symptomsInput, submitted, models, labels) == Some(true)
    ensures FlagAfter(gate, flag, symptomsInput, submitted, models, labels) == Some(true)
            <==> flag == Some(true)
                 || (Predicts(gate, symptomsInput, submitted)
                     && ModelsApi.Predicted(Some(symptomsInput), models, labels).Ok?)
  {
  }

  /**
   * The gate: without a submit nothing is warned or predicted; on a submit a
   * count of 0 gives the first warning, a count below the threshold the
   * second, and only a count at or above it calls `predict_disease`.
   */
  lemma {:induction false} GateOutcome(gate: Gate, flag: Option<bool>, symptomsInput: Dict, submitted: bool,
                                       models: seq<Classifier>, labels: seq<string>, advisor: Advisor)
    requires |models| == 4
    ensures var r := ManualShown(gate, flag, symptomsInput, submitted, models, labels, advisor);
      && (!submitted ==> r.Ok? && r.value.warning.None?)
      && (submitted && Total(symptomsInput) == 0 ==> r.Ok? && r.value.warning == Some(gate.noneWarning))
      && (submitted && Total(symptomsInput) != 0 && Total(symptomsInput) < gate.minSelected
          ==> r.Ok? && r.value.warning == Some(gate.fewWarning))
      && (submitted && Total(symptomsInput) != 0 && Total(symptomsInput) >= gate.minSelected
          ==> match ModelsApi.Predicted(Some(symptomsInput), models, labels)
              case Raised(e) => r == Raised(e)
              case Ok(disease) => r.Ok? && r.value.warning.None?
                                  && r.value.popup == Some(DescribeDisease(Some(disease), advisor)))
  {
  }

  /**
   * A popup describing a real disease comes only from a run that predicted
   * it: submitted, past the gate, and `predict_disease` returned it.
   */
  lemma {:induction false} PopupDiseaseWasPredicted(gate: Gate, flag: Option<bool>, symptomsInput: Dict, submitted: bool,
                                                    models: seq<Classifier>, labels: seq<string>, advisor: Advisor,
                                                    disease: string)
    requires |models| == 4
    requires var r := ManualShown(gate, flag, symptomsInput, submitted, models, labels, advisor);
      r.Ok? && r.value.popup.Some? && r.value.popup.value.predictedDisease == Some(disease)
    ensures submitted && Total(symptomsInput) != 0 && Total(symptomsInput) >= gate.minSelected
    ensures ModelsApi.Predicted(Some(symptomsInput), models, labels) == Ok(disease)
  {
  }

  /**
   * The flag outlives the prediction: with the flag already up, a run that
   * does not predict (no submit, or a submit stopped by the gate) still opens
   * the expander, and describes `None`.
   */
  lemma {:induction false} StalePopupDescribesNone(gate: Gate, symptomsInput: Dict, submitted: bool,
                                                   models: seq<Classifier>, labels: seq<string>, advisor: Advisor)
    requires |models| == 4
    requires !Predicts(gate, symptomsInput, submitted)
    ensures ManualShown(gate, Some(true), symptomsInput, submitted, models, labels, advisor).Ok?
    ensures ManualShown(gate, Some(true), symptomsInput, submitted, models, labels, advisor).value.popup
            == Some(DescribeDisease(None, advisor))
  {
  }

  // ---------------------------------------------------------------------------
  // The text tab

  const BlankDescriptionWarning := "⚠️ Please provide a description of your symptoms."

  /** What the text tab shows: nothing, the blank warning, or the workflow's bundle. */
  datatype TextView = Idle | Warned(message: string) | Shown(bundle: Bundle)

  /** The text tab's result (or the exception that ends the run). */
  function TextShown(description: string, submitted: bool,
                     models: seq<Classifier>, labels: seq<string>, advisor: Advisor): Outcome<TextView>
    requires |models| == 4
  {
    if !submitted then Ok(Idle)
    else if Strip(description) == [] then Ok(Warned(BlankDescriptionWarning))
    else Reported(Workflow(description, models, labels, advisor))
  }

  /**
   * What the tab makes of a workflow run: its exception, a `TypeError` for a
   * run that left no bundle (subscripting `None`), or the bundle. A run never
   * shows the blank-description warning.
   */
  function Reported(run: Outcome<Option<Bundle>>): (r: Outcome<TextView>)
    ensures r.Raised? <==> run.Raised? || run == Ok(None)
    ensures run.Raised? ==> r == Raised(run.error)
    ensures run == Ok(None) ==> r == Raised(TypeError)
    ensures r.Ok? ==> r.value.Shown? && run == Ok(Some(r.value.bundle))
  {
    match run
    case Raised(e) => Raised(e)
    case Ok(None) => Raised(TypeError)
    case Ok(Some(b)) => Ok(Shown(b))
  }

  /** The text tab: a blank description warns, any other runs `entry_point('userinput', ...)`. */
  method TextTab(description: string, submitted: bool,
                 models: seq<Classifier>, labels: seq<string>, advisor: Advisor)
    returns (r: Outcome<TextView>)
    requires |models| == 4
    ensures r == TextShown(description, submitted, models, labels, advisor)
  {
    if !submitted {
      return Ok(Idle);
    }
    if Strip(description) == [] {
      return Ok(Warned(BlankDescriptionWarning));
    }
    var state := EntryPoint("userinput", Some(description), models, labels, advisor);
    match state
    case Raised(e) => return Raised(e);
    case Ok(None) => return Raised(TypeError);
    case Ok(Some(b)) => return Ok(Shown(b));
  }

  /** On a submit, the warning appears exactly when the description is empty or all whitespace. */
  lemma TextTabWarnsIffBlank(description: string, models: seq<Classifier>, labels: seq<string>, advisor: Advisor)
    requires |models| == 4
    ensures TextShown(description, true, models, labels, advisor) == Ok(Warned(BlankDescriptionWarning))
            <==> forall i :: 0 <= i < |description| ==> IsSpace(description[i])
  {
    StripEmptyIffBlank(description);
  }

  /**
   * Any other description reaches the workflow, whose bundle is shown unless
   * the workflow raised.
   */
  lemma TextTabRunsWorkflow(description: string, models: seq<Classifier>, labels: seq<string>, advisor: Advisor)
    requires |models| == 4
    requires !(forall i :: 0 <= i < |description| ==> IsSpace(description[i]))
    ensures match Workflow(description, models, labels, advisor)
      case Raised(e) => TextShown(description, true, models, labels, advisor) == Raised(e)
      case Ok(b) => b.Some? && TextShown(description, true, models, labels, advisor) == Ok(Shown(b.value))
  {
    StripEmptyIffBlank(description);
    if Workflow(description, models, labels, advisor).Ok? {
      WorkflowBundle(description, models, labels, advisor);
    }
  }

  // ---------------------------------------------------------------------------
  // One run of a page script

  /**
   * What one run shows: the manual tab, then the text tab, whose exception
   * (drawn after the manual tab) ends the run.
   */
  datatype PageView = PageView(manual: ManualView, text: Outcome<TextView>)

  /** One run's result: an exception in the manual tab ends the run before the text tab is drawn. */
  function PageShown(gate: Gate, flag: Option<bool>, symptomsInput: Dict, submitted: bool,
                     description: string, descriptionSubmitted: bool,
                     models: seq<Classifier>, labels: seq<string>, advisor: Advisor): Outcome<PageView>
    requires |models| == 4
  {
    match ManualShown(gate, flag, symptomsInput, submitted, models, labels, advisor)
    case Raised(e) => Raised(e)
    case Ok(manual) => Ok(PageView(manual, TextShown(description, descriptionSubmitted, models, labels, advisor)))
  }

  /** `predict_disease_page` after the manual form's dict is filled: the manual tab, then the text tab. */
  method RunPage(session: SessionState, gate: Gate, symptomsInput: Dict, submitted: bool,
                 description: string, descriptionSubmitted: bool,
                 models: seq<Classifier>, labels: seq<string>, advisor: Advisor)
    returns (r: Outcome<PageView>)
    requires |models| == 4
    modifies session
    ensures session.showPopup == FlagAfter(gate, old(session.showPopup), symptomsInput, submitted, models, labels)
    ensures r == PageShown(gate, old(session.showPopup), symptomsInput, submitted, description, descriptionSubmitted,
                           models, labels, advisor)
  {
    var manual := ManualTab(session, gate, symptomsInput, submitted, models, labels, advisor);
    if manual.Raised? {
      return Raised(manual.error);
    }
    var text := TextTab(description, descriptionSubmitted, models, labels, advisor);
    return Ok(PageView(manual.value, text));
  }
}
