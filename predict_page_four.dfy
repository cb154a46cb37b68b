/**
 * `pages/04_predict_disease.py`: the manual form picks 0 or 1 for every
 * schema symptom, and the gate wants at least 2 selections.
 */
module PredictPageFour {
  import opened Wrappers
  import opened Seqs
  import opened PyDict
  import opened DataFrame
  import opened Session
  import opened AiAdvice
  import opened PredictPage
  import ModelsApi

  const NoSymptomsWarning := "⚠️ Please select at least one symptom to proceed."
  const TooFewWarning := "⚠️ Please select at least 2 symptoms for a more accurate prediction."
  const MinSelected := 2

  const ManualGate := Gate(MinSelected, NoSymptomsWarning, TooFewWarning)

  /** The three outcomes of the gate by count: none selected, exactly 1, and 2 or more. */
  lemma GateThresholds(count: nat)
    ensures Warning(ManualGate, count) == Some(NoSymptomsWarning) <==> count == 0
    ensures Warning(ManualGate, count) == Some(TooFewWarning) <==> count == 1
    ensures Warning(ManualGate, count).None? <==> count >= 2
  {
    assert NoSymptomsWarning != TooFewWarning by {
      assert |NoSymptomsWarning| != |TooFewWarning|;
    }
  }

  /**
   * The form's dict, with the picks stored as they are: every schema symptom
   * is a key, a symptom holds its (last) pick, and with 0/1 picks the count
   * the gate reads is the number of symptoms set to 1.
   */
  lemma {:induction false} PicksMarked(schema: seq<string>, picks: seq<int>)
    requires |picks| == |schema|
    requires forall i :: 0 <= i < |picks| ==> picks[i] == 0 || picks[i] == 1
    ensures var d := Filled(schema, picks);
      && Keys(d) == Dedup(schema)
      && Binary(d)
      && Total(d) == |Marked(d)|
      && (forall k :: k in schema ==> Get(d, k) == Some(picks[LastIndex(schema, k)]))
  {
    FilledFacts(schema, picks);
    FilledBinary(schema, picks);
  }

  /** One run of `predict_disease_page`, with the form's picks and the text box as inputs. */
  method PredictDiseasePage(session: SessionState, picks: seq<int>, submitted: bool,
                            description: string, descriptionSubmitted: bool,
                            models: seq<Classifier>, labels: seq<string>, advisor: Advisor)
    returns (r: Outcome<PageView>)
    requires |picks| == |ModelsApi.SymptomsList|
    requires |models| == 4
    modifies session
    ensures session.showPopup
            == FlagAfter(ManualGate, old(session.showPopup), Filled(ModelsApi.SymptomsList, picks), submitted,
                         models, labels)
    ensures r == PageShown(ManualGate, old(session.showPopup), Filled(ModelsApi.SymptomsList, picks), submitted,
                           description, descriptionSubmitted, models, labels, advisor)
  {
    var symptomsInput := Fill(ModelsApi.SymptomsList, picks);
    r := RunPage(session, ManualGate, symptomsInput, submitted, description, descriptionSubmitted,
                 models, labels, advisor);
  }
}
