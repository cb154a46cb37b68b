/**
 * `pages/1_Predict_Disease.py`: the manual form asks Yes/No for every
 * schema symptom, and the gate wants at least 10 selections.
 */
module PredictPageOne {
  import opened Wrappers
  import opened Seqs
  import opened PyDict
  import opened DataFrame
  import opened Session
  import opened AiAdvice
  import opened PredictPage
  import ModelsApi

  const NoSymptomsWarning := "⚠️ Please select more than one symptom to proceed."
  const TooFewWarning := "⚠️ Please select at least 10 symptoms for a more accurate prediction."
  const MinSelected := 10

  const ManualGate := Gate(MinSelected, NoSymptomsWarning, TooFewWarning)

  /** The three outcomes of the gate by count: none selected, 1 to 9, and 10 or more. */
  lemma GateThresholds(count: nat)
    ensures Warning(ManualGate, count) == Some(NoSymptomsWarning) <==> count == 0
    ensures Warning(ManualGate, count) == Some(TooFewWarning) <==> 1 <= count < 10
    ensures Warning(ManualGate, count).None? <==> count >= 10
  {
    assert NoSymptomsWarning != TooFewWarning by {
      assert |NoSymptomsWarning| != |TooFewWarning|;
    }
  }

  /** `1 if user_input == "Yes" else 0`. */
  function AnswerBit(answer: string): (b: int)
    ensures b == 0 || b == 1
    ensures b == 1 <==> answer == "Yes"
  {
    if answer == "Yes" then 1 else 0
  }

  /** The values the form's loop stores, answer by answer. */
  function Bits(answers: seq<string>): (bits: seq<int>)
    ensures |bits| == |answers|
    ensures forall i :: 0 <= i < |answers| ==> bits[i] == AnswerBit(answers[i])
  {
    seq(|answers|, i requires 0 <= i < |answers| => AnswerBit(answers[i]))
  }

  /** The form's loop: every schema symptom gets 1 for a "Yes" answer and 0 otherwise. */
  method CollectAnswers(schema: seq<string>, answers: seq<string>) returns (symptomsInput: Dict)
    requires |answers| == |schema|
    ensures symptomsInput == Filled(schema, Bits(answers))
  {
    symptomsInput := [];
    for i := 0 to |schema|
      invariant symptomsInput == Filled(schema[..i], Bits(answers)[..i])
    {
      FilledSnoc(schema, Bits(answers), i);
      symptomsInput := Put(symptomsInput, schema[i], if answers[i] == "Yes" then 1 else 0);
    }
    assert schema[..|schema|] == schema && Bits(answers)[..|answers|] == Bits(answers);
  }

  /**
   * The form's dict has every schema symptom as a key and only 0/1 values, a
   * symptom is 1 exactly when its (last) answer is "Yes", and the count the
   * gate reads is the number of symptoms set to 1.
   */
  lemma {:induction false} AnswersMarked(schema: seq<string>, answers: seq<string>)
    requires |answers| == |schema|
    ensures var d := Filled(schema, Bits(answers));
      && Keys(d) == Dedup(schema)
      && Binary(d)
      && Total(d) == |Marked(d)|
      && (forall k :: k in schema ==> (Get(d, k) == Some(1) <==> answers[LastIndex(schema, k)] == "Yes"))
  {
    FilledFacts(schema, Bits(answers));
    FilledBinary(schema, Bits(answers));
  }

  /** One run of `predict_disease_page`, with the form's answers and the text box as inputs. */
  method PredictDiseasePage(session: SessionState, answers: seq<string>, submitted: bool,
                            description: string, descriptionSubmitted: bool,
                            models: seq<Classifier>, labels: seq<string>, advisor: Advisor)
    returns (r: Outcome<PageView>)
    requires |answers| == |ModelsApi.SymptomsList|
    requires |models| == 4
    modifies session
    ensures session.showPopup
            == FlagAfter(ManualGate, old(session.showPopup), Filled(ModelsApi.SymptomsList, Bits(answers)), submitted,
                         models, labels)
    ensures r == PageShown(ManualGate, old(session.showPopup), Filled(ModelsApi.SymptomsList, Bits(answers)), submitted,
                           description, descriptionSubmitted, models, labels, advisor)
  {
    var symptomsInput := CollectAnswers(ModelsApi.SymptomsList, answers);
    r := RunPage(session, ManualGate, symptomsInput, submitted, description, descriptionSubmitted,
                 models, labels, advisor);
  }
}
