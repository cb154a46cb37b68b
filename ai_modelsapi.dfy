/**
 * The ensemble predictor of `AI_ML/modelsapi.py`: the feature schema, and
 * `predict_disease`, which short-circuits on `None`, asks each of the four
 * models for one class index, takes the plurality vote and decodes it with
 * the label encoder.
 */
module ModelsApi {
  import opened Wrappers
  import opened PyDict
  import opened DataFrame
  import opened Vote

  /** The feature schema: the symptom identifiers every model was trained on, in column order. */
  const SymptomsList: seq<string> := [
    "itching", "skin_rash", "nodal_skin_eruptions", "continuous_sneezing",
    "shivering", "chills", "joint_pain", "stomach_pain",
    "acidity", "ulcers_on_tongue", "muscle_wasting", "vomiting",
    "burning_micturition", "spotting_ urination", "fatigue", "weight_gain",
    "anxiety", "cold_hands_and_feets", "mood_swings", "weight_loss",
    "restlessness", "lethargy", "patches_in_throat", "irregular_sugar_level",
    "cough", "high_fever", "sunken_eyes", "breathlessness",
    "sweating", "dehydration", "indigestion", "headache",
    "yellowish_skin", "dark_urine", "nausea", "loss_of_appetite",
    "pain_behind_the_eyes", "back_pain", "constipation", "abdominal_pain",
    "diarrhoea", "mild_fever", "yellow_urine", "yellowing_of_eyes",
    "acute_liver_failure", "fluid_overload", "swelling_of_stomach", "swelled_lymph_nodes",
    "malaise", "blurred_and_distorted_vision", "phlegm", "throat_irritation",
    "redness_of_eyes", "sinus_pressure", "runny_nose", "congestion",
    "chest_pain", "weakness_in_limbs", "fast_heart_rate", "pain_during_bowel_movements",
    "pain_in_anal_region", "bloody_stool", "irritation_in_anus", "neck_pain",
    "dizziness", "cramps", "bruising", "obesity",
    "swollen_legs", "swollen_blood_vessels", "puffy_face_and_eyes", "enlarged_thyroid",
    "brittle_nails", "swollen_extremeties", "excessive_hunger", "extra_marital_contacts",
    "drying_and_tingling_lips", "slurred_speech", "knee_pain", "hip_joint_pain",
    "muscle_weakness", "stiff_neck", "swelling_joints", "movement_stiffness",
    "spinning_movements", "loss_of_balance", "unsteadiness", "weakness_of_one_body_side",
    "loss_of_smell", "bladder_discomfort", "foul_smell_of urine", "continuous_feel_of_urine",
    "passage_of_gases", "internal_itching", "toxic_look_(typhos)", "depression",
    "irritability", "muscle_pain", "altered_sensorium", "red_spots_over_body",
    "belly_pain", "abnormal_menstruation", "dischromic _patches", "watering_from_eyes",
    "increased_appetite", "polyuria", "family_history", "mucoid_sputum",
    "rusty_sputum", "lack_of_concentration", "visual_disturbances", "receiving_blood_transfusion",
    "receiving_unsterile_injections", "coma", "stomach_bleeding", "distention_of_abdomen",
    "history_of_alcohol_consumption", "fluid_overload.1", "blood_in_sputum", "prominent_veins_on_calf",
    "palpitations", "painful_walking", "pus_filled_pimples", "blackheads",
    "scurring", "skin_peeling", "silver_like_dusting", "small_dents_in_nails",
    "inflammatory_nails", "blister", "red_sore_around_nose", "yellow_crust_ooze"
  ]

  /** What `predict_disease` returns for a `None` input. */
  const NotSufficientMessage := "The symptom description is not sufficient, so no disease was predicted."

  /** The schema has 132 identifiers. */
  lemma SchemaLength()
    ensures |SymptomsList| == 132
  {
  }

  /**
   * `label_encoder.inverse_transform([v])[0]`: the encoder's class list
   * indexed by `v`; an index outside it is a label the encoder has not seen,
   * which raises `ValueError`.
   */
  function InverseTransform(labels: seq<string>, v: int): (r: Outcome<string>)
    ensures r.Ok? <==> 0 <= v < |labels|
    ensures r.Ok? ==> r.value == labels[v]
    ensures r.Raised? ==> r.error == ValueError
  {
    if 0 <= v < |labels| then Ok(labels[v]) else Raised(ValueError)
  }

  /**
   * The loop that fills `model_predictions`: one `int` per model, in model
   * order, each the first element of the flattened prediction; a model whose
   * prediction is empty makes `flatten()[0]` raise `IndexError`.
   */
  method CollectPredictions(models: seq<Classifier>, row: Row) returns (r: Outcome<seq<int>>)
    ensures r.Ok? <==> AllPredict(models, row)
    ensures r.Ok? ==> (|r.value| == |models|
      && forall i :: 0 <= i < |models| ==> r.value[i] == models[i](row)[0])
    ensures r.Raised? ==> r.error == IndexError
  {
    var predictions: seq<int> := [];
    for i := 0 to |models|
      invariant |predictions| == i
      invariant forall j :: 0 <= j < i ==> |models[j](row)| > 0 && predictions[j] == models[j](row)[0]
    {
      var prediction := models[i](row);
      if |prediction| == 0 {
        return Raised(IndexError);
      }
      predictions := predictions + [prediction[0]];
    }
    return Ok(predictions);
  }

  /**
   * What `predict_disease(symptoms_input)` returns: the fixed message for
   * `None`; otherwise the label of the plurality vote of the models run on
   * the one-row frame whose columns are the dict's keys.
   */
  function Predicted(symptomsInput: Option<Dict>, models: seq<Classifier>, labels: seq<string>): Outcome<string>
    requires |models| == 4
  {
    match symptomsInput
    case None => Ok(NotSufficientMessage)
    case Some(d) =>
      var row := FromDict(d);
      if !AllPredict(models, row) then Raised(IndexError)
      else InverseTransform(labels, MostCommon(FirstVotes(models, row)))
  }

  /** `predict_disease`, with the four models and the encoder's classes as parameters. */
  method PredictDisease(symptomsInput: Option<Dict>, models: seq<Classifier>, labels: seq<string>)
    returns (r: Outcome<string>)
    requires |models| == 4
    ensures r == Predicted(symptomsInput, models, labels)
  {
    if symptomsInput == None {
      return Ok(NotSufficientMessage);
    }
    var row := FromDict(symptomsInput.value);
    var predictions := CollectPredictions(models, row);
    if predictions.Raised? {
      assert !AllPredict(models, row);
      return Raised(predictions.error);
    }
    assert predictions.value == FirstVotes(models, row);
    var mostCommon := MostCommon(predictions.value);
    r := InverseTransform(labels, mostCommon);
  }

  /** A `None` input gives the fixed message whatever the models and labels are. */
  lemma NoneShortCircuits(models: seq<Classifier>, labels: seq<string>)
    requires |models| == 4
    ensures Predicted(None, models, labels) == Ok(NotSufficientMessage)
  {
  }

  /**
   * A successful prediction for a dict is the label of a class index that
   * one of the models returned, that no other index outnumbers, and that
   * wins its ties by first occurrence; the frame's columns are the dict's
   * keys in order.
   */
  lemma PredictionIsPluralityLabel(d: Dict, models: seq<Classifier>, labels: seq<string>)
    requires |models| == 4
    requires Predicted(Some(d), models, labels).Ok?
    ensures Keys(FromDict(d)) == Keys(d)
    ensures AllPredict(models, FromDict(d))
    ensures exists v :: (0 <= v < |labels| && IsFirstPlurality(FirstVotes(models, FromDict(d)), v)
      && Predicted(Some(d), models, labels) == Ok(labels[v]))
    ensures forall v :: (IsFirstPlurality(FirstVotes(models, FromDict(d)), v)
      ==> Predicted(Some(d), models, labels) == Ok(labels[v]))
  {
    var votes := FirstVotes(models, FromDict(d));
    var w := MostCommon(votes);
    forall v | IsFirstPlurality(votes, v)
      ensures Predicted(Some(d), models, labels) == Ok(labels[v])
    {
      FirstPluralityUnique(votes, v, w);
    }
  }

  /** Some model's empty prediction raises `IndexError`; an index the encoder lacks raises `ValueError`. */
  lemma PredictionErrors(d: Dict, models: seq<Classifier>, labels: seq<string>)
    requires |models| == 4
    ensures !AllPredict(models, FromDict(d)) ==> Predicted(Some(d), models, labels) == Raised(IndexError)
    ensures AllPredict(models, FromDict(d))
      && !(0 <= MostCommon(FirstVotes(models, FromDict(d))) < |labels|)
      ==> Predicted(Some(d), models, labels) == Raised(ValueError)
  {
  }
}
