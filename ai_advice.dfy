/**
 * The advisory pipeline of `AI_ML/aiAdvice.py`: the free-text symptom
 * normaliser `extract_symptoms_from_description`, the result bundle of
 * `describe_disease`, and `entry_point`, which either describes a given
 * disease or runs extract, predict and describe in that order. The language
 * model is an `Advisor`: its replies are functions of what the prompts carry.
 */
module AiAdvice {
  import opened Wrappers
  import opened Seqs
  import opened Text
  import opened PyDict
  import opened DataFrame
  import ModelsApi
  import Vote

  /** Fewer marked symptoms than this make the normaliser return `None`. */
  const MinMatched := 5

  // ---------------------------------------------------------------------------
  // Parsing the model's reply

  /** What one piece contributes: its stripped, lower-cased text, or nothing when it is blank. */
  function Clean(piece: string): seq<string> {
    if Strip(piece) != [] then [Lower(Strip(piece))] else []
  }

  /** `[p.strip().lower() for p in parts if p.strip()]`. */
  function CleanPieces(parts: seq<string>): seq<string> {
    FlatMap(Clean, parts)
  }

  /** What every parsed phrase is: non-empty, lower-case, stripped, free of `*`. */
  predicate IsPhrase(p: string) {
    p != [] && Lower(p) == p && Strip(p) == p && '*' !in p
  }

  /** A piece without `*` cleans to phrases only. */
  lemma {:induction false} CleanPieceFacts(piece: string)
    requires '*' !in piece
    ensures forall i :: 0 <= i < |Clean(piece)| ==> IsPhrase(Clean(piece)[i])
  {
    if Strip(piece) != [] {
      var s := Strip(piece);
      var p := Lower(s);
      LowerIdempotent(s);
      LowerKeepsSpace(s);
      var lo, hi :| CutAt(piece, s, lo, hi);
      assert !IsSpace(p[0]) && !IsSpace(p[|p| - 1]);
      StripOfStripped(p);
      assert Clean(piece) == [p];
    }
  }

  /** The phrases of a reply: its `*`-separated pieces, stripped, lower-cased, blanks dropped. */
  function ParseReply(reply: string): seq<string> {
    CleanPieces(Split(reply, '*'))
  }

  /** Every parsed phrase is non-empty, lower-case, stripped and free of `*`. */
  lemma ParseReplyPhrases(reply: string)
    ensures forall i :: 0 <= i < |ParseReply(reply)| ==> IsPhrase(ParseReply(reply)[i])
  {
    CleanPiecesFacts(Split(reply, '*'));
  }

  lemma {:induction false} CleanPiecesFacts(parts: seq<string>)
    requires forall p :: p in parts ==> '*' !in p
    ensures forall i :: 0 <= i < |CleanPieces(parts)| ==> IsPhrase(CleanPieces(parts)[i])
  {
    forall i | 0 <= i < |CleanPieces(parts)| ensures IsPhrase(CleanPieces(parts)[i]) {
      var x := CleanPieces(parts)[i];
      FlatMapSound(Clean, parts, x);
      var j :| 0 <= j < |parts| && x in Clean(parts[j]);
      assert parts[j] in parts;
      CleanPieceFacts(parts[j]);
    }
  }

  /** A reply extended by `*` and more text yields the old phrases followed by the new ones. */
  lemma {:induction false} ParseReplyConcat(reply: string, more: string)
    ensures ParseReply(reply + "*" + more) == ParseReply(reply) + ParseReply(more)
  {
    SplitConcat(reply, more, '*');
    FlatMapConcat(Clean, Split(reply, '*'), Split(more, '*'));
  }

  /** `piece` is a non-blank piece that cleans to `x`. */
  predicate CleansTo(piece: string, x: string) {
    Strip(piece) != [] && x == Lower(Strip(piece))
  }

  /** A piece's cleaned phrase, when it has one, is the one `CleansTo` names. */
  lemma CleanIff(piece: string, x: string)
    ensures x in Clean(piece) <==> CleansTo(piece, x)
  {
  }

  /** The phrases are exactly the cleaned non-blank pieces (for a reply, its pieces between `*`s). */
  lemma {:induction false} CleanPiecesMembers(parts: seq<string>, x: string)
    ensures x in CleanPieces(parts) <==> exists i :: 0 <= i < |parts| && CleansTo(parts[i], x)
  {
    if x in CleanPieces(parts) {
      FlatMapSound(Clean, parts, x);
      var i :| 0 <= i < |parts| && x in Clean(parts[i]);
      CleanIff(parts[i], x);
    } else {
      forall i | 0 <= i < |parts| ensures !CleansTo(parts[i], x) {
        if CleansTo(parts[i], x) {
          CleanIff(parts[i], x);
          FlatMapComplete(Clean, parts, i, x);
        }
      }
    }
  }

  // ---------------------------------------------------------------------------
  // Matching and the normaliser

  /**
   * A schema identifier is mentioned when its cleaned phrase occurs in the
   * lower-cased description or in one of the reply's phrases.
   */
  predicate Matches(symptom: string, description: string, phrases: seq<string>) {
    Contains(description, CleanName(symptom)) || InSomePhrase(phrases, CleanName(symptom))
  }

  /** Python's `any(phrase in p for p in phrases)`. */
  predicate InSomePhrase(phrases: seq<string>, phrase: string) {
    exists i :: 0 <= i < |phrases| && Contains(phrases[i], phrase)
  }

  /** Phrases added after the old ones never hide a match. */
  lemma {:induction false} InSomePhraseExtend(phrases: seq<string>, more: seq<string>, phrase: string)
    requires InSomePhrase(phrases, phrase)
    ensures InSomePhrase(phrases + more, phrase)
  {
    var i :| 0 <= i < |phrases| && Contains(phrases[i], phrase);
    assert (phrases + more)[i] == phrases[i];
  }

  /** One entry per key, in order: 1 for a mentioned identifier, 0 otherwise. */
  function Marks(keys: seq<string>, description: string, phrases: seq<string>): (d: Dict)
    ensures Keys(d) == keys
  {
    seq(|keys|, i requires 0 <= i < |keys| => (keys[i], if Matches(keys[i], description, phrases) then 1 else 0))
  }

  /**
   * What `extract_symptoms_from_description` returns for a description and
   * the model's reply: the schema-keyed 0/1 dict, or `None` when fewer than
   * five identifiers are marked.
   */
  function Extracted(schema: seq<string>, description: string, reply: string): Option<Dict> {
    var d := Marks(Dedup(schema), Lower(description), ParseReply(reply));
    if Total(d) < MinMatched then None else Some(d)
  }

  /**
   * `extract_symptoms_from_description`, with the schema and the model's
   * reply as parameters: a dict of zeros keyed by the schema, a pass that
   * sets each mentioned identifier to 1, then the count and the threshold.
   */
  method ExtractSymptoms(schema: seq<string>, description: string, reply: string) returns (result: Option<Dict>)
    ensures result == Extracted(schema, description, reply)
  {
    var lowered := Lower(description);
    var phrases := ParseReply(reply);
    var symptoms := MarkMentioned(schema, lowered, phrases);
    var count := Total(symptoms);
    if count < MinMatched {
      return None;
    }
    return Some(symptoms);
  }

  /**
   * The loop of the normaliser: starting from `{symptom: 0 for symptom in
   * schema}`, set to 1 every identifier whose cleaned phrase occurs in the
   * lower-cased description or in one of the phrases.
   */
  method MarkMentioned(schema: seq<string>, lowered: string, phrases: seq<string>) returns (symptoms: Dict)
    ensures symptoms == Marks(Dedup(schema), lowered, phrases)
  {
    symptoms := FromKeys(schema, 0);
    for i := 0 to |schema|
      invariant Valid(symptoms) && Keys(symptoms) == Dedup(schema)
      invariant forall j :: 0 <= j < |symptoms| ==> symptoms[j].1 == MarkAfter(schema, i, symptoms[j].0, lowered, phrases)
    {
      var phrase := CleanName(schema[i]);
      var found := Contains(lowered, phrase) || InSomePhrase(phrases, phrase);
      ghost var before := symptoms;
      if found {
        symptoms := Put(symptoms, schema[i], 1);
      }
      MarkStep(schema, i, lowered, phrases, found, before, symptoms);
    }
    MarksFromLoop(schema, symptoms, lowered, phrases);
  }

  /** The value the loop has given key `k` after visiting the first `i` identifiers. */
  function MarkAfter(schema: seq<string>, i: nat, k: string, description: string, phrases: seq<string>): int
    requires i <= |schema|
  {
    if k in schema[..i] && Matches(k, description, phrases) then 1 else 0
  }

  /** Visiting identifier `i` settles its own key and leaves every other key as it was. */
  lemma {:induction false} MarkAfterStep(schema: seq<string>, i: nat, description: string, phrases: seq<string>)
    requires i < |schema|
    ensures MarkAfter(schema, i + 1, schema[i], description, phrases)
      == if Matches(schema[i], description, phrases) then 1 else 0
    ensures forall k :: k != schema[i] ==>
      MarkAfter(schema, i + 1, k, description, phrases) == MarkAfter(schema, i, k, description, phrases)
    ensures !Matches(schema[i], description, phrases) ==> MarkAfter(schema, i, schema[i], description, phrases) == 0
  {
    assert schema[..i + 1] == schema[..i] + [schema[i]];
  }

  /** One turn of the loop keeps its invariant. */
  lemma {:induction false} MarkStep(schema: seq<string>, i: nat, description: string, phrases: seq<string>,
                                    found: bool, d: Dict, d': Dict)
    requires i < |schema|
    requires found == Matches(schema[i], description, phrases)
    requires Valid(d) && Keys(d) == Dedup(schema)
    requires forall j :: 0 <= j < |d| ==> d[j].1 == MarkAfter(schema, i, d[j].0, description, phrases)
    requires d' == if found then Put(d, schema[i], 1) else d
    ensures Valid(d') && Keys(d') == Dedup(schema)
    ensures forall j :: 0 <= j < |d'| ==> d'[j].1 == MarkAfter(schema, i + 1, d'[j].0, description, phrases)
  {
    MarkAfterStep(schema, i, description, phrases);
    assert schema[i] in Keys(d);
    forall j | 0 <= j < |d'| ensures d'[j].1 == MarkAfter(schema, i + 1, d'[j].0, description, phrases) {
      if d[j].0 != schema[i] {
        assert d'[j] == d[j];
      }
    }
  }

  /** After the whole schema the loop's dict is the marks dict. */
  lemma {:induction false} MarksFromLoop(schema: seq<string>, d: Dict, description: string, phrases: seq<string>)
    requires Keys(d) == Dedup(schema)
    requires forall j :: 0 <= j < |d| ==> d[j].1 == MarkAfter(schema, |schema|, d[j].0, description, phrases)
    ensures d == Marks(Dedup(schema), description, phrases)
  {
    assert schema[..|schema|] == schema;
    var ks := Dedup(schema);
    var m := Marks(ks, description, phrases);
    assert |d| == |ks| == |m|;
    forall j | 0 <= j < |d| ensures d[j] == m[j] {
      var k := ks[j];
      assert d[j].0 == k == m[j].0;
      assert k in schema;
      assert d[j].1 == (if Matches(k, description, phrases) then 1 else 0);
    }
  }

  // ---------------------------------------------------------------------------
  // Properties of the normaliser

  /** The marks dict has the keys in order, 0/1 values, and 1 exactly on the mentioned identifiers. */
  lemma {:induction false} MarksFacts(keys: seq<string>, description: string, phrases: seq<string>)
    requires Distinct(keys)
    ensures var d := Marks(keys, description, phrases);
      Valid(d) && Binary(d)
      && (forall k :: Get(d, k) == Some(1) <==> k in keys && Matches(k, description, phrases))
      && (forall k :: Get(d, k) == Some(0) <==> k in keys && !Matches(k, description, phrases))
      && Total(d) == |Marked(d)|
  {
    var d := Marks(keys, description, phrases);
    forall k ensures Get(d, k) == if k in keys then Some(if Matches(k, description, phrases) then 1 else 0) else None {
      MarksGet(keys, description, phrases, k);
    }
    TotalOfBinary(d);
  }

  /** The lookup of one key in the marks: its mark if it is a key, nothing otherwise. */
  lemma MarksGet(keys: seq<string>, description: string, phrases: seq<string>, k: string)
    requires Distinct(keys)
    ensures Get(Marks(keys, description, phrases), k)
            == if k in keys then Some(if Matches(k, description, phrases) then 1 else 0) else None
  {
    var d := Marks(keys, description, phrases);
    if k in keys {
      var i :| 0 <= i < |keys| && keys[i] == k;
      assert d[i].0 == k;
    }
  }

  /**
   * A returned dict is keyed by exactly the schema's identifiers, holds 0 or
   * 1 everywhere, holds 1 exactly on the identifiers whose cleaned phrase
   * occurs in the lower-cased description or in a phrase of the reply, and
   * has at least five of them.
   */
  lemma {:induction false} ExtractedDict(schema: seq<string>, description: string, reply: string, d: Dict)
    requires Extracted(schema, description, reply) == Some(d)
    ensures Valid(d) && Keys(d) == Dedup(schema) && Binary(d)
    ensures forall k :: k in Keys(d) <==> k in schema
    ensures forall k :: Get(d, k) == Some(1) <==> k in schema && Matches(k, Lower(description), ParseReply(reply))
    ensures forall k :: Get(d, k) == Some(0) <==> k in schema && !Matches(k, Lower(description), ParseReply(reply))
    ensures |Marked(d)| >= MinMatched
  {
    MarksFacts(Dedup(schema), Lower(description), ParseReply(reply));
  }

  /** `None` comes back exactly when fewer than five identifiers are mentioned. */
  lemma {:induction false} ExtractedNoneIffFewMarks(schema: seq<string>, description: string, reply: string)
    ensures var d := Marks(Dedup(schema), Lower(description), ParseReply(reply));
      Extracted(schema, description, reply).None? <==> |Marked(d)| < MinMatched
  {
    MarksFacts(Dedup(schema), Lower(description), ParseReply(reply));
  }

  /** More evidence never unmarks an identifier, and never lowers the count. */
  lemma {:induction false} MarksMonotone(keys: seq<string>, d1: string, p1: seq<string>, d2: string, p2: seq<string>)
    requires forall k :: Matches(k, d1, p1) ==> Matches(k, d2, p2)
    ensures var m1, m2 := Marks(keys, d1, p1), Marks(keys, d2, p2);
      |m1| == |m2| && (forall i :: 0 <= i < |m1| ==> m1[i].0 == m2[i].0 && m1[i].1 <= m2[i].1)
      && Total(m1) <= Total(m2)
  {
    var m1, m2 := Marks(keys, d1, p1), Marks(keys, d2, p2);
    assert forall i :: 0 <= i < |m1| ==> m1[i].1 <= m2[i].1;
    TotalMonotone(m1, m2);
  }

  /** Extending a result dict's evidence keeps every 1 and keeps the result a dict. */
  lemma {:induction false} ExtractedMonotone(schema: seq<string>, desc1: string, reply1: string, desc2: string, reply2: string)
    requires forall k :: Matches(k, Lower(desc1), ParseReply(reply1)) ==> Matches(k, Lower(desc2), ParseReply(reply2))
    requires Extracted(schema, desc1, reply1).Some?
    ensures Extracted(schema, desc2, reply2).Some?
    ensures forall k :: (Get(Extracted(schema, desc1, reply1).value, k) == Some(1)
      ==> Get(Extracted(schema, desc2, reply2).value, k) == Some(1))
  {
    MarksMonotone(Dedup(schema), Lower(desc1), ParseReply(reply1), Lower(desc2), ParseReply(reply2));
    MarksFacts(Dedup(schema), Lower(desc1), ParseReply(reply1));
    MarksFacts(Dedup(schema), Lower(desc2), ParseReply(reply2));
  }

  /** Appending text to the description never turns a 1 into a 0. */
  lemma {:induction false} AppendToDescription(schema: seq<string>, description: string, more: string, reply: string)
    requires Extracted(schema, description, reply).Some?
    ensures Extracted(schema, description + more, reply).Some?
    ensures forall k :: (Get(Extracted(schema, description, reply).value, k) == Some(1)
      ==> Get(Extracted(schema, description + more, reply).value, k) == Some(1))
  {
    LowerConcat(description, more);
    var phrases := ParseReply(reply);
    forall k | Matches(k, Lower(description), phrases)
      ensures Matches(k, Lower(description + more), phrases)
    {
      if Contains(Lower(description), CleanName(k)) {
        ContainsExtend(Lower(description), Lower(more), CleanName(k));
      }
    }
    ExtractedMonotone(schema, description, reply, description + more, reply);
  }

  /** Further `*`-separated phrases in the reply never turn a 1 into a 0. */
  lemma {:induction false} AppendToReply(schema: seq<string>, description: string, reply: string, more: string)
    requires Extracted(schema, description, reply).Some?
    ensures Extracted(schema, description, reply + "*" + more).Some?
    ensures forall k :: (Get(Extracted(schema, description, reply).value, k) == Some(1)
      ==> Get(Extracted(schema, description, reply + "*" + more).value, k) == Some(1))
  {
    ParseReplyConcat(reply, more);
    var p1 := ParseReply(reply);
    forall k | Matches(k, Lower(description), p1)
      ensures Matches(k, Lower(description), p1 + ParseReply(more))
    {
      if InSomePhrase(p1, CleanName(k)) {
        InSomePhraseExtend(p1, ParseReply(more), CleanName(k));
      }
    }
    ExtractedMonotone(schema, description, reply, description, reply + "*" + more);
  }

  // ---------------------------------------------------------------------------
  // The language model, the result bundle and the entry point

  /**
   * The language model as the pipeline sees it: its reply to the extraction
   * prompt for a lower-cased description, and its description of a
   * predicted disease.
   */
  datatype Advisor = Advisor(extract: string -> string, describe: Option<string> -> string)

  const AdviceText := "If you are experiencing symptoms related to this disease, please seek medical attention immediately. It's important to consult a healthcare professional for a proper diagnosis and treatment plan."
  const NoteText := "This information is generated by an AI model and should not replace professional medical advice."

  /** The dict `describe_disease` returns. */
  datatype Bundle = Bundle(predictedDisease: Option<string>, description: string, advice: string, note: string)

  /**
   * `describe_disease`: echoes the disease it was given, carries the model's
   * description of it, and the same advice and note every time.
   */
  function DescribeDisease(predicted: Option<string>, advisor: Advisor): (b: Bundle)
    ensures b.predictedDisease == predicted
    ensures b.description == advisor.describe(predicted)
    ensures b.advice == AdviceText && b.note == NoteText
  {
    Bundle(predicted, advisor.describe(predicted), AdviceText, NoteText)
  }

  /** The compiled workflow: extract, then predict, then describe. */
  function Workflow(description: string, models: seq<Classifier>, labels: seq<string>, advisor: Advisor)
    : Outcome<Option<Bundle>>
    requires |models| == 4
  {
    var symptoms := Extracted(ModelsApi.SymptomsList, description, advisor.extract(Lower(description)));
    match ModelsApi.Predicted(symptoms, models, labels)
    case Raised(e) => Raised(e)
    case Ok(disease) => Ok(Some(DescribeDisease(Some(disease), advisor)))
  }

  /**
   * `entry_point(input_type, input_value)`. `"predicted_disease"` describes the
   * value it is given; `"userinput"` runs the workflow on the text (a `None`
   * text fails at `.lower()`); any other type gives `None`.
   */
  method EntryPoint(inputType: string, inputValue: Option<string>, models: seq<Classifier>, labels: seq<string>,
                    advisor: Advisor) returns (r: Outcome<Option<Bundle>>)
    requires |models| == 4
    ensures inputType == "predicted_disease" ==> r == Ok(Some(DescribeDisease(inputValue, advisor)))
    ensures inputType == "userinput" && inputValue.None? ==> r == Raised(AttributeError)
    ensures inputType == "userinput" && inputValue.Some? ==> r == Workflow(inputValue.value, models, labels, advisor)
    ensures inputType != "predicted_disease" && inputType != "userinput" ==> r == Ok(None)
  {
    if inputType == "predicted_disease" {
      return Ok(Some(DescribeDisease(inputValue, advisor)));
    } else if inputType == "userinput" {
      if inputValue.None? {
        return Raised(AttributeError);
      }
      var description := inputValue.value;
      var symptoms := ExtractSymptoms(ModelsApi.SymptomsList, description, advisor.extract(Lower(description)));
      var disease := ModelsApi.PredictDisease(symptoms, models, labels);
      if disease.Raised? {
        return Raised(disease.error);
      }
      return Ok(Some(DescribeDisease(Some(disease.value), advisor)));
    }
    return Ok(None);
  }

  /**
   * A workflow that finishes shows the fixed advice and note, and as the
   * disease the insufficient-description message when the normaliser gave
   * `None`, otherwise one of the encoder's labels.
   */
  lemma {:induction false} WorkflowBundle(description: string, models: seq<Classifier>, labels: seq<string>, advisor: Advisor)
    requires |models| == 4
    requires Workflow(description, models, labels, advisor).Ok?
    ensures var b := Workflow(description, models, labels, advisor).value;
      b.Some? && b.value.advice == AdviceText && b.value.note == NoteText
      && b.value.predictedDisease.Some?
      && (Extracted(ModelsApi.SymptomsList, description, advisor.extract(Lower(description))).None?
          ==> b.value.predictedDisease.value == ModelsApi.NotSufficientMessage)
      && (Extracted(ModelsApi.SymptomsList, description, advisor.extract(Lower(description))).Some?
          ==> b.value.predictedDisease.value in labels)
  {
    var symptoms := Extracted(ModelsApi.SymptomsList, description, advisor.extract(Lower(description)));
    if symptoms.Some? {
      var row := FromDict(symptoms.value);
      var v := Vote.MostCommon(FirstVotes(models, row));
      assert ModelsApi.Predicted(symptoms, models, labels) == ModelsApi.InverseTransform(labels, v);
    }
  }

  /**
   * When no label of the encoder is the insufficient-description message, the
   * bundle names that message exactly when the normaliser gave `None`.
   */
  lemma WorkflowNamesMessageIffNone(description: string, models: seq<Classifier>, labels: seq<string>, advisor: Advisor)
    requires |models| == 4
    requires ModelsApi.NotSufficientMessage !in labels
    requires Workflow(description, models, labels, advisor).Ok?
    ensures var b := Workflow(description, models, labels, advisor).value;
      b.Some? && b.value.predictedDisease.Some?
      && (b.value.predictedDisease.value == ModelsApi.NotSufficientMessage
          <==> Extracted(ModelsApi.SymptomsList, description, advisor.extract(Lower(description))).None?)
  {
    WorkflowBundle(description, models, labels, advisor);
  }
}
