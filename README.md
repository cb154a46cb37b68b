# Symptom-to-disease triage, modelled in Dafny

This project models the prediction core of a Streamlit triage application.
A user describes symptoms in one of two ways: by answering a 132-symptom form,
or by typing free text that a language model helps map onto the same symptom
schema. Four pre-trained classifiers each vote for a disease index. The
plurality vote, ties going to the index seen first, is decoded into a disease
name. The language model then describes that disease, and the description is
shown with a fixed piece of advice and a fixed disclaimer.

The model has these modules:

- `Wrappers`: `Option`, Python exception kinds, and `Outcome` (a value or a raised exception).
- `Seqs`: counting, first-occurrence de-duplication, last occurrence.
- `Text`: the Python string operations the core relies on: `lower`, `strip`, `split('*')`, `replace('_', ' ')`, and `in` on strings.
- `PyDict`: a Python `dict` from names to ints, as an insertion-ordered association list. It models `d[k] = v`, the lookup of one value per key that pandas does when it builds a frame from the dict, `sum(d.values())` and the `{k: v for k in ks}` comprehension.
- `DataFrame`: the one-row frame handed to each classifier, and the classifiers themselves as functions.
- `Vote`: `Counter(xs).most_common(1)[0][0]`.
- `ModelsApi`: `AI_ML/modelsapi.py`, which holds the schema and the ensemble `predict_disease`.
- `RootModelsApi`: the older `modelsapi.py`, which holds a hard-coded class table, a bounds check, and a different way of flattening predictions.
- `AiAdvice`: `AI_ML/aiAdvice.py`, which holds the free-text normaliser, `describe_disease`, the extract→predict→describe workflow, and `entry_point`.
- `Session`: the `show_popup` entry of Streamlit's per-session state. It is a class whose field survives from one run of a page script to the next.
- `PredictPage`: what both prediction pages share. This covers:
  - the form's dict;
  - the count gate;
  - the popup flag;
  - the text tab's blank check;
  - one run of a page.
- `PredictPageOne` and `PredictPageFour`: the two page files, each with its own answer encoding, threshold and warnings.

Each loop in the source is a method with loop invariants. `MarkMentioned`, `Fill` and `CollectAnswers` are proved equal to a specification function, and the lemmas state the promised properties about that function. `CollectPredictions` and `CollectRaw` state directly what they give for each model. `ExtractSymptoms` and both `PredictDisease` methods have no loop of their own: they call those methods and are proved equal to their specification functions.

Some inputs are parameters of the model:

- The four trained classifiers become `Row -> seq<int>` functions, giving the flattened output of `predict`.
- The label encoder becomes its class list.
- The language model becomes an `Advisor`. This is a pair of functions: one from the lower-cased description to the extraction reply, and one from the predicted disease to the description text.
- The Streamlit widgets become the answers, the submit flags and the text box contents.

## Model

| member | source | states |
|---|---|---|
| Seqs.Count | AI_ML/modelsapi.py:107 | the number of votes for a value never exceeds the number of votes, and is positive exactly when the value was voted |
| Seqs.CountIsMultiplicity | AI_ML/modelsapi.py:107 | the vote count of a value equals its multiplicity in the multiset of votes |
| Seqs.Dedup | AI_ML/aiAdvice.py:62 | the keys a dict gets from a name list: each name once, and nothing that was not in the list |
| Seqs.DedupOfDistinct | AI_ML/aiAdvice.py:62 | a name list without repeats keys the dict in exactly its own order |
| Seqs.DedupFirstSeen | AI_ML/modelsapi.py:107 | distinct values come in first-seen order: the k-th distinct value occurs no later than any occurrence of the j-th, for k <= j |
| Seqs.LastIndex | pages/1_Predict_Disease.py:59-64 | the position of the last assignment to a key: it holds the key, and no later position does |
| Seqs.LastIndexSnoc | pages/1_Predict_Disease.py:59-64 | a new assignment becomes the last one for its key and leaves the other keys' last assignments alone |
| Seqs.DedupSnoc | pages/1_Predict_Disease.py:59-64 | assigning a name adds a key only if the name is new, and adds it at the end |
| Text.Lower | AI_ML/aiAdvice.py:65 | `lower()` keeps the length and lower-cases each character on its own |
| Text.LowerIdempotent | AI_ML/aiAdvice.py:73 | lower-casing twice gives the same as once |
| Text.LowerConcat | AI_ML/aiAdvice.py:65 | lower-casing a concatenation lower-cases each part |
| Text.LowerKeepsSpace | AI_ML/aiAdvice.py:73 | lower-casing neither creates nor removes whitespace |
| Text.ReplaceChar | AI_ML/aiAdvice.py:79 | `replace` of one character keeps the length and swaps exactly the matching characters |
| Text.CleanName | AI_ML/aiAdvice.py:79 | each character of the name is kept, with `_` turned into a space and then lower-cased; so the result has the original length, no underscore and no upper-case letter |
| Text.Contains | AI_ML/aiAdvice.py:80 | definition: `needle in hay`, the needle occurring at some position of the text |
| Text.ContainsExtend | AI_ML/aiAdvice.py:80 | text added before or after a string never hides a substring it contained |
| Text.LStrip | AI_ML/aiAdvice.py:73 | left strip removes exactly a whitespace prefix and stops at a non-space character |
| Text.RStrip | AI_ML/aiAdvice.py:73 | right strip removes exactly a whitespace suffix and stops at a non-space character |
| Text.Strip | AI_ML/aiAdvice.py:73 | `strip()` is a slice of the input whose cut-off ends are whitespace and whose own ends are not |
| Text.StripEmptyIffBlank | pages/1_Predict_Disease.py:116 | `not s.strip()` holds exactly when every character of `s` is whitespace |
| Text.StripOfStripped | AI_ML/aiAdvice.py:73 | stripping a string that has no whitespace at either end changes nothing |
| Text.Split | AI_ML/aiAdvice.py:72 | `split('*')` gives at least one piece, and no piece holds the separator |
| Text.JoinSplit | AI_ML/aiAdvice.py:72 | joining the pieces of a split with the separator restores the reply |
| Text.SplitJoin | AI_ML/aiAdvice.py:72 | splitting a join of separator-free pieces gives the pieces back |
| Text.SplitNoSep | AI_ML/aiAdvice.py:72 | a reply without `*` is one piece |
| Text.SplitConcat | AI_ML/aiAdvice.py:72 | splitting two texts joined by `*` gives the pieces of the first, then those of the second |
| PyDict.Keys | AI_ML/modelsapi.py:96 | `keys()` lists the dict's keys in insertion order, one per entry |
| PyDict.Get | modelsapi.py:49 | a lookup finds nothing exactly when the key is absent, and otherwise finds the value stored under it |
| PyDict.Put | pages/1_Predict_Disease.py:64 | `d[k] = v` keeps the keys distinct, updates an existing key in place or appends a new one, makes `k` map to `v`, and leaves every other key's value alone |
| PyDict.TotalOfBinary | AI_ML/aiAdvice.py:84 | for a 0/1 dict, `sum(d.values())` is the number of keys set to 1 and lies between 0 and the number of keys |
| PyDict.TotalMonotone | AI_ML/aiAdvice.py:84 | raising values entry by entry never lowers the sum |
| PyDict.Total | AI_ML/aiAdvice.py:84 | definition: `sum(d.values())`, the sum of the values in dict order (also pages/1_Predict_Disease.py:75) |
| PyDict.FromKeys | AI_ML/aiAdvice.py:62 | the comprehension gives one entry per distinct name, in first-seen order, all with the given value |
| DataFrame.FromDict | AI_ML/modelsapi.py:96 | the frame's columns are the dict's keys in order, and each cell holds that key's value |
| DataFrame.Select | modelsapi.py:49 | the frame's columns are exactly the given column list, and each cell holds the dict's value for that column or is missing |
| DataFrame.FirstVotes | AI_ML/modelsapi.py:100-104 | one vote per model, in model order, each the first element of that model's flattened prediction |
| Vote.FirstMaxIndex | AI_ML/modelsapi.py:107 | the scan picks a candidate of greatest count, and every earlier candidate has a strictly smaller count |
| Vote.MostCommon | AI_ML/modelsapi.py:107 | the result was voted, no value has more votes, and among the values with as many votes it was voted first |
| Vote.FirstPluralityUnique | AI_ML/modelsapi.py:107 | only one value meets that description |
| Vote.MostCommonCharacterised | AI_ML/modelsapi.py:107 | a value is the most common one if and only if it is the first-seen plurality |
| Vote.OrderIndependentWhenUnique | AI_ML/modelsapi.py:107 | a unique plurality winner does not depend on the order of the votes |
| Vote.TieGoesToFirstSeen | AI_ML/modelsapi.py:107 | a 2-2 tie between 2 and 3, with 2 voted first, gives 2 |
| Vote.MajorityWins | AI_ML/modelsapi.py:107 | three votes for 5 against one for 12 give 5 |
| Vote.PairBeatsSingles | AI_ML/modelsapi.py:107 | two votes for 999 against single votes for 3 and 4 give 999 |
| ModelsApi.SchemaLength | AI_ML/modelsapi.py:26-63 | the schema has 132 symptom names |
| ModelsApi.InverseTransform | AI_ML/modelsapi.py:110 | decoding succeeds exactly for an index into the class list and gives that class; any other index raises `ValueError` |
| ModelsApi.CollectPredictions | AI_ML/modelsapi.py:98-104 | the loop gives one vote per model, each the first element of its output, and raises `IndexError` exactly when some model's output is empty |
| ModelsApi.PredictDisease | AI_ML/modelsapi.py:78-112 | `predict_disease` returns the insufficient-symptoms message for `None`; otherwise it raises on an empty model output, or decodes the plurality vote |
| ModelsApi.Predicted | AI_ML/modelsapi.py:78-112 | definition: the message for `None`; otherwise the frame in dict order, each model's first output, the most common vote and its decoding, with the first exception raised |
| ModelsApi.NoneShortCircuits | AI_ML/modelsapi.py:90-91 | a `None` input gives the fixed message, whatever the models |
| ModelsApi.PredictionIsPluralityLabel | AI_ML/modelsapi.py:93-112 | a successful prediction reads the columns in dict order and is the label of the first-seen plurality of the four votes |
| ModelsApi.PredictionErrors | AI_ML/modelsapi.py:100-110 | an empty model output raises `IndexError`, and a winning vote outside the class list raises `ValueError` |
| RootModelsApi.ClassesShape | modelsapi.py:21-32 | the class table has 41 diseases, with index 5 "Peptic ulcer disease" and index 11 "Migraine" |
| RootModelsApi.LookupLabel | modelsapi.py:75-78 | indices in the table give their class; an index at or past the end gives "Invalid index"; Python's negative indexing wraps from -len to -1 and raises `IndexError` below that |
| RootModelsApi.LookupOfClassIndex | modelsapi.py:75-78 | for a non-negative index, the result is "Invalid index" exactly when the index is past the table, and a table class otherwise |
| RootModelsApi.CollectRaw | modelsapi.py:51-65 | each stored prediction has at most one element: it is empty exactly when the model's output was, and otherwise holds the output's first element |
| RootModelsApi.ToInts | modelsapi.py:68 | `int()` succeeds on every prediction only when none is empty and keeps each first element; an empty one raises `TypeError` |
| RootModelsApi.PredictDisease | modelsapi.py:35-80 | the older `predict_disease` raises `TypeError` on an empty model output and `IndexError` when there are no models; otherwise it looks up the plurality vote |
| RootModelsApi.Predicted | modelsapi.py:35-80 | definition: the frame over the given columns, each model's `flatten()[:1]`, `int()` of each, the most common vote and its table lookup, with the first exception raised |
| RootModelsApi.PredictionOfClassIndices | modelsapi.py:49-80 | with non-negative votes, the result is the plurality's class, or "Invalid index" when it is past the table |
| RootModelsApi.MajorityScenario | modelsapi.py:72-78 | votes 5,5,5,12 give "Peptic ulcer disease" |
| RootModelsApi.OutOfTableScenario | modelsapi.py:72-78 | votes 999,999,3,4 give "Invalid index" rather than an exception |
| AiAdvice.CleanPieceFacts | AI_ML/aiAdvice.py:73 | a piece without `*` contributes only non-empty, lower-case, stripped phrases |
| AiAdvice.CleanPiecesFacts | AI_ML/aiAdvice.py:73 | every cleaned piece is a phrase |
| AiAdvice.ParseReplyPhrases | AI_ML/aiAdvice.py:72-73 | every phrase parsed from the reply is non-empty, lower-case, stripped and free of `*` |
| AiAdvice.ParseReply | AI_ML/aiAdvice.py:72-73 | definition: the reply split at `*`, each non-blank piece stripped and lower-cased, in order |
| Seqs.FlatMapConcat | AI_ML/aiAdvice.py:73 | cleaning (a flat map over the pieces) distributes over concatenated piece lists |
| AiAdvice.ParseReplyConcat | AI_ML/aiAdvice.py:72-73 | parsing two replies joined by `*` gives the phrases of the first, then those of the second |
| Seqs.FlatMapSound | AI_ML/aiAdvice.py:73 | every cleaned phrase comes from some piece |
| Seqs.FlatMapComplete | AI_ML/aiAdvice.py:73 | every non-blank piece contributes its cleaned phrase |
| AiAdvice.CleanPiecesMembers | AI_ML/aiAdvice.py:72-73 | a string is a parsed phrase if and only if some `*`-separated piece of the reply strips to non-blank text that lower-cases to it |
| AiAdvice.InSomePhraseExtend | AI_ML/aiAdvice.py:80 | more phrases never hide a match |
| AiAdvice.Marks | AI_ML/aiAdvice.py:78-81 | the marked dict has exactly the given keys, in order |
| AiAdvice.Matches | AI_ML/aiAdvice.py:79-80 | definition: the cleaned name occurs in the lower-cased description or in some parsed phrase |
| AiAdvice.Extracted | AI_ML/aiAdvice.py:59-94 | definition: the schema's keys marked by the match rule, or `None` when fewer than 5 are marked |
| AiAdvice.MarkMentioned | AI_ML/aiAdvice.py:62-81 | the zero dict followed by the marking loop leaves exactly the symptom-by-symptom marks |
| AiAdvice.ExtractSymptoms | AI_ML/aiAdvice.py:37-94 | the normaliser's loop returns exactly the marks, or `None` below the threshold |
| AiAdvice.MarksFacts | AI_ML/aiAdvice.py:78-84 | a key is 1 exactly when its cleaned name is in the lower-cased text or inside a phrase, and 0 otherwise; the sum counts the keys set to 1 |
| AiAdvice.ExtractedDict | AI_ML/aiAdvice.py:59-94 | a returned dict has every schema name as a key, 0/1 values set exactly by the match rule, and at least 5 ones |
| AiAdvice.ExtractedNoneIffFewMarks | AI_ML/aiAdvice.py:84-92 | the normaliser returns `None` exactly when fewer than 5 symptoms are marked |
| AiAdvice.MarksMonotone | AI_ML/aiAdvice.py:78-84 | more matching never unmarks a key and never lowers the count |
| AiAdvice.ExtractedMonotone | AI_ML/aiAdvice.py:78-94 | when matching only grows, an accepted description stays accepted and keeps its marks |
| AiAdvice.AppendToDescription | AI_ML/aiAdvice.py:65-94 | with the same model reply, appending text to an accepted description keeps it accepted with all its marks |
| AiAdvice.AppendToReply | AI_ML/aiAdvice.py:72-94 | for the same description, a longer model reply (more `*` items) keeps an accepted description accepted with all its marks |
| AiAdvice.DescribeDisease | AI_ML/aiAdvice.py:99-123 | the bundle echoes the disease it was given, carries the model's description of it, and always the same advice and note |
| AiAdvice.EntryPoint | AI_ML/aiAdvice.py:146-162 | `predicted_disease` goes straight to the description; `userinput` runs extract, predict, describe (a `None` text raises `AttributeError`); any other type gives `None` |
| AiAdvice.WorkflowBundle | AI_ML/aiAdvice.py:128-162 | a finished workflow yields a bundle with the fixed advice and note, naming the insufficient-symptoms message when extraction gave `None` and one of the encoder's labels otherwise |
| AiAdvice.WorkflowNamesMessageIffNone | AI_ML/aiAdvice.py:128-162 | when no encoder label is the insufficient-symptoms message, the bundle names that message if and only if extraction gave `None` |
| AiAdvice.Workflow | AI_ML/aiAdvice.py:128-143 | definition: extract from the lower-cased description and the model's reply, predict, then describe the predicted disease; an exception from prediction ends it |
| Session.Initialised | pages/1_Predict_Disease.py:47-48 | after initialisation the flag is present: a present value is kept and an absent one becomes False |
| Session.SessionState.InitShowPopup | pages/1_Predict_Disease.py:47-48 | the flag is set to False only if it was absent |
| Session.SessionState.SetShowPopup | pages/1_Predict_Disease.py:88 | a prediction raises the flag |
| PredictPage.Filled | pages/1_Predict_Disease.py:53-64 | the form's dict has no repeated key and its keys are the schema names in first-seen order |
| PredictPage.FilledFacts | pages/1_Predict_Disease.py:59-64 | each schema name holds the value of its last selection |
| PredictPage.FilledBinary | pages/04_predict_disease.py:39-52 | with 0/1 selections the dict is 0/1 and the count the gate reads is the number of symptoms set to 1 |
| PredictPage.Fill | pages/04_predict_disease.py:33-41 | the form's loop builds exactly that dict |
| PredictPage.Warning | pages/1_Predict_Disease.py:75-83 | the gate lets a count through exactly when it is non-zero and at least the threshold |
| PredictPage.ManualTab | pages/1_Predict_Disease.py:47-99 | one run of the manual tab leaves the flag and shows the view that the gate, the prediction and the flag dictate |
| PredictPage.FlagAfter | pages/1_Predict_Disease.py:47-88 | definition: the flag initialised, then raised when this run made a prediction that succeeded |
| PredictPage.ManualShown | pages/1_Predict_Disease.py:47-99 | definition: the gate's warning on a submit, an exception from the prediction, else the expander with the description of this run's prediction when the flag is up |
| PredictPage.PopupIffFlag | pages/1_Predict_Disease.py:91-93 | the expander is open exactly when the flag is up at the end of the run |
| PredictPage.FlagOnlyRises | pages/1_Predict_Disease.py:47-91 | the flag is always present after a run; once up it stays up; it goes up only when a submit passed the gate and the prediction succeeded |
| PredictPage.GateOutcome | pages/1_Predict_Disease.py:73-88 | without a submit there is no warning; a count of 0 gives the first warning, a count below the threshold the second; a count at or above it predicts and opens the expander on that disease, or propagates the exception |
| PredictPage.PopupDiseaseWasPredicted | pages/1_Predict_Disease.py:70-93 | an expander naming a disease comes only from a submit that passed the gate and for which `predict_disease` returned that disease |
| PredictPage.StalePopupDescribesNone | pages/04_predict_disease.py:47-70 | with the flag already up, a run that does not predict still opens the expander and describes `None` |
| PredictPage.TextTab | pages/1_Predict_Disease.py:115-126 | the text tab is idle without a submit, warns on a blank description, and otherwise shows the workflow's bundle (the same code sits at pages/04_predict_disease.py:92-103) |
| PredictPage.TextShown | pages/1_Predict_Disease.py:115-126 | definition: idle without a submit, the warning for a blank description, else what the workflow run reports |
| PredictPage.Reported | pages/1_Predict_Disease.py:120-126 | a workflow run is shown as its bundle; it raises what the run raised, or `TypeError` when the run left no bundle, and never shows the blank warning |
| PredictPage.TextTabWarnsIffBlank | pages/1_Predict_Disease.py:115-117 | on a submit, the warning appears if and only if the description is empty or all whitespace |
| PredictPage.TextTabRunsWorkflow | pages/1_Predict_Disease.py:115-120 | any other description shows the workflow's bundle, or raises what the workflow raised |
| PredictPage.RunPage | pages/1_Predict_Disease.py:25-126 | one run of the page: the manual tab, then the text tab, unless the manual tab raised; a text-tab exception is reported after the manual view already shown |
| PredictPage.PageShown | pages/1_Predict_Disease.py:25-126 | definition: a manual-tab exception ends the run; otherwise the manual view together with the text tab's view or exception |
| PredictPageOne.GateThresholds | pages/1_Predict_Disease.py:75-83 | a count of 0 gives "select more than one symptom", 1 to 9 gives "at least 10", and 10 or more predicts |
| PredictPageOne.AnswerBit | pages/1_Predict_Disease.py:62-64 | a selection is 0 or 1, and 1 exactly for "Yes" |
| PredictPageOne.Bits | pages/1_Predict_Disease.py:59-64 | one value per answer, in order |
| PredictPageOne.CollectAnswers | pages/1_Predict_Disease.py:53-64 | the form's loop builds the schema-keyed dict of the answers' bits |
| PredictPageOne.AnswersMarked | pages/1_Predict_Disease.py:59-75 | every schema symptom is a key, the values are 0/1, a symptom is 1 exactly when its answer is "Yes", and the count is the number of "Yes" symptoms |
| PredictPageOne.PredictDiseasePage | pages/1_Predict_Disease.py:25-126 | one run of page one: its answers, its gate of 0 and fewer than 10, the popup flag and the text tab |
| PredictPageFour.GateThresholds | pages/04_predict_disease.py:52-59 | a count of 0 gives "at least one symptom", exactly 1 gives "at least 2", and 2 or more predicts |
| PredictPageFour.PicksMarked | pages/04_predict_disease.py:39-52 | every schema symptom is a key holding its pick, and with 0/1 picks the count is the number of symptoms set to 1 |
| PredictPageFour.PredictDiseasePage | pages/04_predict_disease.py:7-103 | one run of page four: its picks, its gate of 0 and fewer than 2, the popup flag and the text tab |

## Left out

- The trained classifiers, the label encoder and the model files become parameters. Loading them with `joblib` and running XGBoost, LightGBM, SVM and CatBoost is not modelled. A prediction is the flattened integer output of `predict`; non-array and floating-point outputs are not modelled.
- A classifier that raises is not modelled. Nothing in the core catches an exception from `model.predict`, so such an exception would end `predict_disease`, the workflow and the page run unchanged.
- The Groq language model becomes a parameter (`Advisor`): its replies are functions of the lower-cased description and of the predicted disease. The prompt texts, retries and network failures are not modelled.
- `state['messages']` in `describe_disease` and `entry_point` is a local list that is never read back, so it is not modelled. The debug `print` is not modelled either.
- The LangGraph `Graph` machinery is modelled only by what the compiled workflow computes: extract, then predict, then describe. Its state dict is not.
- `Text.Lower` handles ASCII letters only. Python's full Unicode case mapping is not modelled.
- The schema's 132 names are not proved pairwise distinct in Dafny. Every result is stated for `Dedup` of the schema, so it stays right either way.
- The `ModelsApi` schema constant is the list at AI_ML/modelsapi.py:26-63. The 41-class list in that file is commented out and not modelled; the encoder's classes are a parameter.
- `modelsapi.py` reads `columns` from a module global that only its `__main__` block defines. The model takes the column list as a parameter. The `__main__` demo input and its print are not modelled.
- In `modelsapi.py` the bounds check catches only indices at or past the end. A negative index follows Python list indexing: it wraps for -41 to -1 and raises `IndexError` below that.
- In `AI_ML/modelsapi.py` an index outside the encoder's classes raises `ValueError` from `inverse_transform`. There is no "Invalid index" fallback on that path, and the model says so.
- The normaliser's docstring speaks of fewer than 10 symptoms, but the code returns `None` below 5. The model follows the code (`MinMatched = 5`).
- All Streamlit rendering is not modelled: the CSS background, the iframe, titles, columns, forms, `clear_on_submit`, the markdown of the bundle and the expander's layout. The pages are modelled through what they compute and show: warnings, the bundle, and exceptions that end a run.
- Streamlit's widget keys, reruns and page switching are outside the model. Each run of a page script is one call of `PredictDiseasePage`, and the session object carries the flag between runs.
- The label text a selectbox shows (`symptom.replace('_', ' ').capitalize()`) is display only and not modelled.
- The health-data dashboards, the about pages, the home page and `app.py` are not part of this model.
