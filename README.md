# Word-translation (lexical trigger) feature of the Moses decoder

This project models `WordTranslationFeature` from moses/src/WordTranslationFeature.cpp and proves properties about the model.
The feature is a sparse decoder feature. On every hypothesis-extension step it walks the word alignment of the current phrase pair and handles each aligned word pair in turn:

- it skips non-terminal placeholders;
- it optionally skips pairs whose words start with a punctuation character;
- it maps out-of-vocabulary words to `OTHER` once a restricted vocabulary has been loaded;
- it adds 1 to a named sparse score for each feature it builds. There are three modes: the simple `wt_s~t` feature, source-context features (`wt_<s>,s~t` and one per other input word), and target-context features (`wt_s~<s>,t` and one per earlier target word).

The chart (hierarchical) entry point does the same over terminal-to-terminal alignments only, and emits simple-mode features only.

It is built in three layers:

- `Sparse.dfy` models the host accumulator `ScoreComponentCollection`. It is a class whose `sparse` field is a map from feature name to score. `SparsePlusEquals` updates that map in place. The file also has the reference definition `AddAll`, a run of +1 increments, and `Added`, which counts how often each name was added. It proves that the two agree.
- `WordTranslationSpec.dfy` states in pure functions which features one step emits, and in which order. The key definitions are:
  - `Feature`, rendered to its name by `Name`;
  - `Resolve`, the non-terminal, punctuation and vocabulary tests of a pair;
  - `SourceContext` and `TargetContext`, the context loops as folds;
  - `PhraseFeatures` and `ChartFeatures`, the whole step.

  An `Emission` carries the features emitted so far plus a flag. The flag says whether `std::string::at(0)` threw `std::out_of_range` on an empty word, which happens when the punctuation filter is on.
- `WordTranslation.dfy` is the imperative model. It has a class `WordTranslationFeature` with the fields the source updates (`m_vocabSource`, `m_vocabTarget`, `m_unrestricted`). `Load` fills the two sets in loops. `Evaluate` and `EvaluateChart` run the alignment loop and the two context loops, with one helper method per loop and one per loop turn, and add to the accumulator. Each evaluation method (`Evaluate`, `EvaluateChart` and every loop and loop-turn helper below them) is proved against the specification: its `ensures` says that the accumulator now equals the old accumulator with every emitted name added once (`Accumulated`), and that the method returns `false` exactly when the exception was raised. Three methods have other contracts: `Load` states its three fields and its result directly, `ResolvePair` returns exactly `Resolve` of its pair, and `AddFeature` is one `SparsePlusEquals` step, the accumulator plus one named increment. The increments made before an exception stay in the accumulator, as they do in the C++ code.
- `WordTranslationProperties.dfy` proves what the feature promises on top of that specification. A worked example, `EvaluateExample`, builds the object, loads two vocabularies and evaluates a step end to end.

Inputs that the C++ code reaches through host objects are passed as values:

- the input sentence, which the code reads from thread-local storage;
- the hypothesis' earlier target words, read through `Hypothesis::GetWord`;
- the phrase pair, its alignment and its start offsets.

## Model

| member | source | states |
|---|---|---|
| `Sparse.Plus` | moses/src/WordTranslationFeature.cpp:99 | Adding a score to one name changes only that name's entry and creates it if it was missing. |
| `Sparse.ScoreComponentCollection.SparsePlusEquals` | moses/src/WordTranslationFeature.cpp:99 | The accumulator after the call is the old one with the score added to that name. |
| `Sparse.AddAllAppend` | moses/src/WordTranslationFeature.cpp:99-185 | Running two runs of increments one after the other equals running their concatenation. |
| `Sparse.AddAllAdded` | moses/src/WordTranslationFeature.cpp:99-185 | After a run of increments, every name's score has grown by the number of times the name occurs in the run, and the key set has grown by exactly the names in the run. |
| `Sparse.AddedUnique` | moses/src/WordTranslationFeature.cpp:99-185 | Those counts fix the whole accumulator: it is the reference run of increments and nothing else. |
| `Sparse.AddedOnlyIncreases` | moses/src/WordTranslationFeature.cpp:99-185 | Scores never decrease. A name that is not added keeps its score and keeps being present or absent. |
| `WordTranslationSpec.SourceContextStep` | moses/src/WordTranslationFeature.cpp:115-147 | One more input position adds nothing at the pair's own position. It throws on an empty trigger when the filter is on, adds nothing for punctuation or an out-of-vocabulary trigger, and otherwise adds one trigger feature. |
| `WordTranslationSpec.TargetContextStep` | moses/src/WordTranslationFeature.cpp:163-187 | The same per-position case split for the earlier target words. |
| `WordTranslationSpec.SourceContextThrownSticks` | moses/src/WordTranslationFeature.cpp:115-124 | Once a source trigger has thrown, the source-context features over any longer prefix of the sentence are those at the throw. |
| `WordTranslationSpec.TargetContextThrownSticks` | moses/src/WordTranslationFeature.cpp:163-171 | Once a target trigger has thrown, later target positions add nothing. |
| `WordTranslationSpec.PhraseThrownSticks` | moses/src/WordTranslationFeature.cpp:61-81 | Once an alignment point has thrown, later alignment points add nothing. |
| `WordTranslationSpec.ChartThrownSticks` | moses/src/WordTranslationFeature.cpp:201-221 | Once a terminal alignment point has thrown, later points add nothing. |
| `WordTranslationSpec.SourceContextLoopEnd` | moses/src/WordTranslationFeature.cpp:115-147 | Where the source-context loop stops, at the end of the sentence or at a throw, the accumulator holds what the whole loop emits. |
| `WordTranslationSpec.TargetContextLoopEnd` | moses/src/WordTranslationFeature.cpp:163-187 | Where the target-context loop stops, at the current target position or at a throw, the accumulator holds what the whole loop emits. |
| `WordTranslationSpec.PhraseLoopEnd` | moses/src/WordTranslationFeature.cpp:61-189 | Where the alignment-point loop stops, at the last point or at a throw, the accumulator holds what the whole step emits. |
| `WordTranslationSpec.ChartLoopEnd` | moses/src/WordTranslationFeature.cpp:201-221 | The same for the terminal-alignment loop of the chart step. |
| `WordTranslation.WordTranslationFeature.Load` | moses/src/WordTranslationFeature.cpp:13-46 | Returns true exactly when both files open. Every source line is inserted once the source file opens, even if the target file then fails to open. Every target line is inserted only when both open. The restricted flag is set exactly on success and is otherwise unchanged. |
| `WordTranslation.WordTranslationFeature.Evaluate` | moses/src/WordTranslationFeature.cpp:54-190 | The accumulator gains exactly one increment per name that the phrase-based specification emits, in order. The result is false exactly when `at(0)` threw. |
| `WordTranslation.WordTranslationFeature.EvaluateChart` | moses/src/WordTranslationFeature.cpp:192-240 | The same, for the chart specification over the terminal alignment. |
| `WordTranslation.EvaluatePhrase` | moses/src/WordTranslationFeature.cpp:61-189 | The alignment-point loop adds what all points emit. An exception ends it. |
| `WordTranslation.PhraseStep` | moses/src/WordTranslationFeature.cpp:62-188 | One turn of that loop extends the accumulated prefix by one point. |
| `WordTranslation.EvaluatePoint` | moses/src/WordTranslationFeature.cpp:62-188 | One alignment point adds what the specification says the point emits. |
| `WordTranslation.ResolvePair` | moses/src/WordTranslationFeature.cpp:65-88 | The non-terminal test, the punctuation test and the vocabulary restriction give the specification's `Resolve`. |
| `WordTranslation.EvaluateResolved` | moses/src/WordTranslationFeature.cpp:66-81 | A skipped pair adds nothing. An empty word throws. An aligned pair adds its features. |
| `WordTranslation.EvaluateAligned` | moses/src/WordTranslationFeature.cpp:90-188 | The source-side modes, then the target-side modes. |
| `WordTranslation.AddSourceSide` | moses/src/WordTranslationFeature.cpp:90-147 | The simple feature, the source sentence-start feature and the source triggers. |
| `WordTranslation.AddTargetSide` | moses/src/WordTranslationFeature.cpp:149-188 | The target sentence-start feature and the target triggers. |
| `WordTranslation.AddSourceContext` | moses/src/WordTranslationFeature.cpp:115-147 | The loop over all input positions adds the specification's source-context features. An exception ends it. |
| `WordTranslation.AddSourceTrigger` | moses/src/WordTranslationFeature.cpp:116-146 | One input position extends the accumulated source-context prefix. |
| `WordTranslation.AddTargetContext` | moses/src/WordTranslationFeature.cpp:163-187 | The loop over target positions strictly before the pair's adds the specification's target-context features. |
| `WordTranslation.AddTargetTrigger` | moses/src/WordTranslationFeature.cpp:164-186 | One target position extends the accumulated target-context prefix. |
| `WordTranslation.EvaluateChartRule` | moses/src/WordTranslationFeature.cpp:201-240 | The terminal-alignment loop adds what all terminal points emit. |
| `WordTranslation.ChartStep` | moses/src/WordTranslationFeature.cpp:202-240 | One turn of that loop. |
| `WordTranslation.EvaluateChartPoint` | moses/src/WordTranslationFeature.cpp:202-240 | One terminal point goes through the same tests and then adds the simple feature only. |
| `WordTranslation.AddFeature` | moses/src/WordTranslationFeature.cpp:92-99 | Building a name and adding 1 to it is one step of the reference run of increments. |
| `WordTranslationProperties.ResolveCases` | moses/src/WordTranslationFeature.cpp:66-88 | In both directions, each outcome and its condition: non-terminal skip (decided by the source factor type for both words), exception on an empty word, punctuation skip (source word first), or kept with the restricted words. |
| `WordTranslationProperties.RestrictedWords` | moses/src/WordTranslationFeature.cpp:83-88 | In restricted mode a word comes out as a vocabulary word or `OTHER`. It is unchanged exactly when it is unrestricted, in the vocabulary, or already `OTHER`. |
| `WordTranslationProperties.NonTerminalPointEmitsNothing` | moses/src/WordTranslationFeature.cpp:66-68 | A point with a non-terminal on either side emits nothing when the source factor type is 0. |
| `WordTranslationProperties.PunctuationPointEmitsNothing` | moses/src/WordTranslationFeature.cpp:71-81 | With the filter on, a point whose source word, or else whose target word, starts with punctuation emits nothing. |
| `WordTranslationProperties.EmptyWordPointThrows` | moses/src/WordTranslationFeature.cpp:71-81 | With the filter on, an empty word raises the exception with nothing emitted for the point. It also ends the step. |
| `WordTranslationProperties.PointThrowEndsStep` | moses/src/WordTranslationFeature.cpp:61-189 | A point that throws ends the step. The step's features are then those of the earlier points plus what that point emitted before the exception. |
| `WordTranslationProperties.PointThrowStep` | moses/src/WordTranslationFeature.cpp:61-189 | The loop turn at a point that throws, after earlier points that did not, yields the earlier features followed by the point's, with the exception. |
| `WordTranslationProperties.PointThrowLater` | moses/src/WordTranslationFeature.cpp:61-189 | After such a throw, every longer prefix of the alignment yields that same emission. |
| `WordTranslationProperties.AlignedLayout` | moses/src/WordTranslationFeature.cpp:90-188 | An aligned pair emits, in order: the simple feature, the source sentence-start feature, the source triggers and, unless a source trigger threw, the target sentence-start feature and the target triggers. |
| `WordTranslationProperties.SourceContextTriggers` | moses/src/WordTranslationFeature.cpp:115-147 | Source context emits at most one feature per position. Each feature is a trigger feature for the pair whose trigger is unrestricted or in the vocabulary. |
| `WordTranslationProperties.TargetContextTriggers` | moses/src/WordTranslationFeature.cpp:163-187 | The same for target context. |
| `WordTranslationProperties.SimpleFeatureOnce` | moses/src/WordTranslationFeature.cpp:90-100 | Simple mode adds exactly one simple feature, first, named `wt_s~t`. Without simple mode the pair adds none. |
| `WordTranslationProperties.SourceBoundaryAtStart` | moses/src/WordTranslationFeature.cpp:101-112 | `wt_<s>,s~t` is added exactly when source context is on and the global source index is 0. It is the only feature of its kind. |
| `WordTranslationProperties.TargetBoundaryAtStart` | moses/src/WordTranslationFeature.cpp:149-160 | `wt_s~<s>,t` is added exactly when target context is on, the global target index is 0 and no source trigger threw. |
| `WordTranslationProperties.SourceContextUnfiltered` | moses/src/WordTranslationFeature.cpp:115-147 | With an unrestricted vocabulary and no punctuation filter, every other input position gives one feature, in order. That is N−1 features when the pair lies inside the sentence. The trigger comes first exactly when its position is before the pair's. |
| `WordTranslationProperties.TargetContextUnfiltered` | moses/src/WordTranslationFeature.cpp:163-187 | With an unrestricted vocabulary and no filter, each target position before the pair's gives one feature, in order. A pair at position 0 gets none. |
| `WordTranslationProperties.TriggerNames` | moses/src/WordTranslationFeature.cpp:131-185 | The names of the trigger features: the earlier source word first, and on the target side the trigger before the target word. |
| `WordTranslationProperties.ChartOnlySimple` | moses/src/WordTranslationFeature.cpp:192-240 | The chart step emits only simple features, at most one per terminal point, and none without simple mode. |
| `WordTranslationProperties.ChartPointIsPhrasePoint` | moses/src/WordTranslationFeature.cpp:202-240 | A terminal point emits what the phrase-based point emits with both context modes off. |
| `WordTranslationProperties.ChartIsPhraseWithoutContext` | moses/src/WordTranslationFeature.cpp:192-240 | The chart step emits exactly what the phrase-based step emits over the terminal alignment with both context modes off, so it applies the same skip, punctuation and restriction rules. |
| `WordTranslationProperties.AccumulatedCounts` | moses/src/WordTranslationFeature.cpp:99-185 | After evaluation every name's score is its old score plus the number of times the step emitted it. Scores never decrease, and names that were not emitted are untouched. |
| `WordTranslationProperties.ExamplePoints` | moses/src/WordTranslationFeature.cpp:83-100 | With vocabularies {the, cat} and {le, chat}, `the`→`le` emits `wt_the~le` and `sat`→`assis` emits `wt_OTHER~OTHER`. |
| `WordTranslationProperties.ExampleFeatures` | moses/src/WordTranslationFeature.cpp:61-100 | The example step emits those two features in alignment order. |
| `WordTranslationProperties.ExampleNames` | moses/src/WordTranslationFeature.cpp:83-100 | The two example features are named `wt_the~le` and `wt_OTHER~OTHER`. |
| `WordTranslationProperties.ExampleScores` | moses/src/WordTranslationFeature.cpp:94-99 | Adding those two features to an empty accumulator gives a score of 1 for each name. |
| `WordTranslationProperties.ExampleOutcome` | moses/src/WordTranslationFeature.cpp:61-100 | Any accumulator run of the example step from empty ends without an exception and holds exactly those two scores. |
| `WordTranslationProperties.EvaluateExample` | moses/src/WordTranslationFeature.cpp:13-100 | The object is constructed, loaded and evaluated into an empty accumulator. The result is `{wt_the~le: 1, wt_OTHER~OTHER: 1}`, with no exception. |

## Left out

- moses/src/CrossingFeature.h: it only declares `CrossingFeatureData::operator<`, `LoadDataFile`, `IsCrossing` and the `Evaluate` methods. Without their bodies there is no behaviour to model.
- WordTranslationFeature.h is not part of this model. The constructor's starting state (empty vocabularies, unrestricted mode, the settings as given) is assumed, not taken from source.
- File I/O in `Load`: `ifstream`, `getline` and the `cerr` messages. Each file is a `VocabularyFile`: either it cannot be opened, or it is the sequence of lines `getline` would deliver.
- `InitializeForInput` and `ThreadLocalStorage` (per-thread plumbing, moses/src/WordTranslationFeature.cpp:48-52). The input sentence is an explicit parameter of `Evaluate`.
- Host classes (`Hypothesis`, `ChartHypothesis`, `TargetPhrase`, `AlignmentInfo`, `Factor`, `WordsRange`) are not modelled. They become sequences of `Word`, start offsets, a sequence of index pairs and, for target context, the hypothesis' target words as `output`.
- Scores are floats in the source. Every increment is exactly 1, so the model uses `int`.
- The commented-out context code in `EvaluateChart` (moses/src/WordTranslationFeature.cpp:241-335) is dead code and is not modelled.
- The `featureID` parameter of `EvaluateChart` is accepted and unused, as in the source.
- `WordTranslation.WordTranslationFeature.Evaluate` requires more than the code reads (`WellFormed`): every alignment index in range, the configured source factor on every word of the source phrase and of the input, the configured target factor on every word of the target phrase and of the output, whatever the mode, and the target phrase inside the output. The code itself reads a factor only from aligned words that passed the non-terminal test (moses/src/WordTranslationFeature.cpp:69-70), from input words in source-context mode (moses/src/WordTranslationFeature.cpp:117) and from output words before the current one in target-context mode (moses/src/WordTranslationFeature.cpp:164). Inputs on which an unread word lacks a configured factor are therefore not covered. The host guarantees that every word of a sentence and of a phrase carries all configured factors, and the source dereferences `GetFactor(...)` with no check, so a missing factor or an out-of-range index is undefined behaviour there, not a handled case.
- `WordTranslation.WordTranslationFeature.EvaluateChart` likewise requires (`ChartWellFormed`) in-range terminal alignment indices, the configured source factor on every word of the rule's source side and the configured target factor on every word of its target side, while the code reads them only from aligned words that passed the non-terminal test (moses/src/WordTranslationFeature.cpp:209-210). The same host guarantee applies.
- `WordTranslationSpec.PhraseHypothesis` does not tie `output` to the current target phrase: the host places the phrase at `targetStart` in the hypothesis' target words, but the model requires only that it fit there (`WellFormed`). The target-context loop reads `output` as given.
- Strings are byte strings, as `std::string` is: a `char` of the model stands for one byte, `w[0]` is the byte that `at(0)` returns, the punctuation set is a set of bytes, and feature names are concatenated byte by byte. No character encoding such as UTF-8 is decoded, so a multi-byte character is several `char`s and the punctuation test sees only its first byte, as in the source.
- In these places the model follows the code as written, which may surprise a reader:
  - `Load` inserts the source lines before it tries to open the target file, so a target file that fails to open leaves the source set filled, though restricted mode stays off.
  - The non-terminal test of the target word uses the source factor type.
  - Context trigger words get only the punctuation test: no non-terminal test, and an out-of-vocabulary trigger is dropped rather than mapped to `OTHER`.
  - An empty word under the punctuation filter raises an exception that ends the call. The increments made before it are kept.
- The host's `ScoreComponentCollection` has dense scores as well; only the sparse map this feature writes is modelled.
