# Semantic labeling of data source columns, modelled in Dafny

The system labels the columns of tabular data sources with semantic types
(for example `Person---name`).

- A `Column` accumulates a profile of its values: the values, their word
  and character lengths, the text and number parts, the value histogram
  and a sample of numbers.
- A `Source` holds its columns by key.
- The `Indexer` writes the profile of every labelled column to a search
  index.
- `MyRandomForest` builds its training table by holding out each source
  of a data set in turn. The source's labelled columns are matched
  against the sources that follow it in a circular list (the "rotation
  pool"). It then fits a logistic regression on that table. Its
  `predict` scores a column's candidate rows and sorts them by
  probability.
- `Column.predict_type` groups those probabilities, rounded, into score
  buckets, highest first.
- The `SemanticLabeler` predicts the types of a single column or of every
  column of a folder. It turns buckets into (score, label) pairs
  normalised to sum to one, and a prediction that raises gives
  `(1.0, 'fail')`. It also evaluates itself with a leave-k-out rotation:
  each labelled column is scored by the reciprocal rank of its true type
  (threshold 0.01), and each test size reports the mean score, which the
  source calls the F-measure.
- The web service checks file names and request bodies before calling the
  labeler.

The Dafny modules follow the source files:

| module | file | form |
|---|---|---|
| `Common` | (Python built-ins) | `Option`, `Result`/`Outcome` for raised exceptions, and the string operations used: strip, split, join, `in`, `replace`, ASCII encoding, `rsplit` |
| `Ranking` | main/random_forest.py (`predict`) | pure functions over rows |
| `ColumnProfile` | lib/column.py | `class Column` with methods over its fields |
| `Sources` | lib/source.py | `class Source` over an ordered column map |
| `Indexing` | search/indexer.py | `class Indexer` over a map-backed store |
| `Rotation` | the pool slice shared by main/random_forest.py and main/semantic_labeler.py | pure functions and lemmas |
| `Training` | main/random_forest.py (`generate_train_data`, `train`) | `class RandomForest`, with loops as methods proved against pure slot functions |
| `Labeling` | main/semantic_labeler.py | `class SemanticLabeler`, with loops proved against pure evaluation functions |
| `Server` | server.py | pure functions |

Helpers whose code is not part of this model are parameters with no
assumed properties. They are bundled in `ColumnProfile.Helpers` and
`Training.Searcher`:

- `split_number_text`, `not_allowed_chars` substitution, `get_distribution`
  and `get_index_name` from lib/utils;
- numpy's `percentile` and `choice`;
- `round(·, 2)` and `locale.atof`;
- `get_test_results`;
- the searcher queries;
- scikit-learn's `fit` and `predict_proba`.

A Python exception becomes an `Err`/`Fail` carrying an `Error` value that
names its cause.

Two behaviours of the code that the model keeps as written:

- `prepare_data` keeps `word_lengths` and `char_lengths` when their 25th
  and 75th percentiles are equal, and empties them when the two differ
  (lib/column.py:101-104).
- `is_numeric` divides by the token count, so it raises
  `ZeroDivisionError` on a column with no tokens (lib/column.py:148-150).

`percentile` is taken as total. On a column with no values at all numpy
raises in `prepare_data` (lib/column.py:101) before the column is marked
prepared; the model prepares such a column and fails later, in
`is_numeric`, with the ZeroDivision above (see "## Left out").

## Model

| member | source | states |
|---|---|---|
| Common.TrimStartMeaning | lib/column.py:44 | the leading-whitespace trim keeps a suffix not starting with whitespace and drops only whitespace |
| Common.TrimEndMeaning | lib/column.py:44 | the trailing-whitespace trim keeps a prefix not ending with whitespace and drops only whitespace |
| Common.StripMeaning | lib/column.py:44 | `strip()` returns a contiguous piece of the value, with no whitespace at either end, found by dropping only whitespace around it |
| Common.StripAllSpace | lib/column.py:44-47 | a value made only of whitespace strips to `""`, so add_value drops it |
| Common.RemoveChar | lib/column.py:19 | `name.replace("#", "")` holds no `#`, keeps every other character, and is the name itself when it had none |
| Common.AsciiOnly | lib/column.py:50 | encoding to ASCII with "ignore" keeps exactly the characters below 128, and is the identity on ASCII text |
| Common.Contains | lib/column.py:64 | `"full" in name` holds exactly when "full" occurs at some position |
| Common.Split | lib/column.py:61 | `split(" ")` gives at least one piece, and no piece holds the separator |
| Common.JoinSplit | lib/source.py:232-233 | joining the pieces of a split with the separator gives back the string |
| Common.SplitJoin | lib/source.py:232-233 | splitting a join of separator-free pieces gives back the pieces |
| Common.Head | main/random_forest.py:104 | `split("!")[0]` is the prefix before the first `!`, or the whole string when there is none |
| Common.Last | lib/source.py:85-86 | `split("/")[-1]` is the text after the last `/`, or the whole string |
| Common.LastPieceUnique | lib/source.py:85-86 | a string has exactly one last `/`-segment |
| Common.MaxReal | lib/column.py:85 | `max()` of a non-empty list is one of its elements and no element exceeds it |
| Ranking.TypeOf | main/random_forest.py:104 | a candidate name's type is its prefix before the first `!`, and contains no `!` |
| Ranking.Impute | main/random_forest.py:90 | replacing inf, -inf and NaN by 0 keeps every finite feature and sets every other one to 0, one output per input |
| Ranking.ImputeRow | main/random_forest.py:90 | an imputed row keeps its name and target, and all its features are finite |
| Ranking.Score | main/random_forest.py:89-104 | each row gets the classifier's probability on its imputed features, and a truth flag saying whether its type equals the true type |
| Ranking.InsertByProb | main/random_forest.py:107 | inserting into a table sorted by probability, highest first, keeps it sorted, adds exactly that row, and leaves either that row or the old first row in front |
| Ranking.ConsByProb | main/random_forest.py:107 | a row whose probability is at least that of a sorted table's first row can go in front and the table stays sorted |
| Ranking.SortByProb | main/random_forest.py:107 | `sort_values(by="prob", ascending=False)` gives a permutation of the table, sorted by probability, highest first |
| Ranking.Predict | main/random_forest.py:85-121 | succeeds exactly for a fitted model and a non-empty row list; fails with no model (`predict_proba` looked up on None first), otherwise with a missing-key error on an empty row list, and with not-fitted for a model whose fit never completed; on success it gives one `{prob, name}` per row, with probabilities non-increasing, taken from a sorted permutation of the scored rows |
| Ranking.PredictKeepsEveryRow | main/random_forest.py:89-118 | every input row appears in the result table with its own probability and truth flag |
| ColumnProfile.CleanValue | lib/column.py:40-58 | a value is dropped exactly when it is None, `""`, or strips to `""` or `"NULL"`; otherwise it is stripped, made ASCII and sanitised |
| ColumnProfile.Words | lib/column.py:61 | the word set of a value is non-empty and no word holds a space |
| ColumnProfile.TextPart | lib/column.py:75-82 | a kept value adds one textual entry exactly when its text part is non-empty, and that entry is the text part |
| ColumnProfile.NumericPart | lib/column.py:84-85 | a kept value adds one numeric entry exactly when it holds numbers, and that entry is the largest of them |
| ColumnProfile.BlobIsJoin | lib/column.py:78-79 | `value_text` is a space followed by the text parts joined by spaces |
| ColumnProfile.KeepIfConstant | lib/column.py:101-104 | a length list is kept when its 25th and 75th percentiles are equal and emptied otherwise |
| ColumnProfile.Histogram | lib/column.py:106-108 | the histogram is the distribution when it has at most 20 buckets and empty otherwise; it never has more than 20 |
| ColumnProfile.Sample | lib/column.py:99-114 | the sample has `min(200, len(numeric_list))` elements, each drawn from the numeric list |
| ColumnProfile.Column.constructor | lib/column.py:16-32 | a new column has its name without `#`, the given source name, every list and set empty, and is not prepared |
| ColumnProfile.Column.AddValue | lib/column.py:40-85 | a dropped value changes nothing; otherwise the value's words join `word_set` first; a column without a source name then raises; a "full" source's column holding over 500 values stops; any other column appends the value, its word count, its character count, its text part and its largest number; the profile stays consistent |
| ColumnProfile.Column.Absorb | lib/column.py:61-85 | the same, for a value already cleaned |
| ColumnProfile.Column.Store | lib/column.py:67-85 | a kept value extends each accumulated list by exactly its own entry, keeping the lists parallel and the textual set and text in step |
| ColumnProfile.Column.AppendValue | lib/column.py:67-72 | the value, its word count and its character count are appended together, so the three lists stay parallel |
| ColumnProfile.Column.AppendText | lib/column.py:78-82 | a text part is appended to `textual_list`, and `textual_set` and `value_text` stay in step |
| ColumnProfile.Column.PrepareData | lib/column.py:88-115 | `word2vec` becomes `[]` and the column is prepared; the first call derives the lengths, histogram and sample; a second call changes no other field; the values and text are untouched |
| ColumnProfile.Column.Derive | lib/column.py:98-115 | the first preparation keeps or empties each length list by its quartiles, bounds the histogram and samples the numbers |
| ColumnProfile.ColumnState.IsNumeric | lib/column.py:148-150 | the result is the share of textual tokens, in [0, 1]; it is 1 exactly when there are no numbers and 0 exactly when there is no text; with no tokens at all it raises ZeroDivision |
| ColumnProfile.PrepareIdempotent | lib/column.py:88-115 | preparing a column state twice is preparing it once; a prepared state has `is_prepared` set and `word2vec` empty, keeps its tokens and semantic type, and differs from the original only in the lengths, histogram, sample and those two flags |
| ColumnProfile.Column.ToJson | lib/column.py:117-134 | the column is prepared first, then documented with its is_numeric ratio; it raises exactly when the column has no tokens |
| ColumnProfile.Column.GenerateCandidateTypes | lib/column.py:172-174 | the result is get_test_results on the column's document, and it raises where to_json raises |
| ColumnProfile.Column.PredictType | lib/column.py:152-170 | succeeds exactly when the column has tokens and a source name and the model's prediction succeeds; the result is a non-empty list of buckets grouping the predictions by rounded probability |
| ColumnProfile.LabelsAtEmpty | lib/column.py:167-169 | a score collects no label exactly when no prediction rounds to it |
| ColumnProfile.GroupsKeepEveryPrediction | lib/column.py:163-170 | the buckets hold exactly one label per prediction row |
| ColumnProfile.CountOverAll | lib/column.py:167-169 | with distinct keys covering every rounded score, each prediction is counted once |
| ColumnProfile.InsertDescending | lib/column.py:170 | inserting a new key keeps the keys strictly descending and adds exactly that key |
| ColumnProfile.SortDescending | lib/column.py:170 | `sorted(..., reverse=True)` of distinct keys is strictly descending, with the same keys |
| ColumnProfile.CollectExisting | lib/column.py:168-169 | appending to an existing score's list keeps the dictionary equal to the grouping of the predictions seen |
| ColumnProfile.CollectNew | lib/column.py:168-169 | a new score opens a list with just that label, and the dictionary stays equal to the grouping of the predictions seen |
| ColumnProfile.Collect | lib/column.py:167-169 | the defaultdict maps each rounded probability, in order of first appearance, to the labels of exactly the predictions rounding to it |
| ColumnProfile.GroupByScore | lib/column.py:163-170 | one bucket per distinct rounded probability, strictly descending, each holding in order the labels of exactly the predictions with that score; every prediction is in a bucket; the label total equals the number of predictions |
| Sources.TypeLabelMeaning | lib/source.py:85-88 | covers the function `Sources.TypeLabel`: the type label is the last segment of the domain URI, `---`, then the last segment of the type URI, and it is the only string of that form |
| Sources.LastSegments | lib/source.py:232-233 | each part is reduced to its last `/`-segment, in order |
| Sources.TextFileLabelAgrees | lib/source.py:232-233 | covers the function `Sources.TextFileTypeLabel`: the text-file label of `domain|type` is the label set_semantic_type derives from the same two URIs |
| Sources.RowKey | lib/source.py:216 | a gold row names a column exactly when it has more than one field, and that name is its second field, stripped |
| Sources.LastMatch | lib/source.py:215-217 | the last matching row is found, or it is reported that no row matches |
| Sources.GoldTypeStep | lib/source.py:215-217 | a later gold row naming a column overrides the type that earlier rows gave it |
| Sources.StoreIndexed | lib/source.py:121 | storing at a key appends it to the key order when it is new and keeps the order otherwise |
| Sources.Source.constructor | lib/source.py:37-41 | a new source has its name, the index name without disallowed characters and an empty column map |
| Sources.Source.Assign | lib/source.py:88 | only the column at the key gets the type; the other columns keep theirs |
| Sources.Source.SetSemanticType | lib/source.py:83-90 | the column whose key is the name without spaces gets the URIs' label, and without such a column nothing changes |
| Sources.Source.ReadSemanticTypeFromGold | lib/source.py:210-217 | each column's type becomes that of the last gold row naming it, and stays as it was when no row does |
| Sources.Source.ApplyGoldRow | lib/source.py:215-217 | one row sets the stripped first field as the type of the existing column it names, and changes nothing else |
| Sources.Source.Kept | lib/source.py:56-59 | the written keys all belong to the column map |
| Sources.Source.KeptMembers | lib/source.py:96-101 | without filter_unknown every key is written in order; with it, exactly the keys whose column has a semantic type |
| Sources.Source.FilterUnknown | lib/source.py:96-101 | the method returns the kept keys in column-map order |
| Sources.Source.WriteColumnMap | lib/source.py:53-65 | the header row, then for each kept column in order one row with its key, name, source name and semantic type |
| Sources.Source.CsvRowCells | lib/source.py:109-116 | cell j of data row i comes from the j-th kept column |
| Sources.Source.TableRows | lib/source.py:109-116 | there are n data rows and row i is the i-th row of the table |
| Sources.Source.HeaderRowNames | lib/source.py:103-104 | header j is the name of the j-th kept column |
| Sources.Source.LongestIsMax | lib/source.py:107-108 | the row count without a limit is `max()` of the kept columns' lengths: every kept column is at most that long and one is exactly that long |
| Sources.Source.WriteCsvFile | lib/source.py:92-116 | the rows written equal the CSV of the columns kept by filter_unknown |
| Sources.Source.CsvFileCells | lib/source.py:102-116 | `max()` of an empty list raises exactly when there is no limit and no kept column; otherwise the header names the kept columns and there are `limit` rows (or the longest length), whose cell (i, j) is value i of column j, or `""` past that column's end |
| Sources.Source.NoValueLost | lib/source.py:107-116 | without a limit, every value of every kept column appears in its cell |
| Sources.Source.WriteKept | lib/source.py:102-116 | the CSV of the kept columns, with the empty-max error |
| Sources.Source.Headers | lib/source.py:103-108 | the header row and the longest column's length |
| Sources.Source.DataRows | lib/source.py:109-116 | data rows 0 to limit - 1, in order |
| Sources.Source.RowAt | lib/source.py:110-115 | one data row: value i of each kept column, or `""` |
| Sources.Source.Put | lib/source.py:121 | storing a column under a key updates only that key; a new key goes to the end of the order |
| Sources.Source.ReadDataFromDict | lib/source.py:118-123 | the call completes exactly when no header has a value add_value keeps (`FirstKept` finds none), and otherwise stops at the first header that has one, whose first kept value raises on the None source name; the keys become the old ones followed by the new headers in order of first appearance, every handled header holds a new column, empty except the one that raised, every key not among the headers keeps its old column, and every column not there before is new |
| Sources.Source.AddHeader | lib/source.py:120-123 | one pass of the loop: it completes exactly when the header's values are all dropped; the header gets a new column, appended to the key order when new; every other key keeps its column, and every header seen before keeps its own empty column |
| Sources.HeadersOfAll | lib/source.py:120 | every header of the first n entries is among the headers collected for them |
| Sources.FirstKept | lib/source.py:120-123 | the position it finds is an entry of the dictionary whose values are not all dropped |
| Sources.FirstKeptMeaning | lib/source.py:120-123 | no position is found exactly when every entry's values are all dropped, and every entry before the position found has all its values dropped |
| Sources.KeysAfterMeaning | lib/source.py:120-121 | assigning `column_map[header]` for the headers in turn leaves as keys the old keys and the headers, the old order kept as a prefix with new headers after it in order of first appearance, and no key repeated |
| Sources.Source.AddEntry | lib/source.py:120-123 | one header gets a new `Column(header)`, stored in key order; it completes exactly when all its values are dropped |
| Sources.Source.Fill | lib/source.py:122-123 | adding values to a column without a source name completes exactly when all of them are dropped, and then leaves the column unchanged |
| Indexing.AppendOnlyExtends | search/indexer.py:54-55 | writing documents to one index extends that index by exactly those documents and leaves every other index as it was |
| Indexing.AppendTwice | search/indexer.py:74-76 | writing a and then b is writing a + b |
| Indexing.Labelled | search/indexer.py:74-75 | the positions written all lie among the keys visited |
| Indexing.LabelledMembers | search/indexer.py:74-76 | a key is written exactly when its column's semantic type is truthy, each once and in key order |
| Indexing.IndexRunFails | search/indexer.py:74-76 | index_source raises at a labelled column that has no tokens once prepared, and every labelled column before it has tokens |
| Indexing.IndexRunStates | search/indexer.py:74-76 | the loop leaves every labelled column it reached (up to the one that raised) prepared and every other column as it was |
| Indexing.DocumentsSnoc | search/indexer.py:75-76 | one more labelled column with tokens adds exactly its document after the earlier ones |
| Indexing.IndexRunDocs | search/indexer.py:74-76 | the documents written are those of the labelled columns before the one that raised (all of them when none did), in key order, each from the column's prepared state |
| Indexing.IndexRunStopped | search/indexer.py:74-76 | once a column has raised, no later key changes anything |
| Indexing.IndexThenPrepare | search/indexer.py:74-76 | after an index_source that did not raise, preparing every column gives the same states as preparing the columns as they were before it |
| Indexing.Indexer.constructor | search/indexer.py:7-9 | the indexer starts with the given index naming and store |
| Indexing.Indexer.IndexColumn | search/indexer.py:50-55 | the column is prepared; it succeeds exactly when it has tokens, and then exactly one document (to_json with `source` overwritten, filed under the source name) is added to the config's index; on failure the store is unchanged |
| Indexing.Indexer.DeleteColumn | search/indexer.py:78-83 | returns True exactly when the index existed; the index is removed and nothing else changes |
| Indexing.Indexer.Clean | search/indexer.py:85-94 | without a backend error every index is removed and True returned; a backend error is re-raised with the prefixed message, and only the indexes the backend deleted before raising are gone |
| Indexing.Indexer.IndexSource | search/indexer.py:57-76 | the columns end in the states of the indexing run from their states on entry (labelled columns reached are prepared, the rest unchanged); the documents added to the config's index, and nothing else, are the run's documents; it raises ZeroDivision exactly when the run stops at a labelled column without tokens |
| Indexing.Indexer.IndexKey | search/indexer.py:74-76 | one pass of the loop advances the indexing run by one key: the column states and the index follow that run, and it raises exactly when the run stops at this key |
| Indexing.Indexer.WriteKey | search/indexer.py:75-76 | the labelled column is prepared; its document is appended exactly when it has tokens, and otherwise it raises ZeroDivision with the store unchanged; no other column changes |
| Rotation.Bound | main/semantic_labeler.py:222 | a Python slice bound is clamped into [0, n] and is unchanged inside it |
| Rotation.PoolLayout | main/semantic_labeler.py:216-222 | for size ≤ N, the pool `double_name_list[idx+1 : idx+size+1]` has size names: those after idx, wrapping round |
| Rotation.PositionIsOffset | main/semantic_labeler.py:222 | the t-th pool member sits at position j exactly when t is j's distance after idx; the held-out source is at distance N - 1 |
| Rotation.HeldOutExcluded | main/semantic_labeler.py:216-222 | for size < N and distinct index names, the pool has exactly size names and never the held-out source's own |
| Rotation.HeldOutIncludedFromFullSize | main/semantic_labeler.py:222 | from size N on, the held-out source is in its own pool |
| Rotation.InPoolIff | main/semantic_labeler.py:222 | name j is in idx's pool exactly when it lies fewer than size places after idx |
| Rotation.EveryNameInSizePools | main/semantic_labeler.py:218-222 | over one full rotation with size < N, every source is in exactly size pools |
| Rotation.OffsetsBelowCount | main/semantic_labeler.py:221-222 | closed form of the number of held-out positions whose pool reaches a given source |
| Training.LayoutOf | main/random_forest.py:30-33 | one layout (index name, key order, column map) per source, in order |
| Training.LayoutsOf | main/random_forest.py:30 | a layout list for each data set, of the same length as its source list |
| Training.TrainColumn | main/random_forest.py:38-44 | a labelled column's candidate rows against the pool; it succeeds exactly when the column has tokens; the column is prepared, its view is unchanged, and the document the rows are built from is to_json's body for the prepared column |
| Training.TrainKey | main/random_forest.py:37-44 | a key adds the candidate rows of its column when it is labelled and nothing otherwise |
| Training.TrainSource | main/random_forest.py:36-44 | the rows of one held-out source equal the rows of its labelled columns in key order; it fails exactly when one of them has no tokens |
| Training.TrainHeldOut | main/random_forest.py:33-44 | the held-out source's columns are matched against its pool `double_name_list[idx+1 : idx+size+1]` |
| Training.TrainNext | main/random_forest.py:33-44 | one pass of the held-out loop appends that source's rows to those of the sources before it |
| Training.TrainSize | main/random_forest.py:32-44 | the rows of one train size are those of every source held out in turn |
| Training.TrainDataSet | main/random_forest.py:29-44 | the rows of a data set are those of every train size in turn; it fails exactly when some labelled column has no tokens |
| Training.ColumnSlotsMembers | main/random_forest.py:37-38 | a source contributes exactly its labelled columns, each against that source's pool |
| Training.SizeSlotsMembers | main/random_forest.py:33-38 | a train size contributes each labelled column of each source, against the pool of its own source |
| Training.HeldOutOfItsPool | main/random_forest.py:31-34 | for size < N and distinct index names, no column is matched against a pool holding its own source, and every pool has size sources |
| Training.SlotsCount | main/random_forest.py:32-44 | every labelled column is matched once per train size |
| Training.ImputeTable | main/random_forest.py:54-55 | the imputed table keeps every row's name, target and feature count, and all its features are finite |
| Training.ImputeTableIdempotent | main/random_forest.py:55 | imputing twice is imputing once |
| Training.TrainNamed | main/random_forest.py:27-44 | a data set missing from dataset_map raises KeyError; otherwise its table is generated from an empty train_data |
| Training.TrainDataSets | main/random_forest.py:26-45 | generation fails at the first data set that does not pass; otherwise it returns the rows of the LAST data set only |
| Training.RandomForest.constructor | main/random_forest.py:16-22 | a new forest holds its data sets and dataset_map, and no model |
| Training.RandomForest.GenerateTrainData | main/random_forest.py:24-45 | generate_train_data as TrainDataSets states, over the sources as they were; no column's data changes |
| Training.RandomForest.Train | main/random_forest.py:47-75 | the stored table is used as loaded; otherwise the generated table is used with inf and NaN imputed to 0, and a generation error leaves the model as it was; the model becomes an unfitted LogisticRegression, then an empty table raises KeyError, and otherwise the model is the fitted one unless fit raises |
| Training.RandomForest.Fit | main/random_forest.py:59-67 | the model is replaced by an unfitted one first; an empty table, which has no feature columns, raises KeyError; otherwise the model is the fitted one exactly when fit succeeds |
| Labeling.AllPreds | main/semantic_labeler.py:191-193 | all_preds is the flattening of the buckets: one (score, label) pair per label, in bucket order |
| Labeling.FlattenCount | main/semantic_labeler.py:191-193 | there is one pair per label of the buckets |
| Labeling.FlattenAt | main/semantic_labeler.py:191-193 | label j of bucket i is paired with bucket i's score, after the labels of the earlier buckets |
| Labeling.FlattenMembers | main/semantic_labeler.py:191-193 | a pair occurs exactly when its label is in a bucket with its score |
| Labeling.Normalise | main/semantic_labeler.py:195-199 | one pair per input pair, with the same labels in the same order |
| Labeling.NormalisedSumsToOne | main/semantic_labeler.py:194-197 | with a positive total, the normalised scores sum to 1 |
| Labeling.NormaliseIdempotent | main/semantic_labeler.py:195-199 | normalising twice is normalising once (the zero-sum branch leaves the scores as they are) |
| Labeling.NormalisedBounded | main/semantic_labeler.py:195-197 | non-negative scores with a positive total normalise into [0, 1] |
| Labeling.FirstWith | main/semantic_labeler.py:237-242 | the first bucket holding the true type, or a report that no bucket holds it |
| Labeling.RankBefore | main/semantic_labeler.py:235-244 | the rank starts at 1 and never falls below it |
| Labeling.RankWalk | main/semantic_labeler.py:233-247 | the walk with found, rank and rank_score returns the rank score of the true type, and raises on an empty bucket list |
| Labeling.RankScoreBounded | main/semantic_labeler.py:236-247 | a rank score lies in [0, 1] |
| Labeling.RankGrows | main/semantic_labeler.py:243-244 | the rank never falls as the walk goes down the buckets |
| Labeling.EarlierRanksHigher | main/semantic_labeler.py:237-244 | a true type found in an earlier bucket above the threshold scores at least as well as one found later |
| Labeling.Ranks | main/semantic_labeler.py:226-252 | one rank score per labelled column, or the first error |
| Labeling.RanksBounded | main/semantic_labeler.py:236-252 | every rank score of a round lies in [0, 1] |
| Labeling.EvaluateBounded | main/semantic_labeler.py:251-258 | every accumulated rank-score sum lies between 0 and its count, and every F-measure is in [0, 1] |
| Labeling.MeasureBounded | main/semantic_labeler.py:251-258 | one more round keeps the sums within their counts and the F-measures in [0, 1] |
| Labeling.EvaluateCounts | main/semantic_labeler.py:218-252 | one F-measure per test size; each size's count is its number of occurrences in test_sizes times the number of labelled columns |
| Labeling.AddCounts | main/semantic_labeler.py:251-252 | one more round adds exactly the round's column count to its size's counter |
| Labeling.NothingLabelled | main/semantic_labeler.py:254-258 | with no labelled column, the first F-measure divides by a zero count |
| Labeling.EvaluateErr | main/semantic_labeler.py:218-258 | an error before the last test size is the evaluation's error |
| Labeling.EvaluateStops | main/semantic_labeler.py:218-258 | an error at some test size ends the evaluation with that error |
| Labeling.EvalColumn | main/semantic_labeler.py:227-247 | a labelled column's score is predict_type against its pool, then the rank walk |
| Labeling.SourceStep | main/semantic_labeler.py:226-252 | an unlabelled column adds no score, a labelled one adds its own score, and an error ends the source's loop |
| Labeling.EvalSource | main/semantic_labeler.py:226-252 | the loop over one source's columns returns the sum and number of its labelled columns' rank scores, or the first error |
| Labeling.EvalHeldOut | main/semantic_labeler.py:221-252 | the held-out source is scored against the pool `double_name_list[idx+1 : idx+size+1]` |
| Labeling.EvalSize | main/semantic_labeler.py:218-252 | the sum and count of the rank scores of one test size, over every source held out in turn |
| Labeling.HeldOutRound | main/semantic_labeler.py:221-252 | one held-out source scored against its pool: its rank scores follow those of the sources before it, adding their sum and count to the running ones, or what it raises is the outcome of the whole test size |
| Labeling.HeldOutTally | main/semantic_labeler.py:221-252 | the same step on values: the running rank scores grow by this source's, with sum and count growing by its tally, or its error is the size's error |
| Labeling.HeldOutAdvance | main/semantic_labeler.py:221-252 | one more held-out source appends its rank scores, or its error ends the round |
| Labeling.SizesStep | main/semantic_labeler.py:218-258 | one more test size adds its round to its accumulators and then takes its F-measure |
| Labeling.SizeRound | main/semantic_labeler.py:218-258 | one pass over a test size gives the evaluation of the sizes up to and including it |
| Labeling.EvalSizes | main/semantic_labeler.py:218-258 | the loop over test_sizes returns one F-measure per size, or the first error |
| Labeling.ScoreColumn | main/semantic_labeler.py:188-203 | the scores are the normalised pairs of the buckets predict_type returns; any exception predict_type raises gives `[(1.0, 'fail')]` |
| Labeling.ReportColumn | main/semantic_labeler.py:179-205 | the column at key j is prepared and its entry carries the source's name, the column's name and true label, and its scores against the source's own index; the earlier columns and their entries are unchanged |
| Labeling.ReportColumns | main/semantic_labeler.py:179-205 | one entry per column of the source, in column-map order, each scored as ReportColumn states; every column ends in the prepared form of its state on entry |
| Labeling.SemanticLabeler.constructor | main/semantic_labeler.py:19-24 | a new labeler has no data sets, no class map and no model |
| Labeling.SemanticLabeler.Reset | main/semantic_labeler.py:26-32 | dataset_map and file_class_map are emptied and the model is forgotten, even when clean raises; the index is cleaned, or clean's error is re-raised with only the indexes it deleted gone |
| Labeling.SemanticLabeler.StoreFolder | main/semantic_labeler.py:82 | the folder's sources are stored under its name |
| Labeling.SemanticLabeler.TrainRandomForest | main/semantic_labeler.py:95-98 | a new forest on the data sets and dataset_map is stored, even when training raises, and it is trained as RandomForest.Train states |
| Labeling.SemanticLabeler.PredictSemanticTypeForColumn | main/semantic_labeler.py:111-155 | without a model it raises and changes nothing; otherwise it returns folder name `""` and one entry with the column's source name, name, true label and its scores against the whole index |
| Labeling.SemanticLabeler.PredictSource | main/semantic_labeler.py:175-205 | save writes to the source's index exactly the indexing run's documents, from the columns as they were on entry; if it raised, the columns are as that run left them and the error is ZeroDivision; otherwise every column ends prepared and there is one reported entry per column, in order, scored against that index |
| Labeling.SemanticLabeler.PredictFolderSemanticTypes | main/semantic_labeler.py:157-207 | it raises first when there is no model and then when the folder is not in dataset_map, in both cases leaving the index untouched; otherwise it returns one entry per column of every source, in order, each naming its source |
| Labeling.SemanticLabeler.PredictSources | main/semantic_labeler.py:175-205 | the sources' entries in order: as many as the columns of all sources, each with its own source's name |
| Labeling.SemanticLabeler.PredictAt | main/semantic_labeler.py:175-205 | one source of the folder, with the same store, column and entry guarantees as PredictSource, and every source of the folder kept consistent |
| Labeling.SemanticLabeler.TestSemanticTypes | main/semantic_labeler.py:209-258 | a data set missing from dataset_map raises KeyError; otherwise the result is the F-measure of every test size, as the evaluation over the data set's sources defines it: the values the source writes to `file_write`, since the method itself returns None |
| Server.LastDot | server.py:132 | the position of the last `.`, or a report that there is none |
| Server.Extension | server.py:132 | there is an extension exactly when the name has a `.`; it is the text after the last `.` and contains no `.` |
| Server.ExtensionOf | server.py:132 | whatever precedes the last dot, the extension of `base.ext` is `ext` |
| Server.AllowedFileMeaning | server.py:130-132 | a file is allowed exactly when it has a dot whose following text has no dot and is an allowed extension |
| Server.LastExtensionOnly | server.py:132 | `a.tar.gz` is allowed by `gz` and not by `tar.gz` |
| Server.TrailingDot | server.py:132 | a name ending in `.` has extension `""` |
| Server.CheckTrain | server.py:349-360 | /train rejects, in order: missing JSON, then missing folder or size, then a folder that is not a list, then a size that is not a list; it trains exactly when every check passes |
| Server.CheckColumn | server.py:208-215 | a body that is not JSON raises; one lacking header or values is rejected; otherwise the column is built from header, values and source, with source None when absent |
| Server.AbsentSourceIsNull | server.py:210-213 | an absent source and a null source build the same column |
| Server.TrainIgnoresOtherKeys | server.py:349-360 | keys other than folder and size do not change what /train does |

## Left out

- Flask routing, HTTP responses, logging, `print` and timing (`running_time`) are not modelled. They are I/O. Of the `file_write` log only the F-measures of test_semantic_types are modelled, as the result of `Labeling.SemanticLabeler.TestSemanticTypes`.
- The raw file readers of lib/source.py are not modelled: encoding probing and the CSV, JSON, XML and text-file parsers. Gold files and dictionaries are taken as already parsed rows. `read_data_from_wc_csv` deletes keys while iterating and is not modelled either.
- `read_data_sources` is not modelled beyond its last step (`StoreFolder`). It depends on directory listings.
- `write_data_sources` is not modelled. It only chooses file paths for `write_csv_file` and `write_column_map`, which are modelled as the rows they write.
- `train_semantic_types` is not modelled. It depends on `init_analyzers`, which configures the search backend.
- `test_semantic_types_from_2_sets` and `read_class_type_from_csv` are not modelled. They read `classes.csv`.
- `read_json_to_column` is not modelled. It reads fields that `to_json` does not write.
- `init_analyzers` is not modelled. It is Elasticsearch configuration.
- `MyRandomForest.save` and `load` are not modelled. Pickle persistence becomes the `stored` parameter of `Train`.
- `to_csv` writes are not modelled. They are debug output.
- Probabilities, scores and ratios are reals. Floating-point rounding is not modelled, and `round(·, 2)`, `percentile`, `choice` and `locale.atof` are uninterpreted functions.
- The search backend is a map from index name to documents. Analyzers, scoring and the searcher queries are uninterpreted functions of the index name, the text and the pool.
- `Indexing.Indexer.DeleteColumn`: search/indexer.py:81 calls `es.delete(index=...)`, the single-document delete, which also needs a document type and id; taken literally that call raises a TypeError whenever the index exists. The model takes it as the index deletion the method's name and its `True` result describe.
- `ColumnProfile.Sample`: `numpy.random.choice` is an index function, so only the length and membership of the sample are stated.
- `ColumnProfile.Column.PrepareData` and `ColumnProfile.Column.ToJson`: numpy's `percentile` is an uninterpreted total function. On a column with no values, `percentile(array([]), 25)` at lib/column.py:101 raises in the source before `is_prepared` is set, so no histogram or sample is computed. The model instead prepares the empty column, and `ToJson` fails with ZeroDivision from `is_numeric`. Either way to_json raises and nothing is indexed or predicted for that column; only the error's kind and the column's prepared flag differ. The same holds for `Derive`, `GenerateCandidateTypes`, `PredictType`, `Indexing.Indexer.IndexColumn`, `WriteKey`, `IndexSource`, `Labeling.SemanticLabeler.PredictSource` and `Training.TrainColumn`, which inherit it.
- `ColumnProfile.Column.Derive`: at lib/column.py:113 a column without numbers gets `sample_list = numeric_list`, the same list object, so a later add_value would grow the sample too. The model copies the (empty) value instead. No caller can observe the difference: add_value runs only in the lib/source.py readers, while a source is read in, and at server.py:222 on a column just built; both come before any preparation of that column.
- `Labeling.SemanticLabeler.TestSemanticTypes`: the evaluation calls predict_type through a `Predictor` over the column's data (`ColumnView`). The `Predictor` abstracts over the fields that prepare_data computes and to_json reads (the length lists, the histogram and the sample), which `ColumnView` leaves out; the change predict_type makes to each column's state is not modelled there. The per-column contract of `predict_type` itself, preparation included, is `Column.PredictType`. The source returns None: the F-measures the model returns are the values it writes to `file_write` (main/semantic_labeler.py:254-258), and the time, count and per-column lines it writes beside them are dropped.
- `Labeling.SemanticLabeler.PredictFolderSemanticTypes`: states the number of entries, the owning source of each, and the errors. The documents written to each source's index, the columns' new states and each entry's scores are stated one source at a time, by `PredictSource` and `PredictAt`, and are not carried up to the folder.
- `Labeling.SemanticLabeler.PredictSources`: the same. It keeps every source consistent and states the entries' count and owners. The per-source store and column guarantees stay in `PredictAt`.
- `Training.TrainKey`, `Training.TrainSource`, `Training.TrainHeldOut`, `Training.TrainNext`, `Training.TrainSize`, `Training.TrainDataSet`, `Training.TrainNamed`, `Training.TrainDataSets` and `Training.RandomForest.GenerateTrainData`: each document is stated through `Describes`, which fixes every field to_json copies from the column's data. The sample, histogram and length lists that prepare_data computes are stated only by `Training.TrainColumn`.
- `Training.RandomForest.Train`: a scikit-learn `fit` that raises is the `None` answer of the `fit` parameter. Which feature columns are read (`is_tree_based`) is not modelled.
- The `dataset_map` values (ordered dicts of sources) are modelled as sequences of sources in dictionary order. The file names that key them are not used by the modelled code.
- `Server.CheckColumn`: a JSON body that is not an object is not modelled. The request is a map or nothing. The column-building and prediction that follow the checks are modelled by `Column.AddValue` and `PredictSemanticTypeForColumn`.
- The global `indexer` object is a field of the labeler.
