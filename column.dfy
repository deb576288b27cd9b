/** lib/column.py: the profile of one column of values. add_value cleans and
    accumulates a value, prepare_data derives the summary features once,
    to_json turns the profile into the document that is indexed and scored,
    and predict_type turns a model's predictions for the column into score
    buckets.

    Helpers that live outside this file are parameters, bundled in Helpers:
    the not_allowed_chars substitution, split_number_text, locale.atof,
    get_distribution, numpy's percentile, the index numpy.random.choice
    draws, round(·, 2) and get_test_results. */
module ColumnProfile {
  import opened Common
  import opened Ranking

  /** A column of a source whose name contains "full" keeps at most this
      many values past the first. */
  const FullCap := 500
  /** A value histogram with more buckets than this is dropped. */
  const HistogramLimit := 20
  /** At most this many numbers are sampled from the numeric list. */
  const SampleLimit := 200

  /** The document to_json builds (the dictionary it returns). */
  datatype Doc = Doc(
    source: Option<string>,
    name: string,
    semanticType: Option<string>,
    textualSet: set<string>,
    textualList: seq<string>,
    values: seq<string>,
    sampleList: seq<real>,
    textual: string,
    isNumeric: real,
    word2vec: seq<real>,
    numericList: seq<real>,
    charLengths: seq<int>,
    wordLengths: seq<int>,
    histogram: seq<real>)

  /** What a search of the index returns: the stored column documents. */
  type Evidence = seq<Doc>

  datatype Helpers = Helpers(
    sanitize: string -> string,                        // re.sub(not_allowed_chars, " ", ·)
    splitNumberText: string -> (seq<string>, string),  // the number strings, and the text left over
    atof: string -> real,                              // locale.atof
    distribution: seq<string> -> seq<real>,            // get_distribution
    percentile: (seq<int>, int) -> real,               // numpy.percentile
    pick: nat -> nat,                                  // the index of choice's i-th draw
    round2: real -> real,                              // round(·, 2)
    testResults: (Evidence, Evidence, Doc, bool) -> seq<FeatureRow>)  // get_test_results

  /** One entry of predict_type's result: a rounded probability and the
      candidate types predicted with it, in prediction order. */
  datatype Bucket = Bucket(score: real, labels: seq<string>)

  // ---------------------------------------------------------------------
  // Cleaning one value

  /** add_value ignores None, the empty string, and anything that strips to
      "" or "NULL". */
  predicate Dropped(value: Option<string>) {
    || value.None? || value.value == ""
    || Strip(value.value) == "" || Strip(value.value) == "NULL"
  }

  /** The cleaning half of add_value: nothing for a dropped value,
      otherwise the value stripped, without its non-ASCII characters, with
      disallowed characters replaced. */
  function CleanValue(value: Option<string>, h: Helpers): (r: Option<string>)
    ensures r.None? <==> Dropped(value)
    ensures r.Some? ==> r.value == h.sanitize(AsciiOnly(Strip(value.value)))
  {
    if value.None? || value.value == "" then None
    else
      var stripped := Strip(value.value);
      if stripped == "" || stripped == "NULL" then None
      else Some(h.sanitize(AsciiOnly(stripped)))
  }

  /** Sources whose name contains "full" cap their columns. */
  predicate IsFull(sourceName: string) {
    Contains(sourceName, "full")
  }

  /** set(value.split(" ")). */
  function Words(v: string): (w: set<string>)
    ensures forall x | x in w :: ' ' !in x
    ensures w != {}
  {
    var parts := Split(v, ' ');
    var w := set x | x in parts;
    assert parts[0] in w;
    w
  }

  /** What one kept value adds to textual_list: its text part if non-empty. */
  function TextPart(v: string, h: Helpers): (r: seq<string>)
    ensures |r| <= 1
    ensures r == [] <==> h.splitNumberText(v).1 == ""
    ensures r != [] ==> r[0] == h.splitNumberText(v).1
  {
    var text := h.splitNumberText(v).1;
    if text != "" then [text] else []
  }

  /** What one kept value adds to numeric_list: the largest of its numbers,
      if it has any. */
  function NumericPart(v: string, h: Helpers): (r: seq<real>)
    ensures |r| <= 1
    ensures r == [] <==> h.splitNumberText(v).0 == []
    ensures r != [] ==>
      var nums := h.splitNumberText(v).0;
      && (forall i :: 0 <= i < |nums| ==> h.atof(nums[i]) <= r[0])
      && (exists i :: 0 <= i < |nums| && h.atof(nums[i]) == r[0])
  {
    var nums := h.splitNumberText(v).0;
    if nums == [] then []
    else
      var xs := seq(|nums|, i requires 0 <= i < |nums| => h.atof(nums[i]));
      var m := MaxReal(xs);
      assert forall i :: 0 <= i < |nums| ==> h.atof(nums[i]) == xs[i] && xs[i] in xs;
      var j :| 0 <= j < |xs| && xs[j] == m;
      assert h.atof(nums[j]) == m;
      [m]
  }

  /** value_text: " " + t for every text part t, in order. */
  function Blob(ts: seq<string>): string {
    if ts == [] then "" else Blob(ts[..|ts| - 1]) + " " + ts[|ts| - 1]
  }

  lemma BlobSnoc(ts: seq<string>, t: string)
    ensures Blob(ts + [t]) == Blob(ts) + " " + t
    ensures (set x | x in ts + [t]) == (set x | x in ts) + {t}
  {
    assert (ts + [t])[..|ts|] == ts;
  }

  /** The text blob is the text parts joined by spaces, after a space. */
  lemma {:induction false} BlobIsJoin(ts: seq<string>)
    requires ts != []
    ensures Blob(ts) == " " + Join(ts, " ")
  {
    if |ts| > 1 {
      var init := ts[..|ts| - 1];
      BlobIsJoin(init);
      JoinSnoc(init, ts[|ts| - 1], " ");
      assert init + [ts[|ts| - 1]] == ts;
    }
  }

  lemma {:induction false} JoinSnoc(ts: seq<string>, t: string, sep: string)
    requires ts != []
    ensures Join(ts + [t], sep) == Join(ts, sep) + sep + t
  {
    if |ts| == 1 {
      assert (ts + [t])[1..] == [t];
    } else {
      assert (ts + [t])[1..] == ts[1..] + [t];
      JoinSnoc(ts[1..], t, sep);
    }
  }

  // ---------------------------------------------------------------------
  // The summary features prepare_data derives

  /** word_lengths and char_lengths survive preparation only when their 25th
      and 75th percentiles agree. */
  function KeepIfConstant(xs: seq<int>, h: Helpers): (r: seq<int>)
    ensures r == [] || r == xs
    ensures h.percentile(xs, 25) == h.percentile(xs, 75) ==> r == xs
    ensures h.percentile(xs, 25) != h.percentile(xs, 75) ==> r == []
  {
    if h.percentile(xs, 25) != h.percentile(xs, 75) then [] else xs
  }

  /** The histogram of the values, dropped when it has too many buckets. */
  function Histogram(values: seq<string>, h: Helpers): (r: seq<real>)
    ensures |r| <= HistogramLimit
    ensures r == [] || r == h.distribution(values)
    ensures |h.distribution(values)| <= HistogramLimit ==> r == h.distribution(values)
  {
    var d := h.distribution(values);
    if |d| > HistogramLimit then [] else d
  }

  /** choice(xs, min(200, len(xs))): draws with replacement from xs, or xs
      itself (empty) when there is nothing to draw from. */
  function Sample(xs: seq<real>, pick: nat -> nat): (r: seq<real>)
    ensures |r| == Min(SampleLimit, |xs|)
    ensures forall x | x in r :: x in xs
  {
    if xs == [] then xs
    else seq(Min(SampleLimit, |xs|), i requires 0 <= i => xs[pick(i) % |xs|])
  }

  /** The fields of a Column at one moment. */
  datatype ColumnState = ColumnState(
    sourceName: Option<string>, name: string, valueList: seq<string>, textualList: seq<string>,
    textualSet: set<string>, wordSet: set<string>, semanticType: Option<string>, numericList: seq<real>,
    sampleList: seq<real>, valueText: string, isPrepared: bool, word2vec: seq<real>,
    wordLengths: seq<int>, charLengths: seq<int>, histogramList: seq<real>)
  {
    predicate HasTokens() {
      |textualList| + |numericList| > 0
    }

    /** is_numeric: the share of the column's tokens that are text. It
        divides by zero when the column has no tokens at all. */
    function IsNumeric(): (r: Result<real>)
      ensures r.Ok? <==> HasTokens()
      ensures r.Err? ==> r.error == ZeroDivision
      ensures r.Ok? ==>
        && 0.0 <= r.value <= 1.0
        && r.value * (|textualList| + |numericList|) as real == |textualList| as real
        && (r.value == 1.0 <==> numericList == [])
        && (r.value == 0.0 <==> textualList == [])
    {
      var total := |textualList| + |numericList|;
      if total == 0 then Err(ZeroDivision)
      else Ok(|textualList| as real / total as real)
    }

    /** The document of this state, with the given share of textual
        tokens. */
    function Document(ratio: real): Doc {
      Doc(sourceName, name, semanticType, textualSet, textualList, valueList, sampleList,
          valueText, ratio, word2vec, numericList, charLengths, wordLengths, histogramList)
    }
  }

  /** The whole effect of prepare_data on a column in state a: word2vec is
      emptied and the column is marked prepared; the first time, the length
      lists survive only if their quartiles agree, the histogram is kept
      only if small enough and the numbers are sampled; a prepared column
      keeps its features. */
  function Prepare(a: ColumnState, h: Helpers): (b: ColumnState)
    ensures b.HasTokens() == a.HasTokens() && b.semanticType == a.semanticType
  {
    if a.isPrepared then a.(word2vec := [])
    else a.(word2vec := [], isPrepared := true,
            wordLengths := KeepIfConstant(a.wordLengths, h), charLengths := KeepIfConstant(a.charLengths, h),
            histogramList := Histogram(a.valueList, h), sampleList := Sample(a.numericList, h.pick))
  }

  /** Preparing a column twice is preparing it once, and preparing keeps
      what the column holds: its tokens, values, name and type. */
  lemma PrepareIdempotent(a: ColumnState, h: Helpers)
    ensures Prepare(Prepare(a, h), h) == Prepare(a, h)
    ensures Prepare(a, h).isPrepared && Prepare(a, h).word2vec == []
    ensures Prepare(a, h).HasTokens() == a.HasTokens() && Prepare(a, h).semanticType == a.semanticType
    ensures Prepare(a, h).(word2vec := a.word2vec, isPrepared := a.isPrepared, wordLengths := a.wordLengths,
      charLengths := a.charLengths, histogramList := a.histogramList, sampleList := a.sampleList) == a
  {
  }

  class Column {
    var sourceName: Option<string>
    var name: string
    var valueList: seq<string>
    var textualList: seq<string>
    var textualSet: set<string>
    var wordSet: set<string>
    var semanticType: Option<string>
    var numericList: seq<real>
    var sampleList: seq<real>
    var valueText: string
    var isPrepared: bool
    var word2vec: seq<real>
    var wordLengths: seq<int>
    var charLengths: seq<int>
    var histogramList: seq<real>

    /** The profile is consistent: the textual set and text blob follow the
        textual list, there are at most as many text and number entries as
        values, until preparation the length lists run parallel to the
        values, and a "full" source's column is capped. */
    ghost predicate Valid()
      reads this`textualSet, this`textualList, this`valueText, this`numericList, this`valueList
      reads this`sourceName, this`isPrepared, this`wordLengths, this`charLengths
    {
      TextTracksList() && Bounded() && (!isPrepared ==> LengthsTrackValues())
    }

    ghost predicate TextTracksList()
      reads this`textualSet, this`textualList, this`valueText
    {
      textualSet == (set t | t in textualList) && valueText == Blob(textualList)
    }

    ghost predicate Bounded()
      reads this`textualList, this`numericList, this`valueList, this`sourceName
    {
      && |textualList| <= |valueList| && |numericList| <= |valueList|
      && (sourceName.Some? && IsFull(sourceName.value) ==> |valueList| <= FullCap + 1)
    }

    ghost predicate LengthsTrackValues()
      reads this`wordLengths, this`charLengths, this`valueList
    {
      && |wordLengths| == |valueList| && |charLengths| == |valueList|
      && (forall i :: 0 <= i < |valueList| ==>
            wordLengths[i] == |Split(valueList[i], ' ')| && charLengths[i] == |valueList[i]|)
    }

    /** Everything add_value appends to. */
    ghost function Accumulated(): (seq<string>, seq<int>, seq<int>, seq<string>, set<string>, string, seq<real>)
      reads this
    {
      (valueList, wordLengths, charLengths, textualList, textualSet, valueText, numericList)
    }

    /** Everything add_value leaves alone. */
    ghost function Fixed(): (Option<string>, string, Option<string>, seq<real>, bool, seq<real>, seq<real>)
      reads this
    {
      (sourceName, name, semanticType, sampleList, isPrepared, word2vec, histogramList)
    }

    /** Whether add_value keeps a cleaned value rather than raising or
        hitting the cap. */
    ghost predicate Keeps()
      reads this`sourceName, this`valueList
    {
      sourceName.Some? && !(IsFull(sourceName.value) && |valueList| > FullCap)
    }

    predicate HasTokens()
      reads this
    {
      State().HasTokens()
    }

    constructor (name: string, sourceName: Option<string>)
      ensures Valid()
      ensures this.name == RemoveChar(name, '#') && this.sourceName == sourceName
      ensures valueList == [] && textualList == [] && textualSet == {} && wordSet == {}
      ensures semanticType == None && numericList == [] && sampleList == [] && valueText == ""
      ensures !isPrepared && word2vec == [] && wordLengths == [] && charLengths == [] && histogramList == []
    {
      this.sourceName := sourceName;
      this.name := RemoveChar(name, '#');
      valueList := [];
      textualList := [];
      textualSet := {};
      wordSet := {};
      semanticType := None;
      numericList := [];
      sampleList := [];
      valueText := "";
      isPrepared := false;
      word2vec := [];
      wordLengths := [];
      charLengths := [];
      histogramList := [];
    }

    /** add_value. A dropped value changes nothing. Otherwise the cleaned
        value's words join word_set first; then a column without a source
        name raises (`"full" in None`), a capped column stops, and any other
        column appends the value, its word and character counts, its text
        part and the largest of its numbers. */
    method AddValue(value: Option<string>, h: Helpers) returns (o: Outcome)
      requires Valid()
      modifies this`wordSet, this`valueList, this`wordLengths, this`charLengths
      modifies this`valueText, this`textualSet, this`textualList, this`numericList
      ensures Valid()
      ensures Dropped(value) ==> o == Pass && unchanged(this)
      ensures !Dropped(value) ==> wordSet == old(wordSet) + Words(CleanValue(value, h).value)
      ensures o.Fail? <==> !Dropped(value) && sourceName.None?
      ensures !(!Dropped(value) && old(Keeps())) ==> Accumulated() == old(Accumulated())
      ensures !Dropped(value) && old(Keeps()) ==>
        var v := CleanValue(value, h).value;
        && valueList == old(valueList) + [v]
        && wordLengths == old(wordLengths) + [|Split(v, ' ')|]
        && charLengths == old(charLengths) + [|v|]
        && textualList == old(textualList) + TextPart(v, h)
        && numericList == old(numericList) + NumericPart(v, h)
    {
      var cleaned := CleanValue(value, h);
      if cleaned.None? {
        return Pass;
      }
      o := Absorb(cleaned.value, h);
    }

    /** add_value from line 61 on, for a cleaned value v. */
    method Absorb(v: string, h: Helpers) returns (o: Outcome)
      requires Valid()
      modifies this`wordSet, this`valueList, this`wordLengths, this`charLengths
      modifies this`valueText, this`textualSet, this`textualList, this`numericList
      ensures Valid()
      ensures wordSet == old(wordSet) + Words(v)
      ensures o.Fail? <==> sourceName.None?
      ensures !old(Keeps()) ==> Accumulated() == old(Accumulated())
      ensures old(Keeps()) ==>
        && valueList == old(valueList) + [v]
        && wordLengths == old(wordLengths) + [|Split(v, ' ')|]
        && charLengths == old(charLengths) + [|v|]
        && textualList == old(textualList) + TextPart(v, h)
        && numericList == old(numericList) + NumericPart(v, h)
    {
      wordSet := wordSet + Words(v);
      if sourceName.None? {
        return Fail(NoneOperand("'in' <NoneType>"));
      }
      if IsFull(sourceName.value) && |valueList| > FullCap {
        return Pass;
      }
      Store(v, h);
      o := Pass;
    }

    /** The appending half of add_value, for a value that is kept. */
    method Store(v: string, h: Helpers)
      requires Valid()
      requires sourceName.Some? && IsFull(sourceName.value) ==> |valueList| <= FullCap
      modifies this`valueList, this`wordLengths, this`charLengths
      modifies this`valueText, this`textualSet, this`textualList, this`numericList
      ensures Valid()
      ensures valueList == old(valueList) + [v]
      ensures wordLengths == old(wordLengths) + [|Split(v, ' ')|]
      ensures charLengths == old(charLengths) + [|v|]
      ensures textualList == old(textualList) + TextPart(v, h)
      ensures numericList == old(numericList) + NumericPart(v, h)
    {
      AppendValue(v);
      var (numbers, text) := h.splitNumberText(v);
      if text != "" {
        AppendText(text);
      }
      if numbers != [] {
        numericList := numericList + NumericPart(v, h);
      }
      assert TextTracksList() && (!isPrepared ==> LengthsTrackValues());
      assert Bounded();
    }

    /** Records a kept value with its word and character counts. */
    method AppendValue(v: string)
      requires !isPrepared ==> LengthsTrackValues()
      modifies this`valueList, this`wordLengths, this`charLengths
      ensures !isPrepared ==> LengthsTrackValues()
      ensures valueList == old(valueList) + [v]
      ensures wordLengths == old(wordLengths) + [|Split(v, ' ')|]
      ensures charLengths == old(charLengths) + [|v|]
    {
      valueList := valueList + [v];
      wordLengths := wordLengths + [|Split(v, ' ')|];
      charLengths := charLengths + [|v|];
    }

    /** Records a non-empty text part in value_text, textual_set and
        textual_list. */
    method AppendText(text: string)
      requires TextTracksList()
      modifies this`valueText, this`textualSet, this`textualList
      ensures TextTracksList()
      ensures textualList == old(textualList) + [text]
    {
      BlobSnoc(textualList, text);
      valueText := valueText + " " + text;
      textualSet := textualSet + {text};
      textualList := textualList + [text];
    }

    /** Every field of the column, as a value. */
    function State(): ColumnState
      reads this
    {
      ColumnState(sourceName, name, valueList, textualList, textualSet, wordSet, semanticType, numericList,
                  sampleList, valueText, isPrepared, word2vec, wordLengths, charLengths, histogramList)
    }

    /** The whole effect of prepare_data on this column since the call
        began. */
    twostate predicate Prepared(h: Helpers)
      reads this
    {
      State() == Prepare(old(State()), h)
    }

    /** prepare_data. Running it again changes nothing. */
    method PrepareData(h: Helpers)
      modifies this
      ensures Prepared(h)
      ensures old(Valid()) ==> Valid()
    {
      word2vec := [];
      if !isPrepared {
        Derive(h);
      }
    }

    /** The first-time half of prepare_data. */
    method Derive(h: Helpers)
      modifies this`wordLengths, this`charLengths, this`histogramList, this`sampleList, this`isPrepared
      ensures isPrepared
      ensures wordLengths == KeepIfConstant(old(wordLengths), h)
      ensures charLengths == KeepIfConstant(old(charLengths), h)
      ensures histogramList == Histogram(valueList, h)
      ensures sampleList == Sample(numericList, h.pick)
    {
        var words, chars := wordLengths, charLengths;
        if h.percentile(words, 25) != h.percentile(words, 75) {
          words := [];
        }
        if h.percentile(chars, 25) != h.percentile(chars, 75) {
          chars := [];
        }
        var histogram := h.distribution(valueList);
        if |histogram| > HistogramLimit {
          histogram := [];
        }
        var sample := numericList;
        if numericList != [] {
          sample := Sample(numericList, h.pick);
        }
        wordLengths, charLengths, histogramList, sampleList, isPrepared := words, chars, histogram, sample, true;
    }

    /** is_numeric on the column's current state. */
    function IsNumeric(): Result<real>
      reads this
    {
      State().IsNumeric()
    }

    /** The document of the column's current state, with the given share of
        textual tokens. */
    function Document(ratio: real): Doc
      reads this
    {
      State().Document(ratio)
    }

    /** to_json: prepares the column, then documents it; a column without
        tokens raises in is_numeric after it has been prepared. */
    method ToJson(h: Helpers) returns (r: Result<Doc>)
      modifies this
      ensures Prepared(h)
      ensures old(Valid()) ==> Valid()
      ensures r.Ok? <==> HasTokens()
      ensures r.Err? ==> r.error == ZeroDivision
      ensures r.Ok? ==> r.value == Document(IsNumeric().value)
    {
      PrepareData(h);
      var ratio :- IsNumeric();
      r := Ok(Document(ratio));
    }

    /** generate_candidate_types: get_test_results on the column's
        document; it raises where to_json raises. */
    method GenerateCandidateTypes(trainExamples: Evidence, textualTrain: Evidence, isLabeled: bool, h: Helpers)
      returns (r: Result<seq<FeatureRow>>)
      modifies this
      ensures Prepared(h)
      ensures old(Valid()) ==> Valid()
      ensures r.Ok? <==> HasTokens()
      ensures r.Err? ==> r.error == ZeroDivision
      ensures r.Ok? ==> r.value == h.testResults(trainExamples, textualTrain, Document(IsNumeric().value), isLabeled)
    {
      var doc :- ToJson(h);
      r := Ok(h.testResults(trainExamples, textualTrain, doc, isLabeled));
    }

    /** What the model predicts for the prepared column: the candidate rows
        get_test_results builds from its document, scored. */
    ghost function Candidates(trainExamples: Evidence, textualTrain: Evidence, model: ModelState, h: Helpers)
      : Result<(seq<Prediction>, seq<ScoredRow>)>
      reads this
      requires HasTokens()
    {
      var rows := h.testResults(trainExamples, textualTrain, Document(IsNumeric().value), false);
      Predict(model, rows, semanticType)
    }

    /** predict_type: the model's predictions for the column, grouped by
        rounded probability, highest first. It raises where to_json or
        predict raise, and when the column has no source name (the key
        "<source>!<name>" is built for every prediction, and a successful
        prediction is never empty). */
    method PredictType(trainExamples: Evidence, textualTrain: Evidence, model: ModelState, h: Helpers)
      returns (r: Result<seq<Bucket>>)
      modifies this
      ensures Prepared(h)
      ensures old(Valid()) ==> Valid()
      ensures r.Ok? <==>
        HasTokens() && sourceName.Some? && Candidates(trainExamples, textualTrain, model, h).Ok?
      ensures r.Ok? ==> GroupsOf(r.value, Candidates(trainExamples, textualTrain, model, h).value.0, h.round2)
      ensures r.Ok? ==> r.value != []
    {
      var rows :- GenerateCandidateTypes(trainExamples, textualTrain, false, h);
      var predicted :- Predict(model, rows, semanticType);
      var predictions := predicted.0;
      if sourceName.None? && predictions != [] {
        return Err(NoneOperand("str + NoneType"));
      }
      var buckets := GroupByScore(predictions, h.round2);
      assert predictions[0] in predictions;
      r := Ok(buckets);
    }
  }

  // ---------------------------------------------------------------------
  // Grouping predictions by rounded probability

  /** The candidate types of the predictions whose rounded probability is
      k, in prediction order. */
  function LabelsAt(preds: seq<Prediction>, k: real, round2: real -> real): seq<string>
  {
    if preds == [] then []
    else
      var init := preds[..|preds| - 1];
      var last := preds[|preds| - 1];
      LabelsAt(init, k, round2) + (if round2(last.prob) == k then [TypeOf(last.name)] else [])
  }

  /** A score collects no candidate type exactly when no prediction rounds
      to it. */
  lemma {:induction false} LabelsAtEmpty(preds: seq<Prediction>, k: real, round2: real -> real)
    ensures LabelsAt(preds, k, round2) == [] <==> forall j :: 0 <= j < |preds| ==> round2(preds[j].prob) != k
  {
    if preds != [] {
      var init := preds[..|preds| - 1];
      LabelsAtEmpty(init, k, round2);
      assert forall j :: 0 <= j < |init| ==> init[j] == preds[j];
    }
  }

  /** buckets is what predict_type returns for preds: one bucket per
      distinct rounded probability, in strictly decreasing order, each
      holding exactly the candidate types predicted with that score. */
  ghost predicate GroupsOf(buckets: seq<Bucket>, preds: seq<Prediction>, round2: real -> real) {
    && (forall i, j :: 0 <= i < j < |buckets| ==> buckets[i].score > buckets[j].score)
    && (forall i :: 0 <= i < |buckets| ==>
          buckets[i].labels == LabelsAt(preds, buckets[i].score, round2) && buckets[i].labels != [])
    && (forall p | p in preds :: exists i :: 0 <= i < |buckets| && buckets[i].score == round2(p.prob))
  }

  function TotalLabels(buckets: seq<Bucket>): nat {
    if buckets == [] then 0 else |buckets[0].labels| + TotalLabels(buckets[1..])
  }

  ghost predicate Distinct(ks: seq<real>) {
    forall a, b :: 0 <= a < b < |ks| ==> ks[a] != ks[b]
  }

  ghost predicate StrictlyDescending(ks: seq<real>) {
    forall a, b :: 0 <= a < b < |ks| ==> ks[a] > ks[b]
  }

  /** The number of predictions whose rounded score is one of ks. */
  function CountOver(ks: seq<real>, preds: seq<Prediction>, round2: real -> real): nat {
    if ks == [] then 0 else |LabelsAt(preds, ks[0], round2)| + CountOver(ks[1..], preds, round2)
  }

  function Hits(ks: seq<real>, x: real): nat {
    if ks == [] then 0 else (if ks[0] == x then 1 else 0) + Hits(ks[1..], x)
  }

  lemma {:induction false} HitsOnce(ks: seq<real>, x: real)
    requires Distinct(ks) && x in ks
    ensures Hits(ks, x) == 1
  {
    if ks[0] == x {
      HitsNone(ks[1..], x);
    } else {
      HitsOnce(ks[1..], x);
    }
  }

  lemma {:induction false} HitsNone(ks: seq<real>, x: real)
    requires x !in ks
    ensures Hits(ks, x) == 0
  {
    if ks != [] {
      HitsNone(ks[1..], x);
    }
  }

  lemma {:induction false} CountOverEmpty(ks: seq<real>, round2: real -> real)
    ensures CountOver(ks, [], round2) == 0
  {
    if ks != [] {
      CountOverEmpty(ks[1..], round2);
    }
  }

  lemma {:induction false} CountOverSnoc(ks: seq<real>, preds: seq<Prediction>, round2: real -> real)
    requires preds != []
    ensures CountOver(ks, preds, round2)
         == CountOver(ks, preds[..|preds| - 1], round2) + Hits(ks, round2(preds[|preds| - 1].prob))
  {
    if ks != [] {
      CountOverSnoc(ks[1..], preds, round2);
    }
  }

  /** With distinct keys covering every rounded score, each prediction is
      counted exactly once. */
  lemma {:induction false} CountOverAll(ks: seq<real>, preds: seq<Prediction>, round2: real -> real)
    requires Distinct(ks)
    requires forall p | p in preds :: round2(p.prob) in ks
    ensures CountOver(ks, preds, round2) == |preds|
  {
    if preds == [] {
      CountOverEmpty(ks, round2);
    } else {
      var init := preds[..|preds| - 1];
      var last := preds[|preds| - 1];
      assert forall p | p in init :: p in preds;
      CountOverSnoc(ks, preds, round2);
      CountOverAll(ks, init, round2);
      HitsOnce(ks, round2(last.prob));
    }
  }

  function Scores(buckets: seq<Bucket>): (ks: seq<real>)
    ensures |ks| == |buckets|
    ensures forall i :: 0 <= i < |buckets| ==> ks[i] == buckets[i].score
  {
    if buckets == [] then [] else [buckets[0].score] + Scores(buckets[1..])
  }

  lemma {:induction false} TotalIsCountOver(buckets: seq<Bucket>, preds: seq<Prediction>, round2: real -> real)
    requires forall i :: 0 <= i < |buckets| ==> buckets[i].labels == LabelsAt(preds, buckets[i].score, round2)
    ensures TotalLabels(buckets) == CountOver(Scores(buckets), preds, round2)
  {
    if buckets != [] {
      TotalIsCountOver(buckets[1..], preds, round2);
    }
  }

  /** The buckets hold every prediction's candidate type exactly once. */
  lemma GroupsKeepEveryPrediction(buckets: seq<Bucket>, preds: seq<Prediction>, round2: real -> real)
    requires GroupsOf(buckets, preds, round2)
    ensures TotalLabels(buckets) == |preds|
  {
    var ks := Scores(buckets);
    TotalIsCountOver(buckets, preds, round2);
    forall p | p in preds ensures round2(p.prob) in ks {
      var i :| 0 <= i < |buckets| && buckets[i].score == round2(p.prob);
      assert ks[i] == round2(p.prob);
    }
    CountOverAll(ks, preds, round2);
  }

  /** Inserts a new key into keys sorted highest first. */
  function InsertDescending(x: real, ks: seq<real>): (r: seq<real>)
    requires StrictlyDescending(ks) && x !in ks
    ensures StrictlyDescending(r)
    ensures forall y :: y in r <==> y == x || y in ks
    ensures |r| == |ks| + 1
  {
    if ks == [] || ks[0] < x then [x] + ks
    else
      assert ks[0] != x;
      assert forall y | y in ks[1..] :: y in ks && y < ks[0];
      var rest := InsertDescending(x, ks[1..]);
      ConsDescending(ks[0], rest);
      [ks[0]] + rest
  }

  lemma ConsDescending(x: real, ks: seq<real>)
    requires StrictlyDescending(ks) && forall y | y in ks :: y < x
    ensures StrictlyDescending([x] + ks)
  {
    forall a, b | 0 <= a < b < |[x] + ks| ensures ([x] + ks)[a] > ([x] + ks)[b] {
      if a > 0 {
        assert ([x] + ks)[a] == ks[a - 1];
      }
      assert ([x] + ks)[b] == ks[b - 1] && ks[b - 1] in ks;
    }
  }

  /** sorted(keys, reverse=True) for distinct keys. */
  function SortDescending(ks: seq<real>): (r: seq<real>)
    requires Distinct(ks)
    ensures StrictlyDescending(r)
    ensures forall y :: y in r <==> y in ks
    ensures |r| == |ks|
  {
    if ks == [] then []
    else
      assert forall y | y in ks[1..] :: y in ks;
      InsertDescending(ks[0], SortDescending(ks[1..]))
  }

  /** groups and keys are the dictionary predict_type has built after
      seeing the predictions seen. */
  ghost predicate Collected(groups: map<real, seq<string>>, keys: seq<real>, seen: seq<Prediction>,
                            round2: real -> real)
  {
    && Distinct(keys)
    && (forall k :: k in groups <==> k in keys)
    && (forall k | k in groups :: groups[k] == LabelsAt(seen, k, round2) && groups[k] != [])
    && (forall j :: 0 <= j < |seen| ==> round2(seen[j].prob) in groups)
  }

  lemma LabelsAtSnoc(seen: seq<Prediction>, p: Prediction, round2: real -> real)
    ensures forall k :: LabelsAt(seen + [p], k, round2)
                     == LabelsAt(seen, k, round2) + (if round2(p.prob) == k then [TypeOf(p.name)] else [])
  {
    assert (seen + [p])[..|seen|] == seen;
  }

  /** Appending a prediction whose score already has an entry. */
  lemma CollectExisting(groups: map<real, seq<string>>, keys: seq<real>, seen: seq<Prediction>,
                        p: Prediction, round2: real -> real)
    requires Collected(groups, keys, seen, round2) && round2(p.prob) in groups
    ensures Collected(groups[round2(p.prob) := groups[round2(p.prob)] + [TypeOf(p.name)]],
                      keys, seen + [p], round2)
  {
    LabelsAtSnoc(seen, p, round2);
    var next := seen + [p];
    assert forall j :: 0 <= j < |seen| ==> next[j] == seen[j];
  }

  /** Appending a prediction with a score not seen before. */
  lemma CollectNew(groups: map<real, seq<string>>, keys: seq<real>, seen: seq<Prediction>,
                   p: Prediction, round2: real -> real)
    requires Collected(groups, keys, seen, round2) && round2(p.prob) !in groups
    ensures Collected(groups[round2(p.prob) := [TypeOf(p.name)]], keys + [round2(p.prob)], seen + [p], round2)
  {
    LabelsAtSnoc(seen, p, round2);
    LabelsAtEmpty(seen, round2(p.prob), round2);
    var next := seen + [p];
    assert forall j :: 0 <= j < |seen| ==> next[j] == seen[j];
  }

  /** The defaultdict predict_type fills: each rounded probability, in
      order of first appearance, with the candidate types predicted with
      it. */
  method Collect(preds: seq<Prediction>, round2: real -> real)
    returns (groups: map<real, seq<string>>, keys: seq<real>)
    ensures Collected(groups, keys, preds, round2)
  {
    groups := map[];
    keys := [];
    for i := 0 to |preds|
      invariant Collected(groups, keys, preds[..i], round2)
    {
      var key := round2(preds[i].prob);
      var candidate := TypeOf(preds[i].name);
      assert preds[..i + 1] == preds[..i] + [preds[i]];
      if key in groups {
        CollectExisting(groups, keys, preds[..i], preds[i], round2);
        groups := groups[key := groups[key] + [candidate]];
      } else {
        CollectNew(groups, keys, preds[..i], preds[i], round2);
        keys := keys + [key];
        groups := groups[key := [candidate]];
      }
    }
    assert preds[..|preds|] == preds;
  }

  /** The grouping step of predict_type: the dictionary's items sorted by
      decreasing score. */
  method GroupByScore(preds: seq<Prediction>, round2: real -> real) returns (buckets: seq<Bucket>)
    ensures GroupsOf(buckets, preds, round2)
    ensures TotalLabels(buckets) == |preds|
  {
    var groups, keys := Collect(preds, round2);
    var order := SortDescending(keys);
    assert forall t :: 0 <= t < |order| ==> order[t] in keys;
    buckets := seq(|order|, t requires 0 <= t < |order| => Bucket(order[t], groups[order[t]]));
    forall p | p in preds
      ensures exists t :: 0 <= t < |buckets| && buckets[t].score == round2(p.prob)
    {
      var j :| 0 <= j < |preds| && preds[j] == p;
      assert round2(p.prob) in keys;
      var t :| 0 <= t < |order| && order[t] == round2(p.prob);
      assert buckets[t].score == round2(p.prob);
    }
    GroupsKeepEveryPrediction(buckets, preds, round2);
  }
}
