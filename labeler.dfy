/** main/semantic_labeler.py: the SemanticLabeler that holds the data sets,
    trains the random forest on them, labels the columns of a folder or a
    single column, and scores itself by leave-k-out evaluation. A column's
    predictions are flattened to (score, label) pairs and normalised to sum
    to one; a prediction that raises gives the single pair (1.0, "fail").
    Evaluation scores each labelled column by the reciprocal rank of its
    true type and reports, per train size, the mean of those scores. */
module Labeling {
  import opened Common
  import opened Ranking
  import opened ColumnProfile
  import opened Sources
  import opened Indexing
  import opened Rotation
  import opened Training

  // ---------------------------------------------------------------------
  // Scores of one column

  /** One (score, label) pair of a column's result. */
  datatype Scored = Scored(score: real, semanticType: string)

  /** What a column gets when its prediction raises. */
  const FailScores := [Scored(1.0, "fail")]

  /** One entry of "predictions": the column, its true label and its scores. */
  datatype ColumnResult = ColumnResult(sourceName: Option<string>, columnName: string,
                                       correctLabel: Option<string>, scores: seq<Scored>)

  /** What a prediction request returns (running_time left out). */
  datatype FolderResult = FolderResult(folderName: string, predictions: seq<ColumnResult>)

  /** [(score, l) for l in labels] for one bucket. */
  function Pairs(b: Bucket): seq<Scored> {
    seq(|b.labels|, i requires 0 <= i < |b.labels| => Scored(b.score, b.labels[i]))
  }

  /** Every bucket's pairs, bucket after bucket. */
  function Flatten(buckets: seq<Bucket>): seq<Scored> {
    if buckets == [] then [] else Pairs(buckets[0]) + Flatten(buckets[1..])
  }

  lemma {:induction false} FlattenAppend(a: seq<Bucket>, b: seq<Bucket>)
    ensures Flatten(a + b) == Flatten(a) + Flatten(b)
  {
    if a == [] {
      assert a + b == b;
    } else {
      assert (a + b)[1..] == a[1..] + b;
      FlattenAppend(a[1..], b);
    }
  }

  /** The loop that builds all_preds: one pair per label, in bucket order. */
  method AllPreds(semanticTypes: seq<Bucket>) returns (allPreds: seq<Scored>)
    ensures allPreds == Flatten(semanticTypes)
  {
    allPreds := [];
    var i := 0;
    while i < |semanticTypes|
      invariant 0 <= i <= |semanticTypes|
      invariant allPreds == Flatten(semanticTypes[..i])
    {
      assert semanticTypes[..i + 1] == semanticTypes[..i] + [semanticTypes[i]];
      FlattenAppend(semanticTypes[..i], [semanticTypes[i]]);
      assert Flatten([semanticTypes[i]]) == Pairs(semanticTypes[i]) + Flatten([]);
      allPreds := allPreds + Pairs(semanticTypes[i]);
      i := i + 1;
    }
    assert semanticTypes[..i] == semanticTypes;
  }

  /** There is one pair per label of the buckets. */
  lemma {:induction false} FlattenCount(buckets: seq<Bucket>)
    ensures |Flatten(buckets)| == TotalLabels(buckets)
  {
    if buckets != [] {
      FlattenCount(buckets[1..]);
    }
  }

  /** Label j of bucket i comes after the labels of the buckets before i,
      paired with bucket i's score. */
  lemma {:induction false} FlattenAt(buckets: seq<Bucket>, i: int, j: int)
    requires 0 <= i < |buckets| && 0 <= j < |buckets[i].labels|
    ensures TotalLabels(buckets[..i]) + j < |Flatten(buckets)|
    ensures Flatten(buckets)[TotalLabels(buckets[..i]) + j] == Scored(buckets[i].score, buckets[i].labels[j])
  {
    FlattenCount(buckets);
    FlattenCount(buckets[1..]);
    if i > 0 {
      FlattenAt(buckets[1..], i - 1, j);
      assert buckets[..i][1..] == buckets[1..][..i - 1];
      assert buckets[..i] != [] && buckets[..i][0] == buckets[0];
    } else {
      assert buckets[..i] == [];
    }
  }

  /** A pair is in the result exactly when its label is in a bucket with
      its score. */
  lemma {:induction false} FlattenMembers(buckets: seq<Bucket>, x: Scored)
    ensures x in Flatten(buckets) <==> exists i :: 0 <= i < |buckets| && buckets[i].score == x.score && x.semanticType in buckets[i].labels
  {
    if buckets != [] {
      FlattenMembers(buckets[1..], x);
      var b := buckets[0];
      assert x in Pairs(b) <==> b.score == x.score && x.semanticType in b.labels by {
        if x.semanticType in b.labels {
          var j :| 0 <= j < |b.labels| && b.labels[j] == x.semanticType;
          assert Pairs(b)[j] == Scored(b.score, x.semanticType);
        }
      }
      if exists i :: 0 <= i < |buckets| && buckets[i].score == x.score && x.semanticType in buckets[i].labels {
        var i :| 0 <= i < |buckets| && buckets[i].score == x.score && x.semanticType in buckets[i].labels;
        if i > 0 {
          assert buckets[1..][i - 1] == buckets[i];
        }
      }
    }
  }

  /** sum of the scores of the pairs. */
  function Total(preds: seq<Scored>): real {
    if preds == [] then 0.0 else preds[0].score + Total(preds[1..])
  }

  /** Every score divided by t. */
  function Scale(preds: seq<Scored>, t: real): (r: seq<Scored>)
    requires t != 0.0
  {
    seq(|preds|, i requires 0 <= i < |preds| => Scored(preds[i].score / t, preds[i].semanticType))
  }

  /** The normalisation of all_preds: divided by the total when it is
      positive, copied as they are otherwise. */
  function Normalise(preds: seq<Scored>): (r: seq<Scored>)
    ensures |r| == |preds|
    ensures forall i :: 0 <= i < |r| ==> r[i].semanticType == preds[i].semanticType
  {
    var total := Total(preds);
    if total > 0.0 then Scale(preds, total) else preds
  }

  lemma {:induction false} TotalScale(preds: seq<Scored>, t: real)
    requires t != 0.0
    ensures Total(Scale(preds, t)) == Total(preds) / t
  {
    if preds != [] {
      assert Scale(preds, t)[1..] == Scale(preds[1..], t);
      TotalScale(preds[1..], t);
    }
  }

  /** With a positive total the normalised scores sum to one. */
  lemma NormalisedSumsToOne(preds: seq<Scored>)
    requires Total(preds) > 0.0
    ensures Total(Normalise(preds)) == 1.0
  {
    var t := Total(preds);
    TotalScale(preds, t);
    assert t / t == 1.0;
  }

  /** Normalising twice is normalising once. */
  lemma NormaliseIdempotent(preds: seq<Scored>)
    ensures Normalise(Normalise(preds)) == Normalise(preds)
  {
    if Total(preds) > 0.0 {
      NormalisedSumsToOne(preds);
      var once := Normalise(preds);
      assert Normalise(once) == Scale(once, 1.0);
    }
  }

  lemma {:induction false} ScoreBelowTotal(preds: seq<Scored>, i: int)
    requires forall j :: 0 <= j < |preds| ==> preds[j].score >= 0.0
    requires 0 <= i < |preds|
    ensures 0.0 <= preds[i].score <= Total(preds)
    ensures Total(preds) >= 0.0
  {
    if i > 0 {
      ScoreBelowTotal(preds[1..], i - 1);
    } else if |preds| > 1 {
      ScoreBelowTotal(preds[1..], 0);
    }
  }

  /** Non-negative scores with a positive total normalise into [0, 1]. */
  lemma NormalisedBounded(preds: seq<Scored>, i: int)
    requires forall j :: 0 <= j < |preds| ==> preds[j].score >= 0.0
    requires Total(preds) > 0.0 && 0 <= i < |preds|
    ensures 0.0 <= Normalise(preds)[i].score <= 1.0
  {
    ScoreBelowTotal(preds, i);
    var t := Total(preds);
    Fraction(preds[i].score, t);
  }

  lemma Fraction(a: real, t: real)
    requires 0.0 <= a <= t && t > 0.0
    ensures 0.0 <= a / t <= 1.0
  {
  }

  // ---------------------------------------------------------------------
  // Rank score of one column

  /** The only threshold test_semantic_types uses. */
  const Threshold: real := 0.01

  /** The first bucket holding label t, if any. */
  function FirstWith(buckets: seq<Bucket>, t: string): (r: Option<nat>)
    ensures r.Some? ==> r.value < |buckets| && t in buckets[r.value].labels
    ensures r.Some? ==> forall j :: 0 <= j < r.value ==> t !in buckets[j].labels
    ensures r.None? ==> forall j :: 0 <= j < |buckets| ==> t !in buckets[j].labels
  {
    if buckets == [] then None
    else if t in buckets[0].labels then Some(0)
    else match FirstWith(buckets[1..], t) {
      case None => None
      case Some(i) => Some(i + 1)
    }
  }

  /** The rank reached at bucket n: one, plus the labels of every bucket
      before n whose score is not zero. */
  function RankBefore(buckets: seq<Bucket>, n: nat): (rank: nat)
    requires n <= |buckets|
    ensures rank >= 1
  {
    if n == 0 then 1
    else RankBefore(buckets, n - 1) + (if buckets[n - 1].score != 0.0 then |buckets[n - 1].labels| else 0)
  }

  /** The rank score of true type t: 1/rank at the first bucket holding t
      when its score is above the threshold, 0 when it is not; when no
      bucket holds t, 1 if the top score is below the threshold and 0
      otherwise. semantic_types[0] raises on no buckets at all. */
  function RankScore(buckets: seq<Bucket>, t: string): Result<real> {
    match FirstWith(buckets, t) {
      case Some(i) =>
        Ok(if buckets[i].score > Threshold && buckets[i].score != 0.0 then 1.0 / RankBefore(buckets, i) as real
           else 0.0)
      case None =>
        if buckets == [] then Err(EmptySequence)
        else Ok(if buckets[0].score < Threshold then 1.0 else 0.0)
    }
  }

  /** The walk over semantic_types with found, rank and rank_score. */
  method RankWalk(semanticTypes: seq<Bucket>, t: string) returns (r: Result<real>)
    ensures r == RankScore(semanticTypes, t)
  {
    var found := false;
    var rank: nat := 1;
    var rankScore := 0.0;
    var i := 0;
    while i < |semanticTypes|
      invariant 0 <= i <= |semanticTypes| && !found && rankScore == 0.0
      invariant forall j :: 0 <= j < i ==> t !in semanticTypes[j].labels
      invariant rank == RankBefore(semanticTypes, i)
    {
      var prediction := semanticTypes[i];
      if t in prediction.labels {
        if prediction.score > Threshold && prediction.score != 0.0 {
          rankScore := 1.0 / rank as real;
        }
        found := true;
        break;
      }
      if prediction.score != 0.0 {
        rank := rank + |prediction.labels|;
      }
      i := i + 1;
    }
    if !found {
      if semanticTypes == [] {
        return Err(EmptySequence);
      }
      if semanticTypes[0].score < Threshold {
        rankScore := 1.0;
      }
    }
    r := Ok(rankScore);
  }

  /** A rank score lies in [0, 1]. */
  lemma RankScoreBounded(buckets: seq<Bucket>, t: string)
    ensures RankScore(buckets, t).Ok? ==> 0.0 <= RankScore(buckets, t).value <= 1.0
  {
    var f := FirstWith(buckets, t);
    if f.Some? {
      Fraction(1.0, RankBefore(buckets, f.value) as real);
    }
  }

  /** The rank never falls as the walk goes down the buckets. */
  lemma {:induction false} RankGrows(buckets: seq<Bucket>, m: nat, n: nat)
    requires m <= n <= |buckets|
    ensures RankBefore(buckets, m) <= RankBefore(buckets, n)
  {
    if m < n {
      RankGrows(buckets, m, n - 1);
    }
  }

  /** A true type found in an earlier bucket scores at least as well as one
      found in a later bucket, both above the threshold; types in the same
      bucket score the same. */
  lemma EarlierRanksHigher(buckets: seq<Bucket>, t: string, u: string)
    requires FirstWith(buckets, t).Some? && FirstWith(buckets, u).Some?
    requires FirstWith(buckets, t).value <= FirstWith(buckets, u).value
    requires buckets[FirstWith(buckets, u).value].score > Threshold
    requires buckets[FirstWith(buckets, t).value].score > Threshold
    ensures RankScore(buckets, t).value >= RankScore(buckets, u).value
  {
    var i, j := FirstWith(buckets, t).value, FirstWith(buckets, u).value;
    RankGrows(buckets, i, j);
    Reciprocal(RankBefore(buckets, i) as real, RankBefore(buckets, j) as real);
  }

  lemma Reciprocal(a: real, b: real)
    requires 1.0 <= a <= b
    ensures 1.0 / a >= 1.0 / b
  {
    assert 1.0 / a * a == 1.0 && 1.0 / b * b == 1.0;
  }

  // ---------------------------------------------------------------------
  // test_semantic_types, on values

  /** predict_type as evaluation uses it: the model, the column, the
      pool's documents and the pool's documents with similar text, to the
      buckets or what it raises. */
  type Predictor = (ModelState, ColumnView, Evidence, Evidence) -> Result<seq<Bucket>>

  /** The rank score of one labelled column against its pool. */
  function SlotScore(ds: string, slot: Slot, model: ModelState, s: Searcher, predict: Predictor): Result<real> {
    var examples := s.typesData(ds, slot.pool);
    var textual := s.similarText(ds, slot.column.textual, slot.pool);
    var semanticTypes :- predict(model, slot.column, examples, textual);
    RankScore(semanticTypes, if slot.column.semanticType.Some? then slot.column.semanticType.value else "")
  }

  /** The rank scores of the slots in order, or the first error. */
  function Ranks(ds: string, slots: seq<Slot>, model: ModelState, s: Searcher, predict: Predictor)
    : (r: Result<seq<real>>)
    ensures r.Ok? ==> |r.value| == |slots|
  {
    if slots == [] then Ok([])
    else
      var init :- Ranks(ds, slots[..|slots| - 1], model, s, predict);
      var last :- SlotScore(ds, slots[|slots| - 1], model, s, predict);
      Ok(init + [last])
  }

  lemma {:induction false} RanksAppend(ds: string, a: seq<Slot>, b: seq<Slot>, model: ModelState, s: Searcher,
                                       predict: Predictor)
    ensures var ra, rb := Ranks(ds, a, model, s, predict), Ranks(ds, b, model, s, predict);
      Ranks(ds, a + b, model, s, predict)
        == if ra.Err? then ra else if rb.Err? then rb else Ok(ra.value + rb.value)
  {
    if b == [] {
      assert a + b == a;
      assert Ranks(ds, b, model, s, predict) == Ok([]);
      if Ranks(ds, a, model, s, predict).Ok? {
        assert Ranks(ds, a, model, s, predict).value + [] == Ranks(ds, a, model, s, predict).value;
      }
    } else {
      var b', last := b[..|b| - 1], b[|b| - 1];
      assert (a + b)[..|a + b| - 1] == a + b' && (a + b)[|a + b| - 1] == last;
      RanksAppend(ds, a, b', model, s, predict);
      var ra, rb' := Ranks(ds, a, model, s, predict), Ranks(ds, b', model, s, predict);
      var x := SlotScore(ds, last, model, s, predict);
      if ra.Ok? && rb'.Ok? && x.Ok? {
        assert ra.value + rb'.value + [x.value] == ra.value + (rb'.value + [x.value]);
      }
    }
  }

  /** Every rank score lies in [0, 1]. */
  lemma {:induction false} RanksBounded(ds: string, slots: seq<Slot>, model: ModelState, s: Searcher,
                                        predict: Predictor)
    ensures var r := Ranks(ds, slots, model, s, predict);
      r.Ok? ==> forall x | x in r.value :: 0.0 <= x <= 1.0
  {
    var r := Ranks(ds, slots, model, s, predict);
    if slots != [] && r.Ok? {
      var last := slots[|slots| - 1];
      var init := Ranks(ds, slots[..|slots| - 1], model, s, predict);
      RanksBounded(ds, slots[..|slots| - 1], model, s, predict);
      assert init.Ok? ==> forall z | z in init.value :: 0.0 <= z <= 1.0;
      var semanticTypes := predict(model, last.column, s.typesData(ds, last.pool),
                                   s.similarText(ds, last.column.textual, last.pool));
      RankScoreBounded(semanticTypes.value,
                       if last.column.semanticType.Some? then last.column.semanticType.value else "");
      var x := SlotScore(ds, last, model, s, predict).value;
      assert x == RankScore(semanticTypes.value,
                            if last.column.semanticType.Some? then last.column.semanticType.value else "").value;
      assert r.value == init.value + [x];
      assert 0.0 <= x <= 1.0;
      assert init.Ok?;
      forall y | y in r.value ensures 0.0 <= y <= 1.0 {
        if y in init.value {
          assert 0.0 <= y <= 1.0;
        } else {
          assert y == x;
        }
      }
    }
  }

  /** One step of a scoring loop: the slots so far are before, the step's
      are step, and both lie at the front of full. */
  lemma Advance(ds: string, before: seq<Slot>, step: seq<Slot>, full: seq<Slot>, scores: seq<real>,
                part: Result<seq<real>>, model: ModelState, s: Searcher, predict: Predictor)
    requires before + step <= full
    requires Ranks(ds, before, model, s, predict) == Ok(scores)
    requires part == Ranks(ds, step, model, s, predict)
    ensures part.Err? ==> Ranks(ds, full, model, s, predict) == Err(part.error)
    ensures part.Ok? ==> Ranks(ds, before + step, model, s, predict) == Ok(scores + part.value)
  {
    RanksAppend(ds, before, step, model, s, predict);
    if part.Err? {
      var rest := full[|before + step|..];
      assert full == (before + step) + rest;
      RanksAppend(ds, before + step, rest, model, s, predict);
    }
  }

  /** rank_score_map[size][0.01] and count_map[size][0.01]: the sum of the
      rank scores and their number, per train size. */
  type Accumulators = map<int, (real, nat)>

  function Get(acc: Accumulators, size: int): (real, nat) {
    if size in acc then acc[size] else (0.0, 0)
  }

  /** One more round of size, whose rank scores sum to t.0 and number
      t.1, added to its accumulators. */
  function Add(acc: Accumulators, size: int, t: (real, nat)): Accumulators {
    acc[size := (Get(acc, size).0 + t.0, Get(acc, size).1 + t.1)]
  }

  /** test_semantic_types over the views: for each test size in turn, the
      rank scores of its slots, added to the size's accumulators, then the
      size's F-measure (the mean rank score so far), which raises when no
      column was counted. It stops at the first error. */
  function Evaluate(ds: string, view: seq<seq<ColumnView>>, names: seq<string>, sizes: seq<int>,
                    model: ModelState, s: Searcher, predict: Predictor)
    : Result<(seq<real>, Accumulators)>
  {
    if sizes == [] then Ok(([], map[]))
    else
      var size := sizes[|sizes| - 1];
      var prev :- Evaluate(ds, view, names, sizes[..|sizes| - 1], model, s, predict);
      var t :- Tally(SizeRanks(ds, view, names, size, model, s, predict));
      Measure(prev, size, t)
  }

  /** The rank scores of one round of a test size. */
  function SizeRanks(ds: string, view: seq<seq<ColumnView>>, names: seq<string>, size: int,
                     model: ModelState, s: Searcher, predict: Predictor): Result<seq<real>>
  {
    Ranks(ds, SizeSlots(view, names, size, |view|), model, s, predict)
  }

  /** The F-measures and accumulators after one more round of size whose
      rank scores sum to t.0 and number t.1. */
  function Measure(prev: (seq<real>, Accumulators), size: int, t: (real, nat)): Result<(seq<real>, Accumulators)> {
    var acc := Add(prev.1, size, t);
    if acc[size].1 == 0 then Err(ZeroDivision)
    else Ok((prev.0 + [acc[size].0 / acc[size].1 as real], acc))
  }

  /** How often size occurs in sizes. */
  function Occurrences(sizes: seq<int>, size: int): nat {
    if sizes == [] then 0
    else Occurrences(sizes[..|sizes| - 1], size) + (if sizes[|sizes| - 1] == size then 1 else 0)
  }

  lemma {:induction false} SumBounded(xs: seq<real>)
    requires forall x | x in xs :: 0.0 <= x <= 1.0
    ensures 0.0 <= SumReal(xs) <= |xs| as real
  {
    if xs != [] {
      assert forall x | x in xs[1..] :: x in xs;
      SumBounded(xs[1..]);
      assert xs[0] in xs;
    }
  }

  /** Every accumulated sum lies between 0 and its count, and every
      F-measure in [0, 1]. */
  lemma {:induction false} EvaluateBounded(ds: string, view: seq<seq<ColumnView>>, names: seq<string>,
                                           sizes: seq<int>, model: ModelState, s: Searcher, predict: Predictor)
    ensures var r := Evaluate(ds, view, names, sizes, model, s, predict);
      r.Ok? ==>
        && (forall z | z in r.value.1 :: 0.0 <= r.value.1[z].0 <= r.value.1[z].1 as real)
        && (forall f | f in r.value.0 :: 0.0 <= f <= 1.0)
  {
    var r := Evaluate(ds, view, names, sizes, model, s, predict);
    if sizes != [] && r.Ok? {
      var size := sizes[|sizes| - 1];
      var prev := Evaluate(ds, view, names, sizes[..|sizes| - 1], model, s, predict);
      EvaluateBounded(ds, view, names, sizes[..|sizes| - 1], model, s, predict);
      RanksBounded(ds, SizeSlots(view, names, size, |view|), model, s, predict);
      var scores := SizeRanks(ds, view, names, size, model, s, predict).value;
      SumBounded(scores);
      MeasureBounded(prev.value, size, (SumReal(scores), |scores|));
    }
  }

  lemma MeasureBounded(prev: (seq<real>, Accumulators), size: int, t: (real, nat))
    requires forall z | z in prev.1 :: 0.0 <= prev.1[z].0 <= prev.1[z].1 as real
    requires forall f | f in prev.0 :: 0.0 <= f <= 1.0
    requires 0.0 <= t.0 <= t.1 as real
    ensures var r := Measure(prev, size, t);
      r.Ok? ==>
        && (forall z | z in r.value.1 :: 0.0 <= r.value.1[z].0 <= r.value.1[z].1 as real)
        && (forall f | f in r.value.0 :: 0.0 <= f <= 1.0)
  {
    var acc := Add(prev.1, size, t);
    if acc[size].1 != 0 {
      Fraction(acc[size].0, acc[size].1 as real);
      var fs := prev.0 + [acc[size].0 / acc[size].1 as real];
      forall f | f in fs ensures 0.0 <= f <= 1.0 {
        assert f in prev.0 || f == acc[size].0 / acc[size].1 as real;
      }
    }
  }

  /** Each test size counts every labelled column once per occurrence in
      test_sizes: its count is that number times the labelled columns. */
  lemma {:induction false} EvaluateCounts(ds: string, view: seq<seq<ColumnView>>, names: seq<string>,
                                          sizes: seq<int>, model: ModelState, s: Searcher, predict: Predictor)
    ensures var r := Evaluate(ds, view, names, sizes, model, s, predict);
      r.Ok? ==>
        && |r.value.0| == |sizes|
        && (forall z | z in r.value.1 :: r.value.1[z].1 == Occurrences(sizes, z) * LabelledColumns(view))
        && (forall k | 0 <= k < |sizes| :: sizes[k] in r.value.1)
  {
    var r := Evaluate(ds, view, names, sizes, model, s, predict);
    if sizes != [] && r.Ok? {
      var n := |sizes|;
      var size := sizes[n - 1];
      var init := sizes[..n - 1];
      var prev := Evaluate(ds, view, names, init, model, s, predict);
      EvaluateCounts(ds, view, names, init, model, s, predict);
      SizeSlotsCount(view, names, size, |view|);
      assert view[..|view|] == view;
      var scores := SizeRanks(ds, view, names, size, model, s, predict).value;
      var t := (SumReal(scores), |scores|);
      assert Tally(SizeRanks(ds, view, names, size, model, s, predict)) == Ok(t);
      assert r == Measure(prev.value, size, t);
      assert sizes == init + [size];
      AddCounts(prev.value.1, init, size, t, LabelledColumns(view));
    }
  }

  /** One more round of size keeps each count at its number of rounds
      times the columns counted per round. */
  lemma AddCounts(acc: Accumulators, init: seq<int>, size: int, t: (real, nat), l: nat)
    requires t.1 == l
    requires forall z | z in acc :: acc[z].1 == Occurrences(init, z) * l
    requires forall k | 0 <= k < |init| :: init[k] in acc
    ensures var acc' := Add(acc, size, t);
      && (forall z | z in acc' :: acc'[z].1 == Occurrences(init + [size], z) * l)
      && (forall k | 0 <= k < |init + [size]| :: (init + [size])[k] in acc')
  {
    var sizes := init + [size];
    assert sizes[..|sizes| - 1] == init;
    var acc' := Add(acc, size, t);
    forall z | z in acc' ensures acc'[z].1 == Occurrences(sizes, z) * l {
      if z == size {
        OneMore(Occurrences(init, z), l);
        if z !in acc {
          NotOccurring(init, z, acc);
        }
      }
    }
  }

  lemma {:induction false} NotOccurring(sizes: seq<int>, z: int, acc: Accumulators)
    requires (forall k | 0 <= k < |sizes| :: sizes[k] in acc) && z !in acc
    ensures Occurrences(sizes, z) == 0
  {
    if sizes != [] {
      NotOccurring(sizes[..|sizes| - 1], z, acc);
    }
  }

  /** With no labelled column and at least one test size, the first
      F-measure divides by a zero count. */
  lemma {:induction false} NothingLabelled(ds: string, view: seq<seq<ColumnView>>, names: seq<string>,
                                           sizes: seq<int>, model: ModelState, s: Searcher, predict: Predictor)
    requires LabelledColumns(view) == 0 && sizes != []
    ensures Evaluate(ds, view, names, sizes, model, s, predict) == Err(ZeroDivision)
  {
    var n := |sizes|;
    var size := sizes[n - 1];
    SizeSlotsCount(view, names, size, |view|);
    assert view[..|view|] == view;
    if n > 1 {
      NothingLabelled(ds, view, names, sizes[..n - 1], model, s, predict);
    } else {
      assert sizes[..n - 1] == [];
    }
  }

  /** An error before the last test size is the evaluation's error. */
  lemma EvaluateErr(ds: string, view: seq<seq<ColumnView>>, names: seq<string>, sizes: seq<int>,
                    model: ModelState, s: Searcher, predict: Predictor)
    requires sizes != [] && Evaluate(ds, view, names, sizes[..|sizes| - 1], model, s, predict).Err?
    ensures Evaluate(ds, view, names, sizes, model, s, predict) == Evaluate(ds, view, names, sizes[..|sizes| - 1], model, s, predict)
  {
  }

  /** An error at some test size stops the evaluation there. */
  lemma {:induction false} EvaluateStops(ds: string, view: seq<seq<ColumnView>>, names: seq<string>, sizes: seq<int>,
                                         k: nat, model: ModelState, s: Searcher, predict: Predictor)
    requires k <= |sizes| && Evaluate(ds, view, names, sizes[..k], model, s, predict).Err?
    ensures Evaluate(ds, view, names, sizes, model, s, predict) == Evaluate(ds, view, names, sizes[..k], model, s, predict)
  {
    if k < |sizes| {
      var init := sizes[..|sizes| - 1];
      assert init[..k] == sizes[..k];
      EvaluateStops(ds, view, names, init, k, model, s, predict);
      EvaluateErr(ds, view, names, sizes, model, s, predict);
    } else {
      assert sizes[..k] == sizes;
    }
  }

  /** The F-measures of an evaluation, or what it raised. */
  function Measures(r: Result<(seq<real>, Accumulators)>): Result<seq<real>> {
    if r.Err? then Err(r.error) else Ok(r.value.0)
  }

  /** The sum and the number of the rank scores, or what was raised. */
  function Tally(ranks: Result<seq<real>>): Result<(real, nat)> {
    if ranks.Err? then Err(ranks.error) else Ok((SumReal(ranks.value), |ranks.value|))
  }

  // ---------------------------------------------------------------------
  // test_semantic_types, loop by loop. Nothing is changed, so the views
  // snap took are the columns' views throughout.

  /** One labelled column: search_similar_text_data on its text against
      the pool, predict_type, then the rank walk. */
  method EvalColumn(ds: string, s: Searcher, predict: Predictor, model: ModelState, c: Column,
                    size: int, idx: int, pool: seq<string>, examples: Evidence)
    returns (r: Result<real>)
    requires examples == s.typesData(ds, pool) && c.semanticType.Some?
    ensures r == SlotScore(ds, Slot(size, idx, pool, ViewOf(c)), model, s, predict)
  {
    var textual := s.similarText(ds, c.valueText, pool);
    var semanticTypes :- predict(model, ViewOf(c), examples, textual);
    r := RankWalk(semanticTypes, c.semanticType.value);
  }

  /** A key's column is a slot when it is labelled, and adds nothing
      otherwise; a slot that raises ends the source's loop. */
  lemma SourceStep(ds: string, view: seq<ColumnView>, j: int, size: int, idx: int, pool: seq<string>,
                   scores: seq<real>, model: ModelState, s: Searcher, predict: Predictor)
    requires 0 <= j < |view|
    requires Ranks(ds, ColumnSlots(view[..j], size, idx, pool), model, s, predict) == Ok(scores)
    ensures !Truthy(view[j].semanticType) ==>
      Ranks(ds, ColumnSlots(view[..j + 1], size, idx, pool), model, s, predict) == Ok(scores)
    ensures var x := SlotScore(ds, Slot(size, idx, pool, view[j]), model, s, predict);
      Truthy(view[j].semanticType) && x.Err? ==>
        Ranks(ds, ColumnSlots(view, size, idx, pool), model, s, predict) == Err(x.error)
    ensures var x := SlotScore(ds, Slot(size, idx, pool, view[j]), model, s, predict);
      Truthy(view[j].semanticType) && x.Ok? ==>
        Ranks(ds, ColumnSlots(view[..j + 1], size, idx, pool), model, s, predict) == Ok(scores + [x.value])
  {
    var v := view[j];
    var step := ColumnSlots([v], size, idx, pool);
    assert [v][..0] == [] && [v][0] == v;
    assert step == ColumnSlots([], size, idx, pool) + (if Truthy(v.semanticType) then [Slot(size, idx, pool, v)] else []);
    if Truthy(v.semanticType) {
      assert step == [Slot(size, idx, pool, v)];
      assert step[..0] == [];
    } else {
      assert step == [];
    }
    ColumnStep(view, j, size, idx, pool);
    Advance(ds, ColumnSlots(view[..j], size, idx, pool), step, ColumnSlots(view, size, idx, pool),
            scores, Ranks(ds, step, model, s, predict), model, s, predict);
    if !Truthy(v.semanticType) {
      assert ColumnSlots(view[..j], size, idx, pool) + step == ColumnSlots(view[..j], size, idx, pool);
      assert scores + [] == scores;
    }
  }

  /** The column loop of one held-out source, in column_map order. */
  method EvalSource(ds: string, s: Searcher, predict: Predictor, model: ModelState, keys: seq<string>,
                    columns: map<string, Column>, size: int, idx: int, pool: seq<string>, examples: Evidence,
                    ghost snap: map<Column, ColumnView>)
    returns (t: Result<(real, nat)>)
    requires examples == s.typesData(ds, pool)
    requires Agrees(columns.Values, snap) && forall k | k in keys :: k in columns
    ensures t == Tally(Ranks(ds, ColumnSlots(ViewsOf(columns, keys, snap), size, idx, pool), model, s, predict))
  {
    ghost var view := ViewsOf(columns, keys, snap);
    ghost var scores: seq<real> := [];
    var sum, count := 0.0, 0;
    var j := 0;
    while j < |keys|
      invariant 0 <= j <= |keys|
      invariant Ranks(ds, ColumnSlots(view[..j], size, idx, pool), model, s, predict) == Ok(scores)
      invariant sum == SumReal(scores) && count == |scores|
    {
      var c := columns[keys[j]];
      assert c in columns.Values && view[j] == ViewOf(c);
      SourceStep(ds, view, j, size, idx, pool, scores, model, s, predict);
      if Truthy(c.semanticType) {
        var x := EvalColumn(ds, s, predict, model, c, size, idx, pool, examples);
        if x.Err? {
          return Err(x.error);
        }
        SumRealAppend(scores, [x.value]);
        sum, count := sum + x.value, count + 1;
        scores := scores + [x.value];
      }
      j := j + 1;
    }
    assert view[..j] == view;
    t := Ok((sum, count));
  }

  /** One held-out source: its pool is double_name_list[idx + 1 : idx +
      size + 1], whose documents search_types_data fetches once. */
  method EvalHeldOut(ds: string, s: Searcher, predict: Predictor, model: ModelState, ls: seq<Layout>,
                     names: seq<string>, size: int, idx: int, ghost snap: map<Column, ColumnView>)
    returns (t: Result<(real, nat)>)
    requires Keyed(ls) && names == Names(ls) && 0 <= idx < |ls| && Agrees(Cols(ls), snap)
    ensures var view := SourceViews(ls, snap);
      t == Tally(Ranks(ds, ColumnSlots(view[idx], size, idx, TrainNames(names, idx, size)), model, s, predict))
  {
    var pool := TrainNames(names, idx, size);
    var examples := s.typesData(ds, pool);
    var src := ls[idx];
    assert src.columns.Values <= Cols(ls);
    t := EvalSource(ds, s, predict, model, src.keys, src.columns, size, idx, pool, examples, snap);
  }

  /** One test size: every source held out in turn. */
  method EvalSize(ds: string, s: Searcher, predict: Predictor, model: ModelState, ls: seq<Layout>,
                  names: seq<string>, size: int, ghost snap: map<Column, ColumnView>)
    returns (t: Result<(real, nat)>)
    requires Keyed(ls) && names == Names(ls) && Agrees(Cols(ls), snap)
    ensures t == Tally(SizeRanks(ds, SourceViews(ls, snap), names, size, model, s, predict))
  {
    ghost var view := SourceViews(ls, snap);
    assert |view| == |ls|;
    ghost var scores: seq<real> := [];
    var sum, count := 0.0, 0;
    var idx := 0;
    while idx < |ls|
      invariant 0 <= idx <= |ls|
      invariant Ranks(ds, SizeSlots(view, names, size, idx), model, s, predict) == Ok(scores)
      invariant sum == SumReal(scores) && count == |scores|
    {
      var next, after := HeldOutRound(ds, s, predict, model, ls, names, size, idx, snap, scores);
      if next.Err? {
        return next;
      }
      sum, count := sum + next.value.0, count + next.value.1;
      scores := after;
      idx := idx + 1;
    }
    t := Ok((sum, count));
  }

  /** One pass of the loop over held-out sources: source idx is scored
      against its pool, and the rank scores so far (after) are those
      before it followed by its own, or what it raises is the outcome of
      the test size. */
  method HeldOutRound(ds: string, s: Searcher, predict: Predictor, model: ModelState, ls: seq<Layout>,
                      names: seq<string>, size: int, idx: int, ghost snap: map<Column, ColumnView>,
                      ghost scores: seq<real>)
    returns (next: Result<(real, nat)>, ghost after: seq<real>)
    requires Keyed(ls) && names == Names(ls) && Agrees(Cols(ls), snap) && 0 <= idx < |ls|
    requires Ranks(ds, SizeSlots(SourceViews(ls, snap), names, size, idx), model, s, predict) == Ok(scores)
    ensures next.Err? ==> next == Tally(SizeRanks(ds, SourceViews(ls, snap), names, size, model, s, predict))
    ensures next.Ok? ==>
      && Ranks(ds, SizeSlots(SourceViews(ls, snap), names, size, idx + 1), model, s, predict) == Ok(after)
      && SumReal(after) == SumReal(scores) + next.value.0
      && |after| == |scores| + next.value.1
  {
    next := EvalHeldOut(ds, s, predict, model, ls, names, size, idx, snap);
    var part := HeldOutTally(ds, SourceViews(ls, snap), names, size, idx, model, s, predict, scores, next);
    after := scores + part;
  }

  /** One pass of the loop over held-out sources: the rank scores of
      source idx (part) follow those of the sources before it, adding
      their sum and number to the running ones, or what it raises is the
      outcome of the whole test size. */
  lemma HeldOutTally(ds: string, view: seq<seq<ColumnView>>, names: seq<string>, size: int, idx: int,
                     model: ModelState, s: Searcher, predict: Predictor, scores: seq<real>,
                     next: Result<(real, nat)>)
    returns (part: seq<real>)
    requires 0 <= idx < |view|
    requires Ranks(ds, SizeSlots(view, names, size, idx), model, s, predict) == Ok(scores)
    requires next == Tally(Ranks(ds, ColumnSlots(view[idx], size, idx, TrainNames(names, idx, size)), model, s, predict))
    ensures next.Err? ==> next == Tally(SizeRanks(ds, view, names, size, model, s, predict))
    ensures next.Ok? ==>
      && Ranks(ds, SizeSlots(view, names, size, idx + 1), model, s, predict) == Ok(scores + part)
      && SumReal(scores + part) == SumReal(scores) + next.value.0
      && |scores + part| == |scores| + next.value.1
  {
    var r := Ranks(ds, ColumnSlots(view[idx], size, idx, TrainNames(names, idx, size)), model, s, predict);
    HeldOutAdvance(ds, view, names, size, idx, scores, model, s, predict);
    part := if r.Ok? then r.value else [];
    SumRealAppend(scores, part);
  }

  /** One more held-out source: its rank scores follow those of the
      sources before it, or what it raises ends the round. */
  lemma HeldOutAdvance(ds: string, view: seq<seq<ColumnView>>, names: seq<string>, size: int, idx: int,
                       scores: seq<real>, model: ModelState, s: Searcher, predict: Predictor)
    requires 0 <= idx < |view|
    requires Ranks(ds, SizeSlots(view, names, size, idx), model, s, predict) == Ok(scores)
    ensures var part := Ranks(ds, ColumnSlots(view[idx], size, idx, TrainNames(names, idx, size)), model, s, predict);
      && (part.Err? ==> Ranks(ds, SizeSlots(view, names, size, |view|), model, s, predict) == Err(part.error))
      && (part.Ok? ==> Ranks(ds, SizeSlots(view, names, size, idx + 1), model, s, predict) == Ok(scores + part.value))
  {
    var step := ColumnSlots(view[idx], size, idx, TrainNames(names, idx, size));
    HeldOutStep(view, names, size, idx);
    Advance(ds, SizeSlots(view, names, size, idx), step, SizeSlots(view, names, size, |view|),
            scores, Ranks(ds, step, model, s, predict), model, s, predict);
  }

  /** One more test size: the evaluation so far, then this size's rank
      scores added to its accumulators and its F-measure. */
  lemma SizesStep(ds: string, view: seq<seq<ColumnView>>, names: seq<string>, sizes: seq<int>, k: int,
                  fs: seq<real>, acc: Accumulators, model: ModelState, s: Searcher, predict: Predictor)
    requires 0 <= k < |sizes|
    requires Evaluate(ds, view, names, sizes[..k], model, s, predict) == Ok((fs, acc))
    ensures var t := Tally(SizeRanks(ds, view, names, sizes[k], model, s, predict));
      Evaluate(ds, view, names, sizes[..k + 1], model, s, predict)
        == if t.Err? then Err(t.error) else Measure((fs, acc), sizes[k], t.value)
  {
    assert sizes[..k + 1][..k] == sizes[..k];
  }

  /** One test size of the loop over test_sizes: its rank scores go into
      its accumulators, then its F-measure is taken. */
  method SizeRound(ds: string, s: Searcher, predict: Predictor, model: ModelState, ls: seq<Layout>,
                   names: seq<string>, sizes: seq<int>, k: int, fs: seq<real>, acc: Accumulators,
                   ghost snap: map<Column, ColumnView>)
    returns (r: Result<(seq<real>, Accumulators)>)
    requires Keyed(ls) && names == Names(ls) && Agrees(Cols(ls), snap) && 0 <= k < |sizes|
    requires Evaluate(ds, SourceViews(ls, snap), names, sizes[..k], model, s, predict) == Ok((fs, acc))
    ensures r == Evaluate(ds, SourceViews(ls, snap), names, sizes[..k + 1], model, s, predict)
  {
    var t := EvalSize(ds, s, predict, model, ls, names, sizes[k], snap);
    SizesStep(ds, SourceViews(ls, snap), names, sizes, k, fs, acc, model, s, predict);
    if t.Err? {
      return Err(t.error);
    }
    r := Measure((fs, acc), sizes[k], t.value);
  }

  /** The loop over test_sizes, one F-measure per test size. */
  method EvalSizes(ds: string, s: Searcher, predict: Predictor, model: ModelState, ls: seq<Layout>,
                   sizes: seq<int>, ghost snap: map<Column, ColumnView>)
    returns (r: Result<seq<real>>)
    requires Keyed(ls) && Agrees(Cols(ls), snap)
    ensures r == Measures(Evaluate(ds, SourceViews(ls, snap), Names(ls), sizes, model, s, predict))
  {
    ghost var view := SourceViews(ls, snap);
    var names := Names(ls);
    var fs: seq<real> := [];
    var acc: Accumulators := map[];
    var k := 0;
    while k < |sizes|
      invariant 0 <= k <= |sizes|
      invariant Evaluate(ds, view, names, sizes[..k], model, s, predict) == Ok((fs, acc))
    {
      var next := SizeRound(ds, s, predict, model, ls, names, sizes, k, fs, acc, snap);
      if next.Err? {
        EvaluateStops(ds, view, names, sizes, k + 1, model, s, predict);
        return Err(next.error);
      }
      fs, acc := next.value.0, next.value.1;
      k := k + 1;
    }
    assert sizes[..k] == sizes;
    r := Ok(fs);
  }

  // ---------------------------------------------------------------------
  // Predicting the types of columns

  /** scores are what the labeler gives column c with this evidence: the
      normalised pairs of the buckets predict_type returns, or the fail
      pair when predict_type raises. */
  ghost predicate ScoredAs(c: Column, scores: seq<Scored>, examples: Evidence, textual: Evidence,
                           model: ModelState, h: Helpers)
    reads c
  {
    if c.HasTokens() && c.sourceName.Some? && c.Candidates(examples, textual, model, h).Ok? then
      exists buckets ::
        && GroupsOf(buckets, c.Candidates(examples, textual, model, h).value.0, h.round2)
        && buckets != [] && scores == Normalise(Flatten(buckets))
    else scores == FailScores
  }

  /** The try block of the predict methods: predict_type, all_preds and
      its normalisation; whatever predict_type raises gives the fail pair. */
  method ScoreColumn(c: Column, examples: Evidence, textual: Evidence, model: ModelState, h: Helpers)
    returns (scores: seq<Scored>)
    modifies c
    ensures c.Prepared(h) && (old(c.Valid()) ==> c.Valid())
    ensures ScoredAs(c, scores, examples, textual, model, h)
  {
    var semanticTypes := c.PredictType(examples, textual, model, h);
    if semanticTypes.Err? {
      return FailScores;
    }
    var allPreds := AllPreds(semanticTypes.value);
    scores := Normalise(allPreds);
  }

  /** res is the entry for column c of the source named sourceName, whose
      index is indexName. */
  ghost predicate Reported(res: ColumnResult, sourceName: string, indexName: string, c: Column,
                           model: ModelState, s: Searcher, h: Helpers)
    reads c
  {
    && res.sourceName == Some(sourceName) && res.columnName == c.name && res.correctLabel == c.semanticType
    && ScoredAs(c, res.scores, s.typesData(indexName, []), s.similarText(indexName, c.valueText, []), model, h)
  }

  /** The first j columns of source are reported in results and prepared;
      entry lists the states the columns started in. */
  ghost predicate Scanned(source: Source, entry: seq<ColumnState>, j: nat, results: seq<ColumnResult>,
                          model: ModelState, s: Searcher, h: Helpers)
    reads source, source.columnMap.Values
  {
    && source.Valid() && j <= |source.keys| == |entry| && |results| == j
    && source.Holds(PreparedPrefix(entry, j, h))
    && forall i :: 0 <= i < j ==>
      Reported(results[i], source.name, source.indexName, source.columnMap[source.keys[i]], model, s, h)
  }

  /** The loop body of predict_folder_semantic_types for the key at
      position j: its column is prepared and scored against the source's
      own index, and the columns before it, with their results in earlier,
      stay as they were. */
  method ReportColumn(source: Source, j: int, model: ModelState, s: Searcher, h: Helpers, ghost entry: seq<ColumnState>,
                      earlier: seq<ColumnResult>)
    returns (res: ColumnResult)
    requires 0 <= j < |source.keys| && Scanned(source, entry, j, earlier, model, s, h)
    modifies source.columnMap[source.keys[j]]
    ensures source.columnMap[source.keys[j]].Prepared(h)
    ensures Scanned(source, entry, j + 1, earlier + [res], model, s, h)
  {
    var c := source.columnMap[source.keys[j]];
    assert c in source.columnMap.Values;
    ghost var sts := PreparedPrefix(entry, j, h);
    PreparedPrefixAt(entry, j, h);
    label before:
    var examples := s.typesData(source.indexName, []);
    var textual := s.similarText(source.indexName, c.valueText, []);
    var scores := ScoreColumn(c, examples, textual, model, h);
    res := ColumnResult(Some(source.name), c.name, c.semanticType, scores);
    forall d | d in source.columnMap.Values ensures d.Valid() {
      if d != c {
        assert old@before(d.Valid());
      }
    }
    forall i | 0 <= i < |source.keys| ensures source.columnMap[source.keys[i]].State() == sts[j := Prepare(sts[j], h)][i] {
      if i != j {
        assert source.columnMap[source.keys[i]] != c;
      }
    }
    forall i | 0 <= i < j + 1
      ensures Reported((earlier + [res])[i], source.name, source.indexName, source.columnMap[source.keys[i]], model, s, h)
    {
      if i < j {
        assert source.columnMap[source.keys[i]] != c;
        assert old@before(Reported(earlier[i], source.name, source.indexName, source.columnMap[source.keys[i]], model, s, h));
      }
    }
  }

  /** entry with its first j columns prepared. */
  function PreparedPrefix(entry: seq<ColumnState>, j: nat, h: Helpers): (r: seq<ColumnState>)
    requires j <= |entry|
    ensures |r| == |entry|
  {
    if j == 0 then entry else PreparedPrefix(entry, j - 1, h)[j - 1 := Prepare(entry[j - 1], h)]
  }

  /** The first j columns are prepared and the others are as they were. */
  lemma {:induction false} PreparedPrefixAt(entry: seq<ColumnState>, j: nat, h: Helpers)
    requires j <= |entry|
    ensures forall i :: 0 <= i < |entry| ==>
      PreparedPrefix(entry, j, h)[i] == if i < j then Prepare(entry[i], h) else entry[i]
  {
    if j > 0 {
      PreparedPrefixAt(entry, j - 1, h);
    }
  }

  /** With every column prepared, the prefix is the whole source. */
  lemma PreparedPrefixAll(entry: seq<ColumnState>, h: Helpers)
    ensures PreparedPrefix(entry, |entry|, h) == PrepareAll(entry, h)
  {
    PreparedPrefixAt(entry, |entry|, h);
  }

  /** The column loop of predict_folder_semantic_types for one source,
      in column_map order: every column ends up prepared. */
  method ReportColumns(source: Source, model: ModelState, s: Searcher, h: Helpers)
    returns (results: seq<ColumnResult>)
    requires source.Valid()
    modifies source.columnMap.Values
    ensures source.Valid()
    ensures source.States() == PrepareAll(old(source.States()), h)
    ensures |results| == |source.keys|
    ensures forall j | 0 <= j < |results| :: results[j].sourceName == Some(source.name)
    ensures forall j :: 0 <= j < |results| ==>
      Reported(results[j], source.name, source.indexName, source.columnMap[source.keys[j]], model, s, h)
  {
    results := [];
    ghost var entry := source.States();
    ScannedNone(source, model, s, h);
    var j := 0;
    while j < |source.keys|
      invariant Scanned(source, entry, j, results, model, s, h)
    {
      var res := ReportColumn(source, j, model, s, h, entry, results);
      results := results + [res];
      j := j + 1;
    }
    ScannedAll(source, entry, results, model, s, h);
  }

  /** Before the loop no column is scanned. */
  lemma ScannedNone(source: Source, model: ModelState, s: Searcher, h: Helpers)
    requires source.Valid()
    ensures Scanned(source, source.States(), 0, [], model, s, h)
  {
  }

  /** Once every column is scanned, the source holds its prepared entry
      states and every result is reported. */
  lemma ScannedAll(source: Source, entry: seq<ColumnState>, results: seq<ColumnResult>,
                   model: ModelState, s: Searcher, h: Helpers)
    requires Scanned(source, entry, |source.keys|, results, model, s, h)
    ensures source.States() == PrepareAll(entry, h)
    ensures forall j | 0 <= j < |results| :: results[j].sourceName == Some(source.name)
    ensures forall j :: 0 <= j < |results| ==>
      Reported(results[j], source.name, source.indexName, source.columnMap[source.keys[j]], model, s, h)
  {
    source.HoldsStates(PreparedPrefix(entry, |entry|, h));
    PreparedPrefixAll(entry, h);
  }

  /** What predicting one source leaves, from columns whose states were
      entry: the documents save wrote (added) and the column states are
      those of the indexing run; when it raised, with ZeroDivisionError,
      the run stopped at the first labelled column without tokens;
      otherwise every column is prepared and results holds one reported
      entry per key, in column_map order. */
  ghost predicate Predicted(source: Source, entry: seq<ColumnState>, o: Outcome, results: seq<ColumnResult>,
                            added: seq<Entry>, model: ModelState, s: Searcher, h: Helpers)
    reads source, source.columnMap.Values
  {
    && source.Valid() && |entry| == |source.keys|
    && var r := IndexRun(entry, PrepareAll(entry, h), |source.keys|, source.indexName);
    && added == r.docs && (o.Fail? <==> r.failed.Some?)
    && (o.Fail? ==> source.States() == r.states && o.error == ZeroDivision)
    && (o.Pass? ==> source.States() == PrepareAll(entry, h) && |results| == |source.keys|)
    && (o.Pass? ==> forall j :: 0 <= j < |results| ==>
         Reported(results[j], source.name, source.indexName, source.columnMap[source.keys[j]], model, s, h))
  }

  /** The columns of the sources. */
  ghost function FolderColumns(sources: seq<Source>): set<Column>
    reads sources
  {
    set i, c | 0 <= i < |sources| && c in sources[i].columnMap.Values :: c
  }

  /** Each source's name and number of columns. */
  ghost function Shapes(sources: seq<Source>): (r: seq<(string, nat)>)
    reads sources
    ensures |r| == |sources|
  {
    seq(|sources|, i requires 0 <= i < |sources| reads sources => (sources[i].name, |sources[i].keys|))
  }

  /** The source name of each column, in order: a source with k columns
      gives its name k times. */
  function Owners(shapes: seq<(string, nat)>): seq<string> {
    if shapes == [] then []
    else
      var last := shapes[|shapes| - 1];
      Owners(shapes[..|shapes| - 1]) + seq(last.1, _ => last.0)
  }

  /** The labeler, with the data sets it has read and the random forest
      it trained. indexer is the search/indexer module it writes to. */
  class SemanticLabeler {
    const dataFolder: string
    const indexer: Indexer
    /** data set name to its sources, in file order. */
    var datasetMap: map<string, seq<Source>>
    var fileClassMap: map<string, string>
    var randomForest: Option<RandomForest>

    constructor (dataFolder: string, indexer: Indexer)
      ensures this.dataFolder == dataFolder && this.indexer == indexer
      ensures datasetMap == map[] && fileClassMap == map[] && randomForest == None
    {
      this.dataFolder := dataFolder;
      this.indexer := indexer;
      datasetMap := map[];
      fileClassMap := map[];
      randomForest := None;
    }

    /** reset: forgets the data sets, the class map and the model, then
        cleans the index, re-raising what clean raises; gone names the
        indexes a failing clean deleted. */
    method Reset(failure: Option<string>, gone: set<string>) returns (o: Outcome)
      modifies this`datasetMap, this`fileClassMap, this`randomForest, indexer`store
      ensures datasetMap == map[] && fileClassMap == map[] && randomForest == None
      ensures o.Pass? <==> failure.None?
      ensures o.Pass? ==> indexer.store == map[]
      ensures o.Fail? ==> o.error == Backend(CleanFailure + failure.value)
      ensures o.Fail? ==>
        && indexer.store.Keys == old(indexer.store).Keys - gone
        && forall k | k in indexer.store :: indexer.store[k] == old(indexer.store)[k]
    {
      datasetMap, fileClassMap, randomForest := map[], map[], None;
      var cleaned := indexer.Clean(failure, gone);
      o := if cleaned.Ok? then Pass else Fail(cleaned.error);
    }

    /** The last step of read_data_sources: the folder's sources, once
        read, are stored under its name. */
    method StoreFolder(folderName: string, sources: seq<Source>)
      modifies this`datasetMap
      ensures datasetMap == old(datasetMap)[folderName := sources]
    {
      datasetMap := datasetMap[folderName := sources];
    }

    /** train_random_forest: a new MyRandomForest on the data sets, stored
        before it trains, so a training that raises leaves it in place. */
    method TrainRandomForest(trainSizes: seq<int>, dataSets: seq<string>, s: Searcher, h: Helpers,
                             stored: Option<seq<FeatureRow>>, fit: seq<FeatureRow> -> Option<Classifier>)
      returns (r: Result<seq<FeatureRow>>, ghost generated: Result<seq<FeatureRow>>, ghost docs: seq<Doc>)
      requires AllIndexed(datasetMap)
      modifies this`randomForest, ColumnsOf(datasetMap)
      ensures randomForest.Some? && fresh(randomForest.value)
      ensures randomForest.value.dataSets == dataSets && randomForest.value.datasetMap == datasetMap
      ensures stored.None? ==>
        var tables := Tables(old(LayoutsOf(datasetMap)), trainSizes, old(Snapshot(ColumnsOf(datasetMap))));
        GeneratedFrom(dataSets, tables, generated, docs, s, h)
      ensures Fitting(stored, generated, fit, NoModel, randomForest.value.model, r)
    {
      ghost var layouts := LayoutsOf(datasetMap);
      ghost var snap := Snapshot(ColumnsOf(datasetMap));
      var rf := new RandomForest(dataSets, datasetMap);
      assert LayoutsOf(datasetMap) == layouts && Snapshot(ColumnsOf(datasetMap)) == snap;
      r, generated, docs := rf.Train(trainSizes, s, h, stored, fit);
      randomForest := Some(rf);
    }

    /** predict_semantic_type_for_column: the column's scores against the
        whole index (search config ""), in a result with folder name "".
        Without a trained model it raises before anything is done. */
    method PredictSemanticTypeForColumn(column: Column, s: Searcher, h: Helpers) returns (r: Result<FolderResult>)
      modifies column
      ensures randomForest.None? ==> r == Err(NotTrained) && unchanged(column)
      ensures randomForest.Some? ==> r.Ok? && r.value.folderName == "" && |r.value.predictions| == 1
      ensures randomForest.Some? ==>
        var res := r.value.predictions[0];
        && column.Prepared(h)
        && res.sourceName == column.sourceName && res.columnName == column.name
        && res.correctLabel == column.semanticType
        && ScoredAs(column, res.scores, s.typesData("", []), s.similarText("", old(column.valueText), []),
                    randomForest.value.model, h)
    {
      if randomForest.None? {
        return Err(NotTrained);
      }
      var examples := s.typesData("", []);
      var textual := s.similarText("", column.valueText, []);
      var sourceName, columnName, correctLabel := column.sourceName, column.name, column.semanticType;
      var scores := ScoreColumn(column, examples, textual, randomForest.value.model, h);
      r := Ok(FolderResult("", [ColumnResult(sourceName, columnName, correctLabel, scores)]));
    }

    /** One source of predict_folder_semantic_types: save indexes it under
        its index_name, raising where that raises (IndexRun), then every
        column is scored against that index, in column_map order, and so
        ends up prepared. */
    method PredictSource(source: Source, model: ModelState, s: Searcher, h: Helpers)
      returns (o: Outcome, results: seq<ColumnResult>, ghost added: seq<Entry>)
      requires source.Valid()
      modifies indexer`store, source.columnMap.Values
      ensures indexer.store == Append(old(indexer.store), indexer.indexNameOf(IndexConfig(source.indexName, None)), added)
      ensures Predicted(source, old(source.States()), o, results, added, model, s, h)
    {
      ghost var entry := source.States();
      var config := IndexConfig(source.indexName, None);
      o, added := indexer.IndexSource(source, config, h);
      results := [];
      if o.Fail? {
        return;
      }
      results := ReportColumns(source, model, s, h);
      IndexThenPrepare(entry, source.indexName, h);
    }

    /** predict_folder_semantic_types: the folder's sources, each indexed
        and scored in turn, their results in source order. */
    method PredictFolderSemanticTypes(folderName: string, s: Searcher, h: Helpers) returns (r: Result<FolderResult>)
      requires folderName in datasetMap ==> forall i | 0 <= i < |datasetMap[folderName]| :: datasetMap[folderName][i].Valid()
      modifies indexer`store, ColumnsOf(datasetMap)
      ensures randomForest.None? ==> r == Err(NotTrained) && indexer.store == old(indexer.store)
      ensures randomForest.Some? && folderName !in datasetMap ==>
        r == Err(FolderNotIndexed(folderName)) && indexer.store == old(indexer.store)
      ensures r.Err? && randomForest.Some? && folderName in datasetMap ==> r.error == ZeroDivision
      ensures folderName in datasetMap ==> forall i | 0 <= i < |datasetMap[folderName]| :: datasetMap[folderName][i].Valid()
      ensures r.Ok? ==>
        && folderName in datasetMap && r.value.folderName == folderName
        && |r.value.predictions| == |Owners(Shapes(datasetMap[folderName]))|
        && forall j | 0 <= j < |r.value.predictions| ::
             r.value.predictions[j].sourceName == Some(Owners(Shapes(datasetMap[folderName]))[j])
    {
      if randomForest.None? {
        return Err(NotTrained);
      }
      if folderName !in datasetMap {
        return Err(FolderNotIndexed(folderName));
      }
      var sources := datasetMap[folderName];
      assert FolderColumns(sources) <= ColumnsOf(datasetMap) by {
        forall c | c in FolderColumns(sources) ensures c in ColumnsOf(datasetMap) {
          var i :| 0 <= i < |sources| && c in sources[i].columnMap.Values;
          assert sources[i] in SourcesOf(datasetMap);
        }
      }
      var o, predictions := PredictSources(sources, randomForest.value.model, s, h);
      r := if o.Pass? then Ok(FolderResult(folderName, predictions)) else Err(o.error);
    }

    /** The loop over the folder's sources. */
    method PredictSources(sources: seq<Source>, model: ModelState, s: Searcher, h: Helpers)
      returns (o: Outcome, predictions: seq<ColumnResult>)
      requires forall i | 0 <= i < |sources| :: sources[i].Valid()
      modifies indexer`store, FolderColumns(sources)
      ensures forall i | 0 <= i < |sources| :: sources[i].Valid()
      ensures o.Fail? ==> o.error == ZeroDivision
      ensures o.Pass? ==> |predictions| == |Owners(Shapes(sources))|
      ensures o.Pass? ==> forall j | 0 <= j < |predictions| :: predictions[j].sourceName == Some(Owners(Shapes(sources))[j])
    {
      ghost var shapes := Shapes(sources);
      predictions := [];
      var i := 0;
      while i < |sources|
        invariant 0 <= i <= |sources|
        invariant forall k | 0 <= k < |sources| :: sources[k].Valid()
        invariant |predictions| == |Owners(shapes[..i])|
        invariant forall j | 0 <= j < |predictions| :: predictions[j].sourceName == Some(Owners(shapes[..i])[j])
      {
        var source := sources[i];
        assert source.columnMap.Values <= FolderColumns(sources);
        var results;
        ghost var added;
        o, results, added := PredictAt(sources, i, model, s, h);
        if o.Fail? {
          return;
        }
        assert shapes[..i + 1][..i] == shapes[..i] && shapes[i] == (source.name, |results|);
        predictions := predictions + results;
        i := i + 1;
      }
      assert shapes[..i] == shapes == Shapes(sources);
      o := Pass;
    }

    /** One source of the folder, keeping every source of it consistent. */
    method PredictAt(sources: seq<Source>, i: int, model: ModelState, s: Searcher, h: Helpers)
      returns (o: Outcome, results: seq<ColumnResult>, ghost added: seq<Entry>)
      requires 0 <= i < |sources| && sources[i].Valid() && forall k | 0 <= k < |sources| :: sources[k].Valid()
      modifies indexer`store, sources[i].columnMap.Values
      ensures forall k | 0 <= k < |sources| :: sources[k].Valid()
      ensures indexer.store == Append(old(indexer.store), indexer.indexNameOf(IndexConfig(sources[i].indexName, None)), added)
      ensures Predicted(sources[i], old(sources[i].States()), o, results, added, model, s, h)
      ensures o.Fail? ==> o.error == ZeroDivision
      ensures o.Pass? ==> |results| == |sources[i].keys|
      ensures o.Pass? ==> forall j | 0 <= j < |results| :: results[j].sourceName == Some(sources[i].name)
    {
      o, results, added := PredictSource(sources[i], model, s, h);
      forall k | 0 <= k < |sources| ensures sources[k].Valid() {
        forall d | d in sources[k].columnMap.Values ensures d.Valid() {
          if d !in sources[i].columnMap.Values {
            assert old(sources[k].Valid());
          }
        }
      }
    }

    /** test_semantic_types: every source of the data set held out in turn
        for each test size, scored by the model against the indices of the
        next size sources, giving one F-measure per test size. */
    method TestSemanticTypes(dataSet: string, testSizes: seq<int>, s: Searcher, predict: Predictor)
      returns (r: Result<seq<real>>)
      requires dataSet in datasetMap ==> forall i | 0 <= i < |datasetMap[dataSet]| :: datasetMap[dataSet][i].Indexed()
      ensures dataSet !in datasetMap ==> r == Err(MissingKey(dataSet))
      ensures dataSet in datasetMap ==>
        var ls := LayoutOf(datasetMap[dataSet]);
        r == Measures(Evaluate(dataSet, SourceViews(ls, Snapshot(Cols(ls))), Names(ls), testSizes,
                               ModelOf(randomForest), s, predict))
    {
      if dataSet !in datasetMap {
        return Err(MissingKey(dataSet));
      }
      var ls := LayoutOf(datasetMap[dataSet]);
      assert Keyed(ls) by {
        forall i, k | 0 <= i < |ls| && k in ls[i].keys ensures k in ls[i].columns {
          assert datasetMap[dataSet][i].Indexed();
        }
      }
      ghost var snap := Snapshot(Cols(ls));
      r := EvalSizes(dataSet, s, predict, ModelOf(randomForest), ls, testSizes, snap);
    }
  }

  /** The model the labeler predicts with: none before training. */
  function ModelOf(rf: Option<RandomForest>): ModelState
    reads if rf.Some? then {rf.value} else {}
  {
    if rf.Some? then rf.value.model else NoModel
  }
}
