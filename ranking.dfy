/** The prediction half of main/random_forest.py: what MyRandomForest.predict
    does around the classifier. The feature table is built from the rows,
    non-finite features are imputed as 0, each row gets the classifier's
    probability and a truth flag, and the rows are sorted by probability,
    highest first. scikit-learn's predict_proba is an uninterpreted function
    here. Column.predict_type calls this, and RandomForest (module Training)
    builds on the same rows, so it is a module of its own that both import. */
module Ranking {
  import opened Common

  /** A feature value as pandas holds it. */
  datatype Num = Finite(value: real) | PosInf | NegInf | NaN

  /** One candidate row from get_test_results. Its name is the candidate key
      "<type>!<source>!<column>". Its features are in the order the model
      reads them. A training row also says whether the candidate type is the
      column's true type. */
  datatype FeatureRow = FeatureRow(name: string, features: seq<Num>, target: Option<bool>)

  /** A fitted model's probability of the positive class for one row of
      finite features. */
  type Classifier = seq<real> -> real

  /** What MyRandomForest.model holds: None until train runs, an unfitted
      LogisticRegression once train has created one, a fitted one after fit. */
  datatype ModelState = NoModel | Unfitted | Fitted(classifier: Classifier)

  /** One entry of predict's result, the dictionary {"prob": p, "name": n}. */
  datatype Prediction = Prediction(prob: real, name: string)

  /** One row of the table predict builds (and appends to debug.csv): the
      imputed features, the probability and the truth flag. */
  datatype ScoredRow = ScoredRow(name: string, features: seq<real>, target: Option<bool>,
                                 prob: real, truth: bool)

  /** The candidate type of a row: its name up to the first "!". */
  function TypeOf(name: string): (t: string)
    ensures '!' !in t && t <= name
    ensures |t| < |name| ==> name[|t|] == '!'
  {
    Head(name, '!')
  }

  /** DataFrame.replace([inf, -inf, nan], 0) on one row's features. */
  function Impute(xs: seq<Num>): (r: seq<real>)
    ensures |r| == |xs|
    ensures forall i :: 0 <= i < |xs| && xs[i].Finite? ==> r[i] == xs[i].value
    ensures forall i :: 0 <= i < |xs| && !xs[i].Finite? ==> r[i] == 0.0
  {
    if xs == [] then []
    else [if xs[0].Finite? then xs[0].value else 0.0] + Impute(xs[1..])
  }

  /** A row with its non-finite features replaced by 0. */
  function ImputeRow(row: FeatureRow): (r: FeatureRow)
    ensures r.name == row.name && r.target == row.target
    ensures forall x | x in r.features :: x.Finite?
  {
    var vs := Impute(row.features);
    FeatureRow(row.name, seq(|vs|, i requires 0 <= i < |vs| => Finite(vs[i])), row.target)
  }

  /** Whether a row is a correct match: its candidate type equals the true
      type. A column with no true type (None) matches nothing. */
  predicate Truth(name: string, trueType: Option<string>) {
    trueType == Some(TypeOf(name))
  }

  /** The rows of the table before sorting, in input order. */
  function Score(c: Classifier, rows: seq<FeatureRow>, trueType: Option<string>): (t: seq<ScoredRow>)
    ensures |t| == |rows|
    ensures forall i :: 0 <= i < |rows| ==>
      var fs := Impute(rows[i].features);
      t[i] == ScoredRow(rows[i].name, fs, rows[i].target, c(fs), Truth(rows[i].name, trueType))
  {
    seq(|rows|, i requires 0 <= i < |rows| =>
      var fs := Impute(rows[i].features);
      ScoredRow(rows[i].name, fs, rows[i].target, c(fs), Truth(rows[i].name, trueType)))
  }

  ghost predicate ByProbDescending(t: seq<ScoredRow>) {
    forall i, j :: 0 <= i < j < |t| ==> t[i].prob >= t[j].prob
  }

  /** Inserts r into a table already sorted by probability, highest first. */
  function InsertByProb(r: ScoredRow, t: seq<ScoredRow>): (u: seq<ScoredRow>)
    requires ByProbDescending(t)
    ensures ByProbDescending(u)
    ensures multiset(u) == multiset(t) + multiset{r}
    ensures |u| == |t| + 1
    ensures forall x | x in u :: x == r || x in t
    ensures u[0] == r || (t != [] && u[0] == t[0])
  {
    if t == [] || t[0].prob <= r.prob then
      ConsByProb(r, t);
      [r] + t
    else
      var rest := InsertByProb(r, t[1..]);
      assert t == [t[0]] + t[1..];
      assert rest[0].prob <= t[0].prob;
      ConsByProb(t[0], rest);
      assert multiset([t[0]] + rest) == multiset{t[0]} + multiset(rest);
      [t[0]] + rest
  }

  /** Putting in front a row whose probability is at least the head's
      keeps a table sorted. */
  lemma ConsByProb(r: ScoredRow, t: seq<ScoredRow>)
    requires ByProbDescending(t) && (t == [] || t[0].prob <= r.prob)
    ensures ByProbDescending([r] + t)
  {
    forall i, j | 0 <= i < j < |[r] + t| ensures ([r] + t)[i].prob >= ([r] + t)[j].prob {
      assert ([r] + t)[j] == t[j - 1];
      if i > 0 {
        assert ([r] + t)[i] == t[i - 1];
      } else if j > 1 {
        assert t[0].prob >= t[j - 1].prob;
      }
    }
  }

  /** sort_values(by=["prob"], ascending=False): the same rows, by
      probability, highest first. pandas does not promise an order among
      equal probabilities, and neither does this contract. */
  function SortByProb(t: seq<ScoredRow>): (u: seq<ScoredRow>)
    ensures ByProbDescending(u)
    ensures multiset(u) == multiset(t)
    ensures |u| == |t|
  {
    if t == [] then []
    else
      assert t == [t[0]] + t[1..];
      InsertByProb(t[0], SortByProb(t[1..]))
  }

  /** MyRandomForest.predict. It fails when there is no model (None has no
      predict_proba, looked up before the argument is evaluated), on an
      empty row list (an empty DataFrame has none of the feature columns),
      and when the model was never fitted. Otherwise it returns one
      {prob, name} per row, highest probability first, beside the scored
      table it logs. */
  function Predict(model: ModelState, rows: seq<FeatureRow>, trueType: Option<string>)
    : (r: Result<(seq<Prediction>, seq<ScoredRow>)>)
    ensures r.Ok? <==> model.Fitted? && rows != []
    ensures model.NoModel? ==> r == Err(NoneOperand("predict_proba"))
    ensures !model.NoModel? && rows == [] ==> r == Err(MissingKey("feature columns"))
    ensures model.Unfitted? && rows != [] ==> r == Err(NotFitted)
    ensures r.Ok? ==>
      var (res, table) := r.value;
      && |res| == |table| == |rows|
      && ByProbDescending(table)
      && multiset(table) == multiset(Score(model.classifier, rows, trueType))
      && (forall i :: 0 <= i < |res| ==> res[i] == Prediction(table[i].prob, table[i].name))
      && (forall i, j :: 0 <= i < j < |res| ==> res[i].prob >= res[j].prob)
  {
    match model
    case NoModel => Err(NoneOperand("predict_proba"))
    case Unfitted =>
      if rows == [] then Err(MissingKey("feature columns")) else Err(NotFitted)
    case Fitted(c) =>
      if rows == [] then Err(MissingKey("feature columns"))
      else
        var table := SortByProb(Score(c, rows, trueType));
        Ok((seq(|table|, i requires 0 <= i < |table| => Prediction(table[i].prob, table[i].name)), table))
  }

  /** Every input row comes out once, with the probability the classifier
      gives its imputed features and its truth flag. */
  lemma {:induction false} PredictKeepsEveryRow(c: Classifier, rows: seq<FeatureRow>, trueType: Option<string>, i: int)
    requires rows != [] && 0 <= i < |rows|
    ensures var r := Predict(Fitted(c), rows, trueType);
      r.Ok? &&
      var fs := Impute(rows[i].features);
      ScoredRow(rows[i].name, fs, rows[i].target, c(fs), Truth(rows[i].name, trueType)) in r.value.1
  {
    var r := Predict(Fitted(c), rows, trueType);
    var s := Score(c, rows, trueType);
    assert s[i] in multiset(s);
    assert s[i] in multiset(r.value.1);
  }
}
