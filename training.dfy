/** The training half of main/random_forest.py. MyRandomForest builds its
    training table (generate_train_data) by holding out each source of a
    data set in turn and matching the source's labelled columns against the
    sources of its rotation pool (module Rotation). It then fits the model
    on that table (train). The searcher's queries and scikit-learn's fit
    are uninterpreted functions here. */
module Training {
  import opened Common
  import opened Ranking
  import opened ColumnProfile
  import opened Sources
  import opened Rotation

  /** searcher.search_types_data and searcher.search_similar_text_data for
      the index config {'name': data set}. They return the stored documents
      of the pool's sources, and those whose text is like the given text. */
  datatype Searcher = Searcher(
    typesData: (string, seq<string>) -> Evidence,
    similarText: (string, string, seq<string>) -> Evidence)

  // ---------------------------------------------------------------------
  // What training reads of the columns

  /** The part of a column that training depends on. prepare_data leaves
      all of it as it was. */
  datatype ColumnView = ColumnView(
    source: Option<string>,
    name: string,
    semanticType: Option<string>,
    values: seq<string>,
    textualList: seq<string>,
    textualSet: set<string>,
    textual: string,
    numericList: seq<real>)

  /** The view of a key that has no column: unlabelled, so never trained on. */
  const Blank := ColumnView(None, "", None, [], [], {}, "", [])

  function ViewOf(c: Column): ColumnView
    reads c`sourceName, c`name, c`semanticType, c`valueList
    reads c`textualList, c`textualSet, c`valueText, c`numericList
  {
    ColumnView(c.sourceName, c.name, c.semanticType, c.valueList,
               c.textualList, c.textualSet, c.valueText, c.numericList)
  }

  /** The column has tokens, so is_numeric does not divide by zero. */
  predicate Tokens(v: ColumnView) {
    |v.textualList| + |v.numericList| > 0
  }

  /** doc is what to_json returns for a column with view v: its fields are
      v's, its word2vec is empty, and its is_numeric is the share of
      textual tokens. */
  predicate Describes(doc: Doc, v: ColumnView) {
    && Tokens(v)
    && doc.source == v.source && doc.name == v.name && doc.semanticType == v.semanticType
    && doc.values == v.values && doc.textualList == v.textualList
    && doc.textualSet == v.textualSet && doc.textual == v.textual
    && doc.numericList == v.numericList && doc.word2vec == []
    && doc.isNumeric == |v.textualList| as real / (|v.textualList| + |v.numericList|) as real
  }

  /** The views of a set of columns, taken once. */
  ghost function Snapshot(cs: set<Column>): map<Column, ColumnView>
    reads cs`sourceName, cs`name, cs`semanticType, cs`valueList
    reads cs`textualList, cs`textualSet, cs`valueText, cs`numericList
  {
    map c | c in cs :: ViewOf(c)
  }

  /** Every column of cs still has the view snap took of it. */
  ghost predicate Agrees(cs: set<Column>, snap: map<Column, ColumnView>)
    reads cs`sourceName, cs`name, cs`semanticType, cs`valueList
    reads cs`textualList, cs`textualSet, cs`valueText, cs`numericList
  {
    forall c | c in cs :: c in snap && ViewOf(c) == snap[c]
  }

  /** The view snap holds of the column under key k. */
  function ViewAt(m: map<string, Column>, k: string, snap: map<Column, ColumnView>): ColumnView {
    if k in m && m[k] in snap then snap[m[k]] else Blank
  }

  /** The views of a source's columns in column_map order. */
  function ViewsOf(m: map<string, Column>, ks: seq<string>, snap: map<Column, ColumnView>): seq<ColumnView> {
    seq(|ks|, j requires 0 <= j < |ks| => ViewAt(m, ks[j], snap))
  }

  /** What training reads of a source, once, before it starts: its index
      name, its keys in column_map order and its column_map. Training
      changes the columns, never the sources themselves. */
  datatype Layout = Layout(indexName: string, keys: seq<string>, columns: map<string, Column>)

  function LayoutOf(sources: seq<Source>): (ls: seq<Layout>)
    reads sources
    ensures |ls| == |sources|
  {
    seq(|sources|, i requires 0 <= i < |sources| reads sources =>
      Layout(sources[i].indexName, sources[i].keys, sources[i].columnMap))
  }

  /** Every key of every source has a column. */
  predicate Keyed(ls: seq<Layout>) {
    forall i, k :: 0 <= i < |ls| && k in ls[i].keys ==> k in ls[i].columns
  }

  /** Every column of the sources. */
  ghost function Cols(ls: seq<Layout>): set<Column> {
    set i, c | 0 <= i < |ls| && c in ls[i].columns.Values :: c
  }

  /** The views of every source's columns, source by source. */
  function SourceViews(ls: seq<Layout>, snap: map<Column, ColumnView>): seq<seq<ColumnView>> {
    seq(|ls|, i requires 0 <= i < |ls| => ViewsOf(ls[i].columns, ls[i].keys, snap))
  }

  /** The index names of the sources, in order (double_name_list holds this
      list twice). */
  function Names(ls: seq<Layout>): seq<string> {
    seq(|ls|, i requires 0 <= i < |ls| => ls[i].indexName)
  }

  // ---------------------------------------------------------------------
  // The training table, on values

  /** One labelled column matched against one pool: the train size, the
      held-out position, the pool of index names and the column. */
  datatype Slot = Slot(size: int, idx: int, pool: seq<string>, column: ColumnView)

  /** The labelled columns of one source, each matched against pool. */
  function ColumnSlots(cols: seq<ColumnView>, size: int, idx: int, pool: seq<string>): seq<Slot> {
    if cols == [] then []
    else
      var last := cols[|cols| - 1];
      ColumnSlots(cols[..|cols| - 1], size, idx, pool)
        + (if Truthy(last.semanticType) then [Slot(size, idx, pool, last)] else [])
  }

  /** One train size: the first m sources held out in turn, each matched
      against the size sources that follow it. */
  function SizeSlots(view: seq<seq<ColumnView>>, names: seq<string>, size: int, m: nat): seq<Slot>
    requires m <= |view|
  {
    if m == 0 then []
    else SizeSlots(view, names, size, m - 1) + ColumnSlots(view[m - 1], size, m - 1, TrainNames(names, m - 1, size))
  }

  /** Every train size in turn. */
  function Slots(view: seq<seq<ColumnView>>, names: seq<string>, sizes: seq<int>): seq<Slot> {
    if sizes == [] then []
    else Slots(view, names, sizes[..|sizes| - 1]) + SizeSlots(view, names, sizes[|sizes| - 1], |view|)
  }

  predicate AllTokens(slots: seq<Slot>) {
    forall i :: 0 <= i < |slots| ==> Tokens(slots[i].column)
  }

  predicate AllDescribed(docs: seq<Doc>, slots: seq<Slot>) {
    |docs| == |slots| && forall i :: 0 <= i < |slots| ==> Describes(docs[i], slots[i].column)
  }

  /** get_test_results for one slot: the column's document against the
      pool's documents and the pool's documents with similar text. */
  function Block(ds: string, slot: Slot, doc: Doc, s: Searcher, h: Helpers): seq<FeatureRow> {
    h.testResults(s.typesData(ds, slot.pool), s.similarText(ds, slot.column.textual, slot.pool), doc, true)
  }

  /** The blocks of the slots, in order, with their documents. */
  function Rows(ds: string, slots: seq<Slot>, docs: seq<Doc>, s: Searcher, h: Helpers): seq<FeatureRow>
    requires |docs| == |slots|
  {
    if slots == [] then []
    else
      Rows(ds, slots[..|slots| - 1], docs[..|docs| - 1], s, h)
        + Block(ds, slots[|slots| - 1], docs[|docs| - 1], s, h)
  }

  lemma {:induction false} RowsAppend(ds: string, a: seq<Slot>, b: seq<Slot>, da: seq<Doc>, db: seq<Doc>, s: Searcher, h: Helpers)
    requires |da| == |a| && |db| == |b|
    ensures Rows(ds, a + b, da + db, s, h) == Rows(ds, a, da, s, h) + Rows(ds, b, db, s, h)
  {
    if b == [] {
      assert a + b == a && da + db == da;
    } else {
      var b', db' := b[..|b| - 1], db[..|db| - 1];
      assert (a + b)[..|a + b| - 1] == a + b';
      assert (da + db)[..|da + db| - 1] == da + db';
      RowsAppend(ds, a, b', da, db', s, h);
    }
  }

  lemma {:induction false} ColumnSlotsAppend(a: seq<ColumnView>, b: seq<ColumnView>, size: int, idx: int, pool: seq<string>)
    ensures ColumnSlots(a + b, size, idx, pool) == ColumnSlots(a, size, idx, pool) + ColumnSlots(b, size, idx, pool)
  {
    if b == [] {
      assert a + b == a;
    } else {
      assert (a + b)[..|a + b| - 1] == a + b[..|b| - 1];
      ColumnSlotsAppend(a, b[..|b| - 1], size, idx, pool);
    }
  }

  lemma {:induction false} SizeSlotsPrefix(view: seq<seq<ColumnView>>, names: seq<string>, size: int, m: nat, n: nat)
    requires m <= n <= |view|
    ensures SizeSlots(view, names, size, m) <= SizeSlots(view, names, size, n)
  {
    if m < n {
      SizeSlotsPrefix(view, names, size, m, n - 1);
    }
  }

  lemma {:induction false} SlotsPrefix(view: seq<seq<ColumnView>>, names: seq<string>, sizes: seq<int>, j: nat)
    requires j <= |sizes|
    ensures Slots(view, names, sizes[..j]) <= Slots(view, names, sizes)
  {
    if j < |sizes| {
      assert sizes[..|sizes| - 1][..j] == sizes[..j];
      SlotsPrefix(view, names, sizes[..|sizes| - 1], j);
    } else {
      assert sizes[..j] == sizes;
    }
  }

  /** The bookkeeping of one step of a loop: the slots so far are before,
      the step's are step, and both lie at the front of full. */
  lemma Extend(ds: string, before: seq<Slot>, step: seq<Slot>, full: seq<Slot>, docs: seq<Doc>,
               part: Result<seq<FeatureRow>>, partDocs: seq<Doc>, s: Searcher, h: Helpers)
    requires before + step <= full
    requires AllTokens(before) && AllDescribed(docs, before)
    requires part.Ok? <==> AllTokens(step)
    requires part.Ok? ==> AllDescribed(partDocs, step)
    ensures part.Err? ==> !AllTokens(full)
    ensures part.Ok? ==>
      && AllTokens(before + step) && AllDescribed(docs + partDocs, before + step)
      && Rows(ds, before + step, docs + partDocs, s, h) == Rows(ds, before, docs, s, h) + Rows(ds, step, partDocs, s, h)
  {
    if part.Err? {
      var i :| 0 <= i < |step| && !Tokens(step[i].column);
      assert full[|before| + i] == (before + step)[|before| + i] == step[i];
    } else {
      RowsAppend(ds, before, step, docs, partDocs, s, h);
      AllAppend(before, step, docs, partDocs);
    }
  }

  /** The slots of the first j + 1 columns are those of the first j and of
      column j, at the front of all of them. */
  lemma ColumnStep(view: seq<ColumnView>, j: int, size: int, idx: int, pool: seq<string>)
    requires 0 <= j < |view|
    ensures ColumnSlots(view[..j + 1], size, idx, pool)
      == ColumnSlots(view[..j], size, idx, pool) + ColumnSlots([view[j]], size, idx, pool)
    ensures ColumnSlots(view[..j + 1], size, idx, pool) <= ColumnSlots(view, size, idx, pool)
  {
    assert view[..j + 1] == view[..j] + [view[j]];
    ColumnSlotsAppend(view[..j], [view[j]], size, idx, pool);
    assert view[..j + 1] + view[j + 1..] == view;
    ColumnSlotsAppend(view[..j + 1], view[j + 1..], size, idx, pool);
  }

  lemma AllAppend(a: seq<Slot>, b: seq<Slot>, da: seq<Doc>, db: seq<Doc>)
    requires AllTokens(a) && AllDescribed(da, a) && AllTokens(b) && AllDescribed(db, b)
    ensures AllTokens(a + b) && AllDescribed(da + db, a + b)
  {
    forall i | 0 <= i < |a + b| ensures Tokens((a + b)[i].column) && Describes((da + db)[i], (a + b)[i].column) {
      if i >= |a| {
        assert (a + b)[i] == b[i - |a|] && (da + db)[i] == db[i - |a|];
      }
    }
  }

  // ---------------------------------------------------------------------
  // generate_train_data, loop by loop. Each level keeps every column's
  // view as snap took it (prepare_data changes none of it), so the slots
  // are those of the views at the start.

  /** One labelled column of the held-out source: search_similar_text_data
      on its text, then generate_candidate_types with is_labeled set; doc is
      what to_json returns for the column once prepared. */
  method TrainColumn(ds: string, s: Searcher, h: Helpers, c: Column, size: int, idx: int,
                     pool: seq<string>, examples: Evidence)
    returns (r: Result<seq<FeatureRow>>, ghost doc: Doc)
    requires examples == s.typesData(ds, pool)
    modifies c
    ensures ViewOf(c) == old(ViewOf(c)) && c.Prepared(h)
    ensures r.Ok? <==> Tokens(ViewOf(c))
    ensures r.Err? ==> r.error == ZeroDivision
    ensures r.Ok? ==> doc == c.Document(c.IsNumeric().value)
    ensures r.Ok? ==>
      Describes(doc, ViewOf(c)) && r.value == Block(ds, Slot(size, idx, pool, ViewOf(c)), doc, s, h)
  {
    var textual := s.similarText(ds, c.valueText, pool);
    r := c.GenerateCandidateTypes(examples, textual, true, h);
    doc := c.Document(if r.Ok? then c.IsNumeric().value else 0.0);
  }

  /** One key of the held-out source's column_map: a labelled column gives
      its candidate rows, an unlabelled one nothing. */
  method TrainKey(ds: string, s: Searcher, h: Helpers, c: Column, ghost v: ColumnView,
                  size: int, idx: int, pool: seq<string>, examples: Evidence,
                  ghost cs: set<Column>, ghost snap: map<Column, ColumnView>)
    returns (r: Result<seq<FeatureRow>>, ghost docs: seq<Doc>)
    requires examples == s.typesData(ds, pool)
    requires Agrees(cs, snap) && c in cs && c in snap && v == snap[c]
    modifies c
    ensures Agrees(cs, snap)
    ensures var step := ColumnSlots([v], size, idx, pool);
      && (r.Ok? <==> AllTokens(step))
      && (r.Err? ==> r.error == ZeroDivision)
      && (r.Ok? ==> AllDescribed(docs, step) && r.value == Rows(ds, step, docs, s, h))
  {
    ghost var step := ColumnSlots([v], size, idx, pool);
    assert [v][..0] == [];
    assert ViewOf(c) == v;
    docs := [];
    if Truthy(c.semanticType) {
      ghost var doc;
      r, doc := TrainColumn(ds, s, h, c, size, idx, pool, examples);
      assert step == [Slot(size, idx, pool, v)];
      if r.Ok? {
        docs := [doc];
        assert Rows(ds, step, docs, s, h) == Rows(ds, [], [], s, h) + Block(ds, step[0], doc, s, h);
      }
    } else {
      r := Ok([]);
    }
  }

  /** The column loop for one held-out source: each labelled column's
      candidate rows against the pool, in column_map order. It stops at the
      first labelled column without tokens, where to_json raises. */
  method TrainSource(ds: string, s: Searcher, h: Helpers, keys: seq<string>, columns: map<string, Column>,
                     size: int, idx: int, pool: seq<string>, examples: Evidence,
                     ghost cs: set<Column>, ghost snap: map<Column, ColumnView>)
    returns (r: Result<seq<FeatureRow>>, ghost docs: seq<Doc>)
    requires examples == s.typesData(ds, pool)
    requires Agrees(cs, snap) && columns.Values <= cs
    requires forall k | k in keys :: k in columns
    modifies columns.Values
    ensures Agrees(cs, snap)
    ensures var slots := ColumnSlots(ViewsOf(columns, keys, snap), size, idx, pool);
      && (r.Ok? <==> AllTokens(slots))
      && (r.Err? ==> r.error == ZeroDivision)
      && (r.Ok? ==> AllDescribed(docs, slots) && r.value == Rows(ds, slots, docs, s, h))
  {
    ghost var view := ViewsOf(columns, keys, snap);
    var rows: seq<FeatureRow> := [];
    docs := [];
    var j := 0;
    while j < |keys|
      invariant 0 <= j <= |keys|
      invariant Agrees(cs, snap)
      invariant var slots := ColumnSlots(view[..j], size, idx, pool);
        AllTokens(slots) && AllDescribed(docs, slots) && rows == Rows(ds, slots, docs, s, h)
    {
      var c := columns[keys[j]];
      assert c in columns.Values;
      var part, partDocs := TrainKey(ds, s, h, c, view[j], size, idx, pool, examples, cs, snap);
      ColumnStep(view, j, size, idx, pool);
      Extend(ds, ColumnSlots(view[..j], size, idx, pool), ColumnSlots([view[j]], size, idx, pool),
             ColumnSlots(view, size, idx, pool), docs, part, partDocs, s, h);
      if part.Err? {
        return Err(part.error), docs;
      }
      docs := docs + partDocs;
      rows := rows + part.value;
      j := j + 1;
    }
    assert view[..j] == view;
    r := Ok(rows);
  }

  /** One held-out source: its pool is double_name_list[idx + 1 : idx +
      size + 1], whose documents search_types_data fetches once for all of
      the source's columns. */
  method TrainHeldOut(ds: string, s: Searcher, h: Helpers, ls: seq<Layout>, names: seq<string>,
                      size: int, idx: int, ghost cs: set<Column>, ghost snap: map<Column, ColumnView>,
                      ghost view: seq<seq<ColumnView>>)
    returns (r: Result<seq<FeatureRow>>, ghost docs: seq<Doc>)
    requires Keyed(ls) && names == Names(ls) && 0 <= idx < |ls|
    requires Agrees(cs, snap) && Cols(ls) <= cs && view == SourceViews(ls, snap)
    modifies Cols(ls)
    ensures Agrees(cs, snap)
    ensures var step := ColumnSlots(view[idx], size, idx, TrainNames(names, idx, size));
      && (r.Ok? <==> AllTokens(step))
      && (r.Err? ==> r.error == ZeroDivision)
      && (r.Ok? ==> AllDescribed(docs, step) && r.value == Rows(ds, step, docs, s, h))
  {
    var pool := TrainNames(names, idx, size);
    var examples := s.typesData(ds, pool);
    var src := ls[idx];
    assert src.columns.Values <= Cols(ls);
    r, docs := TrainSource(ds, s, h, src.keys, src.columns, size, idx, pool, examples, cs, snap);
  }

  /** One pass of the held-out loop: trains source idx and appends its rows. */
  method TrainNext(ds: string, s: Searcher, h: Helpers, ls: seq<Layout>, names: seq<string>, size: int,
                   idx: int, rows: seq<FeatureRow>, ghost docs: seq<Doc>,
                   ghost cs: set<Column>, ghost snap: map<Column, ColumnView>, ghost view: seq<seq<ColumnView>>)
    returns (r: Result<seq<FeatureRow>>, ghost docs': seq<Doc>)
    requires Keyed(ls) && names == Names(ls) && 0 <= idx < |ls|
    requires Agrees(cs, snap) && Cols(ls) <= cs && view == SourceViews(ls, snap)
    requires var slots := SizeSlots(view, names, size, idx);
      AllTokens(slots) && AllDescribed(docs, slots) && rows == Rows(ds, slots, docs, s, h)
    modifies Cols(ls)
    ensures Agrees(cs, snap)
    ensures r.Err? ==> r.error == ZeroDivision && !AllTokens(SizeSlots(view, names, size, |view|))
    ensures var slots := SizeSlots(view, names, size, idx + 1);
      r.Ok? ==> AllTokens(slots) && AllDescribed(docs', slots) && r.value == Rows(ds, slots, docs', s, h)
  {
    ghost var before := SizeSlots(view, names, size, idx);
    ghost var step := ColumnSlots(view[idx], size, idx, TrainNames(names, idx, size));
    var part, partDocs := TrainHeldOut(ds, s, h, ls, names, size, idx, cs, snap, view);
    HeldOutStep(view, names, size, idx);
    Extend(ds, before, step, SizeSlots(view, names, size, |view|), docs, part, partDocs, s, h);
    if part.Err? {
      return Err(part.error), docs;
    }
    r, docs' := Ok(rows + part.value), docs + partDocs;
  }

  /** One train size: every source of the data set held out in turn. */
  method TrainSize(ds: string, s: Searcher, h: Helpers, ls: seq<Layout>, names: seq<string>, size: int,
                   ghost cs: set<Column>, ghost snap: map<Column, ColumnView>)
    returns (r: Result<seq<FeatureRow>>, ghost docs: seq<Doc>)
    requires Keyed(ls) && names == Names(ls)
    requires Agrees(cs, snap) && Cols(ls) <= cs
    modifies Cols(ls)
    ensures Agrees(cs, snap)
    ensures var slots := SizeSlots(SourceViews(ls, snap), names, size, |ls|);
      && (r.Ok? <==> AllTokens(slots))
      && (r.Err? ==> r.error == ZeroDivision)
      && (r.Ok? ==> AllDescribed(docs, slots) && r.value == Rows(ds, slots, docs, s, h))
  {
    ghost var view := SourceViews(ls, snap);
    assert |view| == |ls|;
    var rows: seq<FeatureRow> := [];
    docs := [];
    var idx := 0;
    while idx < |ls|
      invariant 0 <= idx <= |ls|
      invariant Agrees(cs, snap)
      invariant var slots := SizeSlots(view, names, size, idx);
        AllTokens(slots) && AllDescribed(docs, slots) && rows == Rows(ds, slots, docs, s, h)
    {
      var next, nextDocs := TrainNext(ds, s, h, ls, names, size, idx, rows, docs, cs, snap, view);
      if next.Err? {
        assert !AllTokens(SizeSlots(view, names, size, |view|));
        return next, nextDocs;
      }
      rows, docs, idx := next.value, nextDocs, idx + 1;
    }
    r := Ok(rows);
  }

  /** One data set: every train size in turn, over double_name_list. */
  method TrainDataSet(ds: string, s: Searcher, h: Helpers, ls: seq<Layout>, sizes: seq<int>,
                      ghost cs: set<Column>, ghost snap: map<Column, ColumnView>)
    returns (r: Result<seq<FeatureRow>>, ghost docs: seq<Doc>)
    requires Keyed(ls) && Agrees(cs, snap) && Cols(ls) <= cs
    modifies Cols(ls)
    ensures Agrees(cs, snap)
    ensures var slots := Slots(SourceViews(ls, snap), Names(ls), sizes);
      && (r.Ok? <==> AllTokens(slots))
      && (r.Err? ==> r.error == ZeroDivision)
      && (r.Ok? ==> AllDescribed(docs, slots) && r.value == Rows(ds, slots, docs, s, h))
  {
    ghost var view := SourceViews(ls, snap);
    var names := Names(ls);
    var rows: seq<FeatureRow> := [];
    docs := [];
    var k := 0;
    while k < |sizes|
      invariant 0 <= k <= |sizes|
      invariant Agrees(cs, snap)
      invariant var slots := Slots(view, names, sizes[..k]);
        AllTokens(slots) && AllDescribed(docs, slots) && rows == Rows(ds, slots, docs, s, h)
    {
      var part, partDocs := TrainSize(ds, s, h, ls, names, sizes[k], cs, snap);
      SizeStep(view, names, sizes, k);
      Extend(ds, Slots(view, names, sizes[..k]), SizeSlots(view, names, sizes[k], |view|),
             Slots(view, names, sizes), docs, part, partDocs, s, h);
      if part.Err? {
        return Err(part.error), docs;
      }
      docs := docs + partDocs;
      rows := rows + part.value;
      k := k + 1;
    }
    assert sizes[..k] == sizes;
    r := Ok(rows);
  }

  lemma HeldOutStep(view: seq<seq<ColumnView>>, names: seq<string>, size: int, idx: int)
    requires 0 <= idx < |view|
    ensures SizeSlots(view, names, size, idx + 1)
      == SizeSlots(view, names, size, idx) + ColumnSlots(view[idx], size, idx, TrainNames(names, idx, size))
    ensures SizeSlots(view, names, size, idx) + ColumnSlots(view[idx], size, idx, TrainNames(names, idx, size))
      <= SizeSlots(view, names, size, |view|)
  {
    SizeSlotsPrefix(view, names, size, idx + 1, |view|);
  }

  lemma SizeStep(view: seq<seq<ColumnView>>, names: seq<string>, sizes: seq<int>, k: int)
    requires 0 <= k < |sizes|
    ensures Slots(view, names, sizes[..k + 1]) == Slots(view, names, sizes[..k]) + SizeSlots(view, names, sizes[k], |view|)
    ensures Slots(view, names, sizes[..k + 1]) <= Slots(view, names, sizes)
  {
    assert sizes[..k + 1][..k] == sizes[..k];
    SlotsPrefix(view, names, sizes, k + 1);
  }

  // ---------------------------------------------------------------------
  // What the table holds

  /** A slot comes from the labelled columns of one source, matched against
      that source's pool; these are all of them. */
  lemma {:induction false} ColumnSlotsMembers(cols: seq<ColumnView>, size: int, idx: int, pool: seq<string>, x: Slot)
    ensures x in ColumnSlots(cols, size, idx, pool)
      <==> x.size == size && x.idx == idx && x.pool == pool && x.column in cols && Truthy(x.column.semanticType)
  {
    if cols != [] {
      var init := cols[..|cols| - 1];
      ColumnSlotsMembers(init, size, idx, pool, x);
      assert cols == init + [cols[|cols| - 1]];
    }
  }

  /** The slots of one train size: each labelled column of each of the
      first m sources, against the pool of its own source. */
  lemma {:induction false} SizeSlotsMembers(view: seq<seq<ColumnView>>, names: seq<string>, size: int, m: nat, x: Slot)
    requires m <= |view|
    ensures x in SizeSlots(view, names, size, m)
      <==> && x.size == size && 0 <= x.idx < m && x.pool == TrainNames(names, x.idx, size)
           && x.column in view[x.idx] && Truthy(x.column.semanticType)
  {
    if m > 0 {
      var before := SizeSlots(view, names, size, m - 1);
      var step := ColumnSlots(view[m - 1], size, m - 1, TrainNames(names, m - 1, size));
      assert SizeSlots(view, names, size, m) == before + step;
      assert x in before + step <==> x in before || x in step;
      SizeSlotsMembers(view, names, size, m - 1, x);
      ColumnSlotsMembers(view[m - 1], size, m - 1, TrainNames(names, m - 1, size), x);
    }
  }

  /** With distinct index names and a train size below the number of
      sources, no column is matched against a pool holding its own source,
      and every pool holds size sources. */
  lemma HeldOutOfItsPool(ls: seq<Layout>, snap: map<Column, ColumnView>, size: int, x: Slot)
    requires Rotation.Distinct(Names(ls)) && 0 <= size < |ls|
    requires x in SizeSlots(SourceViews(ls, snap), Names(ls), size, |ls|)
    ensures 0 <= x.idx < |ls| && ls[x.idx].indexName !in x.pool && |x.pool| == size
  {
    SizeSlotsMembers(SourceViews(ls, snap), Names(ls), size, |ls|, x);
    HeldOutExcluded(Names(ls), x.idx, size);
  }

  /** The number of labelled columns of the sources. */
  function LabelledColumns(view: seq<seq<ColumnView>>): nat {
    if view == [] then 0
    else LabelledColumns(view[..|view| - 1]) + |ColumnSlots(view[|view| - 1], 0, 0, [])|
  }

  lemma {:induction false} ColumnSlotsCount(cols: seq<ColumnView>, size: int, idx: int, pool: seq<string>)
    ensures |ColumnSlots(cols, size, idx, pool)| == |ColumnSlots(cols, 0, 0, [])|
  {
    if cols != [] {
      ColumnSlotsCount(cols[..|cols| - 1], size, idx, pool);
    }
  }

  lemma {:induction false} SizeSlotsCount(view: seq<seq<ColumnView>>, names: seq<string>, size: int, m: nat)
    requires m <= |view|
    ensures |SizeSlots(view, names, size, m)| == LabelledColumns(view[..m])
  {
    if m > 0 {
      SizeSlotsCount(view, names, size, m - 1);
      ColumnSlotsCount(view[m - 1], size, m - 1, TrainNames(names, m - 1, size));
      assert view[..m][..m - 1] == view[..m - 1];
    }
  }

  /** Every labelled column is matched once per train size. */
  lemma {:induction false} SlotsCount(view: seq<seq<ColumnView>>, names: seq<string>, sizes: seq<int>)
    ensures |Slots(view, names, sizes)| == |sizes| * LabelledColumns(view)
  {
    if sizes != [] {
      var n, l := |sizes|, LabelledColumns(view);
      SlotsCount(view, names, sizes[..n - 1]);
      SizeSlotsCount(view, names, sizes[n - 1], |view|);
      assert view[..|view|] == view;
      OneMore(n - 1, l);
    }
  }

  lemma OneMore(n: int, l: int)
    ensures n * l + l == (n + 1) * l
  {
  }

  /** DataFrame.replace([inf, -inf, nan], 0) on a generated table. */
  function ImputeTable(rows: seq<FeatureRow>): (r: seq<FeatureRow>)
    ensures |r| == |rows|
    ensures forall i :: 0 <= i < |rows| ==> r[i].name == rows[i].name && r[i].target == rows[i].target
    ensures forall i :: 0 <= i < |rows| ==> |r[i].features| == |rows[i].features|
    ensures forall i, x :: 0 <= i < |rows| && x in r[i].features ==> x.Finite?
  {
    seq(|rows|, i requires 0 <= i < |rows| => ImputeRow(rows[i]))
  }

  /** Replacing again changes nothing: a table with only finite features is
      its own imputation. */
  lemma ImputeTableIdempotent(rows: seq<FeatureRow>)
    ensures ImputeTable(ImputeTable(rows)) == ImputeTable(rows)
  {
    var once := ImputeTable(rows);
    forall i | 0 <= i < |once| ensures ImputeRow(once[i]) == once[i] {
      ImputeFinite(once[i].features);
    }
  }

  lemma {:induction false} ImputeFinite(xs: seq<Num>)
    requires forall x | x in xs :: x.Finite?
    ensures seq(|xs|, i requires 0 <= i < |xs| => Finite(Impute(xs)[i])) == xs
  {
    var r := Impute(xs);
    forall i | 0 <= i < |xs| ensures Finite(r[i]) == xs[i] {
      assert xs[i] in xs;
    }
  }

  // ---------------------------------------------------------------------
  // The table over every data set

  /** The slots of each data set of dataset_map. */
  function Tables(layouts: map<string, seq<Layout>>, sizes: seq<int>, snap: map<Column, ColumnView>)
    : map<string, seq<Slot>>
  {
    map d | d in layouts :: Slots(SourceViews(layouts[d], snap), Names(layouts[d]), sizes)
  }

  /** A data set generate_train_data passes: it is in dataset_map and every
      labelled column of it has tokens. */
  predicate Good(tables: map<string, seq<Slot>>, d: string) {
    d in tables && AllTokens(tables[d])
  }

  /** The error generate_train_data raises at a data set that does not pass. */
  function Failure(tables: map<string, seq<Slot>>, d: string): Error {
    if d in tables then ZeroDivision else MissingKey(d)
  }

  /** What generate_train_data returns for data_sets: it fails at the first
      data set that does not pass, and otherwise returns the rows of the
      LAST data set only, since train_data is emptied at the start of each. */
  ghost predicate GeneratedFrom(dataSets: seq<string>, tables: map<string, seq<Slot>>,
                                r: Result<seq<FeatureRow>>, docs: seq<Doc>, s: Searcher, h: Helpers)
  {
    && (r.Ok? <==> forall k :: 0 <= k < |dataSets| ==> Good(tables, dataSets[k]))
    && (r.Err? ==> exists k :: && 0 <= k < |dataSets| && !Good(tables, dataSets[k])
                              && (forall j :: 0 <= j < k ==> Good(tables, dataSets[j]))
                              && r.error == Failure(tables, dataSets[k]))
    && (r.Ok? && dataSets == [] ==> r.value == [])
    && (r.Ok? && dataSets != [] ==>
          var d := dataSets[|dataSets| - 1];
          AllDescribed(docs, tables[d]) && r.value == Rows(d, tables[d], docs, s, h))
  }

  /** tables holds, for each data set of layouts, its slots. */
  ghost predicate Tabulates(tables: map<string, seq<Slot>>, layouts: map<string, seq<Layout>>, sizes: seq<int>,
                            snap: map<Column, ColumnView>)
  {
    && tables.Keys == layouts.Keys
    && forall d {:trigger layouts[d]} | d in layouts ::
         tables[d] == Slots(SourceViews(layouts[d], snap), Names(layouts[d]), sizes)
  }

  /** One pass of the loop of generate_train_data: data set d, from an
      empty train_data. */
  method TrainNamed(d: string, layouts: map<string, seq<Layout>>, sizes: seq<int>, s: Searcher, h: Helpers,
                    ghost cs: set<Column>, ghost snap: map<Column, ColumnView>, ghost tables: map<string, seq<Slot>>)
    returns (r: Result<seq<FeatureRow>>, ghost docs: seq<Doc>)
    requires Agrees(cs, snap) && Tabulates(tables, layouts, sizes, snap)
    requires forall d | d in layouts :: Keyed(layouts[d]) && Cols(layouts[d]) <= cs
    modifies cs
    ensures Agrees(cs, snap)
    ensures r.Ok? <==> Good(tables, d)
    ensures r.Err? ==> r.error == Failure(tables, d)
    ensures r.Ok? ==> AllDescribed(docs, tables[d]) && r.value == Rows(d, tables[d], docs, s, h)
  {
    if d !in layouts {
      return Err(MissingKey(d)), [];
    }
    r, docs := TrainDataSet(d, s, h, layouts[d], sizes, cs, snap);
  }

  /** The loop of generate_train_data over data_sets, on the sources as
      read at its start. */
  method TrainDataSets(dataSets: seq<string>, layouts: map<string, seq<Layout>>, sizes: seq<int>,
                       s: Searcher, h: Helpers, ghost cs: set<Column>, ghost snap: map<Column, ColumnView>,
                       ghost tables: map<string, seq<Slot>>)
    returns (r: Result<seq<FeatureRow>>, ghost docs: seq<Doc>)
    requires Agrees(cs, snap) && Tabulates(tables, layouts, sizes, snap)
    requires forall d | d in layouts :: Keyed(layouts[d]) && Cols(layouts[d]) <= cs
    modifies cs
    ensures Agrees(cs, snap)
    ensures GeneratedFrom(dataSets, tables, r, docs, s, h)
  {
    r, docs := Ok([]), [];
    var k := 0;
    while k < |dataSets|
      invariant 0 <= k <= |dataSets|
      invariant Agrees(cs, snap) && r.Ok?
      invariant forall j :: 0 <= j < k ==> Good(tables, dataSets[j])
      invariant k == 0 ==> r.value == []
      invariant k > 0 ==>
        var d := dataSets[k - 1];
        d in tables && AllDescribed(docs, tables[d]) && r.value == Rows(d, tables[d], docs, s, h)
    {
      var part, partDocs := TrainNamed(dataSets[k], layouts, sizes, s, h, cs, snap, tables);
      if part.Err? {
        return part, partDocs;
      }
      r, docs := part, partDocs;
      k := k + 1;
    }
  }

  /** The sources of every data set. */
  ghost function SourcesOf(m: map<string, seq<Source>>): set<Source> {
    set d, i | d in m && 0 <= i < |m[d]| :: m[d][i]
  }

  /** The columns of every source of every data set. */
  ghost function ColumnsOf(m: map<string, seq<Source>>): set<Column>
    reads SourcesOf(m)
  {
    set d, i, c | d in m && 0 <= i < |m[d]| && c in m[d][i].columnMap.Values :: c
  }

  /** Every source lists each key of its column_map once. */
  ghost predicate AllIndexed(m: map<string, seq<Source>>)
    reads SourcesOf(m)
  {
    forall d, i | d in m && 0 <= i < |m[d]| :: m[d][i].Indexed()
  }

  /** What training reads of each data set's sources. */
  function LayoutsOf(m: map<string, seq<Source>>): (ls: map<string, seq<Layout>>)
    reads SourcesOf(m)
    ensures ls.Keys == m.Keys
    ensures forall d | d in m :: |ls[d]| == |m[d]|
  {
    map d | d in m :: LayoutOf(m[d])
  }

  /** Indexed sources give layouts whose keys all have columns, and whose
      columns are among those of m. */
  lemma LayoutsKeyed(m: map<string, seq<Source>>)
    requires AllIndexed(m)
    ensures forall d | d in m :: Keyed(LayoutsOf(m)[d]) && Cols(LayoutsOf(m)[d]) <= ColumnsOf(m)
  {
    forall d | d in m ensures Keyed(LayoutsOf(m)[d]) && Cols(LayoutsOf(m)[d]) <= ColumnsOf(m) {
      var ls := LayoutsOf(m)[d];
      forall i, k | 0 <= i < |ls| && k in ls[i].keys ensures k in ls[i].columns {
        assert m[d][i].Indexed();
      }
      forall c | c in Cols(ls) ensures c in ColumnsOf(m) {
        var i :| 0 <= i < |ls| && c in ls[i].columns.Values;
        assert c in m[d][i].columnMap.Values;
      }
    }
  }

  /** The columns train selects from the table to fit on. */
  const FeatureColumns := "feature_list"

  /** What train leaves behind, given the table it loaded (stored) or
      generated: the table it fits on, fit's answer, the model before and
      after, and train's own result r. A generation error leaves the model
      as it was; an empty table, which has no feature columns to select,
      or a fit that raises leaves the unfitted LogisticRegression. */
  ghost predicate Fitting(stored: Option<seq<FeatureRow>>, generated: Result<seq<FeatureRow>>,
                    fit: seq<FeatureRow> -> Option<Classifier>, before: ModelState, after: ModelState,
                    r: Result<seq<FeatureRow>>)
  {
    var table := if stored.Some? then Ok(stored.value)
                 else if generated.Ok? then Ok(ImputeTable(generated.value)) else generated;
    && (table.Err? ==> r == table && after == before)
    && (table.Ok? && table.value == [] ==> r == Err(MissingKey(FeatureColumns)) && after == Unfitted)
    && (table.Ok? && table.value != [] && fit(table.value).None? ==>
          r == Err(Backend("LogisticRegression.fit")) && after == Unfitted)
    && (table.Ok? && table.value != [] && fit(table.value).Some? ==>
          r == table && after == Fitted(fit(table.value).value))
  }

  /** MyRandomForest: the data sets to train on, the sources of each, and
      the model, which train sets. */
  class RandomForest {
    const dataSets: seq<string>
    const datasetMap: map<string, seq<Source>>
    var model: ModelState

    constructor (dataSets: seq<string>, datasetMap: map<string, seq<Source>>)
      ensures this.dataSets == dataSets && this.datasetMap == datasetMap
      ensures model == NoModel
    {
      this.dataSets := dataSets;
      this.datasetMap := datasetMap;
      model := NoModel;
    }

    /** generate_train_data: the table of each data set in turn, failing at
        a data set missing from dataset_map (KeyError) or at a labelled
        column without tokens. It changes no column's view. */
    method GenerateTrainData(sizes: seq<int>, s: Searcher, h: Helpers, ghost snap: map<Column, ColumnView>)
      returns (r: Result<seq<FeatureRow>>, ghost docs: seq<Doc>)
      requires AllIndexed(datasetMap) && Agrees(ColumnsOf(datasetMap), snap)
      modifies ColumnsOf(datasetMap)
      ensures Agrees(old(ColumnsOf(datasetMap)), snap)
      ensures GeneratedFrom(dataSets, Tables(old(LayoutsOf(datasetMap)), sizes, snap), r, docs, s, h)
    {
      var layouts := LayoutsOf(datasetMap);
      LayoutsKeyed(datasetMap);
      r, docs := TrainDataSets(dataSets, layouts, sizes, s, h, ColumnsOf(datasetMap), snap,
                               Tables(layouts, sizes, snap));
    }

    /** train: the stored table when there is one (load, as read), else
        the generated table with inf, -inf and NaN replaced by 0; then a
        fresh LogisticRegression fitted on it. fit is None where
        scikit-learn raises, which leaves the unfitted model in place. */
    method Train(sizes: seq<int>, s: Searcher, h: Helpers, stored: Option<seq<FeatureRow>>,
                 fit: seq<FeatureRow> -> Option<Classifier>)
      returns (r: Result<seq<FeatureRow>>, ghost generated: Result<seq<FeatureRow>>, ghost docs: seq<Doc>)
      requires AllIndexed(datasetMap)
      modifies this`model, ColumnsOf(datasetMap)
      ensures Agrees(old(ColumnsOf(datasetMap)), old(Snapshot(ColumnsOf(datasetMap))))
      ensures stored.None? ==>
        var tables := Tables(old(LayoutsOf(datasetMap)), sizes, old(Snapshot(ColumnsOf(datasetMap))));
        GeneratedFrom(dataSets, tables, generated, docs, s, h)
      ensures Fitting(stored, generated, fit, old(model), model, r)
    {
      ghost var cols := ColumnsOf(datasetMap);
      ghost var snap := Snapshot(cols);
      assert Agrees(cols, snap);
      var table: seq<FeatureRow>;
      generated, docs := Ok([]), [];
      if stored.Some? {
        table := stored.value;
      } else {
        var g;
        g, docs := GenerateTrainData(sizes, s, h, snap);
        generated := g;
        if g.Err? {
          return g, generated, docs;
        }
        table := ImputeTable(g.value);
      }
      r := Fit(table, fit);
    }

    /** A fresh LogisticRegression fitted on table, which replaces the model
        before fit is called. A table with no rows has no columns, so
        selecting the feature columns raises KeyError. */
    method Fit(table: seq<FeatureRow>, fit: seq<FeatureRow> -> Option<Classifier>)
      returns (r: Result<seq<FeatureRow>>)
      modifies this`model
      ensures table == [] ==> r == Err(MissingKey(FeatureColumns)) && model == Unfitted
      ensures table != [] && fit(table).None? ==> r == Err(Backend("LogisticRegression.fit")) && model == Unfitted
      ensures table != [] && fit(table).Some? ==> r == Ok(table) && model == Fitted(fit(table).value)
    {
      model := Unfitted;
      if table == [] {
        return Err(MissingKey(FeatureColumns));
      }
      var fitted := fit(table);
      if fitted.None? {
        return Err(Backend("LogisticRegression.fit"));
      }
      model := Fitted(fitted.value);
      r := Ok(table);
    }
  }
}
