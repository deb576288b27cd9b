/** search/indexer.py: the Indexer writes column documents to the search
    backend. The backend is modelled as a map from index name to the
    documents filed in it, in the order they were written; get_index_name
    (lib/utils) is a function the indexer is given. Source.save
    (lib/source.py) only forwards to IndexSource. */
module Indexing {
  import opened Common
  import opened ColumnProfile
  import opened Sources

  /** The index_config dictionaries the callers build: a name, and the
      "size" that server.py adds. */
  datatype IndexConfig = IndexConfig(name: string, size: Option<int>)

  /** One stored document: the doc_type it is filed under and its body. */
  datatype Entry = Entry(docType: string, body: Doc)

  type Store = map<string, seq<Entry>>

  /** The documents of index idx; an index that does not exist has none. */
  function Existing(store: Store, idx: string): seq<Entry> {
    if idx in store then store[idx] else []
  }

  /** The store after es.index has written docs, one after the other, to
      index idx (the backend creates the index on the first write). */
  function Append(store: Store, idx: string, docs: seq<Entry>): Store {
    if docs == [] then store else store[idx := Existing(store, idx) + docs]
  }

  /** Only index idx changes, and it gains exactly docs at its end. */
  lemma AppendOnlyExtends(store: Store, idx: string, docs: seq<Entry>)
    ensures Existing(Append(store, idx, docs), idx) == Existing(store, idx) + docs
    ensures forall other :: other != idx ==>
      (other in Append(store, idx, docs) <==> other in store) &&
      Existing(Append(store, idx, docs), other) == Existing(store, other)
  {
  }

  /** Writing a then b is writing a + b. */
  lemma AppendTwice(store: Store, idx: string, a: seq<Entry>, b: seq<Entry>)
    ensures Append(Append(store, idx, a), idx, b) == Append(store, idx, a + b)
  {
    if a == [] {
      assert a + b == b;
    } else if b == [] {
      assert a + b == a;
    } else {
      assert Existing(Append(store, idx, a), idx) == Existing(store, idx) + a;
      assert Existing(store, idx) + a + b == Existing(store, idx) + (a + b);
    }
  }

  /** The document index_column writes for a column in state st: to_json's
      body with its source field overwritten, filed under the source's
      name. */
  function DocEntry(st: ColumnState, sourceName: string): Entry
    requires st.HasTokens()
  {
    Entry(sourceName, st.Document(st.IsNumeric().value).(source := Some(sourceName)))
  }

  /** The positions, in order, among the first n column states, of those
      whose semantic type is truthy: the columns index_source writes. */
  function Labelled(sts: seq<ColumnState>, n: nat): (r: seq<nat>)
    requires n <= |sts|
    ensures forall t :: 0 <= t < |r| ==> r[t] < n
  {
    if n == 0 then []
    else if Truthy(sts[n - 1].semanticType) then Labelled(sts, n - 1) + [n - 1]
    else Labelled(sts, n - 1)
  }

  /** The labelled positions are exactly those with a truthy semantic
      type, each once and in increasing order. */
  lemma {:induction false} LabelledMembers(sts: seq<ColumnState>, n: nat)
    requires n <= |sts|
    ensures forall j: nat :: j in Labelled(sts, n) <==> j < n && Truthy(sts[j].semanticType)
    ensures forall s, t :: 0 <= s < t < |Labelled(sts, n)| ==> Labelled(sts, n)[s] < Labelled(sts, n)[t]
  {
    if n > 0 {
      LabelledMembers(sts, n - 1);
    }
  }

  /** The state to_json leaves each column in: prepared. */
  function PrepareAll(sts: seq<ColumnState>, h: Helpers): (r: seq<ColumnState>)
    ensures |r| == |sts|
  {
    seq(|sts|, j requires 0 <= j < |sts| => Prepare(sts[j], h))
  }

  /** Where index_source stands after some keys: the states of the
      columns in key order, the documents written so far, and the
      position of the column that raised, if one did. */
  datatype Run = Run(states: seq<ColumnState>, docs: seq<Entry>, failed: Option<nat>)

  /** index_source's loop over the first n keys of a source whose columns
      start in states sts, where ready[j] is the state to_json leaves
      column j in (PrepareAll). A key whose semantic type is not truthy is
      skipped; a labelled column is prepared, and its document is written
      when it has tokens; otherwise it raises and the loop ends. */
  function IndexRun(sts: seq<ColumnState>, ready: seq<ColumnState>, n: nat, sourceName: string): (r: Run)
    requires n <= |sts| == |ready|
    ensures |r.states| == |sts|
    ensures r.failed.Some? ==> r.failed.value < n
  {
    if n == 0 then Run(sts, [], None)
    else
      var r := IndexRun(sts, ready, n - 1, sourceName);
      var p := ready[n - 1];
      if r.failed.Some? || !Truthy(sts[n - 1].semanticType) then r
      else if p.HasTokens() then Run(r.states[n - 1 := p], r.docs + [DocEntry(p, sourceName)], None)
      else Run(r.states[n - 1 := p], r.docs, Some(n - 1))
  }

  /** index_source raises at the first labelled column that has no tokens
      once prepared, and only there: every labelled column before the one
      that raised, or before n when none did, has tokens. */
  lemma {:induction false} IndexRunFails(sts: seq<ColumnState>, ready: seq<ColumnState>, n: nat, sourceName: string)
    requires n <= |sts| == |ready|
    ensures var r := IndexRun(sts, ready, n, sourceName);
      && (r.failed.Some? ==>
            r.failed.value < n && Truthy(sts[r.failed.value].semanticType) && !ready[r.failed.value].HasTokens())
      && forall j :: 0 <= j < n && Truthy(sts[j].semanticType) && (r.failed.None? || j < r.failed.value) ==>
           ready[j].HasTokens()
  {
    if n > 0 {
      IndexRunFails(sts, ready, n - 1, sourceName);
    }
  }

  /** What index_source does to the columns: a labelled column the loop
      reached is prepared, every other column is as it was. */
  lemma {:induction false} IndexRunStates(sts: seq<ColumnState>, ready: seq<ColumnState>, n: nat, sourceName: string)
    requires n <= |sts| == |ready|
    ensures var r := IndexRun(sts, ready, n, sourceName);
      forall j :: 0 <= j < |sts| ==>
        r.states[j] ==
          if j < n && (r.failed.None? || j <= r.failed.value) && Truthy(sts[j].semanticType)
          then ready[j] else sts[j]
  {
    if n > 0 {
      IndexRunStates(sts, ready, n - 1, sourceName);
    }
  }

  /** docs holds, in order, the documents of the columns at positions L,
      each written from its prepared state. */
  ghost predicate DocumentsOf(ready: seq<ColumnState>, L: seq<nat>, docs: seq<Entry>, sourceName: string)
    requires forall t :: 0 <= t < |L| ==> L[t] < |ready|
  {
    && |docs| == |L|
    && forall t :: 0 <= t < |L| ==> ready[L[t]].HasTokens() && docs[t] == DocEntry(ready[L[t]], sourceName)
  }

  /** One more labelled column with tokens, one more document. */
  lemma DocumentsSnoc(ready: seq<ColumnState>, L: seq<nat>, docs: seq<Entry>, j: nat, sourceName: string)
    requires forall t :: 0 <= t < |L| ==> L[t] < |ready|
    requires j < |ready| && ready[j].HasTokens() && DocumentsOf(ready, L, docs, sourceName)
    ensures DocumentsOf(ready, L + [j], docs + [DocEntry(ready[j], sourceName)], sourceName)
  {
    var L', docs' := L + [j], docs + [DocEntry(ready[j], sourceName)];
    forall t | 0 <= t < |L'|
      ensures ready[L'[t]].HasTokens() && docs'[t] == DocEntry(ready[L'[t]], sourceName)
    {
      if t < |L| {
        assert L'[t] == L[t] && docs'[t] == docs[t];
      }
    }
  }

  /** What index_source writes: the documents of the labelled columns
      before the one that raised (all of them when none did), in key
      order, each from its prepared state. */
  lemma {:induction false} IndexRunDocs(sts: seq<ColumnState>, ready: seq<ColumnState>, n: nat, sourceName: string)
    requires n <= |sts| == |ready|
    ensures var r := IndexRun(sts, ready, n, sourceName);
      DocumentsOf(ready, Labelled(sts, if r.failed.Some? then r.failed.value else n), r.docs, sourceName)
  {
    if n > 0 {
      IndexRunDocs(sts, ready, n - 1, sourceName);
      var r0 := IndexRun(sts, ready, n - 1, sourceName);
      if r0.failed.None? && Truthy(sts[n - 1].semanticType) {
        var L := Labelled(sts, n - 1);
        assert Labelled(sts, n) == L + [n - 1];
        if ready[n - 1].HasTokens() {
          DocumentsSnoc(ready, L, r0.docs, n - 1, sourceName);
        }
      }
    }
  }

  /** Once a column has raised, the later keys are never visited. */
  lemma {:induction false} IndexRunStopped(sts: seq<ColumnState>, ready: seq<ColumnState>, m: nat, n: nat, sourceName: string)
    requires m <= n <= |sts| == |ready| && IndexRun(sts, ready, m, sourceName).failed.Some?
    ensures IndexRun(sts, ready, n, sourceName) == IndexRun(sts, ready, m, sourceName)
    decreases n
  {
    if m < n {
      IndexRunStopped(sts, ready, m, n - 1, sourceName);
    }
  }

  /** Preparing every column after an index_source that did not raise is
      preparing every column of the source as it was before: a column
      prepared twice is prepared once. */
  lemma IndexThenPrepare(sts: seq<ColumnState>, sourceName: string, h: Helpers)
    requires IndexRun(sts, PrepareAll(sts, h), |sts|, sourceName).failed.None?
    ensures PrepareAll(IndexRun(sts, PrepareAll(sts, h), |sts|, sourceName).states, h) == PrepareAll(sts, h)
  {
    var ready := PrepareAll(sts, h);
    var r := IndexRun(sts, ready, |sts|, sourceName);
    IndexRunStates(sts, ready, |sts|, sourceName);
    forall j | 0 <= j < |sts| ensures Prepare(r.states[j], h) == Prepare(sts[j], h) {
      PrepareIdempotent(sts[j], h);
    }
  }

  /** The message clean raises with, before the backend's own. */
  const CleanFailure := "Error occurred while cleaning index: "

  class Indexer {
    /** get_index_name. */
    const indexNameOf: IndexConfig -> string
    /** The backend's indices. */
    var store: Store

    constructor (indexNameOf: IndexConfig -> string, store: Store)
      ensures this.indexNameOf == indexNameOf && this.store == store
    {
      this.indexNameOf := indexNameOf;
      this.store := store;
    }

    /** index_column: to_json (which prepares the column), the source
        field set to source_name, and one document written. A column
        without tokens raises in to_json and nothing is written. */
    method IndexColumn(c: Column, sourceName: string, config: IndexConfig, h: Helpers) returns (o: Outcome)
      requires c.Valid()
      modifies this`store, c
      ensures c.Valid() && c.Prepared(h)
      ensures o.Pass? <==> c.HasTokens()
      ensures o.Pass? ==> store == Append(old(store), indexNameOf(config), [DocEntry(c.State(), sourceName)])
      ensures o.Fail? ==> store == old(store) && o.error == ZeroDivision
    {
      var r := c.ToJson(h);
      if r.Err? {
        return Fail(r.error);
      }
      var body := r.value.(source := Some(sourceName));
      var idx := indexNameOf(config);
      store := store[idx := Existing(store, idx) + [Entry(sourceName, body)]];
      o := Pass;
    }

    /** delete_column: removes the index named by config when it exists
        and says whether it did; otherwise the store is left as it is. */
    method DeleteColumn(config: IndexConfig) returns (deleted: bool)
      modifies this`store
      ensures deleted <==> indexNameOf(config) in old(store)
      ensures store == old(store) - {indexNameOf(config)}
      ensures !deleted ==> store == old(store)
    {
      var idx := indexNameOf(config);
      if idx in store {
        store := store - {idx};
        return true;
      }
      return false;
    }

    /** clean: deletes every index (a missing index is ignored) and returns
        true. failure is the exception the backend raises, if it raises
        one; it is re-raised with the message prefixed. gone names the
        indexes the backend deleted before it raised; the others stay as
        they were. */
    method Clean(failure: Option<string>, gone: set<string>) returns (r: Result<bool>)
      modifies this`store
      ensures r.Ok? <==> failure.None?
      ensures r.Ok? ==> r.value && store == map[]
      ensures r.Err? ==> r.error == Backend(CleanFailure + failure.value)
      ensures r.Err? ==> store.Keys == old(store).Keys - gone && forall k | k in store :: store[k] == old(store)[k]
    {
      if failure.Some? {
        store := map k | k in store && k !in gone :: store[k];
        return Err(Backend(CleanFailure + failure.value));
      }
      store := map[];
      r := Ok(true);
    }

    /** index_source: one document per column with a truthy semantic type,
        in key order, each under the source's index_name (IndexRun). added
        names the documents written. */
    method IndexSource(source: Source, config: IndexConfig, h: Helpers)
      returns (o: Outcome, ghost added: seq<Entry>)
      requires source.Valid()
      modifies this`store, source.columnMap.Values
      ensures source.Valid()
      ensures var entry := old(source.States());
        var r := IndexRun(entry, PrepareAll(entry, h), |source.keys|, source.indexName);
        source.States() == r.states && added == r.docs && (o.Fail? <==> r.failed.Some?)
      ensures store == Append(old(store), indexNameOf(config), added)
      ensures o.Fail? ==> o.error == ZeroDivision
    {
      ghost var entry := source.States();
      ghost var ready := PrepareAll(entry, h);
      ghost var run := Run(entry, [], None);
      o := Pass;
      var i := 0;
      while i < |source.keys|
        invariant 0 <= i <= |source.keys| && o.Pass? && source.Valid()
        invariant run == IndexRun(entry, ready, i, source.indexName) && run.failed.None? && source.Holds(run.states)
        invariant store == Append(old(store), indexNameOf(config), run.docs)
      {
        o, run := IndexKey(source, i, config, h, old(store), entry, ready, run);
        if o.Fail? {
          IndexRunStopped(entry, ready, i + 1, |source.keys|, source.indexName);
          break;
        }
        i := i + 1;
      }
      source.HoldsStates(run.states);
      added := run.docs;
    }

    /** One pass of index_source's loop: the column at key i is written
        when its semantic type is truthy, and left alone otherwise. */
    method IndexKey(source: Source, i: int, config: IndexConfig, h: Helpers, ghost start: Store,
                    ghost entry: seq<ColumnState>, ghost ready: seq<ColumnState>, ghost run: Run)
      returns (o: Outcome, ghost next: Run)
      requires source.Valid() && 0 <= i < |source.keys| && |entry| == |ready| == |source.keys|
      requires ready == PrepareAll(entry, h)
      requires run == IndexRun(entry, ready, i, source.indexName) && run.failed.None?
      requires source.Holds(run.states)
      requires store == Append(start, indexNameOf(config), run.docs)
      modifies this`store, source.columnMap[source.keys[i]]
      ensures source.Valid()
      ensures next == IndexRun(entry, ready, i + 1, source.indexName) && source.Holds(next.states)
      ensures (o.Fail? <==> next.failed.Some?) && store == Append(start, indexNameOf(config), next.docs)
      ensures o.Fail? ==> o.error == ZeroDivision
    {
      var c := source.columnMap[source.keys[i]];
      IndexRunStates(entry, ready, i, source.indexName);
      assert c.State() == entry[i];
      next := run;
      o := Pass;
      if Truthy(c.semanticType) {
        o := WriteKey(source, i, config, h, run.states);
        next := IndexRun(entry, ready, i + 1, source.indexName);
        if o.Pass? {
          AppendTwice(start, indexNameOf(config), run.docs, [DocEntry(c.State(), source.indexName)]);
        }
      }
    }

    /** index_column on the labelled column at key i: it is prepared and
        its document written, or it raises; no other column changes. */
    method WriteKey(source: Source, i: int, config: IndexConfig, h: Helpers, ghost sts: seq<ColumnState>)
      returns (o: Outcome)
      requires source.Valid() && 0 <= i < |source.keys| && source.Holds(sts)
      modifies this`store, source.columnMap[source.keys[i]]
      ensures source.Valid()
      ensures var c := source.columnMap[source.keys[i]];
        && c.Prepared(h)
        && (o.Pass? <==> c.HasTokens())
        && (o.Pass? ==> store == Append(old(store), indexNameOf(config), [DocEntry(c.State(), source.indexName)]))
        && (o.Fail? ==> store == old(store) && o.error == ZeroDivision)
      ensures source.Holds(sts[i := source.columnMap[source.keys[i]].State()])
    {
      var keys := source.keys;
      var c := source.columnMap[keys[i]];
      o := IndexColumn(c, source.indexName, config, h);
      assert c in source.columnMap.Values;
      forall d | d in source.columnMap.Values ensures d.Valid() {
        if d != c {
          assert old(d.Valid());
        }
      }
      forall j | 0 <= j < |keys| ensures source.columnMap[keys[j]].State() == sts[i := c.State()][j] {
        if j != i {
          assert source.columnMap[keys[j]] != c;
        }
      }
    }
  }
}
