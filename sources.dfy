/** lib/source.py after parsing: a source is a name, the index name derived
    from it, and an ordered map from column key to Column. This module
    models the bookkeeping done on that map once the raw file has been read:
    semantic type labels derived from URIs, setting a type on an existing
    column, matching a gold file, building columns from a dictionary of
    values, and the rows written for the column map and the transposed CSV. */
module Sources {
  import opened Common
  import opened ColumnProfile

  // ---------------------------------------------------------------------
  // Semantic type labels

  /** tag is the last segment of domainUri, "---", then the last segment
      of typeUri, with the domain segment ending at n. */
  ghost predicate LabelsAt(tag: string, domainUri: string, typeUri: string, n: int) {
    && 0 <= n && n + 3 <= |tag|
    && LastPiece(domainUri, '/', tag[..n]) && tag[n..n + 3] == "---"
    && LastPiece(typeUri, '/', tag[n + 3..])
  }

  /** The type label set_semantic_type gives a column. */
  function TypeLabel(domainUri: string, typeUri: string): (tag: string)
  {
    Last(domainUri, '/') + "---" + Last(typeUri, '/')
  }

  /** TypeLabel is made of the two last segments around "---", and it is the
      only string that is. */
  lemma TypeLabelMeaning(domainUri: string, typeUri: string, tag: string)
    ensures tag == TypeLabel(domainUri, typeUri) <==> exists n :: LabelsAt(tag, domainUri, typeUri, n)
  {
    var d := Last(domainUri, '/');
    var t := Last(typeUri, '/');
    if tag == TypeLabel(domainUri, typeUri) {
      assert tag[..|d|] == d && tag[|d|..|d| + 3] == "---" && tag[|d| + 3..] == t;
      assert LabelsAt(tag, domainUri, typeUri, |d|);
    }
    if n :| LabelsAt(tag, domainUri, typeUri, n) {
      LastPieceUnique(domainUri, '/', tag[..n], d);
      LastPieceUnique(typeUri, '/', tag[n + 3..], t);
      assert tag == tag[..n] + tag[n..n + 3] + tag[n + 3..];
    }
  }

  /** The last segment of each part. */
  function LastSegments(parts: seq<string>): (r: seq<string>)
    ensures |r| == |parts|
    ensures forall i :: 0 <= i < |parts| ==> r[i] == Last(parts[i], '/')
  {
    if parts == [] then [] else [Last(parts[0], '/')] + LastSegments(parts[1..])
  }

  /** The type label of a column read from a text file: "#" removed, the
      "|"-separated parts reduced to their last segments, joined by "---". */
  function TextFileTypeLabel(semanticType: string): string
  {
    Join(LastSegments(Split(RemoveChar(semanticType, '#'), '|')), "---")
  }

  /** Splitting "d|t" on "|" gives d and t when neither holds a "|". */
  lemma SplitPair(d: string, t: string)
    requires '|' !in d && '|' !in t
    ensures Split(d + "|" + t, '|') == [d, t]
  {
    JoinPair(d, t, "|");
    SplitJoin([d, t], '|');
  }

  /** "d|t" holds no "#" when neither d nor t does. */
  lemma NoHashInPair(d: string, t: string)
    requires '#' !in d && '#' !in t
    ensures RemoveChar(d + "|" + t, '#') == d + "|" + t
  {
    assert "|"[0] == '|';
    assert '#' !in d + "|";
  }

  /** The text-file label of "domain|type" is the label set_semantic_type
      derives from the same two URIs. */
  lemma TextFileLabelAgrees(domainUri: string, typeUri: string)
    requires '#' !in domainUri && '#' !in typeUri
    requires '|' !in domainUri && '|' !in typeUri
    ensures TextFileTypeLabel(domainUri + "|" + typeUri) == TypeLabel(domainUri, typeUri)
  {
    NoHashInPair(domainUri, typeUri);
    SplitPair(domainUri, typeUri);
    var segments := LastSegments([domainUri, typeUri]);
    assert segments == [Last(domainUri, '/'), Last(typeUri, '/')];
    JoinPair(Last(domainUri, '/'), Last(typeUri, '/'), "---");
  }

  // ---------------------------------------------------------------------
  // Gold files

  /** The column key a gold row names: its second field, stripped, when it
      has one. */
  function RowKey(row: seq<string>): (k: Option<string>)
    ensures k.Some? <==> |row| > 1
  {
    if |row| > 1 then Some(Strip(row[1])) else None
  }

  /** The position of the last element of xs that satisfies p. */
  function LastMatch<T>(xs: seq<T>, p: T -> bool): (r: Option<nat>)
    ensures r.None? <==> forall i :: 0 <= i < |xs| ==> !p(xs[i])
    ensures r.Some? ==> r.value < |xs| && p(xs[r.value]) && forall j :: r.value < j < |xs| ==> !p(xs[j])
  {
    if xs == [] then None
    else if p(xs[|xs| - 1]) then Some(|xs| - 1)
    else
      var r := LastMatch(xs[..|xs| - 1], p);
      assert forall i :: 0 <= i < |xs| - 1 ==> xs[..|xs| - 1][i] == xs[i];
      r
  }

  /** The type the gold rows give column k: the stripped first field of the
      last row that names k, if any. */
  function GoldType(rows: seq<seq<string>>, k: string): Option<string>
  {
    match LastMatch(rows, row => RowKey(row) == Some(k))
    case None => None
    case Some(i) => Some(Strip(rows[i][0]))
  }

  /** Reading one more row: it sets the type if it names k. */
  lemma GoldTypeStep(rows: seq<seq<string>>, k: string, i: nat)
    requires i < |rows|
    ensures GoldType(rows[..i + 1], k) ==
      if RowKey(rows[i]) == Some(k) then Some(Strip(rows[i][0])) else GoldType(rows[..i], k)
  {
    assert rows[..i + 1][..i] == rows[..i];
  }

  /** A column's type after the gold rows: theirs if they name it, its own
      otherwise. */
  function AfterGold(current: Option<string>, gold: Option<string>): Option<string> {
    if gold.Some? then gold else current
  }

  // ---------------------------------------------------------------------
  // Filtering and writing

  /** How csv.writer renders an optional string: None becomes "". */
  function Cell(v: Option<string>): string {
    if v.Some? then v.value else ""
  }

  // ---------------------------------------------------------------------
  // The column map

  /** ks lists each key of m once, in some order. */
  ghost predicate IndexedBy(ks: seq<string>, m: map<string, Column>) {
    && (forall i, j :: 0 <= i < j < |ks| ==> ks[i] != ks[j])
    && (forall k :: k in m <==> k in ks)
  }

  /** Different keys of m hold different columns. */
  ghost predicate Injective(m: map<string, Column>) {
    forall k, k' | k in m && k' in m && k != k' :: m[k] != m[k']
  }

  /** Every column of cs is consistent. */
  ghost predicate AllValid(cs: set<Column>)
    reads cs
  {
    forall c | c in cs :: c.Valid()
  }

  /** Storing a consistent column keeps every stored column consistent. */
  lemma StoreValid(m: map<string, Column>, key: string, c: Column)
    requires AllValid(m.Values) && c.Valid()
    ensures AllValid(m[key := c].Values)
  {
    forall d | d in m[key := c].Values ensures d.Valid() {
      var k :| k in m[key := c] && m[key := c][k] == d;
      if k != key {
        assert m[k] in m.Values;
      }
    }
  }

  /** Storing at a key appends it to the order when it is new. */
  lemma StoreIndexed(ks: seq<string>, m: map<string, Column>, key: string, c: Column)
    requires IndexedBy(ks, m)
    ensures IndexedBy(if key in ks then ks else ks + [key], m[key := c])
  {
  }

  /** Storing a column no other key holds keeps the map injective. */
  lemma StoreInjective(m: map<string, Column>, key: string, c: Column)
    requires Injective(m) && c !in m.Values
    ensures Injective(m[key := c])
  {
    var stored := m[key := c];
    forall k, k' | k in stored && k' in stored && k != k'
      ensures stored[k] != stored[k']
    {
      if k != key && k' != key {
        assert m[k] in m.Values && m[k'] in m.Values;
      } else if k == key {
        assert m[k'] in m.Values;
      } else {
        assert m[k] in m.Values;
      }
    }
  }

  /** Every value is one add_value drops. */
  predicate AllDropped(values: seq<Option<string>>) {
    forall t :: 0 <= t < |values| ==> Dropped(values[t])
  }

  /** The position of the first entry, at or after from, holding a value
      add_value keeps: the entry read_data_from_dict raises on. */
  function FirstKept(data: seq<(string, seq<Option<string>>)>, from: nat): (r: Option<nat>)
    ensures r.Some? ==> from <= r.value < |data| && !AllDropped(data[r.value].1)
    decreases |data| - from
  {
    if from >= |data| then None
    else if !AllDropped(data[from].1) then Some(from)
    else FirstKept(data, from + 1)
  }

  /** No entry keeps a value exactly when FirstKept finds none, and every
      entry before the one it finds keeps none. */
  lemma {:induction false} FirstKeptMeaning(data: seq<(string, seq<Option<string>>)>, from: nat)
    requires from <= |data|
    ensures FirstKept(data, from).None? <==> forall i :: from <= i < |data| ==> AllDropped(data[i].1)
    ensures FirstKept(data, from).Some? ==>
      forall i :: from <= i < FirstKept(data, from).value ==> AllDropped(data[i].1)
    decreases |data| - from
  {
    if from < |data| && AllDropped(data[from].1) {
      FirstKeptMeaning(data, from + 1);
    }
  }

  /** The headers of the first n entries of a dictionary. */
  function HeadersOf(data: seq<(string, seq<Option<string>>)>, n: nat): set<string>
    requires n <= |data|
  {
    if n == 0 then {} else HeadersOf(data, n - 1) + {data[n - 1].0}
  }

  lemma {:induction false} HeadersOfAll(data: seq<(string, seq<Option<string>>)>, n: nat)
    requires n <= |data|
    ensures forall j :: 0 <= j < n ==> data[j].0 in HeadersOf(data, n)
  {
    if n > 0 {
      HeadersOfAll(data, n - 1);
    }
  }

  /** The key order after column_map[header] = ... for the headers of the
      first n entries, starting from ks: a header that is not yet a key is
      appended, one that is keeps its place. */
  function KeysAfter(ks: seq<string>, data: seq<(string, seq<Option<string>>)>, n: nat): seq<string>
    requires n <= |data|
  {
    if n == 0 then ks
    else
      var p := KeysAfter(ks, data, n - 1);
      if data[n - 1].0 in p then p else p + [data[n - 1].0]
  }

  /** The keys are the old ones and the headers; the order after fewer
      entries is kept as a prefix, so the old keys stay in front and new
      headers follow in order of first appearance; no key is repeated
      when none was. */
  lemma {:induction false} KeysAfterMeaning(ks: seq<string>, data: seq<(string, seq<Option<string>>)>, n: nat)
    requires n <= |data|
    ensures forall k :: k in KeysAfter(ks, data, n) <==> k in ks || k in HeadersOf(data, n)
    ensures forall t | 0 <= t <= n ::
      |KeysAfter(ks, data, t)| <= |KeysAfter(ks, data, n)|
      && KeysAfter(ks, data, n)[..|KeysAfter(ks, data, t)|] == KeysAfter(ks, data, t)
    ensures (forall i, j :: 0 <= i < j < |ks| ==> ks[i] != ks[j]) ==>
      forall i, j :: 0 <= i < j < |KeysAfter(ks, data, n)| ==> KeysAfter(ks, data, n)[i] != KeysAfter(ks, data, n)[j]
  {
    if n > 0 {
      KeysAfterMeaning(ks, data, n - 1);
      var p := KeysAfter(ks, data, n - 1);
      var r := KeysAfter(ks, data, n);
      assert r[..|p|] == p;
      forall t | 0 <= t <= n
        ensures |KeysAfter(ks, data, t)| <= |r| && r[..|KeysAfter(ks, data, t)|] == KeysAfter(ks, data, t)
      {
        if t < n {
          var q := KeysAfter(ks, data, t);
          assert p[..|q|] == q;
          assert r[..|q|] == r[..|p|][..|q|];
        }
      }
    }
  }

  /** keys and m1 are the key order and column map after the first i
      entries of data, from key order ks and map m0: the handled headers
      are keys in order of first appearance after ks, and every other key
      keeps its column. */
  ghost predicate ReadUpTo(keys: seq<string>, m1: map<string, Column>, data: seq<(string, seq<Option<string>>)>,
                           i: nat, ks: seq<string>, m0: map<string, Column>)
  {
    && i <= |data|
    && keys == KeysAfter(ks, data, i)
    && (forall k :: k in m1 <==> k in m0 || k in HeadersOf(data, i))
    && (forall k | k in m0 && k !in HeadersOf(data, i) :: m1[k] == m0[k])
  }

  /** Storing a new column at the next header handles one more entry. */
  lemma ReadStep(keys: seq<string>, m1: map<string, Column>, data: seq<(string, seq<Option<string>>)>,
                 i: nat, ks: seq<string>, m0: map<string, Column>, c: Column)
    requires i < |data| && ReadUpTo(keys, m1, data, i, ks, m0)
    ensures ReadUpTo(if data[i].0 in keys then keys else keys + [data[i].0], m1[data[i].0 := c], data, i + 1, ks, m0)
  {
  }

  /** c is Column(header) with nothing added. */
  ghost predicate EmptyColumn(c: Column, header: string)
    reads c
  {
    c.name == RemoveChar(header, '#') && c.sourceName.None? && c.semanticType.None? && c.valueList == []
  }

  const ColumnMapHeader: seq<string> := ["key", "column_name", "source_name", "semantic_type"]

  class Source {
    const name: string
    const indexName: string
    /** column_map's keys in insertion order. */
    var keys: seq<string>
    var columnMap: map<string, Column>

    /** The key order lists each key of the map once. */
    ghost predicate Indexed()
      reads this`keys, this`columnMap
    {
      IndexedBy(keys, columnMap)
    }

    /** Different keys hold different columns. */
    ghost predicate Separate()
      reads this`columnMap
    {
      Injective(columnMap)
    }

    /** Every column is consistent. */
    ghost predicate ColumnsValid()
      reads this`columnMap, columnMap.Values
    {
      AllValid(columnMap.Values)
    }

    ghost predicate Valid()
      reads this, columnMap.Values
    {
      Indexed() && Separate() && ColumnsValid()
    }

    /** The state of each column, in key order. */
    ghost function States(): (r: seq<ColumnState>)
      reads this, columnMap.Values
      requires Indexed()
      ensures |r| == |keys|
    {
      seq(|keys|, j requires 0 <= j < |keys| && keys[j] in columnMap reads this, columnMap.Values => columnMap[keys[j]].State())
    }

    /** sts lists the state of each column, in key order. */
    ghost predicate Holds(sts: seq<ColumnState>)
      reads this, columnMap.Values
    {
      Indexed() && |sts| == |keys| && forall j :: 0 <= j < |keys| ==> columnMap[keys[j]].State() == sts[j]
    }

    /** States lists exactly the states Holds speaks of. */
    lemma HoldsStates(sts: seq<ColumnState>)
      requires Holds(sts)
      ensures States() == sts
    {
    }

    /** A new source: index_name is the name without disallowed characters
        (removeDisallowed is re.sub(not_allowed_chars, "", ·)). */
    constructor (name: string, removeDisallowed: string -> string)
      ensures Valid()
      ensures this.name == name && indexName == removeDisallowed(name)
      ensures keys == [] && columnMap == map[]
    {
      this.name := name;
      indexName := removeDisallowed(name);
      keys := [];
      columnMap := map[];
    }

    /** column_map[key].semantic_type = t, for an existing key. */
    method Assign(key: string, t: string)
      requires Valid() && key in columnMap
      modifies columnMap.Values`semanticType
      ensures Valid()
      ensures forall k | k in columnMap ::
        columnMap[k].semanticType == if k == key then Some(t) else old(columnMap[k].semanticType)
    {
      columnMap[key].semanticType := Some(t);
    }

    /** set_semantic_type: the column whose key is name without spaces gets
        the label of the two URIs; without such a column nothing changes. */
    method SetSemanticType(domainUri: string, typeUri: string, name: string)
      requires Valid()
      modifies columnMap.Values`semanticType
      ensures Valid()
      ensures var key := RemoveChar(name, ' ');
        forall k | k in columnMap ::
          columnMap[k].semanticType == if k == key then Some(TypeLabel(domainUri, typeUri))
                                       else old(columnMap[k].semanticType)
    {
      var domain := Last(domainUri, '/');
      var kind := Last(typeUri, '/');
      var key := RemoveChar(name, ' ');
      if key in columnMap {
        Assign(key, domain + "---" + kind);
      }
    }

    /** read_semantic_type_from_gold over the parsed rows: every row naming
        an existing column sets its type, later rows winning. */
    method ReadSemanticTypeFromGold(rows: seq<seq<string>>)
      requires Valid()
      modifies columnMap.Values`semanticType
      ensures Valid()
      ensures forall k | k in columnMap ::
        columnMap[k].semanticType == AfterGold(old(columnMap[k].semanticType), GoldType(rows, k))
    {
      for i := 0 to |rows|
        invariant Valid()
        invariant forall k | k in columnMap ::
          columnMap[k].semanticType == AfterGold(old(columnMap[k].semanticType), GoldType(rows[..i], k))
      {
        forall k | k in columnMap {
          GoldTypeStep(rows, k, i);
        }
        ApplyGoldRow(rows[i]);
      }
      assert rows[..|rows|] == rows;
    }

    /** One gold row: it sets the type of the column it names, if any. */
    method ApplyGoldRow(row: seq<string>)
      requires Valid()
      modifies columnMap.Values`semanticType
      ensures Valid()
      ensures forall k | k in columnMap ::
        columnMap[k].semanticType ==
          if RowKey(row) == Some(k) then Some(Strip(row[0])) else old(columnMap[k].semanticType)
    {
      var key := RowKey(row);
      if key.Some? && key.value in columnMap {
        Assign(key.value, Strip(row[0]));
      }
    }

    /** The keys written when filter_unknown is set: those whose column has
        a semantic type; all of ks otherwise. Order is kept. */
    ghost function Kept(ks: seq<string>, filterUnknown: bool): (r: seq<string>)
      reads this`columnMap, columnMap.Values`semanticType
      requires forall k | k in ks :: k in columnMap
      ensures forall t :: 0 <= t < |r| ==> r[t] in columnMap
    {
      if ks == [] then []
      else
        var rest := Kept(ks[1..], filterUnknown);
        if !filterUnknown || columnMap[ks[0]].semanticType.Some? then [ks[0]] + rest else rest
    }

    /** Without filter_unknown every key is kept; with it, exactly those
        whose column has a semantic type. */
    lemma {:induction false} KeptMembers(ks: seq<string>, filterUnknown: bool)
      requires forall k | k in ks :: k in columnMap
      ensures !filterUnknown ==> Kept(ks, filterUnknown) == ks
      ensures forall k :: k in Kept(ks, filterUnknown) <==>
        k in ks && (filterUnknown ==> columnMap[k].semanticType.Some?)
    {
      if ks != [] {
        KeptMembers(ks[1..], filterUnknown);
        assert forall k | k in ks :: k == ks[0] || k in ks[1..];
      }
    }

    /** The keys of the columns written, after filter_unknown. */
    method FilterUnknown(filterUnknown: bool) returns (kept: seq<string>)
      requires Indexed()
      ensures kept == Kept(keys, filterUnknown)
    {
      if !filterUnknown {
        KeptMembers(keys, false);
        return keys;
      }
      kept := [];
      var i := |keys|;
      while i > 0
        invariant 0 <= i <= |keys|
        invariant kept == Kept(keys[i..], true)
      {
        i := i - 1;
        assert keys[i..][1..] == keys[i + 1..];
        if columnMap[keys[i]].semanticType.Some? {
          kept := [keys[i]] + kept;
        }
      }
    }

    /** The column-map row of the column at key k. */
    ghost function MapRow(k: string): seq<string>
      reads this`columnMap, columnMap.Values
      requires k in columnMap
    {
      var c := columnMap[k];
      [k, c.name, Cell(c.sourceName), Cell(c.semanticType)]
    }

    /** The rows write_column_map writes: a header, then one row per kept
        column with its key, name, source name and semantic type. */
    method WriteColumnMap(filterUnknown: bool) returns (rows: seq<seq<string>>)
      requires Indexed()
      ensures var kept := Kept(keys, filterUnknown);
        && |rows| == |kept| + 1 && rows[0] == ColumnMapHeader
        && forall t :: 0 <= t < |kept| ==> rows[t + 1] == MapRow(kept[t])
    {
      var kept := FilterUnknown(filterUnknown);
      rows := [ColumnMapHeader];
      for t := 0 to |kept|
        invariant |rows| == t + 1 && rows[0] == ColumnMapHeader
        invariant forall s :: 0 <= s < t ==> rows[s + 1] == MapRow(kept[s])
      {
        var c := columnMap[kept[t]];
        rows := rows + [[kept[t], c.name, Cell(c.sourceName), Cell(c.semanticType)]];
      }
    }

    /** Row i's cell for the column at key k: its i-th value, or "" past
        its end. */
    ghost function CsvCell(k: string, i: nat): string
      reads this`columnMap, columnMap.Values`valueList
      requires k in columnMap
    {
      var values := columnMap[k].valueList;
      if i < |values| then values[i] else ""
    }

    /** Data row i of the CSV: one cell per kept column. */
    ghost function CsvRow(kept: seq<string>, i: nat): seq<string>
      reads this`columnMap, columnMap.Values`valueList
      requires forall t :: 0 <= t < |kept| ==> kept[t] in columnMap
    {
      if kept == [] then [] else CsvRow(kept[..|kept| - 1], i) + [CsvCell(kept[|kept| - 1], i)]
    }

    /** Cell j of data row i belongs to the j-th kept column. */
    lemma {:induction false} CsvRowCells(kept: seq<string>, i: nat)
      requires forall t :: 0 <= t < |kept| ==> kept[t] in columnMap
      ensures |CsvRow(kept, i)| == |kept|
      ensures forall j :: 0 <= j < |kept| ==> CsvRow(kept, i)[j] == CsvCell(kept[j], i)
    {
      if kept != [] {
        CsvRowCells(kept[..|kept| - 1], i);
      }
    }

    /** Data rows 0 .. n - 1, in order. */
    ghost function Table(kept: seq<string>, n: nat): seq<seq<string>>
      reads this`columnMap, columnMap.Values`valueList
      requires forall t :: 0 <= t < |kept| ==> kept[t] in columnMap
    {
      if n == 0 then [] else Table(kept, n - 1) + [CsvRow(kept, n - 1)]
    }

    /** The table has n rows and row i is data row i. */
    lemma {:induction false} TableRows(kept: seq<string>, n: nat)
      requires forall t :: 0 <= t < |kept| ==> kept[t] in columnMap
      ensures |Table(kept, n)| == n
      ensures forall i :: 0 <= i < n ==> Table(kept, n)[i] == CsvRow(kept, i)
    {
      if n > 0 {
        TableRows(kept, n - 1);
      }
    }

    /** The header row: the kept columns' names. */
    ghost function HeaderRow(kept: seq<string>): seq<string>
      reads this`columnMap, columnMap.Values`name
      requires forall t :: 0 <= t < |kept| ==> kept[t] in columnMap
    {
      if kept == [] then [] else HeaderRow(kept[..|kept| - 1]) + [columnMap[kept[|kept| - 1]].name]
    }

    /** Header j is the j-th kept column's name. */
    lemma {:induction false} HeaderRowNames(kept: seq<string>)
      requires forall t :: 0 <= t < |kept| ==> kept[t] in columnMap
      ensures |HeaderRow(kept)| == |kept|
      ensures forall j :: 0 <= j < |kept| ==> HeaderRow(kept)[j] == columnMap[kept[j]].name
    {
      if kept != [] {
        HeaderRowNames(kept[..|kept| - 1]);
      }
    }

    /** The number of values in the longest kept column. */
    ghost function Longest(kept: seq<string>): nat
      reads this`columnMap, columnMap.Values`valueList
      requires forall t :: 0 <= t < |kept| ==> kept[t] in columnMap
    {
      if kept == [] then 0
      else
        var last := |columnMap[kept[|kept| - 1]].valueList|;
        var before := Longest(kept[..|kept| - 1]);
        if last >= before then last else before
    }

    /** Longest is max() of the kept columns' lengths: every kept column is
        at most that long, and some kept column is exactly that long. */
    lemma {:induction false} LongestIsMax(kept: seq<string>)
      requires forall t :: 0 <= t < |kept| ==> kept[t] in columnMap
      ensures forall t :: 0 <= t < |kept| ==> |columnMap[kept[t]].valueList| <= Longest(kept)
      ensures kept != [] ==> exists t :: 0 <= t < |kept| && |columnMap[kept[t]].valueList| == Longest(kept)
    {
      if kept != [] {
        var init := kept[..|kept| - 1];
        LongestIsMax(init);
        var last := |columnMap[kept[|kept| - 1]].valueList|;
        if last < Longest(init) {
          var t :| 0 <= t < |init| && |columnMap[init[t]].valueList| == Longest(init);
          assert init[t] == kept[t];
        }
      }
    }

    /** The number of data rows write_csv_file writes: range(limit), or the
        longest kept column when limit is None. */
    ghost function RowCount(kept: seq<string>, limit: Option<int>): nat
      reads this`columnMap, columnMap.Values`valueList
      requires forall t :: 0 <= t < |kept| ==> kept[t] in columnMap
    {
      match limit
      case None => Longest(kept)
      case Some(n) => if n < 0 then 0 else n
    }

    /** The rows write_csv_file writes for the columns filter_unknown
        keeps, in key order. */
    method WriteCsvFile(limit: Option<int>, filterUnknown: bool) returns (r: Result<seq<seq<string>>>)
      requires Indexed()
      ensures r == CsvFile(Kept(keys, filterUnknown), limit)
    {
      var kept := FilterUnknown(filterUnknown);
      r := WriteKept(kept, limit);
    }

    /** What write_csv_file writes for the kept columns: max() of an empty
        sequence fails when no limit is given and nothing is kept; otherwise
        the header row followed by the data rows. */
    ghost function CsvFile(kept: seq<string>, limit: Option<int>): Result<seq<seq<string>>>
      reads this`columnMap, columnMap.Values`valueList, columnMap.Values`name
      requires forall t :: 0 <= t < |kept| ==> kept[t] in columnMap
    {
      if limit.None? && kept == [] then Err(EmptySequence)
      else Ok([HeaderRow(kept)] + Table(kept, RowCount(kept, limit)))
    }

    /** The shape of the CSV: one header row with the kept columns' names,
        then RowCount rows whose j-th cell comes from the j-th kept column. */
    lemma CsvFileCells(kept: seq<string>, limit: Option<int>)
      requires forall t :: 0 <= t < |kept| ==> kept[t] in columnMap
      ensures CsvFile(kept, limit).Err? <==> limit.None? && kept == []
      ensures CsvFile(kept, limit).Ok? ==>
        var rows := CsvFile(kept, limit).value;
        && |rows| == RowCount(kept, limit) + 1
        && |rows[0]| == |kept|
        && (forall j :: 0 <= j < |kept| ==> rows[0][j] == columnMap[kept[j]].name)
        && (forall i :: 1 <= i < |rows| ==> |rows[i]| == |kept|)
        && (forall i, j :: 1 <= i < |rows| && 0 <= j < |kept| ==> rows[i][j] == CsvCell(kept[j], i - 1))
    {
      if !(limit.None? && kept == []) {
        var n := RowCount(kept, limit);
        var rows := CsvFile(kept, limit).value;
        HeaderRowNames(kept);
        TableRows(kept, n);
        forall i | 1 <= i < |rows|
          ensures |rows[i]| == |kept|
          ensures forall j :: 0 <= j < |kept| ==> rows[i][j] == CsvCell(kept[j], i - 1)
        {
          assert rows[i] == CsvRow(kept, i - 1);
          CsvRowCells(kept, i - 1);
        }
      }
    }

    /** Without a limit no value is lost: value i of the j-th kept column is
        cell j of data row i. */
    lemma NoValueLost(kept: seq<string>, j: int, i: int)
      requires forall t :: 0 <= t < |kept| ==> kept[t] in columnMap
      requires 0 <= j < |kept| && 0 <= i < |columnMap[kept[j]].valueList|
      ensures CsvFile(kept, None).Ok?
      ensures i + 1 < |CsvFile(kept, None).value| && j < |CsvFile(kept, None).value[i + 1]|
      ensures CsvFile(kept, None).value[i + 1][j] == columnMap[kept[j]].valueList[i]
    {
      LongestIsMax(kept);
      CsvFileCells(kept, None);
    }

    /** The CSV table of the kept columns. */
    method WriteKept(kept: seq<string>, limit: Option<int>) returns (r: Result<seq<seq<string>>>)
      requires forall t :: 0 <= t < |kept| ==> kept[t] in columnMap
      ensures r == CsvFile(kept, limit)
    {
      if limit.None? && kept == [] {
        return Err(EmptySequence);
      }
      var headers, longest := Headers(kept);
      var n: nat := if limit.None? then longest else if limit.value < 0 then 0 else limit.value;
      var rows := DataRows(kept, n);
      r := Ok([headers] + rows);
    }

    /** The header row and the longest column's length. */
    method Headers(kept: seq<string>) returns (headers: seq<string>, longest: nat)
      requires forall t :: 0 <= t < |kept| ==> kept[t] in columnMap
      ensures headers == HeaderRow(kept)
      ensures longest == Longest(kept)
    {
      headers := [];
      longest := 0;
      for j := 0 to |kept|
        invariant headers == HeaderRow(kept[..j])
        invariant longest == Longest(kept[..j])
      {
        assert kept[..j + 1][..j] == kept[..j];
        var c := columnMap[kept[j]];
        headers := headers + [c.name];
        if |c.valueList| >= longest {
          longest := |c.valueList|;
        }
      }
      assert kept[..|kept|] == kept;
    }

    /** Rows 0 .. n - 1 of the data. */
    method DataRows(kept: seq<string>, n: nat) returns (rows: seq<seq<string>>)
      requires forall t :: 0 <= t < |kept| ==> kept[t] in columnMap
      ensures rows == Table(kept, n)
    {
      rows := [];
      for i := 0 to n
        invariant rows == Table(kept, i)
      {
        var row := RowAt(kept, i);
        rows := rows + [row];
      }
    }

    /** One data row of the CSV. */
    method RowAt(kept: seq<string>, i: nat) returns (row: seq<string>)
      requires forall t :: 0 <= t < |kept| ==> kept[t] in columnMap
      ensures row == CsvRow(kept, i)
    {
      row := [];
      for j := 0 to |kept|
        invariant row == CsvRow(kept[..j], i)
      {
        assert kept[..j + 1][..j] == kept[..j];
        var values := columnMap[kept[j]].valueList;
        if i < |values| {
          row := row + [values[i]];
        } else {
          row := row + [""];
        }
      }
      assert kept[..|kept|] == kept;
    }

    /** column_map[key] = c: a new key goes to the end of the order, an
        existing one keeps its place and gets the new column. */
    method Put(key: string, c: Column)
      requires Valid() && c.Valid() && c !in columnMap.Values
      modifies this`keys, this`columnMap
      ensures Valid()
      ensures columnMap == old(columnMap)[key := c]
      ensures keys == if key in old(keys) then old(keys) else old(keys) + [key]
    {
      var m := columnMap[key := c];
      var ks := if key in keys then keys else keys + [key];
      StoreIndexed(keys, columnMap, key, c);
      StoreInjective(columnMap, key, c);
      StoreValid(columnMap, key, c);
      keys, columnMap := ks, m;
      assert IndexedBy(keys, columnMap) && Injective(columnMap) && AllValid(columnMap.Values);
    }

    /** The source after read_data_from_dict has handled the first i
        entries of data, starting from key order ks and column map m
        (ReadUpTo); every handled header other than skip holds a new,
        empty column. */
    ghost predicate Loaded(data: seq<(string, seq<Option<string>>)>, i: nat, ks: seq<string>,
                           m: map<string, Column>, skip: Option<string>)
      reads this, columnMap.Values
    {
      && Valid() && ReadUpTo(keys, columnMap, data, i, ks, m)
      && forall k | k in HeadersOf(data, i) && Some(k) != skip :: EmptyColumn(columnMap[k], k)
    }

    /** read_data_from_dict: each header in order gets a new Column(header),
        stored at once, then its values are added. The column has no
        source name, so the first value add_value keeps raises ("full" in
        None), so the call completes exactly when no entry holds such a
        value (FirstKept, FirstKeptMeaning). reached counts the entries
        handled: all of them when the call completes, else up to and
        including the one that raised. The handled headers hold new
        columns, empty except the one that raised, and every other key
        keeps its column, as Loaded states. */
    method ReadDataFromDict(data: seq<(string, seq<Option<string>>)>, h: Helpers)
      returns (o: Outcome, ghost reached: nat)
      requires Valid()
      modifies this`keys, this`columnMap
      ensures o.Pass? <==> FirstKept(data, 0).None?
      ensures reached == if o.Pass? then |data| else FirstKept(data, 0).value + 1
      ensures o.Pass? ==> Loaded(data, reached, old(keys), old(columnMap), None)
      ensures o.Fail? ==> Loaded(data, reached, old(keys), old(columnMap), Some(data[reached - 1].0))
      ensures fresh(columnMap.Values - old(columnMap).Values)
    {
      reached := 0;
      ghost var ks, m := keys, columnMap;
      o := Pass;
      for i := 0 to |data|
        invariant reached == i && o.Pass? && FirstKept(data, i) == FirstKept(data, 0)
        invariant Loaded(data, i, ks, m, None)
        invariant fresh(columnMap.Values - m.Values)
      {
        o := AddHeader(data, i, h, ks, m);
        reached := i + 1;
        if o.Fail? {
          return;
        }
      }
    }

    /** One pass of read_data_from_dict's loop, for entry i: its header
        gets a new column, appended to the key order when it is new; the
        other keys, among them the headers seen so far, keep their columns. */
    method AddHeader(data: seq<(string, seq<Option<string>>)>, i: nat, h: Helpers,
                     ghost ks: seq<string>, ghost m: map<string, Column>)
      returns (o: Outcome)
      requires i < |data| && Loaded(data, i, ks, m, None)
      modifies this`keys, this`columnMap
      ensures o.Pass? <==> AllDropped(data[i].1)
      ensures o.Pass? ==> Loaded(data, i + 1, ks, m, None)
      ensures o.Fail? ==> Loaded(data, i + 1, ks, m, Some(data[i].0))
      ensures fresh(columnMap[data[i].0])
      ensures columnMap == old(columnMap)[data[i].0 := columnMap[data[i].0]]
    {
      ghost var keys0, map0 := keys, columnMap;
      o := AddEntry(data[i].0, data[i].1, h);
      ReadStep(keys0, map0, data, i, ks, m, columnMap[data[i].0]);
    }

    /** One header of read_data_from_dict: a new Column(header) is stored
        at header and its values are added. Values are added to the new
        column before it is stored; nothing can observe the difference. */
    method AddEntry(header: string, values: seq<Option<string>>, h: Helpers) returns (o: Outcome)
      requires Valid()
      modifies this`keys, this`columnMap
      ensures Valid()
      ensures o.Pass? <==> AllDropped(values)
      ensures header in columnMap && fresh(columnMap[header])
      ensures columnMap == old(columnMap)[header := columnMap[header]]
      ensures keys == if header in old(keys) then old(keys) else old(keys) + [header]
      ensures o.Pass? ==> EmptyColumn(columnMap[header], header)
    {
      var c := new Column(header, None);
      o := Fill(c, values, h);
      Put(header, c);
    }

    /** add_value for each of values on a column without a source name. */
    static method Fill(c: Column, values: seq<Option<string>>, h: Helpers) returns (o: Outcome)
      requires c.Valid() && c.sourceName.None?
      modifies c`wordSet, c`valueList, c`wordLengths, c`charLengths
      modifies c`valueText, c`textualSet, c`textualList, c`numericList
      ensures c.Valid()
      ensures o.Pass? <==> AllDropped(values)
      ensures o.Pass? ==> unchanged(c)
    {
      for j := 0 to |values|
        invariant c.Valid() && c.sourceName.None?
        invariant forall t :: 0 <= t < j ==> Dropped(values[t])
        invariant unchanged(c)
      {
        o := c.AddValue(values[j], h);
        if o.Fail? {
          return;
        }
      }
      o := Pass;
    }
  }
}
