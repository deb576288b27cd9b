/** The leave-k-out rotation that main/random_forest.py (generate_train_data)
    and main/semantic_labeler.py (test_semantic_types) share: the sources of
    a data set are listed twice, and the training pool of the source at
    position idx is the slice [idx + 1 : idx + size + 1] of that list, that
    is, the size sources that follow it, wrapping around. */
module Rotation {

  /** A Python slice bound: a negative bound counts from the end, and the
      result is clamped to [0, n]. */
  function Bound(i: int, n: nat): (b: nat)
    ensures b <= n
    ensures 0 <= i <= n ==> b == i
  {
    if i < 0 then (if i + n < 0 then 0 else i + n) else if i > n then n else i
  }

  /** s[lo:hi] with Python's meaning for any integers lo and hi. */
  function PySlice<T>(s: seq<T>, lo: int, hi: int): seq<T> {
    var a := Bound(lo, |s|);
    var b := Bound(hi, |s|);
    if a < b then s[a..b] else []
  }

  /** The training pool of the source at position idx:
      double_name_list[idx + 1 : idx + size + 1] of the index names. */
  function TrainNames(names: seq<string>, idx: int, size: int): seq<string> {
    PySlice(names + names, idx + 1, idx + size + 1)
  }

  /** The position, in the single list, of the t-th member of the pool of
      position idx (for t below the number of sources n). */
  function PoolPosition(n: nat, idx: int, t: int): int {
    if idx + 1 + t < n then idx + 1 + t else idx + 1 + t - n
  }

  /** For a size up to the number of sources, the pool holds size names:
      the ones after idx, wrapping around to the front. */
  lemma PoolLayout(names: seq<string>, idx: int, size: int)
    requires 0 <= idx < |names| && 0 <= size <= |names|
    ensures |TrainNames(names, idx, size)| == size
    ensures forall t :: 0 <= t < size ==>
      0 <= PoolPosition(|names|, idx, t) < |names| &&
      TrainNames(names, idx, size)[t] == names[PoolPosition(|names|, idx, t)]
  {
    var d := names + names;
    assert Bound(idx + 1, |d|) == idx + 1;
    assert Bound(idx + size + 1, |d|) == idx + size + 1;
  }

  /** How far position j lies after position idx, going round: the t for
      which the t-th member of idx's pool sits at position j. */
  function Offset(n: nat, idx: int, j: int): int {
    if j > idx then j - idx - 1 else j - idx - 1 + n
  }

  /** Position j is the t-th member of idx's pool exactly when t is the
      offset from idx to j; the source itself is at offset n - 1. */
  lemma PositionIsOffset(n: nat, idx: int, j: int, t: int)
    requires 0 <= idx < n && 0 <= j < n && 0 <= t < n
    ensures 0 <= Offset(n, idx, j) < n
    ensures PoolPosition(n, idx, t) == j <==> t == Offset(n, idx, j)
    ensures Offset(n, idx, idx) == n - 1
  {
  }

  /** No name is listed twice (index names of the sources of a data set). */
  ghost predicate Distinct(names: seq<string>) {
    forall a, b :: 0 <= a < b < |names| ==> names[a] != names[b]
  }

  /** With 1 <= size <= n - 1 the pool holds size names and never the
      held-out source's own. */
  lemma HeldOutExcluded(names: seq<string>, idx: int, size: int)
    requires Distinct(names) && 0 <= idx < |names| && 0 <= size < |names|
    ensures |TrainNames(names, idx, size)| == size
    ensures names[idx] !in TrainNames(names, idx, size)
  {
    var n := |names|;
    PoolLayout(names, idx, size);
    forall t | 0 <= t < size ensures TrainNames(names, idx, size)[t] != names[idx] {
      PositionIsOffset(n, idx, idx, t);
    }
  }

  /** Once size reaches the number of sources, the slice reaches round to
      the held-out source, which is then in its own pool. */
  lemma HeldOutIncludedFromFullSize(names: seq<string>, idx: int, size: int)
    requires 0 <= idx < |names| <= size
    ensures names[idx] in TrainNames(names, idx, size)
  {
    var n := |names|;
    var d := names + names;
    assert Bound(idx + 1, |d|) == idx + 1;
    var hi := Bound(idx + size + 1, |d|);
    assert hi > idx + n;
    assert d[idx + n] == names[idx];
    assert TrainNames(names, idx, size)[n - 1] == d[idx + n];
  }

  /** Name j is in idx's pool exactly when it lies fewer than size places
      after idx. */
  lemma InPoolIff(names: seq<string>, idx: int, size: int, j: int)
    requires Distinct(names) && 0 <= idx < |names| && 0 <= size <= |names| && 0 <= j < |names|
    ensures names[j] in TrainNames(names, idx, size) <==> Offset(|names|, idx, j) < size
  {
    var n := |names|;
    var pool := TrainNames(names, idx, size);
    PoolLayout(names, idx, size);
    PositionIsOffset(n, idx, j, 0);
    if Offset(n, idx, j) < size {
      var t := Offset(n, idx, j);
      PositionIsOffset(n, idx, j, t);
      assert pool[t] == names[j];
    }
    if names[j] in pool {
      var t :| 0 <= t < size && pool[t] == names[j];
      PositionIsOffset(n, idx, j, t);
    }
  }

  /** The number of held-out positions among the first m whose pool holds
      name j. */
  function PoolsWith(names: seq<string>, size: int, j: int, m: nat): nat
    requires 0 <= j < |names| && m <= |names|
  {
    if m == 0 then 0
    else PoolsWith(names, size, j, m - 1) + (if names[j] in TrainNames(names, m - 1, size) then 1 else 0)
  }

  /** The number of positions idx below m for which j lies fewer than size
      places after idx. */
  function OffsetsBelow(n: nat, size: int, j: int, m: nat): nat {
    if m == 0 then 0
    else OffsetsBelow(n, size, j, m - 1) + (if Offset(n, m - 1, j) < size then 1 else 0)
  }

  function Max(a: int, b: int): int { if a >= b then a else b }

  /** OffsetsBelow in closed form: positions before j count when they are
      at most size places before it, positions from j on when they are
      at most size - j places before the end. */
  lemma {:induction false} OffsetsBelowCount(n: nat, size: int, j: int, m: nat)
    requires 0 <= j < n && 0 <= size <= n && m <= n
    ensures m <= j ==> OffsetsBelow(n, size, j, m) == Max(0, m - Max(0, j - size))
    ensures m > j ==>
      OffsetsBelow(n, size, j, m) == Max(0, j - Max(0, j - size)) + Max(0, m - Max(j, n - size + j))
  {
    if m > 0 {
      OffsetsBelowCount(n, size, j, m - 1);
    }
  }

  /** Over one full rotation with 0 <= size <= n - 1, every source is in
      exactly size training pools. */
  lemma {:induction false} EveryNameInSizePools(names: seq<string>, size: int, j: int)
    requires Distinct(names) && 0 <= size < |names| && 0 <= j < |names|
    ensures PoolsWith(names, size, j, |names|) == size
  {
    var n := |names|;
    SamePoolCount(names, size, j, n);
    OffsetsBelowCount(n, size, j, n);
  }

  lemma {:induction false} SamePoolCount(names: seq<string>, size: int, j: int, m: nat)
    requires Distinct(names) && 0 <= size < |names| && 0 <= j < |names| && m <= |names|
    ensures PoolsWith(names, size, j, m) == OffsetsBelow(|names|, size, j, m)
  {
    if m > 0 {
      SamePoolCount(names, size, j, m - 1);
      InPoolIff(names, m - 1, size, j);
    }
  }
}
