/** Values shared by every part of the labeler: optional values, the
    outcome of an operation that may raise, and the handful of Python string
    operations the labeler relies on (strip, split, join, substring test,
    character removal), each stated with the meaning Python gives it. */
module Common {

  datatype Option<+T> = None | Some(value: T)

  /** The exceptions the modelled code can raise, by what causes them. */
  datatype Error =
    | NoneOperand(operation: string)   // a TypeError or AttributeError from using None
    | ZeroDivision                     // ZeroDivisionError
    | MissingKey(key: string)          // KeyError
    | EmptySequence                    // IndexError or ValueError on an empty list
    | NotTrained                       // "Prediction not possible. Model not trained."
    | NotFitted                        // predict_proba on a model whose fit never completed
    | FolderNotIndexed(folder: string) // "... folder is not indexed by semantic labeler."
    | Backend(message: string)         // an error reported by the search backend

  /** A computation that either returns a value or raises. */
  datatype Result<+T> = Ok(value: T) | Err(error: Error) {
    predicate IsFailure() { Err? }
    function PropagateFailure<U>(): Result<U> requires Err? { Err(error) }
    function Extract(): T requires Ok? { value }
  }

  /** A statement that either completes or raises. */
  datatype Outcome = Pass | Fail(error: Error) {
    predicate IsFailure() { Fail? }
    function PropagateFailure<U>(): Result<U> requires Fail? { Err(error) }
  }

  /** Python truthiness of an optional string: None and "" are false. */
  predicate Truthy(t: Option<string>) {
    t.Some? && t.value != ""
  }

  // ---------------------------------------------------------------------
  // Characters and whitespace

  /** Python's str.isspace for one character. */
  predicate IsSpace(c: char) {
    || c == ' ' || ('\t' <= c <= '\r') || ('\U{1C}' <= c <= '\U{1F}')
    || c == '\U{85}' || c == '\U{A0}' || c == '\U{1680}'
    || ('\U{2000}' <= c <= '\U{200A}') || c == '\U{2028}' || c == '\U{2029}'
    || c == '\U{202F}' || c == '\U{205F}' || c == '\U{3000}'
  }

  /** s with its leading whitespace removed. */
  function TrimStart(s: string): string
  {
    if s != [] && IsSpace(s[0]) then TrimStart(s[1..]) else s
  }

  /** s with its trailing whitespace removed. */
  function TrimEnd(s: string): string
  {
    if s != [] && IsSpace(s[|s| - 1]) then TrimEnd(s[..|s| - 1]) else s
  }

  /** TrimStart drops exactly the leading whitespace: what it keeps is a
      suffix that does not start with whitespace, and all it drops is. */
  lemma {:induction false} TrimStartMeaning(s: string)
    ensures var r := TrimStart(s);
      && |r| <= |s| && r == s[|s| - |r|..]
      && (r == [] || !IsSpace(r[0]))
      && forall i :: 0 <= i < |s| - |r| ==> IsSpace(s[i])
  {
    if s != [] && IsSpace(s[0]) {
      var t := s[1..];
      TrimStartMeaning(t);
      var r := TrimStart(t);
      assert TrimStart(s) == r;
      assert r == s[|s| - |r|..] by {
        assert t[|t| - |r|..] == s[|s| - |r|..];
      }
      forall i | 0 <= i < |s| - |r|
        ensures IsSpace(s[i])
      {
        if i > 0 { assert s[i] == t[i - 1]; }
      }
    }
  }

  /** TrimEnd drops exactly the trailing whitespace. */
  lemma {:induction false} TrimEndMeaning(s: string)
    ensures var r := TrimEnd(s);
      && |r| <= |s| && r == s[..|r|]
      && (r == [] || !IsSpace(r[|r| - 1]))
      && forall i :: |r| <= i < |s| ==> IsSpace(s[i])
  {
    if s != [] && IsSpace(s[|s| - 1]) {
      TrimEndMeaning(s[..|s| - 1]);
    }
  }

  /** Python's str.strip(). */
  function Strip(s: string): string
  {
    TrimEnd(TrimStart(s))
  }

  /** Strip gives a contiguous piece of s that neither starts nor ends with
      whitespace, obtained by dropping only whitespace. */
  lemma StripMeaning(s: string)
    ensures exists lo :: StrippedAt(s, Strip(s), lo)
    ensures Strip(s) == [] || (!IsSpace(Strip(s)[0]) && !IsSpace(Strip(s)[|Strip(s)| - 1]))
  {
    var t := TrimStart(s);
    var r := TrimEnd(t);
    TrimStartMeaning(s);
    TrimEndMeaning(t);
    var lo := |s| - |t|;
    assert r == s[lo..lo + |r|];
    assert StrippedAt(s, r, lo);
    assert Strip(s) == r;
    if r != [] {
      assert r[0] == t[0];
    }
  }

  /** r is s[lo..lo + |r|] and everything of s around it is whitespace. */
  ghost predicate StrippedAt(s: string, r: string, lo: int) {
    && 0 <= lo <= |s| - |r| && r == s[lo..lo + |r|]
    && (forall i :: 0 <= i < lo ==> IsSpace(s[i]))
    && (forall i :: lo + |r| <= i < |s| ==> IsSpace(s[i]))
  }

  /** Stripping a string made only of whitespace gives the empty string. */
  lemma {:induction false} StripAllSpace(s: string)
    requires forall i :: 0 <= i < |s| ==> IsSpace(s[i])
    ensures Strip(s) == ""
  {
    if s != [] {
      assert TrimStart(s) == TrimStart(s[1..]);
      StripAllSpace(s[1..]);
    }
  }

  // ---------------------------------------------------------------------
  // Removing characters

  /** s.replace(c, "") for a one-character c: s without any occurrence of c. */
  function RemoveChar(s: string, c: char): (r: string)
    ensures c !in r
    ensures |r| <= |s|
    ensures c !in s ==> r == s
    ensures forall x :: x in r <==> x in s && x != c
  {
    if s == [] then ""
    else if s[0] == c then RemoveChar(s[1..], c)
    else [s[0]] + RemoveChar(s[1..], c)
  }

  /** s.encode("ascii", "ignore").decode(): s without its non-ASCII characters. */
  function AsciiOnly(s: string): (r: string)
    ensures |r| <= |s|
    ensures forall x :: x in r <==> x in s && x < '\U{80}'
    ensures (forall i :: 0 <= i < |s| ==> s[i] < '\U{80}') ==> r == s
  {
    if s == [] then ""
    else if s[0] < '\U{80}' then [s[0]] + AsciiOnly(s[1..])
    else AsciiOnly(s[1..])
  }

  // ---------------------------------------------------------------------
  // Substrings

  ghost predicate OccursAt(s: string, sub: string, i: int) {
    0 <= i <= |s| - |sub| && s[i..i + |sub|] == sub
  }

  /** Python's `sub in s` for strings. */
  function Contains(s: string, sub: string): (r: bool)
    ensures r <==> exists i :: OccursAt(s, sub, i)
    decreases |s|
  {
    if |sub| > |s| then false
    else if s[..|sub|] == sub then assert OccursAt(s, sub, 0); true
    else
      var r := Contains(s[1..], sub);
      assert forall i :: OccursAt(s[1..], sub, i) ==> OccursAt(s, sub, i + 1);
      assert forall i :: 1 <= i && OccursAt(s, sub, i) ==> OccursAt(s[1..], sub, i - 1);
      r
  }

  // ---------------------------------------------------------------------
  // Splitting and joining on one separator character

  /** The position of the first c in s. */
  function IndexOf(s: string, c: char): (i: nat)
    requires c in s
    ensures i < |s| && s[i] == c && c !in s[..i]
  {
    if s[0] == c then 0 else 1 + IndexOf(s[1..], c)
  }

  /** Python's s.split(sep) for a one-character separator: the pieces
      between separators, in order; an empty s gives [""]. */
  function Split(s: string, sep: char): (parts: seq<string>)
    ensures |parts| >= 1
    ensures forall p | p in parts :: sep !in p
    decreases |s|
  {
    if sep in s then
      var i := IndexOf(s, sep);
      [s[..i]] + Split(s[i + 1..], sep)
    else [s]
  }

  /** Python's sep.join(parts). */
  function Join(parts: seq<string>, sep: string): string
  {
    if |parts| == 0 then ""
    else if |parts| == 1 then parts[0]
    else parts[0] + sep + Join(parts[1..], sep)
  }

  /** Joining two pieces puts the separator between them. */
  lemma JoinPair(a: string, b: string, sep: string)
    ensures Join([a, b], sep) == a + sep + b
  {
    assert [a, b][1..] == [b];
  }

  /** Joining the pieces of a split with the separator gives back the string. */
  lemma {:induction false} JoinSplit(s: string, sep: char)
    ensures Join(Split(s, sep), [sep]) == s
    decreases |s|
  {
    if sep in s {
      var i := IndexOf(s, sep);
      var rest := Split(s[i + 1..], sep);
      assert Split(s, sep) == [s[..i]] + rest;
      JoinSplit(s[i + 1..], sep);
      assert s == s[..i] + [sep] + s[i + 1..];
    }
  }

  /** Splitting a join of separator-free pieces gives back the pieces. */
  lemma {:induction false} SplitJoin(parts: seq<string>, sep: char)
    requires |parts| >= 1
    requires forall p | p in parts :: sep !in p
    ensures Split(Join(parts, [sep]), sep) == parts
  {
    if |parts| > 1 {
      var s := Join(parts, [sep]);
      var tail := Join(parts[1..], [sep]);
      assert s == parts[0] + [sep] + tail;
      assert s[..|parts[0]|] == parts[0];
      assert IndexOf(s, sep) == |parts[0]| by {
        IndexOfPrefix(parts[0], sep, tail);
      }
      assert s[|parts[0]| + 1..] == tail;
      SplitJoin(parts[1..], sep);
    }
  }

  lemma {:induction false} IndexOfPrefix(p: string, sep: char, tail: string)
    requires sep !in p
    ensures sep in p + [sep] + tail
    ensures IndexOf(p + [sep] + tail, sep) == |p|
  {
    var s := p + [sep] + tail;
    assert s[|p|] == sep;
    if p != [] {
      assert s[1..] == p[1..] + [sep] + tail;
      IndexOfPrefix(p[1..], sep, tail);
    }
  }

  /** s.split(sep)[0]: the text before the first separator, or all of s. */
  function Head(s: string, sep: char): (r: string)
    ensures sep !in r && r <= s
    ensures |r| < |s| ==> s[|r|] == sep
    ensures sep !in s ==> r == s
  {
    var parts := Split(s, sep);
    if sep in s then
      var i := IndexOf(s, sep);
      assert parts[0] == s[..i];
      parts[0]
    else parts[0]
  }

  /** r is the text of s after its last sep, or all of s if it has none:
      a suffix of s without sep, preceded in s by sep unless it is all of s. */
  ghost predicate LastPiece(s: string, sep: char, r: string) {
    && sep !in r && |r| <= |s| && r == s[|s| - |r|..]
    && (|r| < |s| ==> s[|s| - |r| - 1] == sep)
  }

  /** A string has one last piece. */
  lemma LastPieceUnique(s: string, sep: char, a: string, b: string)
    requires LastPiece(s, sep, a) && LastPiece(s, sep, b)
    ensures a == b
  {
  }

  /** s.split(sep)[-1]. */
  function Last(s: string, sep: char): (r: string)
    ensures LastPiece(s, sep, r)
  {
    if s == [] || s[|s| - 1] == sep then []
    else
      var r := Last(s[..|s| - 1], sep) + [s[|s| - 1]];
      assert r[..|r| - 1] == Last(s[..|s| - 1], sep);
      r
  }

  // ---------------------------------------------------------------------
  // Arithmetic over sequences

  function SumReal(xs: seq<real>): real {
    if xs == [] then 0.0 else xs[0] + SumReal(xs[1..])
  }

  lemma {:induction false} SumRealAppend(xs: seq<real>, ys: seq<real>)
    ensures SumReal(xs + ys) == SumReal(xs) + SumReal(ys)
  {
    if xs != [] {
      assert (xs + ys)[1..] == xs[1..] + ys;
      SumRealAppend(xs[1..], ys);
    } else {
      assert xs + ys == ys;
    }
  }

  /** Python's max() over a non-empty list of numbers. */
  function MaxReal(xs: seq<real>): (m: real)
    requires xs != []
    ensures m in xs
    ensures forall x | x in xs :: x <= m
  {
    if |xs| == 1 then xs[0]
    else
      var rest := MaxReal(xs[1..]);
      assert forall x | x in xs :: x == xs[0] || x in xs[1..];
      if xs[0] >= rest then xs[0] else rest
  }

  function Min(a: int, b: int): int { if a <= b then a else b }
}
