/**
 * The JavaScript string and array built-ins the generators rely on, written
 * out over `seq<char>`: the identifier regular expression, the `\s` class and
 * `trim`, `join`, `split`, `replaceAll`, and the first-occurrence order that
 * `[...new Set(xs)]` produces.
 */
module JsText {

  datatype Option<+T> = None | Some(value: T)

  // ---------------------------------------------------------------------
  // Characters and identifiers
  // ---------------------------------------------------------------------

  /** The class `[A-Za-z_$]`. */
  predicate IsIdentStart(c: char) {
    ('A' <= c <= 'Z') || ('a' <= c <= 'z') || c == '_' || c == '$'
  }

  /** The class `[A-Za-z0-9_$]`. */
  predicate IsIdentPart(c: char) {
    IsIdentStart(c) || ('0' <= c <= '9')
  }

  /** `/^[A-Za-z_$][A-Za-z0-9_$]*$/.test(n)`: a name that can be bound as it is. */
  predicate IsIdent(n: string) {
    |n| > 0 && IsIdentStart(n[0]) && forall i :: 1 <= i < |n| ==> IsIdentPart(n[i])
  }

  /** The characters of `\s`, which are also those `String.prototype.trim` removes. */
  predicate IsJsSpace(c: char) {
    c == '\t' || c == '\n' || c == '\U{000B}' || c == '\U{000C}' || c == '\r' || c == ' '
    || c == '\U{00A0}' || c == '\U{1680}' || ('\U{2000}' <= c <= '\U{200A}')
    || c == '\U{2028}' || c == '\U{2029}' || c == '\U{202F}' || c == '\U{205F}'
    || c == '\U{3000}' || c == '\U{FEFF}'
  }

  /** Length of the longest prefix of `s` whose characters all satisfy `p`. */
  function Span(s: string, p: char -> bool): (n: nat)
    ensures n <= |s|
    ensures forall i :: 0 <= i < n ==> p(s[i])
    ensures n < |s| ==> !p(s[n])
  {
    if s == [] || !p(s[0]) then 0 else 1 + Span(s[1..], p)
  }

  /** `s || 'unknown'`: the type text used when a response type is missing. */
  function OrUnknown(s: string): (r: string)
    ensures r != ""
    ensures s != "" ==> r == s
  {
    if s == "" then "unknown" else s
  }

  // ---------------------------------------------------------------------
  // Sequences of names
  // ---------------------------------------------------------------------

  predicate NoDuplicates<T(==)>(xs: seq<T>) {
    forall i, j :: 0 <= i < j < |xs| ==> xs[i] != xs[j]
  }

  /** Position of the first occurrence of `x` in `xs`. */
  function FirstIndex<T(==)>(xs: seq<T>, x: T): (i: nat)
    requires x in xs
    ensures i < |xs| && xs[i] == x
    ensures x !in xs[..i]
  {
    if xs[0] == x then 0
    else
      var k := FirstIndex(xs[1..], x);
      assert xs[..k + 1] == [xs[0]] + xs[1..][..k];
      k + 1
  }

  /** `xs.filter(p)` */
  function Filter<T(!new)>(xs: seq<T>, p: T -> bool): (r: seq<T>)
    ensures |r| <= |xs|
    ensures forall x :: x in r <==> x in xs && p(x)
    ensures |xs| == 1 ==> r == (if p(xs[0]) then xs else [])
  {
    if xs == [] then [] else (if p(xs[0]) then [xs[0]] else []) + Filter(xs[1..], p)
  }

  /**
   * Filtering works piece by piece: with the one-element case above, this
   * fixes the result as the kept elements in their order, each as often as
   * it occurs.
   */
  lemma {:induction false} FilterAppend<T(!new)>(a: seq<T>, b: seq<T>, p: T -> bool)
    ensures Filter(a + b, p) == Filter(a, p) + Filter(b, p)
    decreases |a|
  {
    if a == [] {
      assert a + b == b;
    } else {
      assert (a + b)[1..] == a[1..] + b;
      FilterAppend(a[1..], b, p);
    }
  }

  /**
   * `[...new Set(xs)]`: the elements of `xs`, each once. A `Set` remembers
   * insertion order, so the elements are added one at a time from the front.
   */
  function Distinct<T(==,!new)>(xs: seq<T>): (r: seq<T>)
    ensures NoDuplicates(r)
    ensures forall x :: x in r <==> x in xs
  {
    if xs == [] then []
    else
      var d := Distinct(xs[..|xs| - 1]);
      assert forall x :: x in xs <==> x in xs[..|xs| - 1] || x == xs[|xs| - 1];
      if xs[|xs| - 1] in d then d else d + [xs[|xs| - 1]]
  }

  lemma {:induction false} FirstIndexOfPrefix<T>(a: seq<T>, b: seq<T>, x: T)
    requires x in a
    ensures FirstIndex(a + b, x) == FirstIndex(a, x)
  {
    if a[0] != x {
      assert (a + b)[1..] == a[1..] + b;
      FirstIndexOfPrefix(a[1..], b, x);
    }
  }

  /** The elements of `[...new Set(xs)]` appear in the order of their first occurrence in `xs`. */
  lemma {:induction false} DistinctKeepsFirstOccurrenceOrder<T(!new)>(xs: seq<T>)
    ensures forall i, j :: 0 <= i < j < |Distinct(xs)| ==>
              FirstIndex(xs, Distinct(xs)[i]) < FirstIndex(xs, Distinct(xs)[j])
  {
    if xs != [] {
      var init, last := xs[..|xs| - 1], xs[|xs| - 1];
      assert xs == init + [last];
      var d := Distinct(init);
      DistinctKeepsFirstOccurrenceOrder(init);
      forall x | x in d ensures FirstIndex(xs, x) == FirstIndex(init, x) {
        FirstIndexOfPrefix(init, [last], x);
      }
      if last !in d {
        assert last !in init;
        assert forall k :: 0 <= k < |init| ==> xs[k] == init[k] != last;
      }
    }
  }

  /** A list without repeats is left as it is. */
  lemma {:induction false} DistinctOfDistinct<T(!new)>(xs: seq<T>)
    requires NoDuplicates(xs)
    ensures Distinct(xs) == xs
  {
    if xs != [] {
      var init := xs[..|xs| - 1];
      DistinctOfDistinct(init);
      assert xs[|xs| - 1] !in init;
      assert xs == init + [xs[|xs| - 1]];
    }
  }

  /** Appending names that are already present does not change the de-duplicated list. */
  lemma {:induction false} DistinctAbsorbs<T(!new)>(xs: seq<T>, ys: seq<T>)
    requires forall y :: y in ys ==> y in xs
    ensures Distinct(xs + ys) == Distinct(xs)
  {
    if ys != [] {
      var init := ys[..|ys| - 1];
      assert (xs + ys)[..|xs + ys| - 1] == xs + init;
      assert (xs + ys)[|xs + ys| - 1] == ys[|ys| - 1];
      DistinctAbsorbs(xs, init);
      assert ys[|ys| - 1] in Distinct(xs + init);
    } else {
      assert xs + ys == xs;
    }
  }

  // ---------------------------------------------------------------------
  // Strings
  // ---------------------------------------------------------------------

  /** `xs.join(sep)` */
  function Join(xs: seq<string>, sep: string): string
  {
    if |xs| == 0 then "" else if |xs| == 1 then xs[0] else xs[0] + sep + Join(xs[1..], sep)
  }

  /** With a non-empty separator, the joined text is empty exactly for `[]` and `[""]`. */
  lemma JoinIsEmpty(xs: seq<string>, sep: string)
    requires sep != ""
    ensures Join(xs, sep) == "" <==> xs == [] || xs == [""]
  {
    if |xs| >= 2 {
      assert |Join(xs, sep)| >= |sep|;
    }
  }

  /** The list the three-way `${a}, ...data` choice starts from: joining a non-empty list puts it first. */
  lemma JoinStartsWithHead(xs: seq<string>, sep: string)
    requires |xs| > 0
    ensures |Join(xs, sep)| >= |xs[0]| && Join(xs, sep)[..|xs[0]|] == xs[0]
  {
  }

  /** `s.startsWith(p)` */
  predicate StartsWith(s: string, p: string) {
    |p| <= |s| && s[..|p|] == p
  }

  /** `s.endsWith(p)` */
  predicate EndsWith(s: string, p: string) {
    |p| <= |s| && s[|s| - |p|..] == p
  }

  lemma Associative(a: string, b: string, c: string)
    ensures (a + b) + c == a + (b + c)
  {
  }

  lemma ConcatStartsAndEnds(a: string, b: string)
    ensures StartsWith(a + b, a) && EndsWith(a + b, b)
  {
    assert (a + b)[..|a|] == a;
    assert (a + b)[|a + b| - |b|..] == b;
  }

  /** `s.split(sep)` for a non-empty separator. */
  function Split(s: string, sep: string): (r: seq<string>)
    requires sep != ""
    ensures |r| >= 1
    ensures |sep| == 1 ==> forall k :: 0 <= k < |r| ==> sep[0] !in r[k]
    decreases |s|
  {
    if |s| < |sep| then
      assert |sep| == 1 ==> s == [];
      [s]
    else if s[..|sep|] == sep then [""] + Split(s[|sep|..], sep)
    else
      var rest := Split(s[1..], sep);
      assert |sep| == 1 ==> s[0] != sep[0] by {
        if |sep| == 1 { assert s[..1] == [s[0]]; }
      }
      [[s[0]] + rest[0]] + rest[1..]
  }

  /** Joining a list of at least two pieces puts the separator after the first one. */
  lemma JoinCons(x: string, rest: seq<string>, sep: string)
    requires rest != []
    ensures Join([x] + rest, sep) == x + sep + Join(rest, sep)
  {
    assert ([x] + rest)[1..] == rest;
  }

  /** Prefixing a character to the first piece prefixes it to the joined text. */
  lemma JoinPrepend(c: char, rest: seq<string>, sep: string)
    requires rest != []
    ensures Join([[c] + rest[0]] + rest[1..], sep) == [c] + Join(rest, sep)
  {
    var head, tail := [c] + rest[0], rest[1..];
    if tail == [] {
      assert [head] + tail == [head];
      assert rest == [rest[0]];
    } else {
      JoinCons(head, tail, sep);
      assert rest == [rest[0]] + tail;
      JoinCons(rest[0], tail, sep);
      Associative([c], rest[0], sep + Join(tail, sep));
    }
  }

  /** Splitting and joining again with the same separator gives the original text back. */
  lemma {:induction false} JoinSplit(s: string, sep: string)
    requires sep != ""
    ensures Join(Split(s, sep), sep) == s
    decreases |s|
  {
    if |s| < |sep| {
    } else if s[..|sep|] == sep {
      var t := s[|sep|..];
      JoinSplit(t, sep);
      JoinSplitAtSeparator(sep, t);
      assert s == sep + t;
    } else {
      JoinSplit(s[1..], sep);
      JoinSplitOtherwise(s, sep);
    }
  }

  /** The step of `JoinSplit` for a text that starts with the separator. */
  lemma JoinSplitAtSeparator(sep: string, t: string)
    requires sep != ""
    requires Join(Split(t, sep), sep) == t
    ensures Join(Split(sep + t, sep), sep) == sep + t
  {
    var s := sep + t;
    assert s[..|sep|] == sep;
    assert s[|sep|..] == t;
    var rest := Split(t, sep);
    assert Split(s, sep) == [""] + rest;
    JoinCons("", rest, sep);
    assert "" + sep == sep;
  }

  /** The step of `JoinSplit` for a text that does not start with the separator. */
  lemma JoinSplitOtherwise(s: string, sep: string)
    requires sep != "" && |s| >= |sep| && s[..|sep|] != sep
    requires Join(Split(s[1..], sep), sep) == s[1..]
    ensures Join(Split(s, sep), sep) == s
  {
    var t := s[1..];
    var rest := Split(t, sep);
    assert Split(s, sep) == [[s[0]] + rest[0]] + rest[1..];
    JoinPrepend(s[0], rest, sep);
    assert s == [s[0]] + t;
  }

  /** `s.includes(sub)` */
  predicate Contains(s: string, sub: string) {
    exists i :: 0 <= i <= |s| && StartsWith(s[i..], sub)
  }

  /**
   * No piece of a split holds the separator, whatever its length, and the
   * first piece is where the text starts: with `JoinSplit`, the pieces are
   * the text cut at every occurrence of the separator.
   */
  lemma {:induction false} SplitPiecesAvoidSeparator(s: string, sep: string)
    requires sep != ""
    ensures StartsWith(s, Split(s, sep)[0])
    ensures forall k :: 0 <= k < |Split(s, sep)| ==> !Contains(Split(s, sep)[k], sep)
    decreases |s|
  {
    if |s| < |sep| {
      assert Split(s, sep) == [s];
    } else if s[..|sep|] == sep {
      SplitPiecesAvoidSeparator(s[|sep|..], sep);
      PiecesAtSeparator(s, sep);
    } else {
      SplitPiecesAvoidSeparator(s[1..], sep);
      PiecesOtherwise(s, sep);
    }
  }

  /**
   * The first piece ends where the first occurrence of the separator
   * begins: the separator occurs nowhere before that point, and, when there
   * is more than one piece, it occurs right there. So even a separator that
   * overlaps itself is cut at its leftmost occurrence.
   */
  lemma {:induction false} SplitAtFirstOccurrence(s: string, sep: string)
    requires sep != ""
    ensures |Split(s, sep)[0]| <= |s|
    ensures forall i :: 0 <= i < |Split(s, sep)[0]| ==> !StartsWith(s[i..], sep)
    ensures |Split(s, sep)| > 1 ==> StartsWith(s[|Split(s, sep)[0]|..], sep)
    decreases |s|
  {
    if |s| < |sep| {
      assert Split(s, sep) == [s];
    } else if s[..|sep|] == sep {
      assert Split(s, sep) == [""] + Split(s[|sep|..], sep);
    } else {
      SplitAtFirstOccurrence(s[1..], sep);
      var rest := Split(s[1..], sep);
      assert Split(s, sep) == [[s[0]] + rest[0]] + rest[1..];
      FirstOccurrenceOtherwise(s, sep, rest, Split(s, sep));
    }
  }

  /** The step of `SplitAtFirstOccurrence` for a text that does not start with the separator. */
  lemma FirstOccurrenceOtherwise(s: string, sep: string, rest: seq<string>, pieces: seq<string>)
    requires sep != "" && |s| >= |sep| && s[..|sep|] != sep
    requires |rest| >= 1 && pieces == [[s[0]] + rest[0]] + rest[1..]
    requires |rest[0]| <= |s[1..]|
    requires forall i :: 0 <= i < |rest[0]| ==> !StartsWith(s[1..][i..], sep)
    requires |rest| > 1 ==> StartsWith(s[1..][|rest[0]|..], sep)
    ensures |pieces[0]| <= |s|
    ensures forall i :: 0 <= i < |pieces[0]| ==> !StartsWith(s[i..], sep)
    ensures |pieces| > 1 ==> StartsWith(s[|pieces[0]|..], sep)
  {
    forall i | 0 <= i < |pieces[0]| ensures !StartsWith(s[i..], sep) {
      if i > 0 {
        assert s[i..] == s[1..][i - 1..];
      }
    }
    if |pieces| > 1 {
      assert s[|pieces[0]|..] == s[1..][|rest[0]|..];
    }
  }

  /** The step of `SplitPiecesAvoidSeparator` for a text that starts with the separator. */
  lemma PiecesAtSeparator(s: string, sep: string)
    requires sep != "" && |s| >= |sep| && s[..|sep|] == sep
    requires forall k :: 0 <= k < |Split(s[|sep|..], sep)| ==> !Contains(Split(s[|sep|..], sep)[k], sep)
    ensures StartsWith(s, Split(s, sep)[0])
    ensures forall k :: 0 <= k < |Split(s, sep)| ==> !Contains(Split(s, sep)[k], sep)
  {
    var rest := Split(s[|sep|..], sep);
    assert Split(s, sep) == [""] + rest;
    forall k | 0 <= k < |Split(s, sep)| ensures !Contains(Split(s, sep)[k], sep) {
      if k > 0 {
        assert Split(s, sep)[k] == rest[k - 1];
      }
    }
  }

  /** The step of `SplitPiecesAvoidSeparator` for a text that does not start with the separator. */
  lemma PiecesOtherwise(s: string, sep: string)
    requires sep != "" && |s| >= |sep| && s[..|sep|] != sep
    requires StartsWith(s[1..], Split(s[1..], sep)[0])
    requires forall k :: 0 <= k < |Split(s[1..], sep)| ==> !Contains(Split(s[1..], sep)[k], sep)
    ensures StartsWith(s, Split(s, sep)[0])
    ensures forall k :: 0 <= k < |Split(s, sep)| ==> !Contains(Split(s, sep)[k], sep)
  {
    var rest := Split(s[1..], sep);
    assert Split(s, sep) == [[s[0]] + rest[0]] + rest[1..];
    HeadBeforeRest(s, sep, rest, Split(s, sep));
  }

  lemma HeadBeforeRest(s: string, sep: string, rest: seq<string>, pieces: seq<string>)
    requires sep != "" && |s| >= |sep| && s[..|sep|] != sep
    requires |rest| >= 1 && pieces == [[s[0]] + rest[0]] + rest[1..]
    requires StartsWith(s[1..], rest[0])
    requires forall k :: 0 <= k < |rest| ==> !Contains(rest[k], sep)
    ensures StartsWith(s, pieces[0])
    ensures forall k :: 0 <= k < |pieces| ==> !Contains(pieces[k], sep)
  {
    var head := [s[0]] + rest[0];
    assert s[..|head|] == [s[0]] + s[1..][..|rest[0]|];
    HeadAvoidsSeparator(s, sep, rest[0]);
    forall k | 0 <= k < |pieces| ensures !Contains(pieces[k], sep) {
      if k > 0 {
        assert pieces[k] == rest[k];
      }
    }
  }


  /** The first piece when the text does not start with the separator: its first character, then the next piece. */
  lemma HeadAvoidsSeparator(s: string, sep: string, next: string)
    requires sep != "" && |s| >= |sep| && s[..|sep|] != sep
    requires StartsWith(s, [s[0]] + next) && !Contains(next, sep)
    ensures !Contains([s[0]] + next, sep)
  {
    var head := [s[0]] + next;
    forall i | 0 <= i <= |head| ensures !StartsWith(head[i..], sep) {
      if i == 0 {
        assert |sep| <= |head| ==> head[..|sep|] == s[..|sep|];
      } else {
        assert head[i..] == next[i - 1..];
      }
    }
  }

  /** Splitting the join of pieces on a one-character separator they do not contain gives the pieces back. */
  lemma {:induction false} SplitJoin(xs: seq<string>, c: char)
    requires |xs| >= 1
    requires forall k :: 0 <= k < |xs| ==> c !in xs[k]
    ensures Split(Join(xs, [c]), [c]) == xs
    decreases |xs|, |xs[0]|
  {
    if |xs| == 1 {
      SplitPiece(xs[0], c, []);
    } else {
      SplitJoin(xs[1..], c);
      SplitPiece(xs[0], c, Join(xs[1..], [c]));
      assert xs == [xs[0]] + xs[1..];
    }
  }

  lemma {:induction false} SplitPiece(p: string, c: char, tail: string)
    requires c !in p
    ensures tail == [] ==> Split(p, [c]) == [p]
    ensures Split(p + [c] + tail, [c]) == [p] + Split(tail, [c])
    decreases |p|
  {
    if p != [] {
      SplitPiece(p[1..], c, tail);
      assert (p + [c] + tail)[1..] == p[1..] + [c] + tail;
      assert (p + [c] + tail)[..1] == [p[0]];
      assert [p[0]] + p[1..] == p;
      if tail == [] {
        assert p[..1] == [p[0]];
      }
    } else {
      assert ([c] + tail)[..1] == [c];
      assert ([c] + tail)[1..] == tail;
    }
  }

  /**
   * `s.replaceAll(pattern, replacement)` with a string pattern: occurrences are
   * replaced left to right without overlapping; an empty pattern matches
   * before every character and at the end.
   */
  function ReplaceAll(s: string, pattern: string, replacement: string): string
    decreases |s|
  {
    if pattern == [] then
      if s == [] then replacement else replacement + [s[0]] + ReplaceAll(s[1..], pattern, replacement)
    else if |s| < |pattern| then s
    else if s[..|pattern|] == pattern then replacement + ReplaceAll(s[|pattern|..], pattern, replacement)
    else [s[0]] + ReplaceAll(s[1..], pattern, replacement)
  }

  /** Every occurrence is replaced: `replaceAll` is `split` followed by `join` with the replacement. */
  lemma {:induction false} ReplaceAllIsSplitJoin(s: string, pattern: string, replacement: string)
    requires pattern != ""
    ensures ReplaceAll(s, pattern, replacement) == Join(Split(s, pattern), replacement)
    decreases |s|
  {
    if |s| < |pattern| {
    } else if s[..|pattern|] == pattern {
      ReplaceAllIsSplitJoin(s[|pattern|..], pattern, replacement);
    } else {
      ReplaceAllIsSplitJoin(s[1..], pattern, replacement);
      var rest := Split(s[1..], pattern);
      if |rest| > 1 {
        assert Join(rest, replacement) == rest[0] + replacement + Join(rest[1..], replacement);
      }
    }
  }

  /** `s.replaceAll(/[{}]/g, '')` */
  function RemoveBraces(s: string): (r: string)
    ensures '{' !in r && '}' !in r
  {
    if s == [] then []
    else (if s[0] == '{' || s[0] == '}' then [] else [s[0]]) + RemoveBraces(s[1..])
  }

  /** `s` without its longest prefix of characters satisfying `p`. */
  function DropLeading(s: string, p: char -> bool): (r: string)
    ensures |r| <= |s| && r == s[|s| - |r|..]
    ensures forall i :: 0 <= i < |s| - |r| ==> p(s[i])
    ensures r == [] || !p(r[0])
  {
    if s != [] && p(s[0]) then DropLeading(s[1..], p) else s
  }

  /** `s` without its longest suffix of characters satisfying `p`. */
  function DropTrailing(s: string, p: char -> bool): (r: string)
    ensures |r| <= |s| && r == s[..|r|]
    ensures forall i :: |r| <= i < |s| ==> p(s[i])
    ensures r == [] || !p(r[|r| - 1])
  {
    if s != [] && p(s[|s| - 1]) then DropTrailing(s[..|s| - 1], p) else s
  }

  /** Leading white space removed. */
  function TrimStart(s: string): string {
    DropLeading(s, IsJsSpace)
  }

  /** Trailing white space removed. */
  function TrimEnd(s: string): string {
    DropTrailing(s, IsJsSpace)
  }

  /** Every character of `s` satisfies `p`. */
  predicate All(s: string, p: char -> bool) {
    forall i :: 0 <= i < |s| ==> p(s[i])
  }

  /**
   * `s.trim()`: the slice of `s` left when the white space at both ends is
   * cut off. The slice neither starts nor ends with white space, so it is
   * the longest such cut.
   */
  function Trim(s: string): (r: string)
    ensures exists a, b :: 0 <= a <= b <= |s| && r == s[a..b] && All(s[..a], IsJsSpace) && All(s[b..], IsJsSpace)
    ensures r == [] || (!IsJsSpace(r[0]) && !IsJsSpace(r[|r| - 1]))
    ensures forall c :: c in r ==> c in s
  {
    var t := DropLeading(s, IsJsSpace);
    var r := DropTrailing(t, IsJsSpace);
    assert r != [] ==> r[0] == t[0];
    DropBothIsSlice(s, IsJsSpace);
    r
  }

  /** Dropping from both ends leaves a slice with only dropped characters outside it. */
  lemma DropBothIsSlice(s: string, p: char -> bool)
    ensures var r := DropTrailing(DropLeading(s, p), p);
            exists a, b :: 0 <= a <= b <= |s| && r == s[a..b] && All(s[..a], p) && All(s[b..], p)
  {
    var t := DropLeading(s, p);
    var r := DropTrailing(t, p);
    var a := |s| - |t|;
    SliceOfSuffix(s, t, r, a, p);
  }

  lemma SliceOfSuffix(s: string, t: string, r: string, a: nat, p: char -> bool)
    requires a + |t| == |s| && t == s[a..] && |r| <= |t| && r == t[..|r|]
    requires forall i :: 0 <= i < a ==> p(s[i])
    requires forall i :: |r| <= i < |t| ==> p(t[i])
    ensures r == s[a..a + |r|] && All(s[..a], p) && All(s[a + |r|..], p)
  {
    var b := a + |r|;
    forall i | 0 <= i < a ensures p(s[..a][i]) {
      assert s[..a][i] == s[i];
    }
    forall i | 0 <= i < |s| - b ensures p(s[b..][i]) {
      assert s[b..][i] == s[b + i] == t[|r| + i];
    }
  }

  /** A name without white space at either end is its own trim; `trim` is idempotent. */
  lemma TrimUntouched(s: string)
    requires s == [] || (!IsJsSpace(s[0]) && !IsJsSpace(s[|s| - 1]))
    ensures Trim(s) == s
  {
  }

  lemma TrimIdempotent(s: string)
    ensures Trim(Trim(s)) == Trim(s)
  {
    TrimUntouched(Trim(s));
  }

  /** The text after the first occurrence of `sep` in `s`, or `""` when there is none. */
  function TextAfter(s: string, sep: string): string
    decreases |s|
  {
    if |s| < |sep| then ""
    else if s[..|sep|] == sep then s[|sep|..]
    else TextAfter(s[1..], sep)
  }

  /** When the first character of `sep` does not occur in `p`, the first `sep` of `p + sep + q` is the one after `p`. */
  lemma {:induction false} TextAfterPrefix(p: string, sep: string, q: string)
    requires sep != [] && sep[0] !in p
    ensures TextAfter(p + sep + q, sep) == q
    decreases |p|
  {
    var s := p + sep + q;
    if p == [] {
      assert s[..|sep|] == sep;
      assert s[|sep|..] == q;
    } else {
      assert s[..|sep|][0] == p[0] != sep[0];
      assert s[1..] == p[1..] + sep + q;
      TextAfterPrefix(p[1..], sep, q);
    }
  }
}
