/**
 * Scanners standing for the regular expressions the generators use to pull
 * parameter names out of text: `{name}` placeholders in a path, `${name}`
 * interpolations in a route template, `name:` / `name?:` keys at the start of
 * a line of a type literal, and the comma list of a destructuring pattern.
 */
module RouteNames {
  import opened JsText

  /** Position of the first `c` in `s`, or `|s|` when there is none. */
  function IndexOf(s: string, c: char): (i: nat)
    ensures i <= |s|
    ensures i < |s| ==> s[i] == c
    ensures c !in s[..i]
  {
    if s == [] then 0
    else if s[0] == c then 0
    else
      var k := IndexOf(s[1..], c);
      assert s[..k + 1] == [s[0]] + s[1..][..k];
      k + 1
  }

  lemma {:induction false} IndexOfFirst(p: string, c: char, s: string)
    requires c !in p
    ensures IndexOf(p + [c] + s, c) == |p|
  {
    if p != [] {
      assert (p + [c] + s)[1..] == p[1..] + [c] + s;
      IndexOfFirst(p[1..], c, s);
    } else {
      assert (p + [c] + s)[0] == c;
    }
  }

  /**
   * `(s.match(/\{([^}]+)\}/g) ?? []).map((m) => m.slice(1, -1))`. At a `{`
   * the match runs to the first `}` after it and needs at least one character
   * in between (an empty `{}` is no match); after a match the search resumes
   * behind the `}`, otherwise one character further on.
   */
  function BraceParams(s: string): (r: seq<string>)
    ensures forall k :: 0 <= k < |r| ==> r[k] != "" && '}' !in r[k]
    decreases |s|
  {
    if s == [] then []
    else if s[0] == '{' then
      var j := 1 + IndexOf(s[1..], '}');
      if 1 < j < |s| then
        assert s[1..j] == s[1..][..j - 1];
        [s[1..j]] + BraceParams(s[j + 1..])
      else BraceParams(s[1..])
    else BraceParams(s[1..])
  }

  /** `(s.match(/\$\{([^}]+)\}/g) ?? []).map((m) => m.slice(2, -1))`, scanned the same way from `${`. */
  function TemplateParams(s: string): (r: seq<string>)
    ensures forall k :: 0 <= k < |r| ==> r[k] != "" && '}' !in r[k]
    decreases |s|
  {
    if s == [] then []
    else if |s| >= 2 && s[0] == '$' && s[1] == '{' then
      var j := 2 + IndexOf(s[2..], '}');
      if 2 < j < |s| then
        assert s[2..j] == s[2..][..j - 2];
        [s[2..j]] + TemplateParams(s[j + 1..])
      else TemplateParams(s[1..])
    else TemplateParams(s[1..])
  }

  /** A match of the key pattern: the captured name and how much text the match consumed. */
  datatype KeyMatch = KeyMatch(name: string, end: nat)

  /**
   * The part of `/\n\s*([A-Za-z_$][A-Za-z0-9_$]*)\??:/` after the line break,
   * tried at the start of `t`: white space, an identifier, an optional `?`
   * and a colon. White space and identifier characters are disjoint, so the
   * greedy repetitions never need to give characters back.
   */
  function KeyAt(t: string): (m: Option<KeyMatch>)
    ensures m.Some? ==> IsIdent(m.value.name) && 0 < m.value.end <= |t|
  {
    var a := Span(t, IsJsSpace);
    if a < |t| && IsIdentStart(t[a]) then
      var b := a + 1 + Span(t[a + 1..], IsIdentPart);
      assert forall i :: 1 <= i < b - a ==> t[a..b][i] == t[a + 1..][i - 1];
      if b < |t| && t[b] == ':' then Some(KeyMatch(t[a..b], b + 1))
      else if b + 1 < |t| && t[b] == '?' && t[b + 1] == ':' then Some(KeyMatch(t[a..b], b + 2))
      else None
    else None
  }

  /** `[...model.matchAll(/\n\s*([A-Za-z_$][A-Za-z0-9_$]*)\??:/g)].map((m) => m[1])` */
  function ModelKeys(s: string): (r: seq<string>)
    ensures forall k :: 0 <= k < |r| ==> IsIdent(r[k])
    decreases |s|
  {
    if s == [] then []
    else if s[0] == '\n' then
      match KeyAt(s[1..])
      case Some(m) => [m.name] + ModelKeys(s[1 + m.end..])
      case None => ModelKeys(s[1..])
    else ModelKeys(s[1..])
  }

  /** One member line of a TypeScript object type: `\n  key: Type;` or `\n  key?: Type;`. */
  datatype Member = Member(key: string, optional: bool, typ: string)

  function MemberLine(m: Member): string {
    "\n" + KeyPart(m) + TypePart(m)
  }

  /** `  key:` or `  key?:` */
  function KeyPart(m: Member): string {
    "  " + m.key + (if m.optional then "?" else "") + ":"
  }

  /** ` Type;` */
  function TypePart(m: Member): string {
    " " + m.typ + ";"
  }

  function MemberLines(ms: seq<Member>): string {
    if ms == [] then "" else MemberLine(ms[0]) + MemberLines(ms[1..])
  }

  /** The object type `{` member lines `\n}` that a schema model is printed as. */
  function TypeLiteral(ms: seq<Member>): string {
    "{" + MemberLines(ms) + "\n}"
  }

  function Keys(ms: seq<Member>): (r: seq<string>)
    ensures |r| == |ms| && forall k :: 0 <= k < |ms| ==> r[k] == ms[k].key
  {
    if ms == [] then [] else [ms[0].key] + Keys(ms[1..])
  }

  /** A member the key pattern can read: an identifier key, and a type on one line. */
  predicate Readable(m: Member) {
    IsIdent(m.key) && '\n' !in m.typ
  }

  /**
   * The key scan reads back exactly the keys of an object type printed one
   * member per line, optional or not, in order.
   */
  lemma {:induction false} ModelKeysOfTypeLiteral(ms: seq<Member>)
    requires forall k :: 0 <= k < |ms| ==> Readable(ms[k])
    ensures ModelKeys(TypeLiteral(ms)) == Keys(ms)
  {
    var s := TypeLiteral(ms);
    assert s[1..] == MemberLines(ms) + "\n}";
    ModelKeysOfMemberLines(ms);
  }

  lemma {:induction false} ModelKeysOfMemberLines(ms: seq<Member>)
    requires forall k :: 0 <= k < |ms| ==> Readable(ms[k])
    ensures ModelKeys(MemberLines(ms) + "\n}") == Keys(ms)
    decreases |ms|
  {
    if ms == [] {
      ModelKeysOfClosing();
      assert MemberLines(ms) + "\n}" == "\n}";
    } else {
      var rest := MemberLines(ms[1..]) + "\n}";
      ModelKeysOfMemberLines(ms[1..]);
      Associative(MemberLine(ms[0]), MemberLines(ms[1..]), "\n}");
      ModelKeysOfMemberLine(ms[0], rest);
    }
  }

  lemma ModelKeysOfClosing()
    ensures ModelKeys("\n}") == []
  {
    var s := "\n}";
    assert s[1..] == "}";
    assert Span("}", IsJsSpace) == 0;
    assert KeyAt("}").None?;
    assert "}"[1..] == "";
  }

  /** One member line contributes its key, and the scan resumes on the next line. */
  lemma ModelKeysOfMemberLine(m: Member, rest: string)
    requires Readable(m)
    ensures ModelKeys(MemberLine(m) + rest) == [m.key] + ModelKeys(rest)
  {
    KeyAtMember(m, TypePart(m) + rest);
    LineContributesKey(KeyPart(m), TypePart(m), rest, m.key);
  }

  /** A line whose start matches the key pattern, and whose remainder holds no line break. */
  lemma LineContributesKey(keyPart: string, typePart: string, rest: string, key: string)
    requires KeyAt(keyPart + (typePart + rest)) == Some(KeyMatch(key, |keyPart|))
    requires '\n' !in typePart
    ensures ModelKeys("\n" + keyPart + typePart + rest) == [key] + ModelKeys(rest)
  {
    var t := keyPart + (typePart + rest);
    Associative("\n" + keyPart, typePart, rest);
    Associative("\n", keyPart, typePart + rest);
    ModelKeysAtLineBreak(t);
    assert t[|keyPart|..] == typePart + rest;
    ModelKeysSkipLine(typePart, rest);
  }

  /** At a line break the scan tries the key pattern on what follows. */
  lemma ModelKeysAtLineBreak(t: string)
    ensures ModelKeys("\n" + t) == match KeyAt(t)
                                   case Some(m) => [m.name] + ModelKeys(t[m.end..])
                                   case None => ModelKeys(t)
  {
    assert ("\n" + t)[1..] == t;
  }

  /** The key pattern, tried after the line break of a member line, captures the key. */
  lemma KeyAtMember(m: Member, tail: string)
    requires Readable(m)
    ensures KeyAt(KeyPart(m) + tail) == Some(KeyMatch(m.key, |KeyPart(m)|))
  {
    var t := KeyPart(m) + tail;
    var n := |m.key|;
    assert t[0] == ' ' && t[1] == ' ';
    assert t[2..2 + n] == m.key;
    assert !IsJsSpace(t[2]);
    var a := Span(t, IsJsSpace);
    assert a == 2;
    var c := Span(t[3..], IsIdentPart);
    assert forall i :: 0 <= i < n - 1 ==> t[3..][i] == m.key[i + 1];
    assert !IsIdentPart(t[2 + n]);
    assert c == n - 1;
    if m.optional {
      assert t[2 + n] == '?' && t[3 + n] == ':';
    } else {
      assert t[2 + n] == ':';
    }
  }

  /** Text without a line break holds no match: the scan goes on after it. */
  lemma {:induction false} ModelKeysSkipLine(p: string, rest: string)
    requires '\n' !in p
    ensures ModelKeys(p + rest) == ModelKeys(rest)
    decreases |p|
  {
    if p != [] {
      assert (p + rest)[0] == p[0];
      assert (p + rest)[1..] == p[1..] + rest;
      ModelKeysSkipLine(p[1..], rest);
    } else {
      assert p + rest == rest;
    }
  }

  /** A name as the destructuring parser hands it on: non-empty, trimmed, free of `,`, `{` and `}`. */
  predicate CleanName(n: string) {
    n != "" && ',' !in n && '{' !in n && '}' !in n && Trim(n) == n
  }

  /** `xs.map((s) => s.trim())` */
  function TrimEach(xs: seq<string>): (r: seq<string>)
    ensures |r| == |xs|
    ensures forall k :: 0 <= k < |r| ==> r[k] == Trim(xs[k])
    ensures forall k :: 0 <= k < |r| ==> r[k] == [] || (!IsJsSpace(r[k][0]) && !IsJsSpace(r[k][|r[k]| - 1]))
  {
    seq(|xs|, i requires 0 <= i < |xs| => Trim(xs[i]))
  }

  /** The split pieces of a brace-free text, once trimmed, are free of `,`, `{` and `}` and stay as they are when trimmed again. */
  lemma TrimmedPiecesAreClean(d: string)
    ensures forall x :: x in TrimEach(Split(RemoveBraces(d), ",")) ==>
              ',' !in x && '{' !in x && '}' !in x && Trim(x) == x
  {
    var pieces := Split(RemoveBraces(d), ",");
    forall x | x in TrimEach(pieces) ensures ',' !in x && '{' !in x && '}' !in x && Trim(x) == x {
      var i :| 0 <= i < |pieces| && TrimEach(pieces)[i] == x;
      assert forall c :: c in pieces[i] ==> c in RemoveBraces(d) by {
        assert pieces[i] in pieces;
        JoinSplit(RemoveBraces(d), ",");
        PieceInJoin(pieces, ",", i);
      }
      TrimIdempotent(pieces[i]);
    }
  }

  lemma {:induction false} PieceInJoin(xs: seq<string>, sep: string, i: nat)
    requires i < |xs|
    ensures forall c :: c in xs[i] ==> c in Join(xs, sep)
  {
    if i > 0 {
      PieceInJoin(xs[1..], sep, i - 1);
    }
  }

  /** `destructured.replaceAll(/[{}]/g, '').split(',').map((s) => s.trim()).filter(Boolean)` */
  function NamedDestructure(destructured: string): (r: seq<string>)
    ensures forall x :: x in r ==> CleanName(x)
  {
    TrimmedPiecesAreClean(destructured);
    Filter(TrimEach(Split(RemoveBraces(destructured), ",")), IsNonEmpty)
  }

  /** `Boolean` applied to a string. */
  predicate IsNonEmpty(n: string) {
    n != ""
  }

  // ---------------------------------------------------------------------
  // What the scanners find in well-formed routes
  // ---------------------------------------------------------------------

  /** A route, piece by piece: literal text, or a parameter placeholder. */
  datatype Segment = Literal(text: string) | Placeholder(name: string)

  predicate WellFormedSegment(seg: Segment) {
    match seg
    case Literal(t) => '{' !in t
    case Placeholder(n) => n != "" && '}' !in n
  }

  predicate WellFormed(segs: seq<Segment>) {
    forall k :: 0 <= k < |segs| ==> WellFormedSegment(segs[k])
  }

  /** The path as the specification writes it: `/pets/{petId}`. */
  function PathTemplate(segs: seq<Segment>): string {
    if segs == [] then ""
    else
      (match segs[0] case Literal(t) => t case Placeholder(n) => "{" + n + "}")
      + PathTemplate(segs[1..])
  }

  /** The route as a template literal: `/pets/${petId}`. */
  function RouteTemplate(segs: seq<Segment>): string {
    if segs == [] then ""
    else
      (match segs[0] case Literal(t) => t case Placeholder(n) => "${" + n + "}")
      + RouteTemplate(segs[1..])
  }

  function PlaceholderNames(segs: seq<Segment>): seq<string> {
    if segs == [] then []
    else
      (match segs[0] case Literal(_) => [] case Placeholder(n) => [n])
      + PlaceholderNames(segs[1..])
  }

  lemma {:induction false} BraceParamsSkip(t: string, s: string)
    requires '{' !in t
    ensures BraceParams(t + s) == BraceParams(s)
  {
    if t != [] {
      assert (t + s)[1..] == t[1..] + s;
      BraceParamsSkip(t[1..], s);
    } else {
      assert t + s == s;
    }
  }

  lemma BraceParamsAtPlaceholder(n: string, s: string)
    requires n != "" && '}' !in n
    ensures BraceParams("{" + n + "}" + s) == [n] + BraceParams(s)
  {
    var x := "{" + n + "}" + s;
    assert x[1..] == n + ['}'] + s;
    IndexOfFirst(n, '}', s);
    assert x[1..1 + |n|] == n;
    assert x[|n| + 2..] == s;
  }

  lemma {:induction false} TemplateParamsSkip(t: string, s: string)
    requires '{' !in t
    requires s == [] || s[0] != '{'
    ensures TemplateParams(t + s) == TemplateParams(s)
  {
    if t != [] {
      assert (t + s)[1..] == t[1..] + s;
      assert |t + s| >= 2 ==> (t + s)[1] != '{' by {
        if |t| >= 2 { assert (t + s)[1] == t[1]; }
      }
      TemplateParamsSkip(t[1..], s);
    } else {
      assert t + s == s;
    }
  }

  lemma TemplateParamsAtPlaceholder(n: string, s: string)
    requires n != "" && '}' !in n
    ensures TemplateParams("${" + n + "}" + s) == [n] + TemplateParams(s)
  {
    var x := "${" + n + "}" + s;
    assert x[2..] == n + ['}'] + s;
    IndexOfFirst(n, '}', s);
    assert x[2..2 + |n|] == n;
    assert x[|n| + 3..] == s;
  }

  /** A route without any `{` has no placeholders of either kind. */
  lemma NoPlaceholders(s: string)
    requires '{' !in s
    ensures BraceParams(s) == [] && TemplateParams(s) == []
  {
    BraceParamsSkip(s, []);
    TemplateParamsSkip(s, []);
    assert s + [] == s;
  }

  /** The brace scanner finds exactly the placeholders of a path written `/a/{x}/b/{y}`, in order. */
  lemma {:induction false} BraceParamsOfPathTemplate(segs: seq<Segment>)
    requires WellFormed(segs)
    ensures BraceParams(PathTemplate(segs)) == PlaceholderNames(segs)
  {
    if segs != [] {
      assert WellFormedSegment(segs[0]);
      BraceParamsOfPathTemplate(segs[1..]);
      match segs[0]
      case Literal(t) => BraceParamsSkip(t, PathTemplate(segs[1..]));
      case Placeholder(n) => BraceParamsAtPlaceholder(n, PathTemplate(segs[1..]));
    }
  }

  /** The template scanner finds exactly the interpolations of a route written `/a/${x}/b/${y}`, in order. */
  lemma {:induction false} TemplateParamsOfRouteTemplate(segs: seq<Segment>)
    requires WellFormed(segs)
    ensures TemplateParams(RouteTemplate(segs)) == PlaceholderNames(segs)
  {
    if segs != [] {
      assert WellFormedSegment(segs[0]);
      TemplateParamsOfRouteTemplate(segs[1..]);
      var rest := RouteTemplate(segs[1..]);
      assert rest == [] || rest[0] != '{' by { RouteTemplateStart(segs[1..]); }
      match segs[0]
      case Literal(t) => TemplateParamsSkip(t, rest);
      case Placeholder(n) => TemplateParamsAtPlaceholder(n, rest);
    }
  }

  lemma RouteTemplateStart(segs: seq<Segment>)
    requires WellFormed(segs)
    ensures RouteTemplate(segs) == [] || RouteTemplate(segs)[0] != '{'
    decreases |segs|
  {
    if segs != [] {
      assert WellFormedSegment(segs[0]);
      match segs[0]
      case Literal(t) =>
        if t == [] {
          RouteTemplateStart(segs[1..]);
        } else {
          assert RouteTemplate(segs)[0] == t[0];
        }
      case Placeholder(n) =>
    }
  }

  /** The brace scanner also finds every `${x}` of a template route, through its `{x}`. */
  lemma {:induction false} BraceParamsOfRouteTemplate(segs: seq<Segment>)
    requires WellFormed(segs)
    ensures BraceParams(RouteTemplate(segs)) == PlaceholderNames(segs)
  {
    if segs != [] {
      assert WellFormedSegment(segs[0]);
      BraceParamsOfRouteTemplate(segs[1..]);
      var rest := RouteTemplate(segs[1..]);
      match segs[0]
      case Literal(t) => BraceParamsSkip(t, rest);
      case Placeholder(n) =>
        assert "${" + n + "}" + rest == "$" + ("{" + n + "}" + rest);
        BraceParamsSkip("$", "{" + n + "}" + rest);
        BraceParamsAtPlaceholder(n, rest);
    }
  }

  // ---------------------------------------------------------------------
  // What the destructuring parser finds in `{ a, b }`
  // ---------------------------------------------------------------------

  lemma IdentHasNoSpace(n: string)
    requires IsIdent(n)
    ensures forall c :: c in n ==> !IsJsSpace(c) && c != ',' && c != '{' && c != '}'
  {
    forall c | c in n ensures !IsJsSpace(c) && c != ',' && c != '{' && c != '}' {
      var i :| 0 <= i < |n| && n[i] == c;
      assert i == 0 || IsIdentPart(n[i]);
    }
  }

  lemma {:induction false} RemoveBracesAppend(a: string, b: string)
    ensures RemoveBraces(a + b) == RemoveBraces(a) + RemoveBraces(b)
  {
    if a != [] {
      assert (a + b)[1..] == a[1..] + b;
      RemoveBracesAppend(a[1..], b);
    } else {
      assert a + b == b;
    }
  }

  lemma {:induction false} RemoveBracesNone(a: string)
    requires '{' !in a && '}' !in a
    ensures RemoveBraces(a) == a
  {
    if a != [] {
      RemoveBracesNone(a[1..]);
      assert a == [a[0]] + a[1..];
    }
  }

  /** Each name of a destructuring list with the spaces around it: ` a`, ` b`, …, ` z `. */
  function Padded(names: seq<string>): (r: seq<string>)
    requires |names| > 0
    ensures |r| == |names|
    ensures forall k :: 0 <= k < |r| ==> r[k] == " " + names[k] || r[k] == " " + names[k] + " "
  {
    if |names| == 1 then [" " + names[0] + " "] else [" " + names[0]] + Padded(names[1..])
  }

  lemma {:induction false} JoinPadded(names: seq<string>)
    requires |names| > 0
    ensures " " + Join(names, ", ") + " " == Join(Padded(names), ",")
    decreases |names|
  {
    if |names| > 1 {
      JoinPadded(names[1..]);
    }
  }

  lemma TrimPadded(n: string)
    requires IsIdent(n)
    ensures Trim(" " + n) == n && Trim(" " + n + " ") == n
  {
    IdentHasNoSpace(n);
    assert n[0] in n && n[|n| - 1] in n;
    TrimSpaceBefore(n);
    TrimSpacesAround(n);
  }

  lemma TrimSpaceBefore(n: string)
    requires n != [] && !IsJsSpace(n[0]) && !IsJsSpace(n[|n| - 1])
    ensures Trim(" " + n) == n
  {
    var s := " " + n;
    assert s[1..] == n;
    assert TrimStart(n) == n;
    assert TrimStart(s) == n;
    assert TrimEnd(n) == n;
  }

  lemma TrimSpacesAround(n: string)
    requires n != [] && !IsJsSpace(n[0]) && !IsJsSpace(n[|n| - 1])
    ensures Trim(" " + n + " ") == n
  {
    var s, t := " " + n + " ", n + " ";
    assert s[1..] == t;
    assert t[0] == n[0];
    assert TrimStart(t) == t;
    assert TrimStart(s) == t;
    assert t[..|t| - 1] == n;
    assert TrimEnd(n) == n;
    assert TrimEnd(t) == n;
  }

  lemma {:induction false} FilterKeepsAll<T(!new)>(xs: seq<T>, p: T -> bool)
    requires forall k :: 0 <= k < |xs| ==> p(xs[k])
    ensures Filter(xs, p) == xs
  {
    if xs != [] {
      FilterKeepsAll(xs[1..], p);
    }
  }

  lemma RemoveBracesOfPattern(names: seq<string>)
    requires forall k :: 0 <= k < |names| ==> IsIdent(names[k])
    ensures RemoveBraces("{ " + Join(names, ", ") + " }") == " " + Join(names, ", ") + " "
  {
    var j := Join(names, ", ");
    forall k | 0 <= k < |names| ensures '{' !in names[k] && '}' !in names[k] {
      IdentHasNoSpace(names[k]);
    }
    JoinNoChar(names, ", ", '{');
    JoinNoChar(names, ", ", '}');
    RemoveBracesAppend("{ " + j, " }");
    RemoveBracesAppend("{ ", j);
    RemoveBracesNone(j);
    RemoveBracesOfDelimiters();
  }

  lemma RemoveBracesOfDelimiters()
    ensures RemoveBraces("{ ") == " " && RemoveBraces(" }") == " "
  {
    assert "{ "[1..] == " ";
    assert " }"[1..] == "}";
    assert "}"[1..] == "";
  }

  /** `NamedDestructure` reads back the names of a destructuring pattern `{ a, b, c }`. */
  lemma NamedDestructureOfPattern(names: seq<string>)
    requires forall k :: 0 <= k < |names| ==> IsIdent(names[k])
    ensures NamedDestructure("{ " + Join(names, ", ") + " }") == names
  {
    RemoveBracesOfPattern(names);
    if names == [] {
      ParseBlank();
    } else {
      ParseNames(names);
    }
  }

  lemma ParseBlank()
    ensures Filter(TrimEach(Split(" " + Join([], ", ") + " ", ",")), IsNonEmpty) == []
  {
    assert " " + Join([], ", ") + " " == "  ";
    SplitPiece("  ", ',', []);
    assert TrimStart("  ") == "";
    assert TrimEach(["  "]) == [""];
  }

  lemma ParseNames(names: seq<string>)
    requires |names| > 0
    requires forall k :: 0 <= k < |names| ==> IsIdent(names[k])
    ensures Filter(TrimEach(Split(" " + Join(names, ", ") + " ", ",")), IsNonEmpty) == names
  {
    var padded := Padded(names);
    JoinPadded(names);
    PaddedPieces(names);
    SplitJoin(padded, ',');
    assert TrimEach(padded) == names;
    FilterKeepsAll(names, IsNonEmpty);
  }

  lemma PaddedPieces(names: seq<string>)
    requires |names| > 0
    requires forall k :: 0 <= k < |names| ==> IsIdent(names[k])
    ensures forall k :: 0 <= k < |names| ==> ',' !in Padded(names)[k] && Trim(Padded(names)[k]) == names[k]
  {
    var padded := Padded(names);
    forall k | 0 <= k < |padded| ensures ',' !in padded[k] && Trim(padded[k]) == names[k] {
      var n := names[k];
      assert IsIdent(n);
      IdentHasNoComma(n);
      TrimPadded(n);
      if padded[k] == " " + n {
        assert ',' !in " " + n;
      } else {
        assert ',' !in " " + n + " ";
      }
    }
  }

  lemma IdentHasNoComma(n: string)
    requires IsIdent(n)
    ensures ',' !in n
  {
    assert forall i :: 0 <= i < |n| ==> IsIdentPart(n[i]);
  }

  lemma {:induction false} JoinNoChar(xs: seq<string>, sep: string, c: char)
    requires c !in sep
    requires forall k :: 0 <= k < |xs| ==> c !in xs[k]
    ensures c !in Join(xs, sep)
  {
    if |xs| > 1 {
      JoinNoChar(xs[1..], sep, c);
    }
  }
}
