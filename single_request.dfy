/**
 * The single-request-argument convention, shared by both generators: the
 * operation's parameters collapse into one `request` object whose type is
 * the intersection `<Op>Request`, and the function body destructures the
 * names it needs from it and rebuilds the `params` and `headers` objects.
 *
 * The source repeats this logic four times (mutator and default transport,
 * in each of the two generators). The copies differ only in which route the
 * `{name}` scan reads, so it is written once here with that route as the
 * `braceRoute` parameter.
 */
module SingleRequest {
  import opened JsText
  import opened RouteNames
  import opened Model

  // ---------------------------------------------------------------------
  // Name sources
  // ---------------------------------------------------------------------

  predicate IsParamProp(p: Prop) {
    p.kind == Param
  }

  /** `props.filter((p) => p.type === 'param')`: the path properties, in order. */
  function ParamProps(props: seq<Prop>): seq<Prop> {
    Filter(props, IsParamProp)
  }

  lemma ParamPropsStep(props: seq<Prop>)
    requires props != []
    ensures ParamProps(props) == (if props[0].kind == Param then [props[0]] else []) + ParamProps(props[1..])
  {
  }

  /** `props.filter((p) => p.type === 'param').map((p) => p.name)`: the k-th name is the k-th path property's. */
  function PathParamNames(props: seq<Prop>): (r: seq<string>)
    ensures |r| == |ParamProps(props)|
    ensures forall k :: 0 <= k < |r| ==> r[k] == ParamProps(props)[k].name
    ensures forall n :: n in r <==> exists k :: 0 <= k < |props| && props[k].kind == Param && props[k].name == n
  {
    if props == [] then []
    else
      var rest := PathParamNames(props[1..]);
      assert forall k :: 1 <= k < |props| ==> props[k] == props[1..][k - 1];
      ParamPropsStep(props);
      (if props[0].kind == Param then [props[0].name] else []) + rest
  }

  /** `props.filter((p) => p.type === 'param').map((p) => p.definition)`: the k-th definition is the k-th path property's. */
  function PathParamDefinitions(props: seq<Prop>): (r: seq<string>)
    ensures |r| == |ParamProps(props)|
    ensures forall k :: 0 <= k < |r| ==> r[k] == ParamProps(props)[k].definition
  {
    if props == [] then []
    else
      ParamPropsStep(props);
      (if props[0].kind == Param then [props[0].definition] else []) + PathParamDefinitions(props[1..])
  }

  /** The `k`-th name and the `k`-th definition are those of one path property of `props`. */
  predicate PairedWithProperty(props: seq<Prop>, k: nat)
    requires k < |PathParamNames(props)| && k < |PathParamDefinitions(props)|
  {
    exists j :: 0 <= j < |props| && props[j].kind == Param
                && props[j].name == PathParamNames(props)[k]
                && props[j].definition == PathParamDefinitions(props)[k]
  }

  /** The names and the definitions of the path properties go together, position by position. */
  lemma PathParamsPaired(props: seq<Prop>)
    ensures |PathParamDefinitions(props)| == |PathParamNames(props)|
    ensures forall k: nat :: k < |PathParamNames(props)| ==> PairedWithProperty(props, k)
  {
    var pp := ParamProps(props);
    forall k: nat | k < |PathParamNames(props)| ensures PairedWithProperty(props, k) {
      assert pp[k] in pp;
      assert pp[k] in props && pp[k].kind == Param;
      var j :| 0 <= j < |props| && props[j] == pp[k];
      assert props[j].kind == Param && props[j].name == PathParamNames(props)[k]
             && props[j].definition == PathParamDefinitions(props)[k];
    }
  }

  /** `props.find((p) => p.type === 'namedPathParams')` */
  function FindNamed(props: seq<Prop>): (r: Option<Prop>)
    ensures r.Some? ==> r.value.kind == NamedPathParams
                        && exists k :: 0 <= k < |props| && props[k] == r.value
                                       && forall j :: 0 <= j < k ==> props[j].kind != NamedPathParams
    ensures r.None? ==> forall k :: 0 <= k < |props| ==> props[k].kind != NamedPathParams
  {
    if props == [] then None
    else if props[0].kind == NamedPathParams then Some(props[0])
    else
      var r := FindNamed(props[1..]);
      assert r.Some? ==> exists k :: 0 <= k < |props| && props[k] == r.value
                                     && forall j :: 0 <= j < k ==> props[j].kind != NamedPathParams by {
        if r.Some? {
          var k :| 0 <= k < |props[1..]| && props[1..][k] == r.value
                   && forall j :: 0 <= j < k ==> props[1..][j].kind != NamedPathParams;
          assert props[k + 1] == r.value;
          assert forall j :: 1 <= j < k + 1 ==> props[j] == props[1..][j - 1];
        }
      }
      assert r.None? ==> forall k :: 1 <= k < |props| ==> props[k] == props[1..][k - 1];
      r
  }

  /** `props.find(...)?.schema.name`, or "" when there is no named path-params property. */
  function NamedSchemaName(props: seq<Prop>): string {
    match FindNamed(props)
    case Some(p) => p.schemaName
    case None => ""
  }

  /** `parameters.filter((s) => s.in === 'query').map((s) => s.name)` */
  function QueryParamNames(ps: seq<SpecParam>): (r: seq<string>)
    ensures |r| <= |ps|
    ensures |ps| == 1 ==> r == (if ps[0].location == Query then [ps[0].name] else [])
    ensures forall n :: n in r <==> exists k :: 0 <= k < |ps| && ps[k] == SpecParam(n, Query)
  {
    if ps == [] then []
    else
      var rest := QueryParamNames(ps[1..]);
      assert forall k :: 1 <= k < |ps| ==> ps[k] == ps[1..][k - 1];
      (if ps[0].location == Query then [ps[0].name] else []) + rest
  }

  /** `parameters.filter((s) => s.in === 'header').map((s) => s.name)`, before the identifier filter. */
  function HeaderLocated(ps: seq<SpecParam>): (r: seq<string>)
    ensures |r| <= |ps|
    ensures |ps| == 1 ==> r == (if ps[0].location == Header then [ps[0].name] else [])
    ensures forall n :: n in r <==> exists k :: 0 <= k < |ps| && ps[k] == SpecParam(n, Header)
  {
    if ps == [] then []
    else
      var rest := HeaderLocated(ps[1..]);
      assert forall k :: 1 <= k < |ps| ==> ps[k] == ps[1..][k - 1];
      (if ps[0].location == Header then [ps[0].name] else []) + rest
  }

  /** The header names, with names that are not identifiers dropped ("to be safe"). */
  function HeaderParamNames(ps: seq<SpecParam>): (r: seq<string>)
    ensures forall n :: n in r <==> IsIdent(n) && exists k :: 0 <= k < |ps| && ps[k] == SpecParam(n, Header)
    ensures |ps| == 1 ==> r == (if ps[0].location == Header && IsIdent(ps[0].name) then [ps[0].name] else [])
  {
    Filter(HeaderLocated(ps), IsIdent)
  }

  /**
   * The query names, the header names and the identifier header names of a
   * parameter list are those of its parts, one after the other: with the
   * one-element cases, each list follows the parameters' order, one name per
   * parameter.
   */
  lemma {:induction false} QueryParamNamesAppend(a: seq<SpecParam>, b: seq<SpecParam>)
    ensures QueryParamNames(a + b) == QueryParamNames(a) + QueryParamNames(b)
    decreases |a|
  {
    if a == [] {
      assert a + b == b;
    } else {
      var ab := a + b;
      assert ab[0] == a[0] && ab[1..] == a[1..] + b;
      QueryParamNamesAppend(a[1..], b);
      QueryParamNamesStep(ab);
      QueryParamNamesStep(a);
    }
  }

  lemma QueryParamNamesStep(ps: seq<SpecParam>)
    requires ps != []
    ensures QueryParamNames(ps) == (if ps[0].location == Query then [ps[0].name] else []) + QueryParamNames(ps[1..])
  {
  }

  lemma {:induction false} HeaderLocatedAppend(a: seq<SpecParam>, b: seq<SpecParam>)
    ensures HeaderLocated(a + b) == HeaderLocated(a) + HeaderLocated(b)
    decreases |a|
  {
    if a == [] {
      assert a + b == b;
    } else {
      var ab := a + b;
      assert ab[0] == a[0] && ab[1..] == a[1..] + b;
      HeaderLocatedAppend(a[1..], b);
      assert HeaderLocated(ab) == (if a[0].location == Header then [a[0].name] else []) + HeaderLocated(ab[1..]);
      assert HeaderLocated(a) == (if a[0].location == Header then [a[0].name] else []) + HeaderLocated(a[1..]);
    }
  }

  lemma HeaderParamNamesAppend(a: seq<SpecParam>, b: seq<SpecParam>)
    ensures HeaderParamNames(a + b) == HeaderParamNames(a) + HeaderParamNames(b)
  {
    HeaderLocatedAppend(a, b);
    FilterAppend(HeaderLocated(a), HeaderLocated(b), IsIdent);
  }

  /**
   * `[...new Set([...braceParams, ...templateParams])].filter(isValidIdent)`:
   * `{name}` placeholders of `braceRoute` and `${name}` interpolations of
   * `route`, each once, identifiers only.
   */
  function RouteParamNames(braceRoute: string, route: string): (r: seq<string>)
    ensures NoDuplicates(r)
    ensures forall n :: n in r <==> IsIdent(n) && (n in BraceParams(braceRoute) || n in TemplateParams(route))
  {
    var d := Distinct(BraceParams(braceRoute) + TemplateParams(route));
    var r := Filter(d, IsIdent);
    FilterKeepsNoDuplicates(d, IsIdent);
    r
  }

  lemma {:induction false} FilterKeepsNoDuplicates<T(!new)>(xs: seq<T>, p: T -> bool)
    requires NoDuplicates(xs)
    ensures NoDuplicates(Filter(xs, p))
  {
    if xs != [] {
      FilterKeepsNoDuplicates(xs[1..], p);
      assert xs[0] !in xs[1..];
    }
  }

  /** The names listed in the named path-params property's `destructured` text. */
  function NamedDestruct(props: seq<Prop>): (r: seq<string>)
    ensures forall n :: n in r ==> CleanName(n)
  {
    match FindNamed(props)
    case Some(p) => NamedDestructure(p.destructured)
    case None => []
  }

  /**
   * The keys sniffed from the named path-params schema's model text, used
   * only when `destructured` lists no name and the model text is not empty.
   */
  function NamesFromModel(props: seq<Prop>): (r: seq<string>)
    ensures forall n :: n in r ==> IsIdent(n)
    ensures NamedDestruct(props) != [] ==> r == []
    ensures (FindNamed(props).Some? && NamedDestruct(props) == [])
            ==> r == ModelKeys(FindNamed(props).value.schemaModel)
  {
    match FindNamed(props)
    case Some(p) =>
      if NamedDestruct(props) == [] && p.schemaModel != "" then ModelKeys(p.schemaModel) else []
    case None => []
  }

  /** The six name sources, in the order they are spread into the `Set`. */
  function NameSources(props: seq<Prop>, braceRoute: string, route: string, ps: seq<SpecParam>): seq<string> {
    PathParamNames(props)
    + RouteParamNames(braceRoute, route)
    + NamedDestruct(props)
    + NamesFromModel(props)
    + Filter(QueryParamNames(ps), IsIdent)
    + Filter(HeaderParamNames(ps), IsIdent)
  }

  /**
   * `destructNames`: every name of the six sources, once each, in the order
   * of its first occurrence among them.
   */
  function DestructNames(props: seq<Prop>, braceRoute: string, route: string, ps: seq<SpecParam>): (r: seq<string>)
    ensures NoDuplicates(r)
    ensures forall n :: n in r <==> n in NameSources(props, braceRoute, route, ps)
  {
    Distinct(NameSources(props, braceRoute, route, ps))
  }

  /** The destructured names keep the order in which they first occur among the sources. */
  lemma DestructNamesInFirstOccurrenceOrder(props: seq<Prop>, braceRoute: string, route: string, ps: seq<SpecParam>)
    ensures var src, r := NameSources(props, braceRoute, route, ps), DestructNames(props, braceRoute, route, ps);
            forall i, j :: 0 <= i < j < |r| ==> FirstIndex(src, r[i]) < FirstIndex(src, r[j])
  {
    DistinctKeepsFirstOccurrenceOrder(NameSources(props, braceRoute, route, ps));
  }

  /**
   * Only path-property names and the names listed in `destructured` can fail
   * the identifier test: every name that comes from a route, the model text,
   * the query parameters or the header parameters is an identifier.
   */
  lemma DestructNamesAreIdentifiers(props: seq<Prop>, braceRoute: string, route: string, ps: seq<SpecParam>)
    ensures forall n :: n in DestructNames(props, braceRoute, route, ps) ==>
              IsIdent(n) || n in PathParamNames(props) || n in NamedDestruct(props)
  {
  }

  /**
   * Every query and header parameter that is an identifier is destructured,
   * and so is every path property, every route placeholder that is an
   * identifier, and every listed name.
   */
  lemma DestructNamesCover(props: seq<Prop>, braceRoute: string, route: string, ps: seq<SpecParam>)
    ensures var r := DestructNames(props, braceRoute, route, ps);
            && (forall n :: n in PathParamNames(props) ==> n in r)
            && (forall n :: n in NamedDestruct(props) ==> n in r)
            && (forall n :: n in NamesFromModel(props) ==> n in r)
            && (forall n :: n in QueryParamNames(ps) && IsIdent(n) ==> n in r)
            && (forall n :: n in HeaderParamNames(ps) ==> n in r)
            && (forall n :: IsIdent(n) && (n in BraceParams(braceRoute) || n in TemplateParams(route)) ==> n in r)
  {
  }

  // ---------------------------------------------------------------------
  // The destructuring statement
  // ---------------------------------------------------------------------

  /** `Boolean(body.definition && !usesFormPayload)`: the rest of the request is sent as the body. */
  predicate HasDataSpread(op: Operation) {
    op.body.definition != "" && !UsesFormPayload(op)
  }

  /**
   * The pattern inside `const { … } = request`: the joined names, then
   * `...data` when the body is spread, and nothing when both are missing.
   */
  function DestructContent(names: seq<string>, spread: bool): (r: string)
    ensures r == "" <==> Join(names, ", ") == "" && !spread
    ensures !spread ==> r == Join(names, ", ")
    ensures spread ==> EndsWith(r, "...data") && StartsWith(r, Join(names, ", "))
    ensures spread ==> r == (if Join(names, ", ") == "" then "" else Join(names, ", ") + ", ") + "...data"
  {
    var destruct := Join(names, ", ");
    if destruct != "" && spread then destruct + ", ...data"
    else if destruct != "" then destruct
    else if spread then "...data"
    else ""
  }

  /** The destructuring line, omitted when the pattern would be empty. */
  function DestructLine(content: string): (r: string)
    ensures r == "" <==> content == ""
    ensures content != "" ==> r == "\n  const { " + content + " } = request;"
  {
    if content != "" then "\n  const { " + content + " } = request;" else ""
  }

  /**
   * The destructuring statement is left out exactly when there is no body to
   * spread and the name list joins to nothing: no names, or the single empty
   * name.
   */
  lemma DestructLineOmitted(names: seq<string>, spread: bool)
    ensures DestructLine(DestructContent(names, spread)) == "" <==> (names == [] || names == [""]) && !spread
  {
    JoinIsEmpty(names, ", ");
  }

  // ---------------------------------------------------------------------
  // The `params` and `headers` objects
  // ---------------------------------------------------------------------

  /** One entry of the `params` / `headers` literal: the bare name, or `'n': request['n']` for a name that is not an identifier. */
  function Entry(n: string): (r: string)
    ensures IsIdent(n) <==> r == n
    ensures !IsIdent(n) ==> r == "'" + n + "': request['" + n + "']"
  {
    if IsIdent(n) then n else "'" + n + "': request['" + n + "']"
  }

  function Entries(names: seq<string>): (r: seq<string>)
    ensures |r| == |names|
    ensures forall k :: 0 <= k < |r| ==> r[k] == Entry(names[k])
  {
    seq(|names|, i requires 0 <= i < |names| => Entry(names[i]))
  }

  /** `const <name> = { … };` with one entry per name, in input order, or "" when the schema is absent. */
  function ObjectInit(variable: string, schema: Option<string>, names: seq<string>): (r: string)
    ensures schema.None? <==> r == ""
    ensures schema.Some? ==> r == "const " + variable + " = { " + Join(Entries(names), ", ") + " };"
  {
    if schema.Some? then "const " + variable + " = { " + Join(Entries(names), ", ") + " };" else ""
  }

  /**
   * The header names reach the literal already filtered to identifiers, so
   * every entry of the `headers` object is a bare name.
   */
  lemma HeaderEntriesAreBare(ps: seq<SpecParam>)
    ensures Entries(HeaderParamNames(ps)) == HeaderParamNames(ps)
  {
    var hs := HeaderParamNames(ps);
    forall k | 0 <= k < |hs| ensures Entries(hs)[k] == hs[k] {
      assert hs[k] in hs;
    }
  }

  // ---------------------------------------------------------------------
  // The request type
  // ---------------------------------------------------------------------

  /** `<Op>PathParams`, the name of the inline path-params type. */
  function PathParamsTypeName(op: Operation): string {
    op.pascalName + "PathParams"
  }

  /** `export type <name> = {\n ` */
  function ObjectTypeHead(typeName: string): string {
    "export type " + typeName + " = {\n "
  }

  /** `export type <name> = {\n <definitions>\n }`: the head, the definitions, and the closing line. */
  function InlineObjectType(typeName: string, definitions: string): (r: string)
    ensures |r| == |ObjectTypeHead(typeName)| + |definitions| + 3
    ensures StartsWith(r, ObjectTypeHead(typeName)) && EndsWith(r, "\n }")
    ensures r[|ObjectTypeHead(typeName)|..|r| - 3] == definitions
  {
    var head := ObjectTypeHead(typeName);
    var r := head + definitions + "\n }";
    ConcatStartsAndEnds(head, definitions + "\n }");
    ConcatStartsAndEnds(head + definitions, "\n }");
    Associative(head, definitions, "\n }");
    assert r[|head|..|r| - 3] == definitions;
    r
  }

  /** The path-params member of the intersection: the named schema, else the inline type, else nothing. */
  function PathParamsPart(op: Operation): seq<string> {
    if NamedSchemaName(op.props) != "" then [NamedSchemaName(op.props)]
    else if PathParamNames(op.props) != [] then [PathParamsTypeName(op)]
    else []
  }

  /** `intersectionParts`: body, query schema, header schema and path params, in that order. */
  function IntersectionParts(op: Operation): (r: seq<string>)
    ensures r == [] <==> op.body.definition == "" && op.queryParams.None? && op.headers.None?
                         && NamedSchemaName(op.props) == "" && PathParamNames(op.props) == []
    ensures |r| == (if op.body.definition != "" then 1 else 0) + (if op.queryParams.Some? then 1 else 0)
                   + (if op.headers.Some? then 1 else 0)
                   + (if NamedSchemaName(op.props) != "" || PathParamNames(op.props) != [] then 1 else 0)
    ensures op.body.definition != "" ==> r[0] == op.body.definition
    ensures op.queryParams.Some? ==> r[if op.body.definition != "" then 1 else 0] == op.queryParams.value
    ensures op.headers.Some? ==>
              r[(if op.body.definition != "" then 1 else 0) + (if op.queryParams.Some? then 1 else 0)] == op.headers.value
    ensures NamedSchemaName(op.props) != "" ==> r[|r| - 1] == NamedSchemaName(op.props)
    ensures NamedSchemaName(op.props) == "" && PathParamNames(op.props) != [] ==>
              r[|r| - 1] == PathParamsTypeName(op)
  {
    (if op.body.definition != "" then [op.body.definition] else [])
    + (match op.queryParams case Some(q) => [q] case None => [])
    + (match op.headers case Some(h) => [h] case None => [])
    + PathParamsPart(op)
  }

  /** The inline `<Op>PathParams` type, emitted only when there is no named schema and some `param` property. */
  function PathParamsTypeDef(op: Operation): (r: string)
    ensures r != "" <==> NamedSchemaName(op.props) == "" && PathParamNames(op.props) != []
    ensures r != "" ==> var head := ObjectTypeHead(PathParamsTypeName(op));
                        && StartsWith(r, head) && EndsWith(r, "\n }") && |head| + 3 <= |r|
                        && r[|head|..|r| - 3] == Join(PathParamDefinitions(op.props), ",\n ")
  {
    if NamedSchemaName(op.props) == "" && PathParamNames(op.props) != [] then
      InlineObjectType(PathParamsTypeName(op), Join(PathParamDefinitions(op.props), ",\n "))
    else ""
  }

  /** `export type <Op>Request = Expand<…>`, falling back to `Record<string, never>` when nothing is intersected. */
  function RequestTypeDef(op: Operation): (r: string)
    ensures IntersectionParts(op) == [] ==>
              r == "export type " + op.pascalName + "Request = Expand<Record<string, never>>"
    ensures IntersectionParts(op) != [] ==>
              r == "export type " + op.pascalName + "Request = Expand<" + Join(IntersectionParts(op), " & ") + ">"
  {
    var parts := IntersectionParts(op);
    "export type " + op.pascalName + "Request = Expand<"
    + (if parts != [] then Join(parts, " & ") else "Record<string, never>") + ">"
  }

  /** The request type, then the inline path-params type when one was made. */
  function Declarations(op: Operation): (r: seq<string>)
    ensures |r| >= 1 && r[0] == RequestTypeDef(op)
    ensures |r| == 2 <==> PathParamsTypeDef(op) != ""
    ensures |r| <= 2 && (|r| == 2 ==> r[1] == PathParamsTypeDef(op))
  {
    [RequestTypeDef(op)] + (if PathParamsTypeDef(op) != "" then [PathParamsTypeDef(op)] else [])
  }

  /** The parameter `request: <Op>Request`. */
  function RequestParam(op: Operation): FnParam {
    Named("request", op.pascalName + "Request", false)
  }

  // ---------------------------------------------------------------------
  // Everything the single-argument branches emit before the call
  // ---------------------------------------------------------------------

  /** The body snippet with every occurrence of the body's identifier renamed to `request`. */
  function BodyFormFor(op: Operation, bodyForm: string): (r: string)
    ensures !(op.override.useSingleRequestArgument && op.body.definition != "") ==> r == bodyForm
    ensures op.override.useSingleRequestArgument && op.body.definition != "" && op.body.implementation != "" ==>
              r == Join(Split(bodyForm, op.body.implementation), "request")
  {
    if op.override.useSingleRequestArgument && op.body.definition != "" then
      var r := ReplaceAll(bodyForm, op.body.implementation, "request");
      assert op.body.implementation != "" ==> r == Join(Split(bodyForm, op.body.implementation), "request") by {
        if op.body.implementation != "" {
          ReplaceAllIsSplitJoin(bodyForm, op.body.implementation, "request");
        }
      }
      r
    else bodyForm
  }

  /**
   * In the single-argument form with a body, the snippet is the text cut at
   * every occurrence of the body's identifier and joined again with
   * `request`: no occurrence is left behind.
   */
  lemma BodyFormRenamesEveryOccurrence(op: Operation, bodyForm: string)
    requires op.override.useSingleRequestArgument && op.body.definition != "" && op.body.implementation != ""
    ensures var pieces := Split(bodyForm, op.body.implementation);
            && Join(pieces, op.body.implementation) == bodyForm
            && (forall k :: 0 <= k < |pieces| ==> !Contains(pieces[k], op.body.implementation))
            && BodyFormFor(op, bodyForm) == Join(pieces, "request")
  {
    JoinSplit(bodyForm, op.body.implementation);
    SplitPiecesAvoidSeparator(bodyForm, op.body.implementation);
  }

  /**
   * The four statements before the call: the destructuring line, the body
   * snippet, and the `params` and `headers` objects.
   */
  function Prelude(op: Operation, braceRoute: string, route: string, ps: seq<SpecParam>, bodyForm: string): (r: seq<string>)
    ensures |r| == 4
    ensures r[0] == "" <==> Join(DestructNames(op.props, braceRoute, route, ps), ", ") == "" && !HasDataSpread(op)
    ensures !(op.override.useSingleRequestArgument && op.body.definition != "") ==> r[1] == bodyForm
    ensures r[2] == "" <==> op.queryParams.None?
    ensures r[3] == "" <==> op.headers.None?
    ensures r[0] == DestructLine(DestructContent(DestructNames(op.props, braceRoute, route, ps), HasDataSpread(op)))
    ensures r[1] == BodyFormFor(op, bodyForm)
    ensures r[2] == ObjectInit("params", op.queryParams, QueryParamNames(ps))
    ensures r[3] == ObjectInit("headers", op.headers, HeaderParamNames(ps))
  {
    var names := DestructNames(op.props, braceRoute, route, ps);
    [ DestructLine(DestructContent(names, HasDataSpread(op))),
      BodyFormFor(op, bodyForm),
      ObjectInit("params", op.queryParams, QueryParamNames(ps)),
      ObjectInit("headers", op.headers, HeaderParamNames(ps)) ]
  }

  // ---------------------------------------------------------------------
  // Properties over well-formed routes
  // ---------------------------------------------------------------------

  /**
   * When `route` and `pathRoute` spell the same placeholders (`/a/${x}` and
   * `/a/{x}`), scanning braces in either gives the same route names: the two
   * generators agree on such routes.
   */
  lemma BraceRouteChoiceAgrees(segs: seq<Segment>)
    requires WellFormed(segs)
    ensures RouteParamNames(PathTemplate(segs), RouteTemplate(segs))
            == RouteParamNames(RouteTemplate(segs), RouteTemplate(segs))
  {
    BraceParamsOfPathTemplate(segs);
    BraceParamsOfRouteTemplate(segs);
  }

  /**
   * The route names of a well-formed route are its placeholders, once each,
   * identifiers only.
   */
  lemma RouteParamNamesOfTemplate(segs: seq<Segment>)
    requires WellFormed(segs)
    ensures RouteParamNames(RouteTemplate(segs), RouteTemplate(segs))
            == Filter(Distinct(PlaceholderNames(segs)), IsIdent)
  {
    var ns := PlaceholderNames(segs);
    BraceParamsOfRouteTemplate(segs);
    TemplateParamsOfRouteTemplate(segs);
    DistinctAbsorbs(ns, ns);
  }

  /**
   * An operation whose only parameters are path properties named like the
   * placeholders of its route destructures exactly those names, once each,
   * in property order — a name found both as a property and in the route is
   * bound once.
   */
  lemma PathOnlyDestructure(props: seq<Prop>, segs: seq<Segment>)
    requires WellFormed(segs)
    requires PathParamNames(props) == PlaceholderNames(segs)
    requires NoDuplicates(PathParamNames(props))
    requires FindNamed(props).None?
    ensures DestructNames(props, PathTemplate(segs), RouteTemplate(segs), []) == PathParamNames(props)
  {
    var pn, braceRoute, route := PathParamNames(props), PathTemplate(segs), RouteTemplate(segs);
    var rn := RouteParamNames(braceRoute, route);
    SourcesWithoutNamedSchema(props, braceRoute, route);
    RouteNamesArePlaceholders(segs);
    DistinctAbsorbs(pn, rn);
    DistinctOfDistinct(pn);
  }

  /** Without a named schema and spec parameters, only the path properties and the route supply names. */
  lemma SourcesWithoutNamedSchema(props: seq<Prop>, braceRoute: string, route: string)
    requires FindNamed(props).None?
    ensures NameSources(props, braceRoute, route, []) == PathParamNames(props) + RouteParamNames(braceRoute, route)
  {
    assert Filter(QueryParamNames([]), IsIdent) == [];
    assert Filter(HeaderParamNames([]), IsIdent) == [];
  }

  /** The names read from a well-formed route, in either template syntax, are its placeholders. */
  lemma RouteNamesArePlaceholders(segs: seq<Segment>)
    requires WellFormed(segs)
    ensures forall n :: n in RouteParamNames(PathTemplate(segs), RouteTemplate(segs)) ==> n in PlaceholderNames(segs)
  {
    BraceParamsOfPathTemplate(segs);
    TemplateParamsOfRouteTemplate(segs);
  }
}
