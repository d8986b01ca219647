/**
 * The axios client generator: its dependency list, the file header, the
 * request function it emits for one operation, and the table of deferred
 * result types that the footer writes out once every operation has been
 * generated.
 */
module AxiosClient {
  import opened JsText
  import opened Model
  import opened SingleRequest

  // ---------------------------------------------------------------------
  // Dependencies
  // ---------------------------------------------------------------------

  /** One imported name of a dependency. */
  datatype Export = Export(name: string, isDefault: bool, values: bool, syntheticDefaultImport: bool)

  /** A package the generated file imports from, with the names it takes. */
  datatype Dependency = Dependency(exports: seq<Export>, dependency: string)

  /** `axios` itself (default import) with `AxiosRequestConfig` and `AxiosResponse`. */
  const AxiosDependencies: seq<Dependency> := [
    Dependency([ Export("axios", true, true, true),
                 Export("AxiosRequestConfig", false, false, false),
                 Export("AxiosResponse", false, false, false) ], "axios")
  ]

  /** `qs` (default import), used to serialise query parameters. */
  const ParamsSerializerDependencies: seq<Dependency> := [
    Dependency([ Export("qs", true, true, true) ], "qs")
  ]

  /** The file imports from `pkg`. */
  predicate Imports(deps: seq<Dependency>, pkg: string) {
    exists k :: 0 <= k < |deps| && deps[k].dependency == pkg
  }

  /**
   * `getAxiosDependencies`: the axios block unless a global mutator replaces
   * the transport, then the `qs` block when params-serializer options are set.
   */
  function Dependencies(hasGlobalMutator: bool, hasParamsSerializerOptions: bool): (r: seq<Dependency>)
    ensures Imports(r, "axios") <==> !hasGlobalMutator
    ensures Imports(r, "qs") <==> hasParamsSerializerOptions
    ensures forall i, j :: 0 <= i < |r| && 0 <= j < |r| && r[i].dependency == "axios" && r[j].dependency == "qs" ==> i < j
    ensures forall k :: 0 <= k < |r| ==> r[k] in AxiosDependencies + ParamsSerializerDependencies
  {
    var r := (if hasGlobalMutator then [] else AxiosDependencies)
             + (if hasParamsSerializerOptions then ParamsSerializerDependencies else []);
    assert !hasGlobalMutator ==> r[0].dependency == "axios";
    assert hasParamsSerializerOptions ==> r[|r| - 1].dependency == "qs";
    r
  }

  // ---------------------------------------------------------------------
  // Header
  // ---------------------------------------------------------------------

  /** The helper type that names a mutator's second parameter. */
  const SecondParameterAlias: string :=
    "type SecondParameter<T extends (...args: never) => unknown> = Parameters<T>[1];\n\n"

  /** The opening of the factory function that wraps every request function. */
  function FactoryOpening(title: string): string {
    "export const " + title + " = () => {\n"
  }

  /**
   * `generateAxiosHeader`: the `SecondParameter` alias when request options
   * reach a mutator, then the factory opening unless functions are emitted
   * on their own.
   */
  function Header(title: string, isRequestOptions: bool, isMutator: bool, noFunction: bool): (r: string)
    ensures isRequestOptions && isMutator ==> StartsWith(r, "\n" + SecondParameterAlias + "\n  ")
    ensures !(isRequestOptions && isMutator) ==> StartsWith(r, "\n\n  ")
    ensures !noFunction ==> EndsWith(r, FactoryOpening(title))
    ensures noFunction ==> EndsWith(r, "\n  ")
    ensures |r| == 4 + (if isRequestOptions && isMutator then |SecondParameterAlias| else 0)
                   + (if noFunction then 0 else |FactoryOpening(title)|)
  {
    var alias := if isRequestOptions && isMutator then SecondParameterAlias else "";
    var opening := if noFunction then "" else FactoryOpening(title);
    ConcatStartsAndEnds("\n" + alias + "\n  ", opening);
    assert "\n" + "" + "\n  " == "\n\n  ";
    "\n" + alias + "\n  " + opening
  }

  // ---------------------------------------------------------------------
  // Deferred result types
  // ---------------------------------------------------------------------

  /**
   * What `returnTypesToWrite` holds for one operation: a producer of its
   * `<Op>Result` type. The mutator producer depends on the factory's title;
   * the axios producer does not.
   */
  datatype Producer =
    | MutatorResult(operationName: string, pascalName: string)
    | AxiosResult(pascalName: string, success: string)

  /** The producer an operation registers. */
  function ProducerFor(op: Operation): (p: Producer)
    ensures p.pascalName == op.pascalName
    ensures p.MutatorResult? <==> op.mutator.Some?
    ensures p.MutatorResult? ==> p.operationName == op.operationName
    ensures p.AxiosResult? ==> p.success == op.response.success
  {
    if op.mutator.Some? then MutatorResult(op.operationName, op.pascalName)
    else AxiosResult(op.pascalName, op.response.success)
  }

  /** A title that JavaScript treats as present: given and not empty. */
  predicate HasTitle(title: Option<string>) {
    title.Some? && title.value != ""
  }

  /**
   * The type the mutator's result is read from: the operation as a member
   * of the factory's return value when there is a title, else the
   * standalone function.
   */
  function ResultSubject(operationName: string, title: Option<string>): (r: string)
    ensures HasTitle(title) ==> r == "ReturnType<typeof " + title.value + ">['" + operationName + "']"
    ensures !HasTitle(title) ==> r == "typeof " + operationName
  {
    if HasTitle(title) then "ReturnType<typeof " + title.value + ">['" + operationName + "']"
    else "typeof " + operationName
  }

  /** The head every result type starts with. */
  function ResultHead(pascalName: string): string {
    "export type " + pascalName + "Result = "
  }

  /** The text a producer makes for a given title. */
  function ResultType(p: Producer, title: Option<string>): (r: string)
    ensures StartsWith(r, ResultHead(p.pascalName))
    ensures p.AxiosResult? ==> r == ResultHead(p.pascalName) + "AxiosResponse<" + OrUnknown(p.success) + ">"
    ensures p.MutatorResult? ==>
              r == ResultHead(p.pascalName) + "NonNullable<Awaited<ReturnType<" + ResultSubject(p.operationName, title) + ">>>"
  {
    var head := ResultHead(p.pascalName);
    match p
    case MutatorResult(op, _) =>
      HeadOfThree(head, "NonNullable<Awaited<ReturnType<", ResultSubject(op, title), ">>>");
      head + "NonNullable<Awaited<ReturnType<" + ResultSubject(op, title) + ">>>"
    case AxiosResult(_, success) =>
      HeadOfThree(head, "AxiosResponse<", OrUnknown(success), ">");
      head + "AxiosResponse<" + OrUnknown(success) + ">"
  }

  lemma HeadOfThree(head: string, a: string, b: string, c: string)
    ensures StartsWith(head + a + b + c, head)
  {
    assert (head + a + b + c)[..|head|] == head;
  }

  /** The axios producer ignores the title it is given. */
  lemma AxiosResultIgnoresTitle(p: Producer, t1: Option<string>, t2: Option<string>)
    requires p.AxiosResult?
    ensures ResultType(p, t1) == ResultType(p, t2)
  {
  }

  /** The line the footer writes for one operation name: its result type, or nothing when it has no entry. */
  function ResultLine(table: map<string, Producer>, name: string, title: Option<string>): (r: string)
    ensures name in table <==> r != ""
    ensures name in table ==> r == ResultType(table[name], title) + "\n"
  {
    if name in table then ResultType(table[name], title) + "\n" else ""
  }

  /** The result-type lines for `names`, in order. */
  function ResultLines(table: map<string, Producer>, names: seq<string>, title: Option<string>): string
  {
    if names == [] then ""
    else ResultLines(table, names[..|names| - 1], title) + ResultLine(table, names[|names| - 1], title)
  }

  lemma ResultLinesStep(table: map<string, Producer>, names: seq<string>, i: nat, title: Option<string>)
    requires i < |names|
    ensures ResultLines(table, names[..i + 1], title) == ResultLines(table, names[..i], title) + ResultLine(table, names[i], title)
  {
    assert names[..i + 1][..i] == names[..i];
  }

  /** Appending the next name's line to the footer keeps it the head followed by the lines so far. */
  lemma FooterGrows(table: map<string, Producer>, names: seq<string>, i: nat, title: Option<string>,
                    head: string, before: string, after: string)
    requires i < |names| && before == head + ResultLines(table, names[..i], title)
    requires after == before + ResultLine(table, names[i], title)
    ensures after == head + ResultLines(table, names[..i + 1], title)
  {
    ResultLinesStep(table, names, i, title);
    Associative(head, ResultLines(table, names[..i], title), ResultLine(table, names[i], title));
  }

  /** The lines for a concatenation of name lists are the lines of each list, one after the other. */
  lemma {:induction false} ResultLinesAppend(table: map<string, Producer>, a: seq<string>, b: seq<string>, title: Option<string>)
    ensures ResultLines(table, a + b, title) == ResultLines(table, a, title) + ResultLines(table, b, title)
    decreases |b|
  {
    if b == [] {
      assert a + b == a;
    } else {
      var ab, bInit, last := a + b, b[..|b| - 1], b[|b| - 1];
      assert ab[..|ab| - 1] == a + bInit;
      assert ab[|ab| - 1] == last;
      var line := ResultLine(table, last, title);
      assert ResultLines(table, ab, title) == ResultLines(table, a + bInit, title) + line;
      assert ResultLines(table, b, title) == ResultLines(table, bInit, title) + line;
      ResultLinesAppend(table, a, bInit, title);
      Associative(ResultLines(table, a, title), ResultLines(table, bInit, title), line);
    }
  }

  /**
   * With the append lemma above, these fix the lines completely: one name
   * gives its own line, and names without an entry add nothing.
   */
  lemma ResultLinesOfOne(table: map<string, Producer>, name: string, title: Option<string>)
    ensures ResultLines(table, [name], title) == ResultLine(table, name, title)
  {
    assert [name][..0] == [];
  }

  lemma {:induction false} ResultLinesWithoutEntries(table: map<string, Producer>, names: seq<string>, title: Option<string>)
    requires forall k :: 0 <= k < |names| ==> names[k] !in table
    ensures ResultLines(table, names, title) == ""
  {
    if names != [] {
      ResultLinesWithoutEntries(table, names[..|names| - 1], title);
    }
  }

  /** An entry for a name the footer does not list changes nothing in it. */
  lemma {:induction false} ResultLinesIgnoreOtherEntries(table: map<string, Producer>, other: string, p: Producer,
                                                         names: seq<string>, title: Option<string>)
    requires other !in names
    ensures ResultLines(table[other := p], names, title) == ResultLines(table, names, title)
  {
    if names != [] {
      assert names[|names| - 1] != other;
      assert forall x :: x in names[..|names| - 1] ==> x in names;
      ResultLinesIgnoreOtherEntries(table, other, p, names[..|names| - 1], title);
    }
  }

  /** A name listed twice gets its line twice: the footer does not de-duplicate. */
  lemma ResultLinesRepeat(table: map<string, Producer>, name: string, title: Option<string>)
    ensures ResultLines(table, [name, name], title) == ResultLine(table, name, title) + ResultLine(table, name, title)
  {
    ResultLinesAppend(table, [name], [name], title);
    ResultLinesOfOne(table, name, title);
    assert [name] + [name] == [name, name];
  }

  /** The `return { … }};` that closes the factory, only when there is one. */
  function ReturnBlock(names: seq<string>, noFunction: bool): (r: string)
    ensures noFunction <==> r == ""
    ensures !noFunction ==> StartsWith(r, "return {" + Join(names, ",")) && EndsWith(r, "}};\n")
    ensures !noFunction ==> |r| == 12 + |Join(names, ",")|
  {
    if noFunction then ""
    else
      ConcatStartsAndEnds("return {" + Join(names, ","), "}};\n");
      "return {" + Join(names, ",") + "}};\n"
  }

  /** The local `Awaited` helper, needed by mutator result types when the output has no `Awaited` of its own. */
  const AwaitedHelper: string :=
    "\ntype AwaitedInput<T> = PromiseLike<T> | T;\n\n    type Awaited<O> = O extends AwaitedInput<infer T> ? T : never;\n\n"

  function AwaitedBlock(hasMutator: bool, hasAwaitedType: bool): (r: string)
    ensures r != "" <==> hasMutator && !hasAwaitedType
    ensures r != "" ==> r == AwaitedHelper
  {
    if hasMutator && !hasAwaitedType then AwaitedHelper else ""
  }

  /** The producers see the title only when there is a factory to name. */
  function TitleArgument(title: string, noFunction: bool): (r: Option<string>)
    ensures r.Some? <==> !noFunction
    ensures HasTitle(r) <==> !noFunction && title != ""
  {
    if noFunction then None else Some(title)
  }

  /** `generateAxiosFooter`: the factory's return, the `Awaited` helper, then one result type per listed operation. */
  function FooterText(table: map<string, Producer>, names: seq<string>, title: string,
                      noFunction: bool, hasMutator: bool, hasAwaitedType: bool): (r: string)
    ensures StartsWith(r, ReturnBlock(names, noFunction) + AwaitedBlock(hasMutator, hasAwaitedType))
    ensures EndsWith(r, ResultLines(table, names, TitleArgument(title, noFunction)))
    ensures |r| == |ReturnBlock(names, noFunction)| + |AwaitedBlock(hasMutator, hasAwaitedType)|
                   + |ResultLines(table, names, TitleArgument(title, noFunction))|
  {
    var lead := ReturnBlock(names, noFunction) + AwaitedBlock(hasMutator, hasAwaitedType);
    var lines := ResultLines(table, names, TitleArgument(title, noFunction));
    ConcatStartsAndEnds(lead, lines);
    lead + lines
  }

  /** Every mutator producer is stored under the operation it names. */
  predicate KeyedByOperation(table: map<string, Producer>) {
    forall name :: name in table && table[name].MutatorResult? ==> table[name].operationName == name
  }

  /**
   * In a table keyed by operation, the line for a mutator entry reads the
   * result type of the very operation it is listed under: `typeof name`, or
   * the member `name` of the factory when there is a title.
   */
  lemma MutatorLineNamesItsOperation(table: map<string, Producer>, name: string, title: Option<string>)
    requires KeyedByOperation(table)
    requires name in table && table[name].MutatorResult?
    ensures ResultLine(table, name, title)
            == ResultHead(table[name].pascalName) + "NonNullable<Awaited<ReturnType<" + ResultSubject(name, title) + ">>>" + "\n"
  {
  }

  lemma MutatorLinesNameTheirOperations(table: map<string, Producer>, names: seq<string>, title: Option<string>)
    requires KeyedByOperation(table)
    ensures forall k :: 0 <= k < |names| && names[k] in table && table[names[k]].MutatorResult? ==>
              ResultLine(table, names[k], title)
              == ResultHead(table[names[k]].pascalName) + "NonNullable<Awaited<ReturnType<"
                 + ResultSubject(names[k], title) + ">>>" + "\n"
  {
    forall k | 0 <= k < |names| && names[k] in table && table[names[k]].MutatorResult?
      ensures ResultLine(table, names[k], title)
              == ResultHead(table[names[k]].pascalName) + "NonNullable<Awaited<ReturnType<"
                 + ResultSubject(names[k], title) + ">>>" + "\n"
    {
      MutatorLineNamesItsOperation(table, names[k], title);
    }
  }

  /**
   * `returnTypesToWrite`: operation name to result-type producer, written by
   * every generated operation (a later write for the same name wins) and
   * read by the footer.
   */
  class ReturnTypeTable {
    var producers: map<string, Producer>

    /** Every mutator producer is stored under the operation it names. */
    predicate Valid()
      reads this
    {
      KeyedByOperation(producers)
    }

    constructor()
      ensures producers == map[]
      ensures Valid()
    {
      producers := map[];
    }

    /** `returnTypesToWrite.set(name, p)` */
    method Set(name: string, p: Producer)
      requires Valid()
      requires p.MutatorResult? ==> p.operationName == name
      modifies this
      ensures producers == old(producers)[name := p]
      ensures Valid()
    {
      producers := producers[name := p];
    }

    /** `generateAxiosFooter`, building the text with one `+=` per listed operation. */
    method Footer(names: seq<string>, title: string, noFunction: bool, hasMutator: bool, hasAwaitedType: bool)
      returns (footer: string)
      requires Valid()
      ensures footer == FooterText(producers, names, title, noFunction, hasMutator, hasAwaitedType)
      ensures forall k :: 0 <= k < |names| && names[k] in producers && producers[names[k]].MutatorResult? ==>
                ResultLine(producers, names[k], TitleArgument(title, noFunction))
                == ResultHead(producers[names[k]].pascalName) + "NonNullable<Awaited<ReturnType<"
                   + ResultSubject(names[k], TitleArgument(title, noFunction)) + ">>>" + "\n"
    {
      footer := "";
      if !noFunction {
        footer := footer + ReturnBlock(names, false);
      }
      if hasMutator && !hasAwaitedType {
        footer := footer + AwaitedHelper;
      }
      assert footer == ReturnBlock(names, noFunction) + AwaitedBlock(hasMutator, hasAwaitedType);
      var titleArg := TitleArgument(title, noFunction);
      footer := AppendResultLines(footer, names, titleArg);
      MutatorLinesNameTheirOperations(producers, names, titleArg);
    }

    /** The loop of `generateAxiosFooter`: one result-type line per listed operation that has a producer. */
    method AppendResultLines(head: string, names: seq<string>, titleArg: Option<string>) returns (footer: string)
      ensures footer == head + ResultLines(producers, names, titleArg)
    {
      footer := head;
      var i := 0;
      while i < |names|
        invariant 0 <= i <= |names|
        invariant footer == head + ResultLines(producers, names[..i], titleArg)
      {
        ghost var before := footer;
        footer := footer + ResultLine(producers, names[i], titleArg);
        FooterGrows(producers, names, i, titleArg, head, before, footer);
        i := i + 1;
      }
      assert names[..|names|] == names;
    }

    /** `generateAxiosImplementation` for one operation: registers its producer and returns the function. */
    method Generate(op: Operation, target: Target, rendered: Rendered) returns (impl: Implementation)
      requires Valid()
      modifies this
      ensures impl == AxiosImplementation(op, target, rendered)
      ensures producers == old(producers)[op.operationName := ProducerFor(op)]
      ensures Valid()
    {
      Set(op.operationName, ProducerFor(op));
      impl := AxiosImplementation(op, target, rendered);
    }
  }

  // ---------------------------------------------------------------------
  // The request function
  // ---------------------------------------------------------------------

  /** `intersectionParts` and `pathParamsTypeDef`, built with `push` and reassignment as the generator does. */
  method BuildRequestType(op: Operation) returns (parts: seq<string>, pathParamsTypeDef: string)
    ensures parts == IntersectionParts(op)
    ensures pathParamsTypeDef == PathParamsTypeDef(op)
  {
    parts := [];
    if op.body.definition != "" {
      parts := parts + [op.body.definition];
    }
    if op.queryParams.Some? {
      parts := parts + [op.queryParams.value];
    }
    if op.headers.Some? {
      parts := parts + [op.headers.value];
    }
    ghost var schemas := parts;
    assert schemas == (if op.body.definition != "" then [op.body.definition] else [])
                      + (match op.queryParams case Some(q) => [q] case None => [])
                      + (match op.headers case Some(h) => [h] case None => []);
    pathParamsTypeDef := "";
    var named := NamedSchemaName(op.props);
    if named != "" {
      parts := parts + [named];
    } else if PathParamNames(op.props) != [] {
      var pathDefs := Join(PathParamDefinitions(op.props), ",\n ");
      var pathParamsTypeName := PathParamsTypeName(op);
      pathParamsTypeDef := InlineObjectType(pathParamsTypeName, pathDefs);
      parts := parts + [pathParamsTypeName];
    }
    assert parts == schemas + PathParamsPart(op);
  }

  /** The non-mutator branch takes `request` only when its type intersects something. */
  predicate HasRequest(op: Operation) {
    IntersectionParts(op) != []
  }

  /** The generated function takes `request`: always in the mutator's single-argument form, only with something to intersect otherwise. */
  predicate AxiosTakesRequest(op: Operation) {
    op.override.useSingleRequestArgument && (op.mutator.Some? || HasRequest(op))
  }

  /** The parameters before the options: `request`, the rendered props list, or nothing. */
  function LeadingParams(op: Operation, rendered: Rendered): (r: seq<FnParam>)
    ensures HasParam(r, "request") <==> AxiosTakesRequest(op)
    ensures HasPropsList(r) <==> !op.override.useSingleRequestArgument
    ensures !HasParam(r, "options")
    ensures AxiosTakesRequest(op) ==> r == [RequestParam(op)]
    ensures op.override.useSingleRequestArgument && !AxiosTakesRequest(op) ==> r == []
    ensures !op.override.useSingleRequestArgument ==>
              r == [PropsList(if op.mutator.Some? then rendered.mutatorPropsText else rendered.propsText)]
  {
    var r := if AxiosTakesRequest(op) then [RequestParam(op)]
             else if op.override.useSingleRequestArgument then []
             else [PropsList(if op.mutator.Some? then rendered.mutatorPropsText else rendered.propsText)];
    assert r != [] ==> r[0] in r;
    r
  }

  /**
   * The options parameter: `options: SecondParameter<typeof m<Success>>`
   * through a mutator (optional unless the output requires it), else
   * `options?: AxiosRequestConfig`.
   */
  function OptionsParams(op: Operation, target: Target): (r: seq<FnParam>)
    ensures OnlyOptions(r) && !HasPropsList(r)
    ensures HasParam(r, "options") <==> PassesOptions(op)
    ensures |r| <= 1
    ensures PassesOptions(op) && op.mutator.Some? ==>
              r == [Named("options", "SecondParameter<typeof " + op.mutator.value.name + "<" + OrUnknown(op.response.success) + ">>",
                          !target.optionsParamRequired)]
    ensures PassesOptions(op) && op.mutator.None? ==> r == [Named("options", "AxiosRequestConfig", true)]
  {
    var r := if !PassesOptions(op) then []
             else match op.mutator
               case Some(m) =>
                 [Named("options", "SecondParameter<typeof " + m.name + "<" + OrUnknown(op.response.success) + ">>",
                        !target.optionsParamRequired)]
               case None => [Named("options", "AxiosRequestConfig", true)];
    assert r != [] ==> r[0] in r;
    r
  }

  /**
   * `generateAxiosImplementation`: the request function for one operation,
   * in five shapes — mutator or default transport, each with the single
   * `request` argument or the classic parameter list, and the default
   * transport's single-argument form without `request` when nothing would
   * be intersected into its type. The generated function is not exported
   * by itself: it sits inside the factory, or the caller prefixes it.
   */
  function AxiosImplementation(op: Operation, target: Target, rendered: Rendered): (r: Implementation)
    ensures r.name == op.operationName && !r.exported
    ensures r.params == LeadingParams(op, rendered) + OptionsParams(op, target)
    ensures op.mutator.Some? ==> r.callee == op.mutator.value.name && r.dataType.None?
    ensures op.mutator.None? ==> r.callee == AxiosCallee(op.verb, target.syntheticDefaultImports)
                                 && r.dataType == Some("AxiosResponse<" + OrUnknown(op.response.success) + ">")
  {
    var params := LeadingParams(op, rendered) + OptionsParams(op, target);
    var statements := if AxiosTakesRequest(op)
                      then Prelude(op, target.pathRoute, target.route, target.specParams, rendered.bodyForm)
                      else [rendered.bodyForm];
    var declarations := if AxiosTakesRequest(op) then Declarations(op) else [];
    match op.mutator
    case Some(m) =>
      var second := if op.override.useSingleRequestArgument
                    then (if PassesOptions(op) then "options" else "")
                    else (if op.override.requestOptions then rendered.mutatorRequestOptions else "");
      Implementation(false, op.operationName, None, params, None, statements,
                     m.name, Some(OrUnknown(op.response.success)), [rendered.mutatorConfig, second], declarations)
    case None =>
      Implementation(false, op.operationName, Some("AxiosResponse<" + OrUnknown(op.response.success) + ">"),
                     params, Some("Promise<TData>"), statements,
                     AxiosCallee(op.verb, target.syntheticDefaultImports), None, [rendered.options], declarations)
  }

  /**
   * The function takes `request` exactly in the single-argument style,
   * except over axios when its request type would intersect nothing; it
   * takes the props list exactly in the classic style, and `options`
   * exactly when request options reach the transport.
   */
  lemma AxiosParameters(op: Operation, target: Target, rendered: Rendered)
    ensures var r := AxiosImplementation(op, target, rendered);
            && (TakesRequest(r) <==> op.override.useSingleRequestArgument && (op.mutator.Some? || HasRequest(op)))
            && (TakesPropsList(r) <==> !op.override.useSingleRequestArgument)
            && (HasParam(r.params, "options") <==> PassesOptions(op))
  {
    var lead, opts := LeadingParams(op, rendered), OptionsParams(op, target);
    ParamsAppend(lead, opts);
    assert !HasParam(opts, "request");
  }

  /**
   * A function that takes `request` destructures it and rebuilds `params`
   * and `headers` (axios scans `pathRoute` for `{name}`) and emits the
   * request type after itself; one that does not keeps the body snippet as
   * it is and emits no type.
   */
  lemma AxiosStatements(op: Operation, target: Target, rendered: Rendered)
    ensures var r := AxiosImplementation(op, target, rendered);
            && (TakesRequest(r) ==>
                  r.statements == Prelude(op, target.pathRoute, target.route, target.specParams, rendered.bodyForm)
                  && r.declarations == Declarations(op))
            && (!TakesRequest(r) ==> r.statements == [rendered.bodyForm] && r.declarations == [])
  {
    AxiosParameters(op, target, rendered);
  }

  /**
   * Through a mutator the success type is the call's type argument and the
   * mutator config its first argument; with the single argument, `options`
   * is passed on exactly when it is declared. Over axios the call passes the
   * rendered options and returns `Promise<TData>`.
   */
  lemma AxiosCall(op: Operation, target: Target, rendered: Rendered)
    ensures var r := AxiosImplementation(op, target, rendered);
            && (op.mutator.Some? ==>
                  && r.typeArg == Some(OrUnknown(op.response.success)) && r.returnType.None?
                  && |r.args| == 2 && r.args[0] == rendered.mutatorConfig
                  && (op.override.useSingleRequestArgument ==> (r.args[1] == "options" <==> HasParam(r.params, "options")))
                  && (!op.override.useSingleRequestArgument ==>
                        r.args[1] == (if op.override.requestOptions then rendered.mutatorRequestOptions else "")))
            && (op.mutator.None? ==>
                  r.typeArg.None? && r.returnType == Some("Promise<TData>") && r.args == [rendered.options])
  {
    if op.mutator.Some? {
      MutatorCall(op, target, rendered);
    } else {
      var r := AxiosImplementation(op, target, rendered);
      assert r.args == [rendered.options];
    }
  }

  lemma MutatorCall(op: Operation, target: Target, rendered: Rendered)
    requires op.mutator.Some?
    ensures var r := AxiosImplementation(op, target, rendered);
            && r.typeArg == Some(OrUnknown(op.response.success)) && r.returnType.None?
            && |r.args| == 2 && r.args[0] == rendered.mutatorConfig
            && (op.override.useSingleRequestArgument ==> (r.args[1] == "options" <==> HasParam(r.params, "options")))
            && (!op.override.useSingleRequestArgument ==>
                  r.args[1] == (if op.override.requestOptions then rendered.mutatorRequestOptions else ""))
  {
    MutatorArgs(op, target, rendered);
    AxiosParameters(op, target, rendered);
  }

  /** The step of `MutatorCall` that reads the call off the implementation. */
  lemma MutatorArgs(op: Operation, target: Target, rendered: Rendered)
    requires op.mutator.Some?
    ensures var r := AxiosImplementation(op, target, rendered);
            && r.typeArg == Some(OrUnknown(op.response.success)) && r.returnType.None?
            && r.args == [rendered.mutatorConfig,
                          if op.override.useSingleRequestArgument
                          then (if PassesOptions(op) then "options" else "")
                          else (if op.override.requestOptions then rendered.mutatorRequestOptions else "")]
  {
  }

  /**
   * With the single argument and the default transport, an operation whose
   * request type would intersect nothing emits neither `request` nor the
   * request type; with a mutator it still takes `request`, typed as the
   * empty record.
   */
  lemma EmptyRequestType(op: Operation, target: Target, rendered: Rendered)
    requires op.override.useSingleRequestArgument && IntersectionParts(op) == []
    ensures op.mutator.None? ==> !TakesRequest(AxiosImplementation(op, target, rendered))
                                 && AxiosImplementation(op, target, rendered).declarations == []
    ensures op.mutator.Some? ==>
              AxiosImplementation(op, target, rendered).declarations
              == ["export type " + op.pascalName + "Request = Expand<Record<string, never>>"]
  {
    AxiosParameters(op, target, rendered);
    if op.mutator.Some? {
      assert PathParamsTypeDef(op) == "";
    }
  }
}
