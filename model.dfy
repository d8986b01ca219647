/**
 * The inputs the generators read, as values: one operation (its verb
 * options), the route it is generated for, and the text that collaborators
 * outside this model have already rendered for it. The generated function is
 * described by a structured record rather than by its exact layout.
 */
module Model {
  import opened JsText

  /** `p.type` of a property: `'param'`, `'namedPathParams'`, or any other kind. */
  datatype PropKind = Param | NamedPathParams | OtherProp

  /**
   * One entry of `props`: its kind, `name`, `definition` (`id: string`),
   * `destructured` (the `{ a, b }` of a named path-params property) and the
   * `schema.name` / `schema.model` of its schema ("" when unset).
   */
  datatype Prop = Prop(
    kind: PropKind,
    name: string,
    definition: string,
    destructured: string,
    schemaName: string,
    schemaModel: string)

  /** The `in` of a resolved OpenAPI parameter object. */
  datatype Location = Query | Header | Elsewhere

  /** A parameter of the operation as the specification lists it for this path and verb. */
  datatype SpecParam = SpecParam(name: string, location: Location)

  /**
   * `body`: its `definition` ("" when the operation has no body), the
   * `implementation` identifier it is passed under, and whether `formData`
   * and `formUrlEncoded` are set.
   */
  datatype Body = Body(definition: string, implementation: string, formData: bool, formUrlEncoded: bool)

  /** `response.definition.success` and `response.definition.errors` ("" when unset). */
  datatype Response = Response(success: string, errors: string)

  /** A custom request function that replaces the default transport. */
  datatype Mutator = Mutator(name: string, hasSecondArg: bool, hasErrorType: bool)

  /**
   * The flags the generators derive from `override`: `requestOptions !== false`,
   * `!formData.disabled`, `formUrlEncoded !== false`, and `useSingleRequestArgument`.
   */
  datatype Override = Override(
    requestOptions: bool,
    formData: bool,
    formUrlEncoded: bool,
    useSingleRequestArgument: bool)

  /** `OutputHttpClient` */
  datatype HttpClient = Axios | Fetch

  /**
   * The verb options of one operation. `pascalName` is `pascal(operationName)`;
   * `headers` and `queryParams` hold the schema name of the operation's header
   * and query parameter types when it has them.
   */
  datatype Operation = Operation(
    operationName: string,
    pascalName: string,
    verb: string,
    headers: Option<string>,
    queryParams: Option<string>,
    body: Body,
    props: seq<Prop>,
    response: Response,
    mutator: Option<Mutator>,
    override: Override)

  /**
   * Where the operation is generated: `route` (a template literal body such as
   * `/pets/${petId}`), `pathRoute` (the specification's key, `/pets/{petId}`),
   * the resolved parameters the specification lists under that path and verb
   * (empty when the path is missing), and two output settings:
   * `optionsParamRequired` and whether synthetic default imports are allowed.
   */
  datatype Target = Target(
    route: string,
    pathRoute: string,
    specParams: seq<SpecParam>,
    optionsParamRequired: bool,
    syntheticDefaultImports: bool)

  /**
   * Text rendered by collaborators: `toObjectString(props, 'implementation')`,
   * the same after the mutator's body-type rewrite, the form-data body
   * snippet, `generateMutatorConfig`, `generateOptions` and
   * `generateMutatorRequestOptions`.
   */
  datatype Rendered = Rendered(
    propsText: string,
    mutatorPropsText: string,
    bodyForm: string,
    mutatorConfig: string,
    options: string,
    mutatorRequestOptions: string)

  /** A parameter of the generated function: the rendered props list, or one named parameter. */
  datatype FnParam = PropsList(text: string) | Named(name: string, typ: string, optional: bool)

  /**
   * A generated request function: whether it is declared `export const`, its
   * name, the default of its `TData` type parameter when it is generic, its
   * parameters, its return type annotation, the statements before the call
   * (one slot each, possibly empty), the called function with its type
   * argument and arguments, and the type declarations emitted after it.
   */
  datatype Implementation = Implementation(
    exported: bool,
    name: string,
    dataType: Option<string>,
    params: seq<FnParam>,
    returnType: Option<string>,
    statements: seq<string>,
    callee: string,
    typeArg: Option<string>,
    args: seq<string>,
    declarations: seq<string>)

  /** The parameter list has a named parameter called `name`. */
  predicate HasParam(params: seq<FnParam>, name: string) {
    exists p :: p in params && p.Named? && p.name == name
  }

  /** The function takes the single `request` object. */
  predicate TakesRequest(impl: Implementation) {
    HasParam(impl.params, "request")
  }

  /** The parameter list holds the rendered props list. */
  predicate HasPropsList(params: seq<FnParam>) {
    exists p :: p in params && p.PropsList?
  }

  /** The function takes the rendered props list. */
  predicate TakesPropsList(impl: Implementation) {
    HasPropsList(impl.params)
  }

  /** A parameter list made of two parts has a parameter when one of the parts has it. */
  lemma ParamsAppend(a: seq<FnParam>, b: seq<FnParam>)
    ensures forall name :: HasParam(a + b, name) <==> HasParam(a, name) || HasParam(b, name)
    ensures HasPropsList(a + b) <==> HasPropsList(a) || HasPropsList(b)
  {
    assert forall p :: p in a + b <==> p in a || p in b;
  }

  /** A parameter list of options only. */
  predicate OnlyOptions(params: seq<FnParam>) {
    forall p :: p in params ==> p.Named? && p.name == "options"
  }

  /**
   * `axios.<verb>` when synthetic default imports are allowed and
   * `axios.default.<verb>` otherwise.
   */
  function AxiosCallee(verb: string, syntheticDefaultImports: bool): (r: string)
    ensures StartsWith(r, "axios.") && EndsWith(r, "." + verb)
    ensures syntheticDefaultImports ==> r == "axios." + verb
    ensures !syntheticDefaultImports ==> r == "axios.default." + verb
  {
    var r := (if syntheticDefaultImports then "axios" else "axios.default") + "." + verb;
    ConcatStartsAndEnds((if syntheticDefaultImports then "axios" else "axios.default"), "." + verb);
    r
  }

  /** Request options reach the request function: asked for, and accepted by the mutator if there is one. */
  predicate PassesOptions(op: Operation) {
    op.override.requestOptions && (op.mutator.None? || op.mutator.value.hasSecondArg)
  }

  /** `usesFormPayload`: the body is already sent through a form-data or url-encoded helper. */
  predicate UsesFormPayload(op: Operation) {
    (op.override.formData && op.body.formData) || (op.override.formUrlEncoded && op.body.formUrlEncoded)
  }
}
