/**
 * The SWR client generator's request functions and the small selectors the
 * hook templates use: how request options are declared and forwarded, the
 * error type, and the mutation fetcher's types.
 */
module SwrClient {
  import opened JsText
  import opened Model
  import opened SingleRequest

  // ---------------------------------------------------------------------
  // Dispatch
  // ---------------------------------------------------------------------

  /** The request function: built here over axios, or the text the fetch generator produced. */
  datatype RequestFunction = AxiosFunction(impl: Implementation) | FetchFunction(text: string)

  /**
   * `generateSwrRequestFunction`: the local axios generator when the output
   * uses axios, otherwise the fetch generator, whose output (`fetchText`) is
   * not part of this model.
   */
  function SwrRequestFunction(client: HttpClient, op: Operation, target: Target, rendered: Rendered,
                              fetchText: string): (r: RequestFunction)
    ensures r.AxiosFunction? <==> client == Axios
    ensures r.AxiosFunction? ==> r.impl == AxiosRequestFunction(op, target, rendered)
    ensures r.FetchFunction? ==> r.text == fetchText
  {
    if client == Axios then AxiosFunction(AxiosRequestFunction(op, target, rendered)) else FetchFunction(fetchText)
  }

  // ---------------------------------------------------------------------
  // The axios request function
  // ---------------------------------------------------------------------

  /** `Promise<T>` */
  function PromiseOf(t: string): (r: string)
    ensures StartsWith(r, "Promise<") && EndsWith(r, ">")
    ensures |r| == |t| + 9 && r[8..|r| - 1] == t
  {
    ConcatStartsAndEnds("Promise<", t + ">");
    ConcatStartsAndEnds("Promise<" + t, ">");
    Associative("Promise<", t, ">");
    "Promise<" + t + ">"
  }

  /** `AxiosResponse<T>` */
  function AxiosResponseOf(t: string): string {
    "AxiosResponse<" + t + ">"
  }

  /** `Promise<AxiosResponse<Success>>`, the fixed return type over axios. */
  function AxiosReturnType(op: Operation): string {
    PromiseOf(AxiosResponseOf(OrUnknown(op.response.success)))
  }

  /** The parameter before the options: `request` in the single-argument style, else the rendered props list. */
  function LeadingParams(op: Operation, rendered: Rendered): (r: seq<FnParam>)
    ensures HasParam(r, "request") <==> op.override.useSingleRequestArgument
    ensures HasPropsList(r) <==> !op.override.useSingleRequestArgument
    ensures !HasParam(r, "options")
    ensures op.override.useSingleRequestArgument ==> r == [RequestParam(op)]
    ensures !op.override.useSingleRequestArgument ==>
              r == [PropsList(if op.mutator.Some? then rendered.mutatorPropsText else rendered.propsText)]
  {
    var r := if op.override.useSingleRequestArgument then [RequestParam(op)]
             else [PropsList(if op.mutator.Some? then rendered.mutatorPropsText else rendered.propsText)];
    assert r[0] in r;
    r
  }

  /**
   * The options parameter: `options: SecondParameter<typeof m>` through a
   * mutator (optional unless the output requires it), else
   * `options?: AxiosRequestConfig`.
   */
  function OptionsParams(op: Operation, target: Target): (r: seq<FnParam>)
    ensures OnlyOptions(r) && !HasPropsList(r)
    ensures HasParam(r, "options") <==> PassesOptions(op)
    ensures |r| <= 1
    ensures PassesOptions(op) && op.mutator.Some? ==>
              r == [Named("options", SecondParameterOf(op.mutator.value), !target.optionsParamRequired)]
    ensures PassesOptions(op) && op.mutator.None? ==> r == [Named("options", "AxiosRequestConfig", true)]
  {
    var r := if !PassesOptions(op) then []
             else match op.mutator
               case Some(m) => [Named("options", SecondParameterOf(m), !target.optionsParamRequired)]
               case None => [Named("options", "AxiosRequestConfig", true)];
    assert r != [] ==> r[0] in r;
    r
  }

  /**
   * `generateAxiosRequestFunction`: the exported request function, through
   * the mutator when there is one and over axios otherwise, with the single
   * `request` argument or the classic parameter list. Both `{name}` and
   * `${name}` placeholders are read from `route`.
   */
  function AxiosRequestFunction(op: Operation, target: Target, rendered: Rendered): (r: Implementation)
    ensures r.name == op.operationName && r.exported && r.dataType.None?
    ensures r.params == LeadingParams(op, rendered) + OptionsParams(op, target)
    ensures op.mutator.Some? ==> r.callee == op.mutator.value.name && r.returnType.None?
    ensures op.mutator.None? ==> r.callee == AxiosCallee(op.verb, target.syntheticDefaultImports)
                                 && r.returnType == Some(AxiosReturnType(op))
  {
    var params := LeadingParams(op, rendered) + OptionsParams(op, target);
    var statements := if op.override.useSingleRequestArgument
                      then Prelude(op, target.route, target.route, target.specParams, rendered.bodyForm)
                      else [rendered.bodyForm];
    var declarations := if op.override.useSingleRequestArgument then Declarations(op) else [];
    match op.mutator
    case Some(m) =>
      Implementation(true, op.operationName, None, params, None, statements, m.name,
                     Some(OrUnknown(op.response.success)),
                     [rendered.mutatorConfig, if PassesOptions(op) then "options" else ""], declarations)
    case None =>
      Implementation(true, op.operationName, None, params, Some(AxiosReturnType(op)), statements,
                     AxiosCallee(op.verb, target.syntheticDefaultImports), None, [rendered.options], declarations)
  }

  /**
   * Unlike the axios client, the SWR function takes `request` in every
   * single-argument case, even when its type would intersect nothing.
   * Options are declared as the mutator's second parameter or as an axios
   * config, exactly when they are asked for and the mutator accepts them.
   */
  lemma SwrParameters(op: Operation, target: Target, rendered: Rendered)
    ensures var r := AxiosRequestFunction(op, target, rendered);
            && (TakesRequest(r) <==> op.override.useSingleRequestArgument)
            && (TakesPropsList(r) <==> !op.override.useSingleRequestArgument)
            && (HasParam(r.params, "options") <==>
                  op.override.requestOptions && (op.mutator.None? || op.mutator.value.hasSecondArg))
  {
    var lead, opts := LeadingParams(op, rendered), OptionsParams(op, target);
    ParamsAppend(lead, opts);
    assert !HasParam(opts, "request");
  }

  /** A mutator receives the mutator config, then `options` exactly when it is declared. */
  lemma SwrOptionsForwarded(op: Operation, target: Target, rendered: Rendered)
    requires op.mutator.Some?
    ensures var r := AxiosRequestFunction(op, target, rendered);
            && |r.args| == 2 && r.args[0] == rendered.mutatorConfig
            && (r.args[1] == "options" <==> HasParam(r.params, "options"))
  {
    ParamsAppend(LeadingParams(op, rendered), OptionsParams(op, target));
  }

  /**
   * With the single argument the function destructures `request`, reading
   * placeholders from `route` only, and declares the request type after
   * itself; otherwise it keeps the body snippet and declares nothing.
   */
  lemma SwrStatements(op: Operation, target: Target, rendered: Rendered)
    ensures var r := AxiosRequestFunction(op, target, rendered);
            && (op.override.useSingleRequestArgument ==>
                  r.statements == Prelude(op, target.route, target.route, target.specParams, rendered.bodyForm)
                  && r.declarations == Declarations(op))
            && (!op.override.useSingleRequestArgument ==>
                  r.statements == [rendered.bodyForm] && r.declarations == [])
  {
  }

  // ---------------------------------------------------------------------
  // Selectors
  // ---------------------------------------------------------------------

  /** The three cases every options selector distinguishes. */
  datatype OptionsCase = NoMutator | MutatorWithSecondArg | MutatorWithoutSecondArg

  function CaseOf(mutator: Option<Mutator>): (c: OptionsCase)
    ensures c == NoMutator <==> mutator.None?
    ensures c == MutatorWithoutSecondArg <==> mutator.Some? && !mutator.value.hasSecondArg
  {
    if mutator.None? then NoMutator
    else if mutator.value.hasSecondArg then MutatorWithSecondArg
    else MutatorWithoutSecondArg
  }

  /** `SecondParameter<typeof m>`: the type of the mutator's second parameter. */
  function SecondParameterOf(m: Mutator): string {
    "SecondParameter<typeof " + m.name + ">"
  }

  /** `key?: Type`, an optional property declaration. */
  function OptionalProperty(key: string, typ: string): string {
    key + "?: " + typ
  }

  /** `getSwrRequestOptions`: how the hook declares its request options. */
  function RequestOptions(client: HttpClient, mutator: Option<Mutator>): (r: string)
    ensures r == "" <==> CaseOf(mutator) == MutatorWithoutSecondArg
    ensures CaseOf(mutator) == NoMutator ==>
              r == (if client == Axios then OptionalProperty("axios", "AxiosRequestConfig")
                    else OptionalProperty("fetch", "RequestInit"))
    ensures CaseOf(mutator) == MutatorWithSecondArg ==>
              r == OptionalProperty("request", SecondParameterOf(mutator.value))
  {
    match mutator
    case None =>
      if client == Axios then OptionalProperty("axios", "AxiosRequestConfig") else OptionalProperty("fetch", "RequestInit")
    case Some(m) => if m.hasSecondArg then OptionalProperty("request", SecondParameterOf(m)) else ""
  }

  /** `getSwrErrorType`: the error type of the hook. */
  function ErrorType(response: Response, client: HttpClient, mutator: Option<Mutator>): (r: string)
    ensures mutator.Some? && mutator.value.hasErrorType ==> r == "ErrorType<" + OrUnknown(response.errors) + ">"
    ensures mutator.Some? && !mutator.value.hasErrorType ==> r == OrUnknown(response.errors)
    ensures mutator.None? && client == Axios ==> r == "AxiosError<" + OrUnknown(response.errors) + ">"
    ensures mutator.None? && client == Fetch ==> r == "Promise<" + OrUnknown(response.errors) + ">"
    ensures r != ""
  {
    match mutator
    case Some(m) =>
      if m.hasErrorType then "ErrorType<" + OrUnknown(response.errors) + ">" else OrUnknown(response.errors)
    case None =>
      (if client == Axios then "AxiosError" else "Promise") + "<" + OrUnknown(response.errors) + ">"
  }

  /** `key: variable`, an entry of an object literal. */
  function OptionsEntry(key: string, variable: string): string {
    key + ": " + variable
  }

  /** `getSwrRequestSecondArg`: the options entry the hook passes on, as `key: variable`. */
  function RequestSecondArg(client: HttpClient, mutator: Option<Mutator>): (r: string)
    ensures r == "" <==> CaseOf(mutator) == MutatorWithoutSecondArg
    ensures CaseOf(mutator) == NoMutator ==>
              r == (if client == Axios then OptionsEntry("axios", "axiosOptions")
                    else OptionsEntry("fetch", "fetchOptions"))
    ensures CaseOf(mutator) == MutatorWithSecondArg ==> r == OptionsEntry("request", "requestOptions")
  {
    match mutator
    case None => if client == Axios then OptionsEntry("axios", "axiosOptions") else OptionsEntry("fetch", "fetchOptions")
    case Some(m) => if m.hasSecondArg then OptionsEntry("request", "requestOptions") else ""
  }

  /** `getHttpRequestSecondArg`: the variable holding the options the request function receives. */
  function HttpRequestSecondArg(client: HttpClient, mutator: Option<Mutator>): (r: string)
    ensures r == "" <==> CaseOf(mutator) == MutatorWithoutSecondArg
    ensures CaseOf(mutator) == NoMutator ==> r == (if client == Axios then "axiosOptions" else "fetchOptions")
    ensures CaseOf(mutator) == MutatorWithSecondArg ==> r == "requestOptions"
  {
    match mutator
    case None => if client == Axios then "axiosOptions" else "fetchOptions"
    case Some(m) => if m.hasSecondArg then "requestOptions" else ""
  }

  /** The key under which the hook's options carry the request options: `axios`, `fetch` or `request`. */
  function OptionsKey(client: HttpClient, mutator: Option<Mutator>): string {
    match CaseOf(mutator)
    case NoMutator => if client == Axios then "axios" else "fetch"
    case MutatorWithSecondArg => "request"
    case MutatorWithoutSecondArg => ""
  }

  /**
   * The hook declares its options and passes them on under one and the same
   * key: `key?: Type` in `RequestOptions`, `key: variable` in
   * `RequestSecondArg`, with the variable the request function receives and
   * the type the mutation fetcher takes.
   */
  lemma OptionKeysAgree(client: HttpClient, mutator: Option<Mutator>)
    requires CaseOf(mutator) != MutatorWithoutSecondArg
    ensures RequestOptions(client, mutator)
            == OptionalProperty(OptionsKey(client, mutator), MutationFetcherOptionType(client, mutator))
    ensures RequestSecondArg(client, mutator)
            == OptionsEntry(OptionsKey(client, mutator), HttpRequestSecondArg(client, mutator))
  {
  }

  /** `getSwrMutationFetcherOptionType`: the type of the options a mutation fetcher takes. */
  function MutationFetcherOptionType(client: HttpClient, mutator: Option<Mutator>): (r: string)
    ensures r == "" <==> CaseOf(mutator) == MutatorWithoutSecondArg
  {
    match mutator
    case None => if client == Axios then "AxiosRequestConfig" else "RequestInit"
    case Some(m) => if m.hasSecondArg then SecondParameterOf(m) else ""
  }

  /**
   * The variable passed on is the one named in the hook's options entry:
   * the text after `": "` in `RequestSecondArg`.
   */
  lemma SecondArgsAgree(client: HttpClient, mutator: Option<Mutator>)
    ensures HttpRequestSecondArg(client, mutator) == TextAfter(RequestSecondArg(client, mutator), ": ")
  {
    match mutator {
      case None =>
        if client == Axios {
          TextAfterPrefix("axios", ": ", "axiosOptions");
        } else {
          TextAfterPrefix("fetch", ": ", "fetchOptions");
        }
      case Some(m) =>
        if m.hasSecondArg {
          TextAfterPrefix("request", ": ", "requestOptions");
        }
    }
  }

  /**
   * The mutation fetcher's options have the type the hook declares for its
   * options: the text after `"?: "` in `RequestOptions`.
   */
  lemma OptionTypesAgree(client: HttpClient, mutator: Option<Mutator>)
    ensures MutationFetcherOptionType(client, mutator) == TextAfter(RequestOptions(client, mutator), "?: ")
  {
    match mutator {
      case None =>
        if client == Axios {
          TextAfterPrefix("axios", "?: ", "AxiosRequestConfig");
        } else {
          TextAfterPrefix("fetch", "?: ", "RequestInit");
        }
      case Some(m) =>
        if m.hasSecondArg {
          TextAfterPrefix("request", "?: ", SecondParameterOf(m));
        }
    }
  }

  /**
   * `getSwrMutationFetcherType`: the promise the mutation fetcher returns.
   * Fetch wins over the mutator; the fetch response type name comes from
   * the fetch generator and is passed in as `fetchResponseType`.
   */
  function MutationFetcherType(response: Response, client: HttpClient, mutator: Option<Mutator>,
                               fetchResponseType: string): (r: string)
    ensures StartsWith(r, "Promise<") && EndsWith(r, ">")
    ensures client == Fetch ==> r == PromiseOf(fetchResponseType)
    ensures client == Axios && mutator.Some? ==> r == PromiseOf(OrUnknown(response.success))
    ensures client == Axios && mutator.None? ==> r == PromiseOf(AxiosResponseOf(OrUnknown(response.success)))
  {
    PromiseOf(if client == Fetch then fetchResponseType
              else if mutator.Some? then OrUnknown(response.success)
              else AxiosResponseOf(OrUnknown(response.success)))
  }

  /**
   * Over axios without a mutator, the mutation fetcher returns what the
   * request function returns.
   */
  lemma FetcherMatchesRequestFunction(op: Operation, target: Target, rendered: Rendered, fetchResponseType: string)
    requires op.mutator.None?
    ensures AxiosRequestFunction(op, target, rendered).returnType
            == Some(MutationFetcherType(op.response, Axios, op.mutator, fetchResponseType))
  {
  }

  /** `getSwrHeader`: the fetch generator's header (`fetchHeader`) for fetch, nothing for axios. */
  function SwrHeader(client: HttpClient, fetchHeader: string): (r: string)
    ensures client == Axios ==> r == ""
    ensures client == Fetch ==> r == fetchHeader
  {
    if client == Fetch then fetchHeader else ""
  }
}
