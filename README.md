# Request-function generation for the axios and SWR clients

This project models two client generators of an OpenAPI-to-TypeScript code generator:
- the `axios` / `axios-functions` client (`packages/axios/src/index.ts`);
- the request-function part of the SWR client (`packages/swr/src/client.ts`).

For every operation of an OpenAPI document, each generator emits a TypeScript request function. What is modelled:

- **The single-request-argument style.** An option folds all of an operation's parameters into one `request` object. The generator then:
  - declares the type `<Op>Request` as an intersection of body, query, header and path-parameter types;
  - destructures the names the body of the function needs from `request`, with an optional `...data` rest for the body;
  - rebuilds the `params` and `headers` objects, using bracket access for names that are not identifiers.

  The names come from six sources:
  - the path properties;
  - `{name}` placeholders and `${name}` interpolations in the routes;
  - the `destructured` text of a named path-parameters property;
  - the keys of that property's schema model text;
  - the query parameters;
  - the header parameters.

  The sources are merged the way `[...new Set(...)]` merges them. The source repeats this logic four times. Here it is written once (module `SingleRequest`), parameterised by the route whose `{name}` placeholders are scanned:
  - the axios client scans `pathRoute`;
  - the SWR client scans `route`.
- **The axios client's surroundings:**
  - the dependency list;
  - the file header;
  - the five shapes of the generated function;
  - the module-level table `returnTypesToWrite`. Each generated operation writes its result-type producer into it, and the footer walks the operation names in order and writes one result type per entry. The table is a class holding a `map` from operation name to `Producer`, with `Set`, `Generate` and `Footer` methods. `Footer` builds the text with a loop, as the source does.
- **The SWR client's surroundings:**
  - the choice between its own axios request function and the fetch generator;
  - the selectors that give the hook templates their option, argument, error and fetcher types.

Modules:
- `JsText`: the JavaScript built-ins the generators rely on, over `seq<char>`. These are the identifier pattern, `\s` and `trim`, `join`, `split`, `replaceAll`, and the first-occurrence order of `[...new Set(xs)]`.
- `RouteNames`: hand-written scanners in place of the regular expressions `/\{([^}]+)\}/g`, `/\$\{([^}]+)\}/g` and `/\n\s*([A-Za-z_$][A-Za-z0-9_$]*)\??:/g`, and the parsing of `destructured`. It also has a small route-template algebra for stating what the scanners find.
- `Model`: the inputs (operation, target, rendered collaborator text) and the structured description of a generated function.
- `SingleRequest`, `AxiosClient`, `SwrClient`: as above.

A generated function is described by an `Implementation` record rather than by its exact text. The record holds:
- whether it is exported, and its name;
- its generic data type, parameters and return type;
- the statements before the call;
- the callee, with its type argument and arguments;
- the type declarations emitted after it.

## Model

| member | source | states |
|---|---|---|
| JsText.OrUnknown | packages/axios/src/index.ts:453-455 | `success \|\| 'unknown'`: never empty, and a non-empty type is kept as it is |
| JsText.Filter | packages/axios/src/index.ts:216-221 | `filter` keeps exactly the elements of the input that satisfy the test, and never lengthens the list; a single element is kept iff it passes |
| JsText.FilterAppend | packages/axios/src/index.ts:216-221 | filtering a concatenation filters each part and concatenates the results, so with the one-element case the kept elements keep their order and multiplicity |
| JsText.Distinct | packages/axios/src/index.ts:238-247 | `[...new Set(xs)]` has no duplicates and the same elements as `xs` |
| JsText.DistinctKeepsFirstOccurrenceOrder | packages/axios/src/index.ts:238-247 | the de-duplicated list keeps each element's first occurrence, in the order of those occurrences |
| JsText.DistinctOfDistinct | packages/axios/src/index.ts:238-247 | a list without repeats passes through the `Set` unchanged |
| JsText.DistinctAbsorbs | packages/axios/src/index.ts:213-215 | appending names that are already present does not change the de-duplicated list |
| JsText.FirstIndex | packages/axios/src/index.ts:238-247 | the position of the first occurrence: it holds the element and no earlier position does |
| JsText.JoinIsEmpty | packages/axios/src/index.ts:248-250 | with a non-empty separator, `join` is empty exactly for `[]` and `[""]` |
| JsText.Split | packages/axios/src/index.ts:226 | `split` gives at least one piece, and no piece contains a one-character separator |
| JsText.JoinSplit | packages/axios/src/index.ts:226 | `split` then `join` with the same separator gives the text back |
| JsText.SplitPiecesAvoidSeparator | packages/axios/src/index.ts:226 | for any non-empty separator, of any length, the first piece is a prefix of the text and no piece contains the separator |
| JsText.SplitAtFirstOccurrence | packages/axios/src/index.ts:226 | the first piece ends where the leftmost occurrence of the separator begins: none starts inside it, and one starts right after it when there is more than one piece |
| JsText.SplitJoin | packages/axios/src/index.ts:226 | `join` then `split` on a one-character separator absent from the pieces gives the pieces back |
| JsText.ReplaceAllIsSplitJoin | packages/axios/src/index.ts:108-111 | `replaceAll` with a non-empty pattern equals `split` by the pattern then `join` with the replacement; with the pieces free of the pattern, every occurrence is replaced |
| JsText.RemoveBraces | packages/axios/src/index.ts:225 | `replaceAll(/[{}]/g, '')` leaves no brace |
| JsText.Trim | packages/axios/src/index.ts:227 | `trim` gives a slice of its input with only white space before and after it, and the slice neither starts nor ends with white space; it adds no character |
| JsText.TrimIdempotent | packages/axios/src/index.ts:227 | trimming twice is trimming once |
| JsText.TextAfterPrefix | packages/swr/src/client.ts:471-499 | in `key: value` where `key` has no `:`, the text after the first `": "` is `value` |
| RouteNames.IndexOf | packages/axios/src/index.ts:207 | the first position of a character, or the length when it is absent |
| RouteNames.BraceParams | packages/axios/src/index.ts:207-209 | every `{name}` match is a non-empty name without `}`: empty `{}` placeholders are dropped |
| RouteNames.TemplateParams | packages/axios/src/index.ts:210-212 | every `${name}` match is a non-empty name without `}` |
| RouteNames.NoPlaceholders | packages/axios/src/index.ts:207-212 | a route without `{` yields no placeholder of either kind |
| RouteNames.BraceParamsOfPathTemplate | packages/axios/src/index.ts:207-209 | the `{name}` scan of a well-formed `/a/{x}` path finds exactly its placeholders, in order |
| RouteNames.TemplateParamsOfRouteTemplate | packages/axios/src/index.ts:210-212 | the `${name}` scan of a well-formed `/a/${x}` route finds exactly its interpolations, in order |
| RouteNames.BraceParamsOfRouteTemplate | packages/swr/src/client.ts:175-177 | the `{name}` scan of a `${x}` route also finds exactly its interpolations, in order |
| RouteNames.KeyAt | packages/axios/src/index.ts:233-235 | one match of `\n\s*ident\??:` yields an identifier and consumes at least one character |
| RouteNames.ModelKeys | packages/axios/src/index.ts:230-237 | every key sniffed from the model text is an identifier |
| RouteNames.ModelKeysOfTypeLiteral | packages/axios/src/index.ts:230-237 | on an object type printed one member per line, with identifier keys and one-line types, the scan reads back exactly the keys, in order, optional or not |
| RouteNames.NamedDestructure | packages/axios/src/index.ts:223-228 | every name parsed from `destructured` is non-empty, trimmed, and free of `,`, `{` and `}` |
| RouteNames.TrimEach | packages/axios/src/index.ts:227 | one trimmed piece per piece, in order, none starting or ending with white space |
| RouteNames.NamedDestructureOfPattern | packages/axios/src/index.ts:223-228 | parsing `{ a, b }` built from identifiers gives back exactly those identifiers |
| SingleRequest.PathParamNames | packages/axios/src/index.ts:130-132 | one name per `param` property, in order: the k-th name is the name of the k-th `param` property; a name is listed iff some `param` property has it |
| SingleRequest.PathParamDefinitions | packages/axios/src/index.ts:192-195 | one definition per `param` property, in order: the k-th definition is that of the k-th `param` property |
| SingleRequest.PathParamsPaired | packages/axios/src/index.ts:130-195 | the names and the definitions have the same length, and the k-th name and the k-th definition come from one and the same `param` property |
| SingleRequest.FindNamed | packages/axios/src/index.ts:222 | `find` returns the first `namedPathParams` property, or nothing when there is none |
| SingleRequest.QueryParamNames | packages/axios/src/index.ts:120-123 | the names of exactly the parameters located in the query; a single parameter gives its name iff it is in the query |
| SingleRequest.QueryParamNamesAppend | packages/axios/src/index.ts:120-123 | the query names of a concatenation are those of each part, one after the other: order and multiplicity follow the parameter list |
| SingleRequest.HeaderLocated | packages/axios/src/index.ts:124-127 | the names of exactly the parameters located in the header; a single parameter gives its name iff it is in the header |
| SingleRequest.HeaderLocatedAppend | packages/axios/src/index.ts:124-127 | the header names of a concatenation are those of each part, one after the other |
| SingleRequest.HeaderParamNames | packages/axios/src/index.ts:124-129 | the names of exactly the header parameters that are identifiers; a single parameter gives its name iff it is a header with an identifier name |
| SingleRequest.HeaderParamNamesAppend | packages/axios/src/index.ts:124-129 | the identifier header names of a concatenation are those of each part, one after the other |
| SingleRequest.RouteParamNames | packages/axios/src/index.ts:206-215 | route names: no duplicates, and exactly the identifiers among the `{name}` and `${name}` matches |
| SingleRequest.FilterKeepsNoDuplicates | packages/axios/src/index.ts:213-215 | filtering a list without repeats keeps it without repeats |
| SingleRequest.NamedDestruct | packages/axios/src/index.ts:222-228 | the listed names of the named path-params property, each clean |
| SingleRequest.NamesFromModel | packages/axios/src/index.ts:229-237 | model keys are used only when `destructured` lists no name; they are identifiers |
| SingleRequest.DestructNames | packages/axios/src/index.ts:238-247 | no duplicates, and exactly the names of the six sources |
| SingleRequest.DestructNamesInFirstOccurrenceOrder | packages/axios/src/index.ts:238-247 | the names keep the order of their first occurrence among path, route, listed, model, query and header names |
| SingleRequest.DestructNamesAreIdentifiers | packages/axios/src/index.ts:206-247 | every destructured name that is not a path-property or listed name is an identifier |
| SingleRequest.DestructNamesCover | packages/axios/src/index.ts:238-247 | every path, listed, model, identifier query and header name, and every identifier route placeholder, is destructured |
| SingleRequest.DestructContent | packages/axios/src/index.ts:248-258 | empty iff no names and no spread; without a spread it is the names joined by `, `; with one it is `...data`, preceded by the joined names and `, ` when they join to something |
| SingleRequest.DestructLine | packages/axios/src/index.ts:259-261 | omitted exactly when the pattern is empty; otherwise the statement `const { <pattern> } = request;` on a new, indented line |
| SingleRequest.DestructLineOmitted | packages/axios/src/index.ts:248-261 | no destructuring statement iff the name list joins to nothing and there is no body spread |
| SingleRequest.Entry | packages/axios/src/index.ts:263-276 | a name appears bare iff it is an identifier, otherwise as `'n': request['n']` |
| SingleRequest.Entries | packages/axios/src/index.ts:263-276 | one entry per name, in input order |
| SingleRequest.ObjectInit | packages/axios/src/index.ts:263-276 | the `params` / `headers` literal is omitted iff its schema is absent; otherwise it holds the joined entries |
| SingleRequest.HeaderEntriesAreBare | packages/axios/src/index.ts:124-129 | header names are filtered before the literal, so every header entry is bare |
| SingleRequest.IntersectionParts | packages/axios/src/index.ts:178-199 | body, query schema, header schema, path params, in that order, each at its own slot; the named schema is preferred; empty iff none exists |
| SingleRequest.InlineObjectType | packages/axios/src/index.ts:183-199 | `export type <Name> = {` then the definitions then `\n }`: the text between the head and the closing brace is exactly the definitions |
| SingleRequest.PathParamsTypeDef | packages/axios/src/index.ts:183-199 | the inline `<Op>PathParams` type exists iff there is no named schema and some `param` property; its body is the path definitions joined by `,\n ` |
| SingleRequest.RequestTypeDef | packages/axios/src/index.ts:200-204 | the intersection joined by ` & `, or `Record<string, never>` when there are no parts |
| SingleRequest.Declarations | packages/axios/src/index.ts:294 | at most two: the request type first, then the inline path-params type exactly when one was made |
| SingleRequest.BodyFormFor | packages/axios/src/index.ts:107-111 | outside the single argument with a body the snippet is unchanged; inside it, with a non-empty body name, the snippet is split at that name and joined with `request` |
| SingleRequest.BodyFormRenamesEveryOccurrence | packages/axios/src/index.ts:107-111 | the split pieces join back to the snippet and none contains the body name, so every occurrence is renamed to `request` |
| SingleRequest.Prelude | packages/axios/src/index.ts:248-287 | four slots, in order: the destructuring line of the route, path, model, query and header names with the body spread; the body snippet, renamed in the single-argument style; the `params` object over the query names; the `headers` object over the header names. The destructuring is empty iff no names and no spread, `params` iff there is no query schema, `headers` iff there is no header schema |
| SingleRequest.BraceRouteChoiceAgrees | packages/swr/src/client.ts:175-177 | on routes whose two spellings name the same placeholders, scanning either one for `{name}` gives the same route names |
| SingleRequest.RouteParamNamesOfTemplate | packages/axios/src/index.ts:206-215 | the route names of a well-formed route are its placeholders, each once, identifiers only |
| SingleRequest.PathOnlyDestructure | packages/axios/src/index.ts:238-247 | when the path properties are the route's placeholders, the destructured names are exactly those properties, each once |
| AxiosClient.Dependencies | packages/axios/src/index.ts:60-66 | axios is imported iff there is no global mutator, `qs` iff params-serializer options are set, and axios comes first |
| AxiosClient.Header | packages/axios/src/index.ts:492-503 | the `SecondParameter` alias opens the header iff request options reach a mutator; the factory opening closes it iff there is a factory; its length is the two parts plus a leading line break and an indented line break, so nothing else is emitted |
| AxiosClient.ProducerFor | packages/axios/src/index.ts:157-167 | a mutator operation registers the title-dependent producer for its own name; the others the axios producer |
| AxiosClient.ResultSubject | packages/axios/src/index.ts:159-166 | with a title the result is read from `ReturnType<typeof title>['op']`, otherwise from `typeof op` |
| AxiosClient.ResultType | packages/axios/src/index.ts:157-167 | every result type declares `<Op>Result`: `AxiosResponse<success>` for axios, the mutator's awaited return otherwise |
| AxiosClient.AxiosResultIgnoresTitle | packages/axios/src/index.ts:328-334 | the axios producer ignores its title |
| AxiosClient.ResultLine | packages/axios/src/index.ts:524-527 | one line for a name with an entry, nothing for a name without one |
| AxiosClient.ResultLinesAppend | packages/axios/src/index.ts:524-529 | the lines for `a + b` are the lines for `a` followed by those for `b` |
| AxiosClient.ResultLinesOfOne | packages/axios/src/index.ts:524-529 | one name gives exactly its own line |
| AxiosClient.ResultLinesWithoutEntries | packages/axios/src/index.ts:524-529 | names without an entry write nothing |
| AxiosClient.ResultLinesIgnoreOtherEntries | packages/axios/src/index.ts:524-529 | an entry for a name the footer does not list changes nothing |
| AxiosClient.ResultLinesRepeat | packages/axios/src/index.ts:524-529 | a name listed twice gets its line twice: the footer does not de-duplicate |
| AxiosClient.ReturnBlock | packages/axios/src/index.ts:514-516 | the `return {…}};` line is present iff there is a factory; it opens with `return {` and the names joined by commas, closes with `}};` and a line break, and has nothing else in between |
| AxiosClient.AwaitedBlock | packages/axios/src/index.ts:518-522 | the `Awaited` helper is present iff there is a mutator and no `Awaited` type |
| AxiosClient.TitleArgument | packages/axios/src/index.ts:527 | the producers receive the title iff there is a factory |
| AxiosClient.FooterText | packages/axios/src/index.ts:505-532 | the return line and the `Awaited` helper first, then the result-type lines, with nothing else: the length is the sum of the three parts |
| AxiosClient.MutatorLineNamesItsOperation | packages/axios/src/index.ts:157-167 | in a table keyed by operation name, the line of a mutator entry is `<Op>Result` for the awaited return type of that same operation |
| AxiosClient.ReturnTypeTable.constructor | packages/axios/src/index.ts:58 | the table starts empty |
| AxiosClient.ReturnTypeTable.Set | packages/axios/src/index.ts:157 | a write replaces the entry for that name, and only that entry |
| AxiosClient.ReturnTypeTable.Footer | packages/axios/src/index.ts:505-532 | over a table keyed by operation name, the text built with `+=` is the footer text, and each mutator entry's line reads the return type of its own operation |
| AxiosClient.ReturnTypeTable.AppendResultLines | packages/axios/src/index.ts:524-529 | the loop appends, in order, the line of every listed name that has an entry |
| AxiosClient.ReturnTypeTable.Generate | packages/axios/src/index.ts:68-485 | generating an operation registers its producer (last write wins) and returns its function |
| AxiosClient.BuildRequestType | packages/axios/src/index.ts:178-199 | the parts pushed one by one, and the reassigned path-params type, are the intersection parts and inline type |
| AxiosClient.LeadingParams | packages/axios/src/index.ts:451-479 | exactly `request` when the function takes it; nothing in the single-argument style when it does not; exactly the props list (the mutator rendering when there is a mutator) in the classic style; never `options` |
| AxiosClient.OptionsParams | packages/axios/src/index.ts:451-481 | at most one parameter: none unless request options reach the transport; then `options: SecondParameter<typeof m<Success>>` through mutator `m`, optional unless the output requires it, or an optional `options?: AxiosRequestConfig` over axios |
| AxiosClient.AxiosImplementation | packages/axios/src/index.ts:68-485 | not exported by itself; the callee is the mutator, or `axios[.default].<verb>` with a `TData` defaulting to `AxiosResponse<success>` |
| AxiosClient.AxiosParameters | packages/axios/src/index.ts:451-481 | `request` iff single argument and (mutator or a non-empty intersection); props iff classic; `options` iff request options reach the transport |
| AxiosClient.AxiosStatements | packages/axios/src/index.ts:451-472 | with `request`: destructuring prelude (scanning `pathRoute`) and the request type after; without: the body snippet and no type |
| AxiosClient.AxiosCall | packages/axios/src/index.ts:288-291 | mutator calls pass the config and `options` exactly when declared; axios calls pass the rendered options and return `Promise<TData>` |
| AxiosClient.MutatorCall | packages/axios/src/index.ts:288-291 | a mutator call passes the config first, then `options` exactly when it is declared in the single-argument style, or the rendered request options in the classic style |
| AxiosClient.EmptyRequestType | packages/axios/src/index.ts:451-481 | with nothing to intersect, the axios branch drops `request` and its type, and the mutator branch types `request` as `Record<string, never>` |
| Model.AxiosCallee | packages/axios/src/index.ts:480-482 | exactly `axios.<verb>` with synthetic default imports and `axios.default.<verb>` without |
| SwrClient.SwrRequestFunction | packages/swr/src/client.ts:47-54 | the local axios generator iff the client is axios, else the fetch generator's output |
| SwrClient.PromiseOf | packages/swr/src/client.ts:409-412 | `Promise<` and `>` around the type, which is read back from between them |
| SwrClient.LeadingParams | packages/swr/src/client.ts:246-437 | exactly `request` in the single-argument style, exactly the props list (the mutator rendering when there is a mutator) in the classic style; never `options` |
| SwrClient.OptionsParams | packages/swr/src/client.ts:246-437 | at most one parameter: none unless request options are asked for and the mutator, if any, takes a second argument; then `options: SecondParameter<typeof m>` through mutator `m`, optional unless the output requires it, or an optional `options?: AxiosRequestConfig` without a mutator |
| SwrClient.AxiosRequestFunction | packages/swr/src/client.ts:56-437 | exported; the callee is the mutator, or axios with the fixed return type `Promise<AxiosResponse<success>>` |
| SwrClient.SwrParameters | packages/swr/src/client.ts:246-270 | `request` iff single argument (even with an empty intersection); props iff classic; `options` iff request options are asked for and the mutator, if any, takes a second argument |
| SwrClient.SwrOptionsForwarded | packages/swr/src/client.ts:253-270 | a mutator call passes the config first, then `options` exactly when the function declares it |
| SwrClient.SwrStatements | packages/swr/src/client.ts:409-421 | with the single argument: the prelude scanning `route` for both kinds of placeholder, and the request type after |
| SwrClient.CaseOf | packages/swr/src/client.ts:439-452 | the three cases: no mutator, mutator with a second argument, mutator without one |
| SwrClient.RequestOptions | packages/swr/src/client.ts:439-452 | empty iff the mutator takes no second argument; the axios or fetch option otherwise, or the mutator's second parameter |
| SwrClient.ErrorType | packages/swr/src/client.ts:454-469 | `ErrorType<…>` iff the mutator has an error type, the raw errors type otherwise; `AxiosError<…>` or `Promise<…>` without a mutator |
| SwrClient.RequestSecondArg | packages/swr/src/client.ts:471-484 | `axios: axiosOptions` or `fetch: fetchOptions` without a mutator, by client; `request: requestOptions` with a mutator that takes a second argument; empty otherwise |
| SwrClient.HttpRequestSecondArg | packages/swr/src/client.ts:486-499 | `axiosOptions` or `fetchOptions` without a mutator, by client; `requestOptions` with a mutator that takes a second argument; empty otherwise |
| SwrClient.MutationFetcherOptionType | packages/swr/src/client.ts:501-514 | empty iff the mutator takes no second argument |
| SwrClient.SecondArgsAgree | packages/swr/src/client.ts:471-499 | the forwarded variable is the text after `": "` in the options entry |
| SwrClient.OptionTypesAgree | packages/swr/src/client.ts:439-452 | the fetcher option type is the text after `"?: "` in the declared option | |
| SwrClient.OptionKeysAgree | packages/swr/src/client.ts:439-499 | whenever options are passed, the declared option `key?: Type` and the forwarded entry `key: variable` use the same key, with the fetcher option type and the request function's variable |
| SwrClient.MutationFetcherType | packages/swr/src/client.ts:516-536 | always `Promise<…>`; fetch wins over the mutator; a mutator gives the raw success type, axios `AxiosResponse<…>` |
| SwrClient.FetcherMatchesRequestFunction | packages/swr/src/client.ts:409-412 | over axios without a mutator, the fetcher returns what the request function returns |
| SwrClient.SwrHeader | packages/swr/src/client.ts:538-542 | the fetch header for fetch, nothing for axios |

## Left out

- External collaborators are modelled as opaque text in `Rendered` and are not themselves part of this model:
  - `generateMutatorConfig`, `generateOptions` and `generateMutatorRequestOptions`;
  - `generateFormDataAndUrlEncodedFunction` and `toObjectString`;
  - `resolveRef`, `pascal`, `sanitize` and `isSyntheticDefaultImportsAllow`;
  - `generateVerbImports`, and the fetch generators `generateRequestFunction`, `generateFetchHeader` and `fetchResponseTypeName`.
  The fetch outputs are taken as parameters. The `body: { ...body, implementation: 'data' }` passed to the config builders only changes their output, which is opaque here.
- The lookup of the operation's parameters in the specification tree and reference resolution (`packages/axios/src/index.ts:115-129`). The parameters are given as a list of (name, location) pairs, and an absent path gives the empty list.
- The exact whitespace and layout of the emitted text. A generated function is a structured record, so layout-only differences between the copies are not modelled. An example is the trailing comma after the mutator `options` parameter in the classic axios form.
- `generateAxiosTitle`, `generateAxios` with its imports, the `async` wrapper `generateAxiosFunctions` that prefixes `export `, and the builder records (`packages/axios/src/index.ts:487-490, 534-582`). These are plumbing.
- The `bodyTypeName` rewrite of the props text (`packages/axios/src/index.ts:169-175`). It is a regular expression over `toObjectString` output. The result is taken as `Rendered.mutatorPropsText`.
- `isExactOptionalPropertyTypes` and `paramsSerializer`. They only reach the opaque collaborators.
- Regular expressions are replaced by explicit scanners:
  - the `\s` class is the ECMAScript white-space set over Unicode scalar values;
  - strings are sequences of Unicode characters rather than UTF-16 code units;
  - the key pattern is stated for every text (each key found is an identifier) and read back in full only for object types printed one member per line, the shape schema models are printed in.
- SingleRequest.BodyFormFor: the single-argument rename with an empty `body.implementation` is modelled as `replaceAll` with an empty pattern, which inserts `request` around every character; the contract states the rename only for a non-empty body name.
- The SWR client's hooks and mutations, which the selectors feed, are outside this model.
- Header parameters whose names are not identifiers are dropped before the `headers` literal is built (`packages/axios/src/index.ts:124-129`, `packages/swr/src/client.ts:111-116`), so the literal's bracket-access entry form is never used for headers. `SingleRequest.HeaderEntriesAreBare` states this.
