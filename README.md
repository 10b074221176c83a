# php-mcp-server request core, in Dafny

This project models the request-processing core of php-mcp-server, a Model Context Protocol
(MCP) server that speaks JSON-RPC 2.0. It also proves properties of that model. A payload
goes through three stages:

- **Request factory** (`createFromString`). It turns the decoded payload into a validated
  request or an error response. The checks run in a fixed order: parse, version, method
  presence, method lookup, id type.
- **Server** (`McpServer::handle`). A factory error goes back to the caller unchanged.
  Otherwise the server asks its handlers, in registration order, whether they support the
  request, and lets the first that does handle it. When no handler supports the request, it
  answers METHOD_NOT_FOUND.
- **Method handlers.**
  - `initialize` advertises each non-empty capability registry.
  - `tools/list` lists the tool definitions, and throws when there is no tool.
  - `tools/call` runs the named tool. It turns every failure into INTERNAL_ERROR.

The handlers work over the capability registries: tools, prompts and resources. The project
also models the method and error-code enumerations and the request and response value types,
with their serialised forms.

Files, one module each:

| file | module | models |
|---|---|---|
| `wrappers.dfy` | `Wrappers` | `Option`; `GetOr` is PHP's `??` |
| `backed_enum.dfy` | `BackedEnum` | the `tryFrom` lookup every backed enumeration shares |
| `json.dfy` | `Json` | decoded JSON values; a JSON list as PHP's integer-keyed array |
| `mcp_method.dfy` | `McpMethods` | `McpMethodEnum` and its `tryFrom` |
| `jsonrpc_codes.dfy` | `JsonRpcCodes` | the version enumeration ("2.0") and `JsonRpcErrorCodeEnum` |
| `jsonrpc.dfy` | `JsonRpc` | request, error, result/error responses and their serialisation |
| `registry.dfy` | `Registry` | `AbstractCapabilityRegistry` and the three concrete registries |
| `handling.dfy` | `Handling` | the handler interface; outcomes (a response or an exception) |
| `request_factory.dfy` | `RequestFactory` | `JsonRpcRequestFactory` |
| `initialize_handler.dfy` | `InitializeHandler` | `InitializeHandler` |
| `tools_list_handler.dfy` | `ToolsListHandler` | `ToolsListHandler` |
| `tools_call_handler.dfy` | `ToolsCallHandler` | `ToolsCallHandler` |
| `mcp_server.dfy` | `McpServer` | `McpServer::handle` |

How the PHP maps onto Dafny:

- **Values.** The request, response and error classes and the handlers and server are
  `readonly`. The factory and the registries are not declared so, but nothing changes them
  after construction. Each therefore becomes a `datatype` or a set of functions.
- **Loops.** The loops in `InitializeHandler::handle` and
  `ToolsListHandler::formatCapabilitiesForResponse` become `method`s with `while` loops. Each
  is proved equal to a specification function whose properties are proved separately.
- **Handlers.** A handler is a pair of functions, `supports` and `handle`.
- **Dispatch trace.** Dispatch returns a trace of the calls it made on the handlers, so that
  "no later handler is consulted" can be stated and proved.
- **Exceptions.** An exception that leaves a handler is an `Outcome` of `Raised`.
- **Request method.** The source declares the request's method parameter as `string`, but the
  factory, the handlers and the tests all use the enumeration case. The model types it as the
  case. The consequence of the declared type is recorded under Findings.

## Model

| member | source | states |
|---|---|---|
| `Json.ListAsArray` | src/Mcp/JsonRpc/JsonRpcRequestFactory.php:23 | a decoded JSON list becomes an array whose key for item i is the decimal i, and whose every key is such an index |
| `Json.IndexKeyInjective` | src/Mcp/JsonRpc/JsonRpcRequestFactory.php:23 | distinct list positions get distinct array keys, so no list item shadows another |
| `Json.ListKeysAreNumeric` | src/Mcp/MethodHandler/ToolsCallHandler.php:33-35 | a non-numeric key such as "name" or "arguments" is never present in an array decoded from a list |
| `Json.AsArray` | src/Mcp/JsonRpc/JsonRpcRequestFactory.php:49 | a value is an array (params, arguments) exactly when it is a JSON object or list |
| `McpMethods.CasesComplete` | src/Mcp/McpMethodEnum.php:7-21 | the enumeration has exactly twelve cases and every method is one of them |
| `McpMethods.McpMethod.Value` | src/Mcp/McpMethodEnum.php:9-20 | no backing string is "" or "0", so no case is taken for an unset method |
| `McpMethods.ValuesDistinct` | src/Mcp/McpMethodEnum.php:9-20 | no two cases share a wire value |
| `McpMethods.TryFrom` | src/Mcp/McpMethodEnum.php:7-21 | tryFrom returns the case whose value is the string, and null exactly when no case has that value |
| `McpMethods.TryFromValue` | src/Mcp/McpMethodEnum.php:7-21 | tryFrom inverts value for every case |
| `McpMethods.TryFromKnownExamples` | tests/Mcp/McpMethodEnumTest.php:19-28 | the seven method names the tests look up resolve to their cases |
| `McpMethods.TryFromUnknownExamples` | tests/Mcp/McpMethodEnumTest.php:30-35 | "invalid_method", "unknown/method" and "" resolve to null |
| `BackedEnum.FirstBacked` | src/Mcp/McpMethodEnum.php:7-21 | `tryFrom`'s lookup: the case found is backed by the value asked for, and none is found exactly when no case is |
| `JsonRpcCodes.VersionTryFrom` | src/Mcp/JsonRpc/JsonRpcRequestFactory.php:29 | the version enumeration accepts exactly "2.0" |
| `JsonRpcCodes.ErrorCode.Value` | src/Mcp/JsonRpc/JsonRpcErrorCodeEnum.php:7-14 | every code lies in the JSON-RPC reserved range -32768..-32000 |
| `JsonRpcCodes.ErrorCodeValues` | tests/Mcp/JsonRpc/JsonRpcErrorTest.php:56-87 | PARSE_ERROR, INVALID_REQUEST, METHOD_NOT_FOUND, INVALID_PARAMS and INTERNAL_ERROR are -32700, -32600, -32601, -32602 and -32603 |
| `JsonRpcCodes.ErrorCodeValuesDistinct` | src/Mcp/JsonRpc/JsonRpcErrorCodeEnum.php:9-13 | distinct codes have distinct integers |
| `JsonRpcCodes.ErrorCodeTryFrom` | src/Mcp/JsonRpc/JsonRpcErrorCodeEnum.php:7-14 | an integer maps back to the code that carries it, and to nothing when no code does |
| `JsonRpcCodes.ErrorCodeRoundTrip` | src/Mcp/JsonRpc/JsonRpcErrorCodeEnum.php:7-14 | reading back a code's integer gives the code |
| `JsonRpc.IdFromJson` | src/Mcp/JsonRpc/JsonRpcRequestFactory.php:39-43 | an id is accepted exactly when it is an integer, a string or null, and it is kept as given |
| `JsonRpc.IdRoundTrip` | src/Mcp/JsonRpc/JsonRpcRequest.php:14 | every id the request can hold survives serialisation and reading back |
| `JsonRpc.Request.IsNotification` | src/Mcp/JsonRpc/JsonRpcRequest.php:20-23 | a request is a notification exactly when its id is written as null |
| `JsonRpc.Error.JsonSerialize` | tests/Mcp/JsonRpc/JsonRpcErrorTest.php:26-54 | the error's form holds the code's integer and the message, and a data entry exactly when there is data |
| `JsonRpc.ErrorFromJson` | src/Mcp/JsonRpc/JsonRpcError.php:12-17 | whatever error is read back serialises to the map it was read from |
| `JsonRpc.ErrorRoundTrip` | src/Mcp/JsonRpc/JsonRpcError.php:12-17 | code, message and data all survive serialisation |
| `JsonRpc.ResultResponse.JsonSerialize` | src/Mcp/JsonRpc/JsonRpcResultResponse.php:44-51 | exactly the keys jsonrpc ("2.0"), id and result, each holding the response's own value |
| `JsonRpc.ErrorResponse.JsonSerialize` | src/Mcp/JsonRpc/JsonRpcErrorResponse.php:38-45 | exactly the keys jsonrpc ("2.0"), id and error, with the error in its serialised form (corrected) |
| `JsonRpc.ErrorResponse.JsonSerializeAsWritten` | src/Mcp/JsonRpc/JsonRpcErrorResponse.php:38-45 | as written, version and id are kept but the error entry is encoded as an empty object, since the error's properties are all private |
| `JsonRpc.ErrorLostOnWire` | src/Mcp/JsonRpc/JsonRpcErrorResponse.php:40-44 | as written, two error responses with the same id and different errors encode identically, while their corrected forms differ |
| `JsonRpc.Response.JsonSerialize` | src/Mcp/JsonRpc/JsonRpcResultResponse.php:44-51 | an answer carries a result or an error entry, never both, plus version and id |
| `JsonRpc.ResponseFromJson` | src/Mcp/JsonRpc/JsonRpcErrorResponse.php:38-45 | whatever response is read back serialises to the map it was read from |
| `JsonRpc.ResponseRoundTrip` | src/Mcp/JsonRpc/JsonRpcResultResponse.php:44-51 | every response, result or error, is read back intact from its serialised form |
| `Registry.ListChangedFalse` | src/Mcp/Registry/ToolsRegistry.php:14-17 | the parameters are the single entry listChanged = false |
| `Registry.CapabilityRegistry.Name` | src/Mcp/Registry/ToolsRegistry.php:9-12 | a registry's name is one of "tools", "prompts" and "resources" |
| `Registry.CapabilityRegistry.Parameters` | src/Mcp/Registry/PromptsRegistry.php:14-17 | every registry advertises listChanged = false |
| `Registry.CapabilityRegistry.HasCapabilities` | src/Mcp/Registry/AbstractCapabilityRegistry.php:21-24 | a registry has capabilities exactly when its collection is non-empty; without any, no name is found |
| `Registry.ToolsRegistryConstants` | src/Mcp/Registry/ToolsRegistry.php:9-17 | the tools registry is named "tools" and its parameters are listChanged = false, whatever it holds |
| `Registry.PromptsRegistryConstants` | src/Mcp/Registry/PromptsRegistry.php:9-17 | the prompts registry is named "prompts" and its parameters are listChanged = false |
| `Registry.ResourcesRegistryConstants` | src/Mcp/Registry/ResourcesRegistry.php:9-17 | the resources registry is named "resources" and its parameters are listChanged = false |
| `Registry.RegistryNames` | src/Mcp/Registry/AbstractCapabilityRegistry.php:19 | two registries share a name exactly when they are of the same kind |
| `Registry.ConstantsIndependentOfCapabilities` | src/Mcp/Registry/AbstractCapabilityRegistry.php:19-42 | name and parameters depend only on the registry's kind |
| `Registry.FirstNamed` | src/Mcp/Registry/AbstractCapabilityRegistry.php:28-34 | the position found holds the name and no earlier position does; nothing is found exactly when no capability has the name |
| `Registry.CapabilityRegistry.GetCapability` | src/Mcp/Registry/AbstractCapabilityRegistry.php:26-35 | a capability returned carries the requested name; null exactly when no capability carries it |
| `Registry.CapabilityRegistry.GetAllCapabilities` | src/Mcp/Registry/AbstractCapabilityRegistry.php:37-40 | the capabilities, all of them, in registration order |
| `Registry.GetCapabilityIsFirstMatch` | src/Mcp/Registry/AbstractCapabilityRegistry.php:28-32 | with duplicate names, the lookup returns the first one registered |
| `Registry.EmptyRegistryFindsNothing` | src/Mcp/Registry/AbstractCapabilityRegistry.php:21-35 | an empty registry has no capabilities and finds no name |
| `RequestFactory.CreateError` | src/Mcp/JsonRpc/JsonRpcRequestFactory.php:53-60 | factory errors carry version "2.0", a null id, the given code and message, and no data |
| `RequestFactory.CreateFromString` | src/Mcp/JsonRpc/JsonRpcRequestFactory.php:19-51 | a request is refused exactly when parsing, version, method presence, method lookup or id type fails, always with version "2.0", a null id and one of PARSE_ERROR, INVALID_REQUEST, METHOD_NOT_FOUND; a created request carries the payload's method and id |
| `RequestFactory.ParseFailureRejected` | src/Mcp/JsonRpc/JsonRpcRequestFactory.php:21-26 | undecodable input gives PARSE_ERROR with the decoder's message |
| `RequestFactory.InvalidVersionRejected` | src/Mcp/JsonRpc/JsonRpcRequestFactory.php:27-32 | a missing, non-string or unsupported version gives INVALID_REQUEST "Invalid JsonRpc version." whatever else the payload holds |
| `RequestFactory.MethodNotSetRejected` | src/Mcp/JsonRpc/JsonRpcRequestFactory.php:33-35 | with a good version, a missing, non-string, empty or "0" method gives INVALID_REQUEST "Method name not set." |
| `RequestFactory.UnknownMethodRejected` | src/Mcp/JsonRpc/JsonRpcRequestFactory.php:36-38 | a method that names no case gives METHOD_NOT_FOUND "Method not found." |
| `RequestFactory.InvalidIdRejected` | src/Mcp/JsonRpc/JsonRpcRequestFactory.php:39-43 | only after the earlier checks pass, an id that is a float, boolean, list or object gives INVALID_REQUEST |
| `RequestFactory.ParamsOfCreatedRequest` | src/Mcp/JsonRpc/JsonRpcRequestFactory.php:45-50 | params default to the empty array when absent or null, are kept when they are an array, and otherwise make the constructor throw |
| `RequestFactory.NotificationIffNoId` | src/Mcp/JsonRpc/JsonRpcRequest.php:20-23 | a created request is a notification exactly when the payload's id is absent or null |
| `RequestFactory.ZeroMethodIsNotSet` | src/Mcp/JsonRpc/JsonRpcRequestFactory.php:33-35 | the method "0" is reported as not set, since PHP counts it as empty |
| `RequestFactory.FullRequestAccepted` | tests/Mcp/JsonRpc/JsonRpcRequestFactoryTest.php:23-38 | the full example payload gives a request with version, id 1, initialize and its params |
| `RequestFactory.MinimalRequestAccepted` | tests/Mcp/JsonRpc/JsonRpcRequestFactoryTest.php:40-52 | without id and params, the id is null and params are empty |
| `RequestFactory.OldVersionRejected` | tests/Mcp/JsonRpc/JsonRpcRequestFactoryTest.php:119-131 | version "1.0" is an invalid request |
| `RequestFactory.NumericMethodRejected` | tests/Mcp/JsonRpc/JsonRpcRequestFactoryTest.php:146-158 | a numeric method is reported as not set |
| `RequestFactory.UnknownMethodExampleRejected` | tests/Mcp/JsonRpc/JsonRpcRequestFactoryTest.php:160-172 | "unknown_method" is not found |
| `RequestFactory.ListIdRejected` | tests/Mcp/JsonRpc/JsonRpcRequestFactoryTest.php:174-187 | an id that is a list is an invalid request |
| `RequestFactory.CreateFromStringAsWritten` | src/Mcp/JsonRpc/JsonRpcRequest.php:12-18 | against the constructor's declared string method, no payload ever yields a request; the checks' errors are unchanged |
| `RequestFactory.FullRequestRefusedAsWritten` | src/Mcp/JsonRpc/JsonRpcRequestFactory.php:45-50 | the first test's payload, accepted by the corrected factory, ends in a type error as written |
| `InitializeHandler.CapabilitiesOf` | src/Mcp/MethodHandler/InitializeHandler.php:34-39 | a name is advertised exactly when some registry of that name holds capabilities, and it maps to that registry's parameters |
| `InitializeHandler.Supports` | src/Mcp/MethodHandler/InitializeHandler.php:27-30 | the handler takes exactly requests whose method is "initialize" |
| `InitializeHandler.Respond` | src/Mcp/MethodHandler/InitializeHandler.php:41-54 | the result echoes version and id and holds exactly protocolVersion, capabilities, serverInfo and an empty instructions |
| `InitializeHandler.Handle` | src/Mcp/MethodHandler/InitializeHandler.php:32-55 | the loop over the registries builds exactly the specified response |
| `InitializeHandler.AsHandler` | src/Mcp/MethodHandler/InitializeHandler.php:27-30 | the handler supports exactly `initialize` and always answers with a result |
| `InitializeHandler.AllEmptyAdvertisesNothing` | src/Mcp/MethodHandler/InitializeHandler.php:34-39 | with every registry empty, the capabilities block is empty |
| `InitializeHandler.ServerInfoFromConfig` | src/Mcp/MethodHandler/InitializeHandler.php:47-51 | serverInfo holds exactly the configured name, version and title |
| `InitializeHandler.ToolsAndPromptsAdvertised` | src/Mcp/MethodHandler/InitializeHandler.php:34-39 | non-empty tools and prompts registries are advertised as tools and prompts with listChanged = false |
| `ToolsListHandler.Definitions` | src/Mcp/MethodHandler/ToolsListHandler.php:45-53 | one definition per capability, in registry order |
| `ToolsListHandler.Supports` | src/Mcp/MethodHandler/ToolsListHandler.php:21-24 | the handler takes exactly requests whose method is "tools/list" |
| `ToolsListHandler.FormatCapabilitiesForResponse` | src/Mcp/MethodHandler/ToolsListHandler.php:45-53 | the loop appends exactly the capabilities' definitions, in order |
| `ToolsListHandler.Respond` | src/Mcp/MethodHandler/ToolsListHandler.php:26-40 | it throws exactly when the registry is empty; otherwise the result echoes version and id and has the registry's name as its only key |
| `ToolsListHandler.Handle` | src/Mcp/MethodHandler/ToolsListHandler.php:26-40 | the imperative handler produces exactly the specified outcome |
| `ToolsListHandler.AsHandler` | src/Mcp/MethodHandler/ToolsListHandler.php:21-24 | the handler supports exactly `tools/list` |
| `ToolsListHandler.ListingFollowsRegistryOrder` | src/Mcp/MethodHandler/ToolsListHandler.php:31-33 | entry i of the listing is the definition of capability i |
| `ToolsCallHandler.InternalErrorResponse` | src/Mcp/MethodHandler/ToolsCallHandler.php:48-56 | the catch-all answers INTERNAL_ERROR with the exception's message on the request's version and id |
| `ToolsCallHandler.Supports` | src/Mcp/MethodHandler/ToolsCallHandler.php:24-27 | the handler takes exactly requests whose method is "tools/call" |
| `ToolsCallHandler.Respond` | src/Mcp/MethodHandler/ToolsCallHandler.php:29-58 | the answer always echoes the request's version and id, and every error it gives is INTERNAL_ERROR without data |
| `ToolsCallHandler.AsHandler` | src/Mcp/MethodHandler/ToolsCallHandler.php:24-27 | the handler supports exactly `tools/call` and never throws |
| `ToolsCallHandler.KnownToolInvoked` | src/Mcp/MethodHandler/ToolsCallHandler.php:33-47 | a known tool given array arguments (a JSON object or list) is run on them; its output is the result unchanged, and its failure becomes INTERNAL_ERROR with its message |
| `ToolsCallHandler.MalformedParamsRejected` | src/Mcp/MethodHandler/ToolsCallHandler.php:33-36 | a missing or non-string name, or missing or non-array arguments for a known tool, end in INTERNAL_ERROR on the request's version and id |
| `ToolsCallHandler.UnknownToolReported` | src/Mcp/MethodHandler/ToolsCallHandler.php:36-41 | an unknown name gives INTERNAL_ERROR `No such tool "<name>" exists` |
| `ToolsCallHandler.ListParamsRejected` | src/Mcp/MethodHandler/ToolsCallHandler.php:33 | params decoded from a list hold no name, so the call ends in INTERNAL_ERROR |
| `ToolsCallHandler.MissingToolScenario` | src/Mcp/MethodHandler/ToolsCallHandler.php:36-41 | calling "nonexistent" with id 5 gives INTERNAL_ERROR on id 5 naming that tool |
| `McpServer.FirstSupporter` | src/Mcp/McpServer.php:30-34 | the position found supports the request and no earlier one does; none is found exactly when no handler supports it |
| `McpServer.NotSupported` | src/Mcp/McpServer.php:36-43 | the fallback is METHOD_NOT_FOUND on the request's version and id |
| `McpServer.Scan` | src/Mcp/McpServer.php:30-43 | the first supporter's outcome is passed on unchanged after asking handlers up to it once each; without one, every handler is asked once and the answer is the fallback |
| `McpServer.Handle` | src/Mcp/McpServer.php:24-44 | a factory error consults no handler; `supports` is asked in registration order, and `handle` at most once, as the last call |
| `McpServer.FactoryErrorReturnedUnchanged` | src/Mcp/McpServer.php:26-29 | a factory error response is returned as it is |
| `McpServer.FirstSupporterHandles` | tests/Mcp/McpServerTest.php:134-177 | the first supporting handler handles the request, and no later handler is asked anything |
| `McpServer.NoSupporterNotFound` | src/Mcp/McpServer.php:36-43 | with no supporter, every handler is asked once and the answer is METHOD_NOT_FOUND "Method not found or not supported" |
| `McpServer.EarlierRegistrationWins` | tests/Mcp/McpServerTest.php:179-217 | of two supporting handlers only the first is used; the second is never asked |
| `McpServer.SoleSupporterHandles` | src/Mcp/McpServer.php:30-34 | a handler that is the only one to support the request handles it, whatever its position |
| `McpServer.RaisedPropagates` | src/Mcp/McpServer.php:30-34 | an exception thrown by the handling handler leaves the server uncaught |
| `McpServer.StandardRouting` | config/services.php:45-59 | with the three configured handlers sharing one tools registry, listed in one fixed order, initialize, tools/list and tools/call each reach their own handler |
| `McpServer.StandardRequestRouting` | src/Mcp/McpServer.php:30-34 | the dispatch step of the routing above, for a created request |
| `McpServer.UnhandledMethodsNotFound` | src/Mcp/McpServer.php:30-43 | the nine other methods end in METHOD_NOT_FOUND after each shipped handler was asked once |
| `McpServer.UnhandledRequestNotFound` | src/Mcp/McpServer.php:30-43 | the dispatch step of the lemma above, for a created request |

## Left out

- JSON text decoding is left out. The model starts from the decoder's output: a value, or a failure with its message. The nesting-depth limit of 512 and the decoder's message texts are not modelled.
- The encoding of responses to JSON text is left out. Dafny maps have no key order, so the order of keys in the output is not modelled. Neither is PHP's choice between `[]` and `{}` for an empty array.
- Integers (`JInt`, and the `IntId` of a request) are unbounded. PHP integers are 64-bit, and the decoder turns a larger numeral into a float. The model does not capture that conversion; it would change such an id from accepted to INVALID_REQUEST.
- Floating-point numbers are kept as opaque text. No arithmetic is done on them in the core.
- The HTTP controller, the transport and the dependency-injection wiring are not part of this model. `config/services.php` only fixes which three handlers the server gets. The container supplies the handlers in an order the configuration does not fix. `McpServer.StandardRouting` is proved for the one order `McpServer.StandardHandlers` lists. For any other order, the three handlers support different methods, so `McpServer.SoleSupporterHandles` gives the same routing; no separate lemma states it for each order.
- The concrete tools (weather, distances) are not part of this model. A capability is a name, a definition and an arbitrary function from arguments to a success or a failure.
- The interface files only declare signatures, so they add nothing the classes do not already model. `JsonRpcRequestFactoryInterface` declares `createFromArray`, while the class implements `createFromString`; the model follows the class.
- `JsonRpcVersionEnum`, `NoToolsAvailableException` and `ToolNotFoundException` are not part of this model as files. They appear only through their roles: the single version "2.0", and an exception case.
- `ToolsCallHandler.Respond`: a missing or non-string `name`, and missing or non-array `arguments`, end in INTERNAL_ERROR, as `ToolsCallHandler.MalformedParamsRejected` proves. Their messages are placeholders, because the runtime type-error texts are not modelled. The contract promises only the code and the echoed version and id.
- The message of `NoToolsAvailableException` is not modelled, because that class is not part of this model.
- `Registry.CapabilityRegistry.HasCapabilities` counts a finite sequence. A non-countable iterable, for which `count()` would throw, is not modelled.
- Idempotence of `tools/list` and `initialize` is not stated as a separate lemma. The handlers are functions of the registry and the request, and each loop method is proved equal to its function.
- `McpServer.Handle` treats a constructor type error as a raised exception; the exception's text is not modelled.

## Findings

| source | as written | input that shows it | evidently intended | confidence | as-written member | corrected member |
|---|---|---|---|---|---|---|
| src/Mcp/JsonRpc/JsonRpcErrorResponse.php:43 | the `error` entry holds the `JsonRpcError` object. That class does not implement `JsonSerializable` and has only private properties, so JSON encoding turns it into `{}` | an error response with code METHOD_NOT_FOUND and message "Method not found." encodes its error as `{}`, the same as any other error with the same id | the error encoded as `{"code": -32601, "message": "Method not found."}`, with `data` only when set, as the error's tests expect | not executed; high | `JsonRpc.ErrorResponse.JsonSerializeAsWritten` (with `JsonRpc.ErrorLostOnWire`) | `JsonRpc.ErrorResponse.JsonSerialize` (with `JsonRpc.ResponseRoundTrip`) |
| src/Mcp/JsonRpc/JsonRpcRequest.php:15 | the constructor declares `string $method`, but the factory passes the `McpMethodEnum` case it resolved, which no string parameter accepts | `{"jsonrpc": "2.0", "method": "initialize", "id": 1, "params": {"key": "value"}}` ends in a TypeError instead of a request | the method parameter and `getMethod()` typed as `McpMethodEnum`, as the factory, the handlers' `===` comparisons and the tests use it | not executed; high | `RequestFactory.CreateFromStringAsWritten` (with `RequestFactory.FullRequestRefusedAsWritten`) | `RequestFactory.CreateFromString` (with `RequestFactory.FullRequestAccepted`) |
