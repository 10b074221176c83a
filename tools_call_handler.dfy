/**
 * The `tools/call` handler: looks the named tool up, runs it on the given arguments and
 * returns its output as the result. Whatever goes wrong on the way (params of the wrong
 * shape, an unknown tool, a tool that throws) ends in an INTERNAL_ERROR response carrying
 * the failure's message; the handler itself never throws.
 */
module ToolsCallHandler {

  import opened Wrappers
  import opened Json
  import opened McpMethods
  import opened JsonRpcCodes
  import opened JsonRpc
  import opened Registry
  import opened Handling

  /** `supports`: the request names the method "tools/call". */
  predicate Supports(request: Request)
    ensures Supports(request) <==> request.mcpMethod.Value() == "tools/call"
  {
    request.mcpMethod == ToolsCall
  }

  /** The message of the exception thrown for a tool name the registry does not hold. */
  function NoSuchToolMessage(name: string): string {
    "No such tool \"" + name + "\" exists"
  }

  /** Stand-ins for the runtime's type errors when `name` or `arguments` has the wrong type or is missing. */
  const NameTypeErrorMessage := "getCapability(): Argument #1 ($name) must be of type string"
  const ArgumentsTypeErrorMessage := "handle(): Argument #1 ($arguments) must be of type array"

  /** The INTERNAL_ERROR response the catch-all builds from a failure's message. */
  function InternalErrorResponse(request: Request, message: string): (r: Response)
    ensures r.ErrorMessage? && r.Id() == request.id && r.JsonRpc() == request.jsonRpc
    ensures r.error.error.code == InternalError && r.error.error.message == message
  {
    ErrorMessage(ErrorResponse(request.jsonRpc, request.id, Error(InternalError, message)))
  }

  /**
   * What `handle` answers. A name that is missing or not a string fails the lookup's type
   * check; an unknown name throws the not-found exception; arguments that are missing or no
   * array fail the tool's type check; a tool that throws passes on its message.
   */
  function Respond(registry: CapabilityRegistry, request: Request): (r: Response)
    ensures r.Id() == request.id && r.JsonRpc() == request.jsonRpc
    ensures r.ErrorMessage? ==> r.error.error.code == InternalError && r.error.error.data == None
  {
    var name := if "name" in request.params then request.params["name"] else JNull;
    var arguments := if "arguments" in request.params then request.params["arguments"] else JNull;
    if !name.JString? then InternalErrorResponse(request, NameTypeErrorMessage)
    else
      match registry.GetCapability(name.s)
      case None => InternalErrorResponse(request, NoSuchToolMessage(name.s))
      case Some(tool) =>
        if AsArray(arguments).None? then InternalErrorResponse(request, ArgumentsTypeErrorMessage)
        else
          match tool.handle(AsArray(arguments).value)
          case Success(content) => ResultMessage(ResultResponse(request.jsonRpc, request.id, content))
          case Failure(message) => InternalErrorResponse(request, message)
  }

  /** The handler as the dispatcher holds it: it never raises. */
  function AsHandler(registry: CapabilityRegistry): (h: Handler)
    ensures forall request :: h.supports(request) <==> request.mcpMethod == ToolsCall
    ensures forall request :: h.handle(request).Responded?
    ensures forall request :: h.handle(request) == Responded(Respond(registry, request))
  {
    Handler(request => Supports(request), request => Responded(Respond(registry, request)))
  }

  /**
   * A known tool, given arguments that are an array (a JSON object or list), is run on them:
   * its output is the result payload, unmodified; its failure becomes INTERNAL_ERROR with its message.
   */
  lemma KnownToolInvoked(registry: CapabilityRegistry, request: Request, name: string)
    requires "name" in request.params && request.params["name"] == JString(name)
    requires "arguments" in request.params && AsArray(request.params["arguments"]).Some?
    requires registry.GetCapability(name).Some?
    ensures var tool := registry.GetCapability(name).value;
      match tool.handle(AsArray(request.params["arguments"]).value)
      case Success(content) => Respond(registry, request) == ResultMessage(ResultResponse(request.jsonRpc, request.id, content))
      case Failure(message) => Respond(registry, request) == InternalErrorResponse(request, message)
  {
  }

  /**
   * A name that is missing or no string, or arguments that are missing or no array for a
   * tool that exists, end in INTERNAL_ERROR on the request's version and id, the tool unrun.
   */
  lemma MalformedParamsRejected(registry: CapabilityRegistry, request: Request)
    requires || "name" !in request.params
             || !request.params["name"].JString?
             || (&& registry.GetCapability(request.params["name"].s).Some?
                 && ("arguments" !in request.params || AsArray(request.params["arguments"]).None?))
    ensures var r := Respond(registry, request);
      && r.ErrorMessage? && r.error.error.code == InternalError
      && r.Id() == request.id && r.JsonRpc() == request.jsonRpc
      && (r.error.error.message == NameTypeErrorMessage || r.error.error.message == ArgumentsTypeErrorMessage)
  {
  }

  /** A name no capability carries ends in INTERNAL_ERROR `No such tool "<name>" exists`, whatever the arguments. */
  lemma UnknownToolReported(registry: CapabilityRegistry, request: Request, name: string)
    requires "name" in request.params && request.params["name"] == JString(name)
    requires forall i :: 0 <= i < |registry.capabilities| ==> registry.capabilities[i].name != name
    ensures Respond(registry, request) == InternalErrorResponse(request, NoSuchToolMessage(name))
  {
  }

  /** Params that are a list hold no `name`, so a call with them ends in INTERNAL_ERROR. */
  lemma {:induction false} ListParamsRejected(registry: CapabilityRegistry, request: Request, items: seq<Json>)
    requires request.params == ListAsArray(items)
    ensures Respond(registry, request) == InternalErrorResponse(request, NameTypeErrorMessage)
  {
    if "name" in request.params {
      ListKeysAreNumeric(items, "name");
    }
  }

  /**
   * The scenario of calling "nonexistent" with empty arguments on request 5 against a
   * registry without it: INTERNAL_ERROR on id 5 naming the missing tool.
   */
  lemma MissingToolScenario(registry: CapabilityRegistry)
    requires forall i :: 0 <= i < |registry.capabilities| ==> registry.capabilities[i].name != "nonexistent"
    ensures var request := Request(Version2, IntId(5), ToolsCall,
                                   map["name" := JString("nonexistent"), "arguments" := JObject(map[])]);
      var r := Respond(registry, request);
      && r.ErrorMessage? && r.error.id == IntId(5) && r.error.error.code == InternalError
      && r.error.error.message == "No such tool \"nonexistent\" exists"
  {
    var request := Request(Version2, IntId(5), ToolsCall,
                           map["name" := JString("nonexistent"), "arguments" := JObject(map[])]);
    UnknownToolReported(registry, request, "nonexistent");
  }
}
