/**
 * The server: hands the decoded payload to the request factory, returns a factory error
 * as it is, and otherwise gives the request to the first handler, in registration order,
 * that supports it. The trace of calls made on the handlers is part of the result, so
 * that which handlers were consulted can be stated.
 */
module McpServer {

  import opened Wrappers
  import opened Json
  import opened McpMethods
  import opened JsonRpcCodes
  import opened JsonRpc
  import opened Registry
  import opened Handling
  import opened RequestFactory
  import InitializeHandler
  import ToolsListHandler
  import ToolsCallHandler

  /** One call the server makes on the handler at position `index`. */
  datatype Call = SupportsCalled(index: nat) | HandleCalled(index: nat)

  datatype Dispatched = Dispatched(outcome: Outcome, calls: seq<Call>)

  const NotSupportedMessage := "Method not found or not supported"

  /** `supports` asked of the handlers at positions from, ..., until - 1, in that order. */
  function SupportsCalls(from: nat, until: nat): (calls: seq<Call>)
    requires from <= until
    ensures |calls| == until - from
    ensures forall j :: 0 <= j < |calls| ==> calls[j] == SupportsCalled(from + j)
    decreases until - from
  {
    if from == until then [] else [SupportsCalled(from)] + SupportsCalls(from + 1, until)
  }

  /** The position of the first handler at or after `from` that supports the request. */
  function FirstSupporter(handlers: seq<Handler>, request: Request, from: nat): (k: Option<nat>)
    requires from <= |handlers|
    ensures k.Some? ==> from <= k.value < |handlers| && handlers[k.value].supports(request)
    ensures k.Some? ==> forall j :: from <= j < k.value ==> !handlers[j].supports(request)
    ensures k.None? <==> forall j :: from <= j < |handlers| ==> !handlers[j].supports(request)
    decreases |handlers| - from
  {
    if from == |handlers| then None
    else if handlers[from].supports(request) then Some(from)
    else FirstSupporter(handlers, request, from + 1)
  }

  /** The error the server returns when no handler supports the request. */
  function NotSupported(request: Request): (r: Response)
    ensures r.ErrorMessage? && r.Id() == request.id && r.JsonRpc() == request.jsonRpc
    ensures r.error.error.code == MethodNotFound
  {
    ErrorMessage(ErrorResponse(request.jsonRpc, request.id, Error(MethodNotFound, NotSupportedMessage)))
  }

  /**
   * The `foreach` over the handlers from position `from` on: the first supporter handles the
   * request and its outcome, exception included, is passed on unchanged.
   */
  function Scan(handlers: seq<Handler>, request: Request, from: nat): (d: Dispatched)
    requires from <= |handlers|
    ensures var k := FirstSupporter(handlers, request, from);
      if k.Some? then
        && d.outcome == handlers[k.value].handle(request)
        && d.calls == SupportsCalls(from, k.value + 1) + [HandleCalled(k.value)]
      else
        && d.outcome == Responded(NotSupported(request))
        && d.calls == SupportsCalls(from, |handlers|)
    decreases |handlers| - from
  {
    if from == |handlers| then Dispatched(Responded(NotSupported(request)), [])
    else if handlers[from].supports(request) then
      Dispatched(handlers[from].handle(request), [SupportsCalled(from), HandleCalled(from)])
    else
      var rest := Scan(handlers, request, from + 1);
      Dispatched(rest.outcome, [SupportsCalled(from)] + rest.calls)
  }

  /**
   * `McpServer::handle`, from the decoder's output on. Handlers are asked `supports` in
   * registration order, each at most once, and `handle` at most once, as the last call.
   */
  function Handle(handlers: seq<Handler>, input: Decoded): (d: Dispatched)
    ensures !CreateFromString(input).Created? ==> d.calls == []
    ensures forall j :: 0 <= j < |d.calls| && d.calls[j].SupportsCalled? ==> d.calls[j].index == j
    ensures forall j :: 0 <= j < |d.calls| && d.calls[j].HandleCalled? ==> j == |d.calls| - 1
  {
    match CreateFromString(input)
    case Rejected(response) => Dispatched(Responded(ErrorMessage(response)), [])
    case ConstructorTypeError => Dispatched(Raised(RequestTypeError), [])
    case Created(request) => Scan(handlers, request, 0)
  }

  /** A factory error is returned as it is, and no handler is asked anything. */
  lemma FactoryErrorReturnedUnchanged(handlers: seq<Handler>, input: Decoded)
    requires CreateFromString(input).Rejected?
    ensures Handle(handlers, input) == Dispatched(Responded(ErrorMessage(CreateFromString(input).response)), [])
  {
  }

  /**
   * The request goes to the lowest-position supporter: every handler up to it is asked
   * `supports` once, only it is asked `handle`, and no later handler is consulted.
   */
  lemma {:induction false} FirstSupporterHandles(handlers: seq<Handler>, input: Decoded, k: nat)
    requires CreateFromString(input).Created?
    requires var request := CreateFromString(input).request;
      && k < |handlers| && handlers[k].supports(request)
      && forall j :: 0 <= j < k ==> !handlers[j].supports(request)
    ensures var request := CreateFromString(input).request;
      var d := Handle(handlers, input);
      && d.outcome == handlers[k].handle(request)
      && d.calls == SupportsCalls(0, k + 1) + [HandleCalled(k)]
      && (forall c :: c in d.calls ==> c.index <= k)
      && (forall c :: c in d.calls && c.HandleCalled? ==> c.index == k)
  {
    var request := CreateFromString(input).request;
    var f := FirstSupporter(handlers, request, 0);
    assert f == Some(k);
    var d := Handle(handlers, input);
    forall c | c in d.calls ensures c.index <= k && (c.HandleCalled? ==> c.index == k) {
      var j :| 0 <= j < |d.calls| && d.calls[j] == c;
      if j < k + 1 {
        assert d.calls[j] == SupportsCalls(0, k + 1)[j];
      }
    }
  }

  /**
   * With no supporter, the answer is METHOD_NOT_FOUND "Method not found or not supported"
   * on the request's id and version, after asking every handler `supports` once.
   */
  lemma {:induction false} NoSupporterNotFound(handlers: seq<Handler>, input: Decoded)
    requires CreateFromString(input).Created?
    requires forall j :: 0 <= j < |handlers| ==> !handlers[j].supports(CreateFromString(input).request)
    ensures var request := CreateFromString(input).request;
      var d := Handle(handlers, input);
      && d.outcome == Responded(ErrorMessage(ErrorResponse(request.jsonRpc, request.id,
                                                           Error(MethodNotFound, NotSupportedMessage))))
      && d.calls == SupportsCalls(0, |handlers|)
  {
    var request := CreateFromString(input).request;
    assert FirstSupporter(handlers, request, 0).None?;
  }

  /**
   * A handler that is the only one to support the request handles it, wherever it was
   * registered; so among handlers that take disjoint methods, registration order is irrelevant.
   */
  lemma SoleSupporterHandles(handlers: seq<Handler>, input: Decoded, k: nat)
    requires CreateFromString(input).Created?
    requires var request := CreateFromString(input).request;
      && k < |handlers| && handlers[k].supports(request)
      && forall j :: 0 <= j < |handlers| && j != k ==> !handlers[j].supports(request)
    ensures Handle(handlers, input).outcome == handlers[k].handle(CreateFromString(input).request)
  {
    FirstSupporterHandles(handlers, input, k);
  }

  /** Of two handlers that both support a request, only the one registered first is used. */
  lemma EarlierRegistrationWins(first: Handler, second: Handler, input: Decoded)
    requires CreateFromString(input).Created?
    requires first.supports(CreateFromString(input).request) && second.supports(CreateFromString(input).request)
    ensures var d := Handle([first, second], input);
      d.outcome == first.handle(CreateFromString(input).request) && d.calls == [SupportsCalled(0), HandleCalled(0)]
  {
    FirstSupporterHandles([first, second], input, 0);
  }

  /** An exception thrown by the handling handler leaves the server unchanged. */
  lemma RaisedPropagates(handlers: seq<Handler>, input: Decoded, k: nat, e: Exception)
    requires CreateFromString(input).Created?
    requires var request := CreateFromString(input).request;
      && k < |handlers| && handlers[k].supports(request)
      && (forall j :: 0 <= j < k ==> !handlers[j].supports(request))
      && handlers[k].handle(request) == Raised(e)
    ensures Handle(handlers, input).outcome == Raised(e)
  {
    FirstSupporterHandles(handlers, input, k);
  }

  /** The three handlers the server is configured with, in a given order. */
  function StandardHandlers(config: InitializeHandler.ServerConfig, registries: seq<CapabilityRegistry>,
                            tools: CapabilityRegistry): (hs: seq<Handler>)
    ensures |hs| == 3
  {
    [InitializeHandler.AsHandler(config, registries), ToolsListHandler.AsHandler(tools), ToolsCallHandler.AsHandler(tools)]
  }

  /**
   * With the three standard handlers, in the order `StandardHandlers` lists them, a request
   * goes to the handler of its method. Each supports a different method, so by
   * `SoleSupporterHandles` the same holds in any other order.
   */
  lemma {:induction false} StandardRouting(config: InitializeHandler.ServerConfig, registries: seq<CapabilityRegistry>,
                                           tools: CapabilityRegistry, input: Decoded)
    requires CreateFromString(input).Created?
    ensures var request := CreateFromString(input).request;
      var d := Handle(StandardHandlers(config, registries, tools), input);
      && (request.mcpMethod == Initialize ==>
            d.outcome == Responded(ResultMessage(InitializeHandler.Respond(config, registries, request))))
      && (request.mcpMethod == ToolsList ==> d.outcome == ToolsListHandler.Respond(tools, request))
      && (request.mcpMethod == ToolsCall ==> d.outcome == Responded(ToolsCallHandler.Respond(tools, request)))
  {
    StandardRequestRouting(config, registries, tools, CreateFromString(input).request);
  }

  /** The dispatch step of the lemma above, for a request already created. */
  lemma {:induction false} StandardRequestRouting(config: InitializeHandler.ServerConfig,
                                                  registries: seq<CapabilityRegistry>,
                                                  tools: CapabilityRegistry, request: Request)
    ensures var d := Scan(StandardHandlers(config, registries, tools), request, 0);
      && (request.mcpMethod == Initialize ==>
            d.outcome == Responded(ResultMessage(InitializeHandler.Respond(config, registries, request))))
      && (request.mcpMethod == ToolsList ==> d.outcome == ToolsListHandler.Respond(tools, request))
      && (request.mcpMethod == ToolsCall ==> d.outcome == Responded(ToolsCallHandler.Respond(tools, request)))
  {
    var hs := StandardHandlers(config, registries, tools);
    assert hs[0].supports(request) <==> request.mcpMethod == Initialize;
    assert hs[1].supports(request) <==> request.mcpMethod == ToolsList;
    assert hs[2].supports(request) <==> request.mcpMethod == ToolsCall;
    if request.mcpMethod == Initialize {
      assert FirstSupporter(hs, request, 0) == Some(0);
    } else if request.mcpMethod == ToolsList {
      assert FirstSupporter(hs, request, 0) == Some(1);
    } else if request.mcpMethod == ToolsCall {
      assert FirstSupporter(hs, request, 0) == Some(2);
    }
  }

  /**
   * The nine recognised methods no standard handler takes end in METHOD_NOT_FOUND, after
   * each of the three handlers was asked `supports` once.
   */
  lemma {:induction false} UnhandledMethodsNotFound(config: InitializeHandler.ServerConfig,
                                                    registries: seq<CapabilityRegistry>,
                                                    tools: CapabilityRegistry, input: Decoded)
    requires CreateFromString(input).Created?
    requires CreateFromString(input).request.mcpMethod !in {Initialize, ToolsList, ToolsCall}
    ensures var d := Handle(StandardHandlers(config, registries, tools), input);
      && d.outcome == Responded(NotSupported(CreateFromString(input).request))
      && d.calls == [SupportsCalled(0), SupportsCalled(1), SupportsCalled(2)]
  {
    UnhandledRequestNotFound(config, registries, tools, CreateFromString(input).request);
  }

  /** The dispatch step of the lemma above, for a request already created. */
  lemma {:induction false} UnhandledRequestNotFound(config: InitializeHandler.ServerConfig,
                                                    registries: seq<CapabilityRegistry>,
                                                    tools: CapabilityRegistry, request: Request)
    requires request.mcpMethod !in {Initialize, ToolsList, ToolsCall}
    ensures Scan(StandardHandlers(config, registries, tools), request, 0)
            == Dispatched(Responded(NotSupported(request)), [SupportsCalled(0), SupportsCalled(1), SupportsCalled(2)])
  {
    var hs := StandardHandlers(config, registries, tools);
    assert !hs[0].supports(request) && !hs[1].supports(request) && !hs[2].supports(request);
    assert FirstSupporter(hs, request, 0).None?;
    assert SupportsCalls(0, 3) == [SupportsCalled(0), SupportsCalled(1), SupportsCalled(2)];
  }
}
