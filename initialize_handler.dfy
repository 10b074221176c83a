/**
 * The `initialize` handler: advertises, for every registry that holds at least one
 * capability, that registry's negotiation parameters under its name, next to the
 * configured protocol version and server identity.
 */
module InitializeHandler {

  import opened Json
  import opened McpMethods
  import opened JsonRpc
  import opened Registry
  import opened Handling

  /** The identity the handler is constructed with. */
  datatype ServerConfig = ServerConfig(name: string, title: string, version: string, protocolVersion: string)

  /** `supports`: the request names the method "initialize". */
  predicate Supports(request: Request)
    ensures Supports(request) <==> request.mcpMethod.Value() == "initialize"
  {
    request.mcpMethod == Initialize
  }

  /**
   * The capabilities block, filled registry by registry in order. A name is a key exactly
   * when some registry of that name holds capabilities, and it maps to that registry's parameters.
   */
  function CapabilitiesOf(registries: seq<CapabilityRegistry>): (caps: map<string, Json>)
    ensures forall k :: k in caps <==>
      exists i :: 0 <= i < |registries| && registries[i].HasCapabilities() && registries[i].Name() == k
    ensures forall i :: 0 <= i < |registries| && registries[i].HasCapabilities() ==>
      caps[registries[i].Name()] == JObject(registries[i].Parameters())
  {
    if registries == [] then map[]
    else
      var n := |registries| - 1;
      var prefix := CapabilitiesOf(registries[..n]);
      var last := registries[n];
      assert forall i :: 0 <= i < n ==> registries[..n][i] == registries[i];
      forall i | 0 <= i < n && registries[i].Name() == last.Name()
        ensures registries[i].Parameters() == last.Parameters()
      {
        RegistryNames(registries[i], last);
      }
      if last.HasCapabilities() then prefix[last.Name() := JObject(last.Parameters())] else prefix
  }

  /** The result payload: protocol version, the capabilities block, server identity and empty instructions. */
  function Payload(config: ServerConfig, capabilities: map<string, Json>): map<string, Json> {
    map[
      "protocolVersion" := JString(config.protocolVersion),
      "capabilities" := JObject(capabilities),
      "serverInfo" := JObject(map[
        "name" := JString(config.name),
        "version" := JString(config.version),
        "title" := JString(config.title)]),
      "instructions" := JString("")
    ]
  }

  /** The response `handle` builds: always a result, echoing the request's version and id. */
  function Respond(config: ServerConfig, registries: seq<CapabilityRegistry>, request: Request): (r: ResultResponse)
    ensures r.jsonRpc == request.jsonRpc && r.id == request.id
    ensures r.result.Keys == {"protocolVersion", "capabilities", "serverInfo", "instructions"}
    ensures r.result["instructions"] == JString("")
    ensures r.result["protocolVersion"] == JString(config.protocolVersion)
    ensures r.result["capabilities"] == JObject(CapabilitiesOf(registries))
  {
    ResultResponse(request.jsonRpc, request.id, Payload(config, CapabilitiesOf(registries)))
  }

  /** `handle`, building the capabilities block in a loop over the registries. */
  method Handle(config: ServerConfig, registries: seq<CapabilityRegistry>, request: Request) returns (r: ResultResponse)
    ensures r == Respond(config, registries, request)
  {
    var capabilities: map<string, Json> := map[];
    var i := 0;
    while i < |registries|
      invariant 0 <= i <= |registries|
      invariant capabilities == CapabilitiesOf(registries[..i])
    {
      assert registries[..i + 1][..i] == registries[..i];
      if registries[i].HasCapabilities() {
        capabilities := capabilities[registries[i].Name() := JObject(registries[i].Parameters())];
      }
      i := i + 1;
    }
    assert registries[..i] == registries;
    r := ResultResponse(request.jsonRpc, request.id, Payload(config, capabilities));
  }

  /** The handler as the dispatcher holds it. */
  function AsHandler(config: ServerConfig, registries: seq<CapabilityRegistry>): (h: Handler)
    ensures forall request :: h.supports(request) <==> request.mcpMethod == Initialize
    ensures forall request :: h.handle(request) == Responded(ResultMessage(Respond(config, registries, request)))
  {
    Handler(request => Supports(request), request => Responded(ResultMessage(Respond(config, registries, request))))
  }

  /** With every registry empty, nothing is advertised. */
  lemma AllEmptyAdvertisesNothing(registries: seq<CapabilityRegistry>)
    requires forall i :: 0 <= i < |registries| ==> !registries[i].HasCapabilities()
    ensures CapabilitiesOf(registries) == map[]
  {
  }

  /** The server identity block holds exactly the configured name, version and title. */
  lemma ServerInfoFromConfig(config: ServerConfig, registries: seq<CapabilityRegistry>, request: Request)
    ensures var info := Respond(config, registries, request).result["serverInfo"];
      && info.JObject? && info.fields.Keys == {"name", "version", "title"}
      && info.fields["name"] == JString(config.name)
      && info.fields["version"] == JString(config.version)
      && info.fields["title"] == JString(config.title)
  {
  }

  /**
   * A non-empty tools registry and a non-empty prompts registry are advertised as
   * {"tools": {"listChanged": false}, "prompts": {"listChanged": false}}.
   */
  lemma {:induction false} ToolsAndPromptsAdvertised(tools: seq<Capability>, prompts: seq<Capability>)
    requires |tools| > 0 && |prompts| > 0
    ensures CapabilitiesOf([CapabilityRegistry(Tools, tools), CapabilityRegistry(Prompts, prompts)])
            == map["tools" := JObject(ListChangedFalse()), "prompts" := JObject(ListChangedFalse())]
  {
    var registries := [CapabilityRegistry(Tools, tools), CapabilityRegistry(Prompts, prompts)];
    assert registries[..1] == [CapabilityRegistry(Tools, tools)];
    assert [CapabilityRegistry(Tools, tools)][..0] == [];
  }
}
