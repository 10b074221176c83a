/**
 * The `tools/list` handler: lists the definition of every tool, in registry order, under the
 * registry's name, and throws when there is no tool at all.
 */
module ToolsListHandler {

  import opened Json
  import opened McpMethods
  import opened JsonRpc
  import opened Registry
  import opened Handling

  /** `supports`: the request names the method "tools/list". */
  predicate Supports(request: Request)
    ensures Supports(request) <==> request.mcpMethod.Value() == "tools/list"
  {
    request.mcpMethod == ToolsList
  }

  /** The definitions of `capabilities`, one per capability, in the same order. */
  function Definitions(capabilities: seq<Capability>): (defs: seq<Json>)
    ensures |defs| == |capabilities|
    ensures forall i :: 0 <= i < |defs| ==> defs[i] == JObject(capabilities[i].definition)
  {
    if capabilities == [] then []
    else Definitions(capabilities[..|capabilities| - 1]) + [JObject(capabilities[|capabilities| - 1].definition)]
  }

  /** `formatCapabilitiesForResponse`: appends each capability's definition in turn. */
  method FormatCapabilitiesForResponse(registry: CapabilityRegistry) returns (defs: seq<Json>)
    ensures defs == Definitions(registry.GetAllCapabilities())
  {
    var capabilities := registry.GetAllCapabilities();
    defs := [];
    var i := 0;
    while i < |capabilities|
      invariant 0 <= i <= |capabilities|
      invariant defs == Definitions(capabilities[..i])
    {
      assert capabilities[..i + 1][..i] == capabilities[..i];
      defs := defs + [JObject(capabilities[i].definition)];
      i := i + 1;
    }
    assert capabilities[..i] == capabilities;
  }

  /**
   * What `handle` does: an empty registry throws rather than list nothing; otherwise the
   * result has the registry's name as its only key, echoing the request's version and id.
   */
  function Respond(registry: CapabilityRegistry, request: Request): (r: Outcome)
    ensures r.Raised? <==> !registry.HasCapabilities()
    ensures r.Raised? ==> r.exception == NoToolsAvailable
    ensures r.Responded? ==> r.response.ResultMessage?
    ensures r.Responded? ==> r.response.Id() == request.id && r.response.JsonRpc() == request.jsonRpc
    ensures r.Responded? ==> r.response.result.result.Keys == {registry.Name()}
  {
    if !registry.HasCapabilities() then Raised(NoToolsAvailable)
    else
      var result := map[registry.Name() := JArray(Definitions(registry.GetAllCapabilities()))];
      Responded(ResultMessage(ResultResponse(request.jsonRpc, request.id, result)))
  }

  /** `handle`, with the listing built by the loop above. */
  method Handle(registry: CapabilityRegistry, request: Request) returns (r: Outcome)
    ensures r == Respond(registry, request)
  {
    if !registry.HasCapabilities() {
      return Raised(NoToolsAvailable);
    }
    var definitions := FormatCapabilitiesForResponse(registry);
    r := Responded(ResultMessage(ResultResponse(request.jsonRpc, request.id, map[registry.Name() := JArray(definitions)])));
  }

  /** The handler as the dispatcher holds it. */
  function AsHandler(registry: CapabilityRegistry): (h: Handler)
    ensures forall request :: h.supports(request) <==> request.mcpMethod == ToolsList
    ensures forall request :: h.handle(request) == Respond(registry, request)
  {
    Handler(request => Supports(request), request => Respond(registry, request))
  }

  /** The listed value holds entry i = definition of capability i, for every capability. */
  lemma ListingFollowsRegistryOrder(registry: CapabilityRegistry, request: Request)
    requires registry.HasCapabilities()
    ensures var r := Respond(registry, request);
      var listed := r.response.result.result[registry.Name()];
      && listed.JArray? && |listed.items| == |registry.GetAllCapabilities()|
      && forall i :: 0 <= i < |listed.items| ==>
           listed.items[i] == JObject(registry.GetAllCapabilities()[i].definition)
  {
  }
}
