/**
 * Capabilities and the registries that hold them. A registry is fixed at construction: one
 * of the three kinds (tools, prompts, resources), and an ordered collection of capabilities.
 */
module Registry {

  import opened Wrappers
  import opened Json

  /** What a capability's `handle` does: return a result array, or throw with a message. */
  datatype ToolResult = Success(content: map<string, Json>) | Failure(message: string)

  /**
   * A capability as the core sees it: a name, a definition block, and an operation on an
   * argument array whose workings (outbound calls and all) are left uninterpreted.
   */
  datatype Capability = Capability(
    name: string,
    definition: map<string, Json>,
    handle: map<string, Json> -> ToolResult)

  datatype RegistryKind = Tools | Prompts | Resources

  /** The negotiation parameters every registry kind advertises. */
  function ListChangedFalse(): (p: map<string, Json>)
    ensures p.Keys == {"listChanged"} && p["listChanged"] == JBool(false)
  {
    map["listChanged" := JBool(false)]
  }

  datatype CapabilityRegistry = CapabilityRegistry(kind: RegistryKind, capabilities: seq<Capability>)
  {
    /** The group name of the registry's concrete class: one of the three MCP capability groups. */
    function Name(): (n: string)
      ensures n in {"tools", "prompts", "resources"}
    {
      match kind
      case Tools => "tools"
      case Prompts => "prompts"
      case Resources => "resources"
    }

    /** The constant negotiation block of the registry's concrete class: list changes are never announced. */
    function Parameters(): (p: map<string, Json>)
      ensures p == ListChangedFalse()
    {
      match kind
      case Tools => ListChangedFalse()
      case Prompts => ListChangedFalse()
      case Resources => ListChangedFalse()
    }

    /** Whether the registry holds anything; an empty one finds no name at all. */
    predicate HasCapabilities()
      ensures HasCapabilities() <==> GetAllCapabilities() != []
      ensures !HasCapabilities() ==> forall name :: GetCapability(name) == None
    {
      |capabilities| > 0
    }

    /** The first capability, in collection order, whose name is `name`. */
    function GetCapability(name: string): (r: Option<Capability>)
      ensures r.Some? ==> r.value.name == name
      ensures r.None? <==> forall i :: 0 <= i < |capabilities| ==> capabilities[i].name != name
    {
      var k := FirstNamed(capabilities, name);
      if k.Some? then Some(capabilities[k.value]) else None
    }

    /** The collection as it was given, in the same order. */
    function GetAllCapabilities(): (r: seq<Capability>)
      ensures |r| == |capabilities| && forall i :: 0 <= i < |r| ==> r[i] == capabilities[i]
    {
      capabilities
    }
  }

  /** The lowest index whose capability is named `name`. */
  function FirstNamed(caps: seq<Capability>, name: string): (r: Option<nat>)
    ensures r.Some? ==> r.value < |caps| && caps[r.value].name == name
    ensures r.Some? ==> forall j :: 0 <= j < r.value ==> caps[j].name != name
    ensures r.None? <==> forall j :: 0 <= j < |caps| ==> caps[j].name != name
  {
    if caps == [] then None
    else if caps[0].name == name then Some(0)
    else
      var rest := FirstNamed(caps[1..], name);
      if rest.Some? then Some(rest.value + 1) else None
  }

  /** The tools registry is named "tools" and advertises listChanged = false, whatever it holds. */
  lemma ToolsRegistryConstants(capabilities: seq<Capability>)
    ensures CapabilityRegistry(Tools, capabilities).Name() == "tools"
    ensures CapabilityRegistry(Tools, capabilities).Parameters() == map["listChanged" := JBool(false)]
  {
  }

  /** The prompts registry is named "prompts" and advertises listChanged = false, whatever it holds. */
  lemma PromptsRegistryConstants(capabilities: seq<Capability>)
    ensures CapabilityRegistry(Prompts, capabilities).Name() == "prompts"
    ensures CapabilityRegistry(Prompts, capabilities).Parameters() == map["listChanged" := JBool(false)]
  {
  }

  /** The resources registry is named "resources" and advertises listChanged = false, whatever it holds. */
  lemma ResourcesRegistryConstants(capabilities: seq<Capability>)
    ensures CapabilityRegistry(Resources, capabilities).Name() == "resources"
    ensures CapabilityRegistry(Resources, capabilities).Parameters() == map["listChanged" := JBool(false)]
  {
  }

  /** Registries of distinct kinds have distinct names. */
  lemma RegistryNames(r1: CapabilityRegistry, r2: CapabilityRegistry)
    ensures r1.Name() == r2.Name() <==> r1.kind == r2.kind
  {
  }

  /**
   * Name and parameters depend on the kind alone, never on the capabilities held, and the
   * parameters are always the single entry listChanged = false.
   */
  lemma ConstantsIndependentOfCapabilities(r1: CapabilityRegistry, r2: CapabilityRegistry)
    requires r1.kind == r2.kind
    ensures r1.Name() == r2.Name() && r1.Parameters() == r2.Parameters()
    ensures r1.Parameters().Keys == {"listChanged"} && r1.Parameters()["listChanged"] == JBool(false)
  {
  }

  /** Lookup agrees with enumeration: it finds the earliest capability of that name. */
  lemma {:induction false} GetCapabilityIsFirstMatch(reg: CapabilityRegistry, name: string, k: nat)
    requires k < |reg.GetAllCapabilities()| && reg.GetAllCapabilities()[k].name == name
    requires forall j :: 0 <= j < k ==> reg.GetAllCapabilities()[j].name != name
    ensures reg.GetCapability(name) == Some(reg.GetAllCapabilities()[k])
  {
    var f := FirstNamed(reg.capabilities, name);
    assert f.Some?;
  }

  /** An empty registry finds nothing. */
  lemma EmptyRegistryFindsNothing(reg: CapabilityRegistry, name: string)
    requires !reg.HasCapabilities()
    ensures reg.GetCapability(name) == None
  {
  }
}
