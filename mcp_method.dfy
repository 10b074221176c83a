/**
 * The protocol methods the server recognises: a string-backed enumeration whose
 * `tryFrom` maps a method name back to its case, or to null.
 */
module McpMethods {

  import opened Wrappers
  import opened BackedEnum

  datatype McpMethod =
    | Initialize
    | ToolsList
    | ToolsCall
    | NotificationToolsListChanged
    | PromptsList
    | PromptsGet
    | ResourcesList
    | ResourcesTemplateList
    | ResourcesRead
    | ResourcesSubscribe
    | NotificationResourcesUpdated
    | NotificationResourcesListChanged
  {
    /**
     * The backing string of the case. None is "" or "0", which PHP counts as empty, so every
     * case can be named in a request.
     */
    function Value(): (v: string)
      ensures v != "" && v != "0"
    {
      match this
      case Initialize => "initialize"
      case ToolsList => "tools/list"
      case ToolsCall => "tools/call"
      case NotificationToolsListChanged => "notifications/tools/list_changed"
      case PromptsList => "prompts/list"
      case PromptsGet => "prompts/get"
      case ResourcesList => "resources/list"
      case ResourcesTemplateList => "resources/templates/list"
      case ResourcesRead => "resources/read"
      case ResourcesSubscribe => "resources/subscribe"
      case NotificationResourcesUpdated => "notifications/resources/updated"
      case NotificationResourcesListChanged => "notifications/resources/list_changed"
    }
  }

  /** The cases in declaration order, the order in which `tryFrom` consults them. */
  const Cases: seq<McpMethod> := [
    Initialize, ToolsList, ToolsCall, NotificationToolsListChanged,
    PromptsList, PromptsGet, ResourcesList, ResourcesTemplateList,
    ResourcesRead, ResourcesSubscribe, NotificationResourcesUpdated,
    NotificationResourcesListChanged
  ]

  /** Every case is listed, and there are exactly twelve. */
  lemma CasesComplete(m: McpMethod)
    ensures m in Cases && |Cases| == 12
  {
  }

  /** No two cases share a backing string. */
  lemma ValuesDistinct(m1: McpMethod, m2: McpMethod)
    requires m1 != m2
    ensures m1.Value() != m2.Value()
  {
  }

  /** `McpMethodEnum::tryFrom`: the case backed by `s`, or None when there is none. */
  function TryFrom(s: string): (r: Option<McpMethod>)
    ensures r.Some? ==> r.value.Value() == s
    ensures r.None? <==> forall m: McpMethod :: m.Value() != s
  {
    var r := FirstBacked(Cases, (m: McpMethod) => m.Value(), s);
    if r.None? then
      forall m: McpMethod ensures m.Value() != s {
        CasesComplete(m);
      }
      r
    else r
  }

  /** Mapping a case to its string and back gives the same case. */
  lemma TryFromValue(m: McpMethod)
    ensures TryFrom(m.Value()) == Some(m)
  {
    var r := TryFrom(m.Value());
    assert r.Some?;
    if r.value != m {
      ValuesDistinct(r.value, m);
    }
  }

  /** The names the enumeration's tests resolve. */
  lemma TryFromKnownExamples()
    ensures TryFrom("initialize") == Some(Initialize)
    ensures TryFrom("tools/list") == Some(ToolsList)
    ensures TryFrom("tools/call") == Some(ToolsCall)
    ensures TryFrom("prompts/list") == Some(PromptsList)
    ensures TryFrom("prompts/get") == Some(PromptsGet)
    ensures TryFrom("resources/list") == Some(ResourcesList)
    ensures TryFrom("resources/read") == Some(ResourcesRead)
  {
    TryFromValue(Initialize);
    TryFromValue(ToolsList);
    TryFromValue(ToolsCall);
    TryFromValue(PromptsList);
    TryFromValue(PromptsGet);
    TryFromValue(ResourcesList);
    TryFromValue(ResourcesRead);
  }

  /** The names the enumeration's tests reject. */
  lemma TryFromUnknownExamples()
    ensures TryFrom("invalid_method") == None
    ensures TryFrom("unknown/method") == None
    ensures TryFrom("") == None
  {
    forall m: McpMethod ensures m.Value() != "invalid_method" && m.Value() != "unknown/method" && m.Value() != "" {
      match m
      case Initialize => assert m.Value()[2] == 'i';
      case _ =>
    }
  }
}
