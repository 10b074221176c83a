/**
 * The JSON-RPC envelopes: the request, the error value, the result and error responses,
 * and the arrays their `jsonSerialize` produces. Every class here is readonly in the
 * source, so each is a datatype whose getters are its destructors.
 */
module JsonRpc {

  import opened Wrappers
  import opened Json
  import opened McpMethods
  import opened JsonRpcCodes

  /** The identifier type the envelopes accept: int, string or null. */
  datatype RequestId = IntId(i: int) | StringId(s: string) | NullId

  function IdToJson(id: RequestId): (v: Json)
    ensures v.JInt? || v.JString? || v.JNull?
  {
    match id
    case IntId(i) => JInt(i)
    case StringId(s) => JString(s)
    case NullId => JNull
  }

  /** The identifier a decoded value stands for, when its type is one an identifier may have. */
  function IdFromJson(v: Json): (r: Option<RequestId>)
    ensures r.Some? <==> (v.JInt? || v.JString? || v.JNull?)
    ensures r.Some? ==> IdToJson(r.value) == v
  {
    match v
    case JInt(i) => Some(IntId(i))
    case JString(s) => Some(StringId(s))
    case JNull => Some(NullId)
    case _ => None
  }

  lemma IdRoundTrip(id: RequestId)
    ensures IdFromJson(IdToJson(id)) == Some(id)
  {
  }

  /** A validated request. Its method is the resolved enumeration case. */
  datatype Request = Request(jsonRpc: Version, id: RequestId, mcpMethod: McpMethod, params: map<string, Json>)
  {
    /** A request without an identifier is a notification: its id is written as null. */
    predicate IsNotification()
      ensures IsNotification() <==> IdToJson(id) == JNull
    {
      id == NullId
    }
  }

  /** The error value of an error response; `data` defaults to null. */
  datatype Error = Error(code: ErrorCode, message: string, data: Option<map<string, Json>> := None)
  {
    /**
     * The serialised form the error value's tests assert: the code as its integer,
     * the message, and a data entry only when there is data.
     */
    function JsonSerialize(): (m: map<string, Json>)
      ensures "code" in m && m["code"] == JInt(code.Value())
      ensures "message" in m && m["message"] == JString(message)
      ensures "data" in m <==> data.Some?
      ensures data.Some? ==> m["data"] == JObject(data.value)
      ensures m.Keys <= {"code", "message", "data"}
    {
      var base := map["code" := JInt(code.Value()), "message" := JString(message)];
      if data.Some? then base["data" := JObject(data.value)] else base
    }
  }

  /** Reads an error value back from its serialised form. */
  function ErrorFromJson(m: map<string, Json>): (r: Option<Error>)
    ensures r.Some? ==> r.value.JsonSerialize() == m
  {
    if && "code" in m && m["code"].JInt? && ErrorCodeTryFrom(m["code"].i).Some?
       && "message" in m && m["message"].JString?
       && m.Keys <= {"code", "message", "data"}
       && ("data" in m ==> m["data"].JObject?)
    then
      var e := Error(ErrorCodeTryFrom(m["code"].i).value, m["message"].s,
                     if "data" in m then Some(m["data"].fields) else None);
      assert e.JsonSerialize().Keys == m.Keys;
      Some(e)
    else None
  }

  lemma {:induction false} ErrorRoundTrip(e: Error)
    ensures ErrorFromJson(e.JsonSerialize()) == Some(e)
  {
    ErrorCodeRoundTrip(e.code);
  }

  /** A successful response. It never carries an error. */
  datatype ResultResponse = ResultResponse(jsonRpc: Version, id: RequestId, result: map<string, Json>)
  {
    function JsonSerialize(): (m: map<string, Json>)
      ensures m.Keys == {"jsonrpc", "id", "result"}
      ensures m["jsonrpc"] == JString("2.0")
      ensures m["id"] == IdToJson(id) && m["result"] == JObject(result)
    {
      map["jsonrpc" := JString(jsonRpc.Value()), "id" := IdToJson(id), "result" := JObject(result)]
    }
  }

  /** A failed response. It never carries a result. */
  datatype ErrorResponse = ErrorResponse(jsonRpc: Version, id: RequestId, error: Error)
  {
    /** The serialised form, with the error value serialised in turn. */
    function JsonSerialize(): (m: map<string, Json>)
      ensures m.Keys == {"jsonrpc", "id", "error"}
      ensures m["jsonrpc"] == JString("2.0")
      ensures m["id"] == IdToJson(id) && m["error"] == JObject(error.JsonSerialize())
    {
      map["jsonrpc" := JString(jsonRpc.Value()), "id" := IdToJson(id), "error" := JObject(error.JsonSerialize())]
    }

    /**
     * What encoding the response actually puts on the wire: the error entry holds the
     * error object itself, which implements no serialisation of its own, so it is encoded
     * through its public properties; its code, message and data are all private, so the
     * entry is an empty object whatever the error.
     */
    function JsonSerializeAsWritten(): (m: map<string, Json>)
      ensures m.Keys == {"jsonrpc", "id", "error"}
      ensures m["jsonrpc"] == JString("2.0") && m["id"] == IdToJson(id)
      ensures m["error"] == JObject(map[])
    {
      map["jsonrpc" := JString(jsonRpc.Value()), "id" := IdToJson(id), "error" := JObject(map[])]
    }
  }

  /** As written, the wire form of an error response loses its code and message. */
  lemma ErrorLostOnWire(r1: ErrorResponse, r2: ErrorResponse)
    requires r1.id == r2.id && r1.error != r2.error
    ensures r1.JsonSerializeAsWritten() == r2.JsonSerializeAsWritten()
    ensures r1.JsonSerialize() != r2.JsonSerialize()
  {
    ErrorRoundTrip(r1.error);
    ErrorRoundTrip(r2.error);
    assert r1.JsonSerialize()["error"] != r2.JsonSerialize()["error"];
  }

  /** What the server answers: a result response or an error response. */
  datatype Response = ResultMessage(result: ResultResponse) | ErrorMessage(error: ErrorResponse)
  {
    function Id(): RequestId {
      match this
      case ResultMessage(r) => r.id
      case ErrorMessage(e) => e.id
    }

    function JsonRpc(): Version {
      match this
      case ResultMessage(r) => r.jsonRpc
      case ErrorMessage(e) => e.jsonRpc
    }

    /** The serialised envelope: a result or an error entry, never both. */
    function JsonSerialize(): (m: map<string, Json>)
      ensures ("result" in m) != ("error" in m)
      ensures "result" in m <==> ResultMessage?
      ensures "jsonrpc" in m && m["jsonrpc"] == JString("2.0")
      ensures "id" in m && m["id"] == IdToJson(Id())
    {
      match this
      case ResultMessage(r) => r.JsonSerialize()
      case ErrorMessage(e) => e.JsonSerialize()
    }
  }

  /** Reads a serialised envelope back, as a client decoding the answer would. */
  function ResponseFromJson(m: map<string, Json>): (r: Option<Response>)
    ensures r.Some? ==> r.value.JsonSerialize() == m
  {
    if && "jsonrpc" in m && m["jsonrpc"].JString? && VersionTryFrom(m["jsonrpc"].s).Some?
       && "id" in m && IdFromJson(m["id"]).Some?
    then
      var version, id := VersionTryFrom(m["jsonrpc"].s).value, IdFromJson(m["id"]).value;
      if m.Keys == {"jsonrpc", "id", "result"} && m["result"].JObject? then
        var r := ResultResponse(version, id, m["result"].fields);
        assert r.JsonSerialize().Keys == m.Keys;
        Some(ResultMessage(r))
      else if m.Keys == {"jsonrpc", "id", "error"} && m["error"].JObject? && ErrorFromJson(m["error"].fields).Some? then
        var e := ErrorResponse(version, id, ErrorFromJson(m["error"].fields).value);
        assert e.JsonSerialize().Keys == m.Keys;
        Some(ErrorMessage(e))
      else None
    else None
  }

  /** Serialising a response and reading it back yields the same version, id and payload. */
  lemma {:induction false} ResponseRoundTrip(r: Response)
    ensures ResponseFromJson(r.JsonSerialize()) == Some(r)
  {
    var m := r.JsonSerialize();
    IdRoundTrip(r.Id());
    assert VersionTryFrom(m["jsonrpc"].s) == Some(r.JsonRpc());
    match r
    case ResultMessage(res) =>
      assert m.Keys == {"jsonrpc", "id", "result"};
    case ErrorMessage(e) =>
      ErrorRoundTrip(e.error);
      assert m.Keys == {"jsonrpc", "id", "error"};
      assert m.Keys != {"jsonrpc", "id", "result"} by { assert "result" !in m; }
  }
}
