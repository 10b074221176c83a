/**
 * Turning a decoded payload into a request. The checks run in a fixed order and the first
 * that fails decides the error: parse, version, method presence, method lookup, id type.
 * Every error the factory builds carries version "2.0" and a null id.
 */
module RequestFactory {

  import opened Wrappers
  import opened Json
  import opened McpMethods
  import opened JsonRpcCodes
  import opened JsonRpc

  /** The factory's answer; a request constructor that refuses its arguments throws a type error. */
  datatype Created = Created(request: Request) | Rejected(response: ErrorResponse) | ConstructorTypeError

  const InvalidVersionMessage := "Invalid JsonRpc version."
  const MethodNotSetMessage := "Method name not set."
  const MethodNotFoundMessage := "Method not found."
  const InvalidIdMessage := "Id must be integer or string or null."

  /** An error response as the factory builds it: version "2.0", no id, no data. */
  function CreateError(code: ErrorCode, message: string): (r: ErrorResponse)
    ensures r.jsonRpc == Version2 && r.id == NullId && r.error.data == None
    ensures r.error.code == code && r.error.message == message
  {
    ErrorResponse(Version2, NullId, Error(code, message))
  }

  /** PHP's `empty()` of a string: the empty string and "0". */
  predicate EmptyString(s: string) {
    s == "" || s == "0"
  }

  /** The field a key names, when the decoded payload is an object that has it. */
  function Field(payload: Json, key: string): Option<Json> {
    if payload.JObject? && key in payload.fields then Some(payload.fields[key]) else None
  }

  predicate VersionValid(payload: Json) {
    var v := Field(payload, "jsonrpc");
    v.Some? && v.value.JString? && VersionTryFrom(v.value.s).Some?
  }

  predicate MethodSet(payload: Json) {
    var m := Field(payload, "method");
    m.Some? && m.value.JString? && !EmptyString(m.value.s)
  }

  predicate MethodKnown(payload: Json)
    requires MethodSet(payload)
  {
    TryFrom(Field(payload, "method").value.s).Some?
  }

  /** An absent id is fine; a present one must be an integer, a string or null. */
  predicate IdValid(payload: Json) {
    var id := Field(payload, "id");
    id.None? || IdFromJson(id.value).Some?
  }

  /** `createFromString`, from the decoder's output on. */
  function CreateFromString(input: Decoded): (r: Created)
    ensures r.Rejected? ==> r.response.jsonRpc == Version2 && r.response.id == NullId
    ensures r.Rejected? ==> r.response.error.code in {ParseError, InvalidRequest, MethodNotFound}
    ensures !r.Rejected? <==>
      (input.Decoded? && VersionValid(input.value) && MethodSet(input.value)
       && MethodKnown(input.value) && IdValid(input.value))
    ensures r.Created? ==> r.request.jsonRpc == Version2
    ensures r.Created? ==> r.request.mcpMethod.Value() == Field(input.value, "method").value.s
    ensures r.Created? ==> IdToJson(r.request.id) == Field(input.value, "id").GetOr(JNull)
  {
    match input
    case ParseFailure(diagnostic) => Rejected(CreateError(ParseError, diagnostic))
    case Decoded(payload) =>
      if !VersionValid(payload) then Rejected(CreateError(InvalidRequest, InvalidVersionMessage))
      else if !MethodSet(payload) then Rejected(CreateError(InvalidRequest, MethodNotSetMessage))
      else if !MethodKnown(payload) then Rejected(CreateError(MethodNotFound, MethodNotFoundMessage))
      else if !IdValid(payload) then Rejected(CreateError(InvalidRequest, InvalidIdMessage))
      else
        var version := VersionTryFrom(Field(payload, "jsonrpc").value.s).value;
        var id := if Field(payload, "id").Some? then IdFromJson(Field(payload, "id").value).value else NullId;
        var resolved := TryFrom(Field(payload, "method").value.s).value;
        var params := Field(payload, "params");
        if params.None? || params.value.JNull? then Created(Request(version, id, resolved, map[]))
        else if AsArray(params.value).Some? then Created(Request(version, id, resolved, AsArray(params.value).value))
        else ConstructorTypeError
  }

  /** A payload the decoder refused yields PARSE_ERROR carrying the decoder's own diagnostic. */
  lemma ParseFailureRejected(diagnostic: string)
    ensures CreateFromString(ParseFailure(diagnostic)) == Rejected(CreateError(ParseError, diagnostic))
  {
  }

  /**
   * A missing, non-string or unsupported version, or a payload that is no object at all,
   * is an invalid request whatever the other fields hold.
   */
  lemma InvalidVersionRejected(payload: Json)
    requires !payload.JObject? || !VersionValid(payload)
    ensures CreateFromString(Decoded(payload)) == Rejected(CreateError(InvalidRequest, InvalidVersionMessage))
  {
  }

  /** With a good version, a missing, non-string, "" or "0" method is reported as not set. */
  lemma MethodNotSetRejected(payload: Json)
    requires VersionValid(payload) && !MethodSet(payload)
    ensures CreateFromString(Decoded(payload)) == Rejected(CreateError(InvalidRequest, MethodNotSetMessage))
  {
  }

  /** A set method name that no enumeration case carries is not found, whatever the id holds. */
  lemma UnknownMethodRejected(payload: Json)
    requires VersionValid(payload) && MethodSet(payload)
    requires forall m: McpMethod :: m.Value() != Field(payload, "method").value.s
    ensures CreateFromString(Decoded(payload)) == Rejected(CreateError(MethodNotFound, MethodNotFoundMessage))
  {
  }

  /** Only after every earlier check passed is an id of the wrong type reported. */
  lemma InvalidIdRejected(payload: Json)
    requires VersionValid(payload) && MethodSet(payload) && MethodKnown(payload)
    requires "id" in payload.fields
    requires var id := payload.fields["id"]; id.JFloat? || id.JBool? || id.JArray? || id.JObject?
    ensures CreateFromString(Decoded(payload)) == Rejected(CreateError(InvalidRequest, InvalidIdMessage))
  {
  }

  /**
   * Once every check passed, params default to the empty array when absent or null, are
   * taken as given when they are an array, and make the constructor throw otherwise.
   */
  lemma ParamsOfCreatedRequest(payload: Json)
    requires VersionValid(payload) && MethodSet(payload) && MethodKnown(payload) && IdValid(payload)
    ensures var r := CreateFromString(Decoded(payload));
      var p := Field(payload, "params");
      && (p.None? || p.value.JNull? ==> r.Created? && r.request.params == map[])
      && (p.Some? && AsArray(p.value).Some? ==> r.Created? && r.request.params == AsArray(p.value).value)
      && (r.ConstructorTypeError? <==> p.Some? && !p.value.JNull? && AsArray(p.value).None?)
  {
  }

  /** A created request is a notification exactly when the payload's id is absent or null. */
  lemma {:induction false} NotificationIffNoId(payload: Json)
    requires CreateFromString(Decoded(payload)).Created?
    ensures CreateFromString(Decoded(payload)).request.IsNotification()
            <==> ("id" !in payload.fields || payload.fields["id"] == JNull)
  {
    var r := CreateFromString(Decoded(payload));
    if "id" in payload.fields && payload.fields["id"] != JNull {
      assert IdToJson(r.request.id) == payload.fields["id"];
    }
  }

  /** "0" is empty to PHP: it is reported as an unset method, not as an unknown one. */
  lemma ZeroMethodIsNotSet()
    ensures var payload := JObject(map["jsonrpc" := JString("2.0"), "method" := JString("0")]);
      CreateFromString(Decoded(payload)) == Rejected(CreateError(InvalidRequest, MethodNotSetMessage))
  {
  }

  /** The factory's first test: every field present and well-formed. */
  lemma FullRequestAccepted()
    ensures var payload := JObject(map[
              "jsonrpc" := JString("2.0"), "method" := JString("initialize"), "id" := JInt(1),
              "params" := JObject(map["key" := JString("value")])]);
      CreateFromString(Decoded(payload))
      == Created(Request(Version2, IntId(1), Initialize, map["key" := JString("value")]))
  {
    var payload := JObject(map[
      "jsonrpc" := JString("2.0"), "method" := JString("initialize"), "id" := JInt(1),
      "params" := JObject(map["key" := JString("value")])]);
    assert Field(payload, "jsonrpc") == Some(JString("2.0"));
    assert Field(payload, "method") == Some(JString("initialize"));
    assert Field(payload, "id") == Some(JInt(1));
    assert Field(payload, "params") == Some(JObject(map["key" := JString("value")]));
    TryFromValue(Initialize);
  }

  /** A payload with only version and method: no id, and params default to the empty array. */
  lemma MinimalRequestAccepted()
    ensures var payload := JObject(map["jsonrpc" := JString("2.0"), "method" := JString("initialize")]);
      CreateFromString(Decoded(payload)) == Created(Request(Version2, NullId, Initialize, map[]))
  {
    var payload := JObject(map["jsonrpc" := JString("2.0"), "method" := JString("initialize")]);
    assert Field(payload, "jsonrpc") == Some(JString("2.0"));
    assert Field(payload, "method") == Some(JString("initialize"));
    assert Field(payload, "id") == None && Field(payload, "params") == None;
    TryFromValue(Initialize);
  }

  /** Version "1.0" is refused. */
  lemma OldVersionRejected()
    ensures var payload := JObject(map["jsonrpc" := JString("1.0"), "method" := JString("initialize")]);
      CreateFromString(Decoded(payload)) == Rejected(CreateError(InvalidRequest, InvalidVersionMessage))
  {
    var payload := JObject(map["jsonrpc" := JString("1.0"), "method" := JString("initialize")]);
    assert Field(payload, "jsonrpc") == Some(JString("1.0"));
    assert "1.0"[0] != "2.0"[0];
  }

  /** A method that is a number is reported as not set. */
  lemma NumericMethodRejected()
    ensures var payload := JObject(map["jsonrpc" := JString("2.0"), "method" := JInt(123)]);
      CreateFromString(Decoded(payload)) == Rejected(CreateError(InvalidRequest, MethodNotSetMessage))
  {
    var payload := JObject(map["jsonrpc" := JString("2.0"), "method" := JInt(123)]);
    assert Field(payload, "jsonrpc") == Some(JString("2.0"));
    assert Field(payload, "method") == Some(JInt(123));
  }

  /** "unknown_method" is set but names no case. */
  lemma UnknownMethodExampleRejected()
    ensures var payload := JObject(map["jsonrpc" := JString("2.0"), "method" := JString("unknown_method")]);
      CreateFromString(Decoded(payload)) == Rejected(CreateError(MethodNotFound, MethodNotFoundMessage))
  {
    var payload := JObject(map["jsonrpc" := JString("2.0"), "method" := JString("unknown_method")]);
    assert Field(payload, "jsonrpc") == Some(JString("2.0"));
    assert Field(payload, "method") == Some(JString("unknown_method"));
    forall m: McpMethod ensures m.Value() != "unknown_method" {
      assert m.Value()[0] != 'u';
    }
    UnknownMethodRejected(payload);
  }

  /** An id that is a list is refused. */
  lemma ListIdRejected()
    ensures var payload := JObject(map[
              "jsonrpc" := JString("2.0"), "method" := JString("initialize"),
              "id" := JArray([JString("invalid")])]);
      CreateFromString(Decoded(payload)) == Rejected(CreateError(InvalidRequest, InvalidIdMessage))
  {
    var payload := JObject(map[
      "jsonrpc" := JString("2.0"), "method" := JString("initialize"),
      "id" := JArray([JString("invalid")])]);
    assert Field(payload, "jsonrpc") == Some(JString("2.0"));
    assert Field(payload, "method") == Some(JString("initialize"));
    assert Field(payload, "id") == Some(JArray([JString("invalid")]));
    TryFromValue(Initialize);
  }

  /**
   * The factory against the request constructor as its signature is declared, with the
   * method parameter typed as a string: the resolved enumeration case is an object, which no
   * string parameter accepts, so a payload that passes every check ends in a type error
   * instead of a request. Errors found by the checks are unaffected.
   */
  function CreateFromStringAsWritten(input: Decoded): (r: Created)
    ensures !r.Created?
    ensures r.Rejected? <==> CreateFromString(input).Rejected?
    ensures r.Rejected? ==> r.response == CreateFromString(input).response
  {
    match CreateFromString(input)
    case Created(_) => ConstructorTypeError
    case other => other
  }

  /** The factory's first test payload, accepted by the corrected factory, is refused as written. */
  lemma FullRequestRefusedAsWritten()
    ensures var payload := JObject(map[
              "jsonrpc" := JString("2.0"), "method" := JString("initialize"), "id" := JInt(1),
              "params" := JObject(map["key" := JString("value")])]);
      && CreateFromString(Decoded(payload)).Created?
      && CreateFromStringAsWritten(Decoded(payload)) == ConstructorTypeError
  {
    FullRequestAccepted();
  }
}
