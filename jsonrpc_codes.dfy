/**
 * The two backed enumerations of the JSON-RPC layer: the protocol version (one case, "2.0")
 * and the error codes of section 5.1 of the JSON-RPC 2.0 Specification.
 */
module JsonRpcCodes {

  import opened Wrappers
  import opened BackedEnum

  /** The only protocol version the server speaks. */
  datatype Version = Version2
  {
    function Value(): string {
      "2.0"
    }
  }

  /** `JsonRpcVersionEnum::tryFrom`: exactly the string "2.0" names a version. */
  function VersionTryFrom(s: string): (r: Option<Version>)
    ensures r.Some? <==> s == "2.0"
    ensures r.Some? ==> r.value.Value() == s
  {
    if s == Version2.Value() then Some(Version2) else None
  }

  datatype ErrorCode =
    | ParseError
    | InvalidRequest
    | MethodNotFound
    | InvalidParams
    | InternalError
  {
    /** The integer a code is serialised as; every one lies in the range the standard reserves. */
    function Value(): (v: int)
      ensures -32768 <= v <= -32000
    {
      match this
      case ParseError => -32700
      case InvalidRequest => -32600
      case MethodNotFound => -32601
      case InvalidParams => -32602
      case InternalError => -32603
    }
  }

  const ErrorCodes: seq<ErrorCode> := [ParseError, InvalidRequest, MethodNotFound, InvalidParams, InternalError]

  /** The integer values the tests of the error value expect. */
  lemma ErrorCodeValues()
    ensures ParseError.Value() == -32700 && InvalidRequest.Value() == -32600
    ensures MethodNotFound.Value() == -32601 && InvalidParams.Value() == -32602
    ensures InternalError.Value() == -32603
  {
  }

  /** No two codes share a value. */
  lemma ErrorCodeValuesDistinct(c1: ErrorCode, c2: ErrorCode)
    requires c1 != c2
    ensures c1.Value() != c2.Value()
  {
  }

  /** The built-in `tryFrom` of the integer-backed enumeration. */
  function ErrorCodeTryFrom(v: int): (r: Option<ErrorCode>)
    ensures r.Some? ==> r.value.Value() == v
    ensures r.None? <==> forall c: ErrorCode :: c.Value() != v
  {
    var r := FirstBacked(ErrorCodes, (c: ErrorCode) => c.Value(), v);
    if r.None? then
      forall c: ErrorCode ensures c.Value() != v {
        assert c == ErrorCodes[0] || c == ErrorCodes[1] || c == ErrorCodes[2] || c == ErrorCodes[3] || c == ErrorCodes[4];
      }
      r
    else r
  }

  /** A code survives the trip to its integer and back. */
  lemma ErrorCodeRoundTrip(c: ErrorCode)
    ensures ErrorCodeTryFrom(c.Value()) == Some(c)
  {
    var r := ErrorCodeTryFrom(c.Value());
    if r.value != c {
      ErrorCodeValuesDistinct(r.value, c);
    }
  }
}
