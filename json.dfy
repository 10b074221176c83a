/**
 * Decoded JSON, as PHP's `json_decode($text, true)` hands it to the core:
 * objects become string-keyed arrays, lists become integer-keyed arrays.
 * Decoding the text itself is a library call and stays outside the model.
 */
module Json {

  import opened Wrappers

  datatype Json =
    | JNull
    | JBool(b: bool)
    | JInt(i: int)
    | JFloat(text: string)   // a float kept as its decimal text; no arithmetic is done on it
    | JString(s: string)
    | JArray(items: seq<Json>)
    | JObject(fields: map<string, Json>)

  /** What `json_decode` produced: a value, or the diagnostic of its `JsonException`. */
  datatype Decoded = ParseFailure(message: string) | Decoded(value: Json)

  function Digit(d: nat): (c: char)
    requires d < 10
    ensures '0' <= c <= '9'
  {
    "0123456789"[d]
  }

  /** The decimal spelling of an integer array key. */
  function IndexKey(n: nat): (k: string)
    ensures |k| >= 1
    ensures forall i :: 0 <= i < |k| ==> '0' <= k[i] <= '9'
    ensures n >= 10 ==> |k| >= 2
  {
    if n < 10 then [Digit(n)] else IndexKey(n / 10) + [Digit(n % 10)]
  }

  lemma DigitInjective(a: nat, b: nat)
    requires a < 10 && b < 10 && Digit(a) == Digit(b)
    ensures a == b
  {
  }

  /** Distinct list positions get distinct keys, so no item of a list shadows another. */
  lemma {:induction false} IndexKeyInjective(m: nat, n: nat)
    requires IndexKey(m) == IndexKey(n)
    ensures m == n
  {
    if m < 10 && n < 10 {
      DigitInjective(m, n);
    } else if m >= 10 && n >= 10 {
      var km, kn := IndexKey(m), IndexKey(n);
      assert km[|km| - 1] == kn[|kn| - 1];
      DigitInjective(m % 10, n % 10);
      assert IndexKey(m / 10) == km[..|km| - 1] == kn[..|kn| - 1] == IndexKey(n / 10);
      IndexKeyInjective(m / 10, n / 10);
    }
  }

  /**
   * A decoded JSON list as a PHP array: item i under key i. PHP treats the integer key i
   * and the string key of its decimal spelling as the same key.
   */
  function ListAsArray(items: seq<Json>): (m: map<string, Json>)
    ensures forall i :: 0 <= i < |items| ==> IndexKey(i) in m && m[IndexKey(i)] == items[i]
    ensures forall k :: k in m ==> exists i :: 0 <= i < |items| && k == IndexKey(i)
  {
    if items == [] then map[]
    else
      var n := |items| - 1;
      var prefix := ListAsArray(items[..n]);
      var m := prefix[IndexKey(n) := items[n]];
      forall i | 0 <= i < n ensures IndexKey(i) in m && m[IndexKey(i)] == items[i] {
        if IndexKey(i) == IndexKey(n) {
          IndexKeyInjective(i, n);
        }
        assert items[..n][i] == items[i];
      }
      forall k | k in m ensures exists i :: 0 <= i < |items| && k == IndexKey(i) {
        if k != IndexKey(n) {
          assert k in prefix;
          var i :| 0 <= i < n && k == IndexKey(i);
        }
      }
      m
  }

  /** A key made only of digits is never a name such as "name" or "arguments". */
  lemma ListKeysAreNumeric(items: seq<Json>, k: string)
    requires k in ListAsArray(items)
    ensures |k| >= 1 && '0' <= k[0] <= '9'
  {
  }

  /**
   * The PHP array a decoded value becomes, when it is one: objects and lists are arrays,
   * every scalar and null is not.
   */
  function AsArray(v: Json): (r: Option<map<string, Json>>)
    ensures r.Some? <==> (v.JObject? || v.JArray?)
    ensures v.JObject? ==> r == Some(v.fields)
  {
    match v
    case JObject(fields) => Some(fields)
    case JArray(items) => Some(ListAsArray(items))
    case _ => None
  }
}
