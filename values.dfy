/**
 * The Python values that pass through the request layer: decoded JSON
 * bodies and payloads, and resource ids. Only two things about them matter
 * to the layer: their Python truth value (`if body:`, `ID or self.selected`)
 * and, for ids, their `str()` as a path segment.
 */
module Values {
  import opened Wrappers

  /** A decoded JSON document; an object keeps its fields in order. */
  datatype Json =
    | JNull
    | JBool(b: bool)
    | JNumber(n: int)
    | JString(s: string)
    | JArray(items: seq<Json>)
    | JObject(fields: seq<(string, Json)>)

  /** Python's truth value of the decoded document: exactly six documents are false. */
  predicate Truthy(v: Json): (b: bool)
    ensures !b <==> v == JNull || v == JBool(false) || v == JNumber(0) || v == JString("")
                    || v == JArray([]) || v == JObject([])
  {
    match v
    case JNull => false
    case JBool(b) => b
    case JNumber(n) => n != 0
    case JString(s) => s != ""
    case JArray(items) => items != []
    case JObject(fields) => fields != []
  }

  /** A resource id as a caller may pass it: an integer, a string, or `None`. */
  datatype Id = IntId(n: int) | StrId(s: string) | NoneId

  /** Python's truth value of an id: `0`, `""` and `None` are false. */
  predicate IdTruthy(id: Id): (b: bool)
    ensures !b <==> id == IntId(0) || id == StrId("") || id == NoneId
  {
    match id
    case IntId(n) => n != 0
    case StrId(s) => s != ""
    case NoneId => false
  }

  predicate IsDigit(c: char)
  {
    '0' <= c <= '9'
  }

  function DigitChar(d: int): (c: char)
    requires 0 <= d < 10
    ensures IsDigit(c)
  {
    ('0' as int + d) as char
  }

  /** Decimal digits of `n`, most significant first, with no leading zero. */
  function NatToDecimal(n: nat): (r: string)
    ensures |r| > 0
    ensures forall k :: 0 <= k < |r| ==> IsDigit(r[k])
    ensures |r| > 1 ==> r[0] != '0'
    decreases n
  {
    if n < 10 then [DigitChar(n)]
    else NatToDecimal(n / 10) + [DigitChar(n % 10)]
  }

  /** The number a string of decimal digits denotes. */
  function DecimalValue(s: string): nat
    requires forall k :: 0 <= k < |s| ==> IsDigit(s[k])
  {
    if s == [] then 0
    else
      assert IsDigit(s[|s| - 1]);
      DecimalValue(s[..|s| - 1]) * 10 + (s[|s| - 1] as int - '0' as int)
  }

  lemma {:induction false} DecimalRoundTrip(n: nat)
    ensures DecimalValue(NatToDecimal(n)) == n
    decreases n
  {
    if n >= 10 {
      var r := NatToDecimal(n);
      assert r[..|r| - 1] == NatToDecimal(n / 10);
      DecimalRoundTrip(n / 10);
    }
  }

  /**
   * Python's `str()` of an id: a string as it is, `None` as the word, and an
   * integer as its decimal digits, after a `-` exactly when it is negative.
   */
  function IdToString(id: Id): (r: string)
    ensures id.StrId? ==> r == id.s
    ensures id.NoneId? ==> r == "None"
    ensures id.IntId? ==> |r| > 0 && (r[0] == '-' <==> id.n < 0)
    ensures id.IntId? && id.n < 0 ==> |r| > 1 && forall k :: 1 <= k < |r| ==> IsDigit(r[k])
    ensures id.IntId? && id.n >= 0 ==> forall k :: 0 <= k < |r| ==> IsDigit(r[k])
  {
    match id
    case IntId(n) => if n < 0 then "-" + NatToDecimal(-n) else NatToDecimal(n)
    case StrId(s) => s
    case NoneId => "None"
  }

  /** Reads an integer back from its `str()`. */
  function ParseInt(s: string): Option<int>
  {
    if |s| > 1 && s[0] == '-' && forall k :: 1 <= k < |s| ==> IsDigit(s[k]) then
      var magnitude: int := DecimalValue(s[1..]);
      Some(-magnitude)
    else if |s| > 0 && forall k :: 0 <= k < |s| ==> IsDigit(s[k]) then
      Some(DecimalValue(s))
    else None
  }

  /** An integer id's path segment names that id and no other, and is a single segment. */
  lemma IntIdRoundTrip(n: int)
    ensures ParseInt(IdToString(IntId(n))) == Some(n)
    ensures '/' !in IdToString(IntId(n))
  {
    var r := IdToString(IntId(n));
    if n < 0 {
      var d := NatToDecimal(-n);
      assert r[1..] == d;
      DecimalRoundTrip(-n);
    } else {
      DecimalRoundTrip(n);
    }
  }
}
