/**
 * The JavaScript values that reach the API: parsed JSON request bodies and
 * route parameters, together with the two bits of JavaScript semantics the
 * code relies on (truthiness and decimal digit strings).
 */
module JsValues {

  /** A JSON value as produced by the body parser. Numbers are finite. */
  datatype Json =
    | JNull
    | JBool(b: bool)
    | JNum(n: real)
    | JStr(s: string)
    | JArr(items: seq<Json>)
    | JObj(fields: map<string, Json>)

  /** A plain object: property name to value. An absent key is `undefined`. */
  type Record = map<string, Json>

  /** JavaScript truthiness (`if (v)`); `NaN` is not representable here. */
  predicate Truthy(v: Json)
  {
    match v
    case JNull => false
    case JBool(b) => b
    case JNum(n) => n != 0.0
    case JStr(s) => s != ""
    case JArr(_) => true
    case JObj(_) => true
  }

  /**
   * A value of `req.query`: one string, or a list of strings for a key that
   * is repeated (`?k=1&k=2`) or written with brackets (`?k[]=5`).
   */
  datatype QueryValue =
    | QText(s: string)
    | QList(items: seq<string>)

  /** `String(v)`, which `Number(v)` reads: a list is its items joined with ",". */
  function QueryText(v: QueryValue): (t: string)
    ensures v.QText? ==> t == v.s
    ensures v.QList? && |v.items| == 1 ==> t == v.items[0]
    ensures v.QList? && |v.items| >= 2 ==> ',' in t
  {
    match v
    case QText(s) => s
    case QList(items) => JoinComma(items)
  }

  /** `items.join(",")`. */
  function JoinComma(items: seq<string>): (t: string)
    ensures items == [] ==> t == ""
    ensures |items| == 1 ==> t == items[0]
    ensures |items| >= 2 ==> ',' in t
  {
    if items == [] then ""
    else if |items| == 1 then items[0]
    else
      var t := items[0] + "," + JoinComma(items[1..]);
      assert t[|items[0]|] == ',';
      t
  }

  predicate IsDigit(c: char)
  {
    '0' <= c <= '9'
  }

  /** The regular expression `/^\d+$/`: one or more ASCII digits. */
  predicate AllDigits(s: string)
  {
    |s| > 0 && forall i :: 0 <= i < |s| ==> IsDigit(s[i])
  }

  function DigitValue(c: char): (d: nat)
    requires IsDigit(c)
    ensures d < 10 && (d == 0 <==> c == '0')
  {
    c as int - '0' as int
  }

  /** The decimal value of a digit string, as `Number(s)` computes it (precision aside). */
  function DecimalValue(s: string): (v: nat)
    requires forall i :: 0 <= i < |s| ==> IsDigit(s[i])
    ensures v == 0 <==> forall i :: 0 <= i < |s| ==> s[i] == '0'
  {
    if s == [] then 0
    else
      var init := s[..|s| - 1];
      assert forall i :: 0 <= i < |init| ==> init[i] == s[i];
      DecimalValue(init) * 10 + DigitValue(s[|s| - 1])
  }

  /** The shortest decimal spelling of `n` ("0" for zero). */
  function DecimalString(n: nat): (s: string)
    ensures AllDigits(s)
    ensures n > 0 ==> s[0] != '0'
  {
    if n < 10 then [('0' as int + n) as char]
    else DecimalString(n / 10) + [('0' as int + n % 10) as char]
  }

  /** Reading back a decimal spelling gives the number spelled. */
  lemma {:induction false} DecimalRoundTrip(n: nat)
    ensures DecimalValue(DecimalString(n)) == n
  {
    var s := DecimalString(n);
    if n >= 10 {
      DecimalRoundTrip(n / 10);
      assert s[..|s| - 1] == DecimalString(n / 10);
    }
  }

  /** Leading zeros do not change the decimal value. */
  lemma {:induction false} LeadingZeroIgnored(s: string)
    requires forall i :: 0 <= i < |s| ==> IsDigit(s[i])
    ensures DecimalValue("0" + s) == DecimalValue(s)
  {
    if s != [] {
      var t := "0" + s;
      assert t[..|t| - 1] == "0" + s[..|s| - 1];
      LeadingZeroIgnored(s[..|s| - 1]);
    }
  }
}
