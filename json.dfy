/**
 A decoded JSON value as the bot sees it after `response.json()`, together with
 the few pieces of Python semantics the bot applies to such values: truthiness
 (`if homework:`), the name of a value's type (which appears in the text of
 Python's built-in exceptions) and `str()` (used by the f-string that builds
 the status message).
 */
module PyJson {

  datatype Json =
    | JNull
    | JBool(b: bool)
    | JInt(i: int)
    | JStr(s: string)
    | JList(items: seq<Json>)
    | JObject(fields: map<string, Json>)

  /** Python truthiness: None, False, 0, "", [] and {} are falsy, every other value is truthy. */
  predicate Truthy(j: Json): (b: bool)
    ensures !b <==> j in {JNull, JBool(false), JInt(0), JStr(""), JList([]), JObject(map[])}
  {
    match j
    case JNull => false
    case JBool(b) => b
    case JInt(i) => i != 0
    case JStr(s) => s != ""
    case JList(items) => items != []
    case JObject(fields) => fields != map[]
  }

  /** `type(j).__name__` of the Python value `json` decodes `j` into. */
  function TypeName(j: Json): string {
    match j
    case JNull => "NoneType"
    case JBool(_) => "bool"
    case JInt(_) => "int"
    case JStr(_) => "str"
    case JList(_) => "list"
    case JObject(_) => "dict"
  }

  /** Lists and dicts cannot be dictionary keys (`x in some_dict` raises). */
  predicate Hashable(j: Json) {
    !j.JList? && !j.JObject?
  }

  function DigitChar(d: nat): (c: char)
    requires d < 10
    ensures '0' <= c <= '9'
  {
    "0123456789"[d]
  }

  predicate IsDecimal(s: string) {
    |s| > 0 && forall k :: 0 <= k < |s| ==> '0' <= s[k] <= '9'
  }

  /** The value of a string of decimal digits, most significant first. */
  function DecimalValue(s: string): nat
    requires IsDecimal(s)
  {
    var last := (s[|s| - 1] - '0') as nat;
    if |s| == 1 then last else 10 * DecimalValue(s[..|s| - 1]) + last
  }

  /** `str(n)` for a non-negative Python int: digits only, no leading zero. */
  function NatToDecimal(n: nat): (r: string)
    ensures IsDecimal(r)
    ensures |r| > 1 ==> r[0] != '0'
  {
    if n < 10 then [DigitChar(n)] else NatToDecimal(n / 10) + [DigitChar(n % 10)]
  }

  /** `str(i)` for any Python int. */
  function IntToDecimal(i: int): (r: string) {
    if i < 0 then "-" + NatToDecimal(-i) else NatToDecimal(i)
  }

  lemma {:induction false} DecimalRoundTrip(n: nat)
    ensures DecimalValue(NatToDecimal(n)) == n
  {
    var r := NatToDecimal(n);
    if n >= 10 {
      DecimalRoundTrip(n / 10);
      assert r[..|r| - 1] == NatToDecimal(n / 10);
    }
  }

  /** Joins the parts with ", " between them, as `", ".join(parts)`. */
  function JoinComma(parts: seq<string>): string {
    if parts == [] then ""
    else if |parts| == 1 then parts[0]
    else parts[0] + ", " + JoinComma(parts[1..])
  }

  /**
   `str(j)` when `quoted` is false and `repr(j)` when it is true (the form
   elements take inside a list). A non-empty dict is shown as "{…}".
   */
  function Render(j: Json, quoted: bool): string
    decreases j
  {
    match j
    case JNull => "None"
    case JBool(b) => if b then "True" else "False"
    case JInt(i) => IntToDecimal(i)
    case JStr(s) => if quoted then "'" + s + "'" else s
    case JList(items) =>
      "[" + JoinComma(seq(|items|, k requires 0 <= k < |items| => Render(items[k], true))) + "]"
    case JObject(fields) => if fields == map[] then "{}" else "{…}"
  }

  /** `str(j)`: strings as themselves, None and booleans by their Python names, lists bracketed. */
  function Str(j: Json): (r: string)
    ensures j.JStr? ==> r == j.s
    ensures j.JNull? ==> r == "None"
    ensures j.JBool? ==> r == if j.b then "True" else "False"
    ensures j.JList? ==> |r| >= 2 && r[0] == '[' && r[|r| - 1] == ']'
  {
    Render(j, false)
  }

  lemma {:induction false} StrOfInt(i: int)
    ensures i >= 0 ==> IsDecimal(Str(JInt(i))) && DecimalValue(Str(JInt(i))) == i
    ensures i < 0 ==> Str(JInt(i))[0] == '-' && IsDecimal(Str(JInt(i))[1..])
                      && DecimalValue(Str(JInt(i))[1..]) == -i
  {
    if i >= 0 {
      DecimalRoundTrip(i);
    } else {
      DecimalRoundTrip(-i);
      assert Str(JInt(i))[1..] == NatToDecimal(-i);
    }
  }
}
