/**
 * The JSON values that reach the modelled code through request bodies and
 * stored comments, with the Python built-ins the code applies to them:
 * truthiness, `dict.get`, `int(...)` and `str(...)`.
 */
module Json {
  import opened Wrappers
  import opened Text

  /** A scalar JSON value as `json.loads` returns it (`null` is Python's `None`). */
  datatype Value = JNull | JBool(b: bool) | JInt(i: int) | JStr(s: string)

  /** A text field as `json.loads` reads it: not JSON at all (it raises),
      an object (a `dict`), or any other document (a `dict` method on it raises). */
  datatype Document = NotJson(text: string) | Object(fields: map<string, Value>) | NonObject(value: Value)

  /** Python's truth value of a scalar. */
  predicate Truthy(v: Value) {
    match v
    case JNull => false
    case JBool(b) => b
    case JInt(i) => i != 0
    case JStr(s) => s != []
  }

  /** `d.get(key)`: the value under `key`, `None` when the key is absent. */
  function Get(fields: map<string, Value>, key: string): (v: Value)
    ensures key !in fields ==> v == JNull
    ensures key in fields ==> v == fields[key]
  {
    if key in fields then fields[key] else JNull
  }

  /** `str(i)` for any integer. */
  function IntToText(i: int): (s: string)
    ensures |s| >= 1
  {
    if i < 0 then "-" + NatToDecimal(-i) else NatToDecimal(i)
  }

  /** `int(s)` for a string: an optional sign followed by decimal digits. */
  function ParseIntText(s: string): (r: Option<int>)
    ensures r.Some? ==> |s| >= 1
  {
    if |s| >= 2 && s[0] == '-' && IsDigits(s[1..]) then Some(-(DecimalToNat(s[1..]) as int))
    else if |s| >= 2 && s[0] == '+' && IsDigits(s[1..]) then Some(DecimalToNat(s[1..]))
    else if |s| >= 1 && IsDigits(s) then Some(DecimalToNat(s))
    else None
  }

  /** `int(v)`; `None` where Python raises (`None`, text that is not an integer). */
  function PyInt(v: Value): Option<int> {
    match v
    case JNull => None
    case JBool(b) => Some(if b then 1 else 0)
    case JInt(i) => Some(i)
    case JStr(s) => ParseIntText(s)
  }

  /** `str(v)`, as an f-string renders a scalar. */
  function PyStr(v: Value): string {
    match v
    case JNull => "None"
    case JBool(b) => if b then "True" else "False"
    case JInt(i) => IntToText(i)
    case JStr(s) => s
  }

  /** The text a value stands for in a Django `CharField` column or lookup: the
      field converts anything but `None` with `str(...)`, and `None` is SQL
      NULL, which equals no text. */
  function FieldText(v: Value): (r: Option<string>)
    ensures r.None? <==> v.JNull?
    ensures v.JStr? ==> r == Some(v.s)
  {
    if v.JNull? then None else Some(PyStr(v))
  }

  /** The text of an integer reads back as that integer. */
  lemma IntTextRoundTrip(i: int)
    ensures ParseIntText(IntToText(i)) == Some(i)
  {
    DecimalRoundTrip(if i < 0 then -i else i);
    if i < 0 {
      assert IntToText(i)[1..] == NatToDecimal(-i);
    }
  }

  /** `int(str(i)) == i`: a request amount sent as text parses to the integer it spells. */
  lemma PyIntOfText(i: int)
    ensures PyInt(JStr(PyStr(JInt(i)))) == Some(i)
  {
    IntTextRoundTrip(i);
  }
}
