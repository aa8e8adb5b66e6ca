/** A decoded JSON document as Python's json module hands it to the bot, with the
    few Python operations the bot applies to such values: `dict.get`, `type(v).__name__`
    and `str(v)`. */
module JsonValues {
  import opened Wrappers

  /** JSON numbers are restricted to integers. */
  datatype Json =
    | JNull
    | JBool(b: bool)
    | JInt(i: int)
    | JStr(s: string)
    | JArr(items: seq<Json>)
    | JObj(fields: map<string, Json>)

  /** `d.get(key)`: the value stored under `key`, or None when the key is absent. */
  function Get(fields: map<string, Json>, key: string): (r: Option<Json>)
    ensures r.Some? <==> key in fields
    ensures r.Some? ==> r.value == fields[key]
  {
    if key in fields then Some(fields[key]) else None
  }

  /** `d.get(key) is not None`: the key is there and does not hold JSON null. */
  predicate Present(fields: map<string, Json>, key: string)
  {
    key in fields && !fields[key].JNull?
  }

  /** Lists and dicts cannot be dict keys nor looked up in one. */
  predicate Unhashable(j: Json)
  {
    j.JArr? || j.JObj?
  }

  /** `type(v).__name__` of the Python value the JSON decodes to. */
  function TypeName(j: Json): string
  {
    match j
    case JNull => "NoneType"
    case JBool(_) => "bool"
    case JInt(_) => "int"
    case JStr(_) => "str"
    case JArr(_) => "list"
    case JObj(_) => "dict"
  }

  /** `str(v)` for a scalar; a list or dict is shown by a placeholder. */
  function Show(j: Json): string
  {
    match j
    case JNull => "None"
    case JBool(b) => if b then "True" else "False"
    case JInt(n) => Decimal(n)
    case JStr(s) => s
    case JArr(_) => "[...]"
    case JObj(_) => "{...}"
  }

  /** `str(n)` for a Python int. */
  function Decimal(n: int): (r: string)
    ensures |r| > 0
  {
    if n < 0 then "-" + Digits(-n) else Digits(n)
  }

  function Digits(n: nat): (r: string)
    ensures |r| > 0
    decreases n
  {
    var d := "0123456789"[n % 10];
    if n < 10 then [d] else Digits(n / 10) + [d]
  }

  /** Python's `sub in s` on strings. */
  predicate Substring(sub: string, s: string)
    decreases |s|
  {
    (|sub| <= |s| && s[..|sub|] == sub) || (|s| > 0 && Substring(sub, s[1..]))
  }

  /** `s.endswith(suffix)`. */
  predicate EndsWith(s: string, suffix: string)
  {
    |suffix| <= |s| && s[|s| - |suffix|..] == suffix
  }
}
