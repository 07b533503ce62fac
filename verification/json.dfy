/** The JSON values the homework API can return, together with the few
    Python operations the bot applies to them: `dict.get`, truthiness,
    hashability and `str()`. Floating-point numbers are not modelled. */
module JsonValues {

  datatype Json =
    | Null
    | Bool(b: bool)
    | Int(i: int)
    | Str(s: string)
    | Arr(items: seq<Json>)
    | Obj(fields: map<string, Json>)

  /** `d.get(key)` on a dictionary: the stored value, or `None` when the
      key is absent. Only meaningful for objects; callers check `Obj?` first,
      as calling `.get` on anything else raises AttributeError. */
  function Lookup(j: Json, key: string): Json
  {
    if j.Obj? && key in j.fields then j.fields[key] else Null
  }

  /** `key in d` for a dictionary `d`. */
  predicate Has(j: Json, key: string)
  {
    j.Obj? && key in j.fields
  }

  /** Python truthiness of the decoded value: `None`, `False`, `0`, the
      empty string, the empty list and the empty dict are false. */
  predicate Truthy(j: Json)
  {
    match j
    case Null => false
    case Bool(b) => b
    case Int(i) => i != 0
    case Str(s) => s != ""
    case Arr(items) => items != []
    case Obj(fields) => fields != map[]
  }

  /** Decoded lists and dicts are unhashable, so they cannot be looked up
      as a dictionary key. */
  predicate Hashable(j: Json)
  {
    !j.Arr? && !j.Obj?
  }

  function DigitChar(d: nat): (c: char)
    requires d < 10
    ensures '0' <= c <= '9' && (c as int) - ('0' as int) == d
  {
    "0123456789"[d]
  }

  /** The number a string of decimal digits denotes, most significant
      digit first. */
  function DigitsValue(s: string): nat
    requires forall k :: 0 <= k < |s| ==> '0' <= s[k] <= '9'
    decreases |s|
  {
    if s == [] then 0
    else DigitsValue(s[..|s| - 1]) * 10 + ((s[|s| - 1] as int) - ('0' as int))
  }

  /** Python's `str(n)` for a natural number: its decimal digits, most
      significant first, with no leading zero. */
  function Decimal(n: nat): (r: string)
    ensures |r| >= 1
    ensures forall k :: 0 <= k < |r| ==> '0' <= r[k] <= '9'
    ensures DigitsValue(r) == n
    ensures |r| > 1 ==> r[0] != '0'
    decreases n
  {
    if n < 10 then [DigitChar(n)]
    else
      var head := Decimal(n / 10);
      var r := head + [DigitChar(n % 10)];
      assert r[..|r| - 1] == head;
      r
  }

  /** `str(v)` of the decoded value, as an f-string interpolates it. Lists
      and dicts are rendered as fixed placeholders. */
  function Render(j: Json): (r: string)
    ensures j.Str? ==> r == j.s
    ensures j.Null? ==> r == "None"
    ensures j.Bool? ==> r == (if j.b then "True" else "False")
    ensures j.Int? && j.i >= 0 ==> r == Decimal(j.i) && DigitsValue(r) == j.i
    ensures j.Int? && j.i < 0 ==> |r| >= 2 && r[0] == '-' && r[1..] == Decimal(-j.i) && DigitsValue(r[1..]) == -j.i
  {
    match j
    case Null => "None"
    case Bool(b) => if b then "True" else "False"
    case Int(i) => if i < 0 then "-" + Decimal(-i) else Decimal(i)
    case Str(s) => s
    case Arr(_) => "[...]"
    case Obj(_) => "{...}"
  }
}
