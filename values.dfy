/**
  JavaScript values as the components see them: rows coming back from the
  backend, change-event payloads and nested JSON columns.  Only the parts of
  JavaScript semantics the components rely on are modelled: truthiness, `||`,
  optional chaining `?.`, object spread and conversion to a string.
 */
module Values {

  datatype Option<T> = None | Some(value: T)

  /** A JavaScript value.  Numbers are integers here (no floating point);
      a nested object keeps its own-property entries in property order. */
  datatype Value =
    | Undefined
    | Null
    | Str(s: string)
    | Num(n: int)
    | Bool(b: bool)
    | Obj(entries: seq<(string, Value)>)

  /** A table row or a change-event record: field name to value. */
  type Record = map<string, Value>

  /** The shape `{ data, error }` that every backend query resolves to. */
  datatype QueryResult = QueryResult(data: Option<seq<Record>>, error: bool)

  /** JavaScript truthiness. */
  predicate Truthy(v: Value)
  {
    match v
    case Undefined => false
    case Null => false
    case Str(s) => s != ""
    case Num(n) => n != 0
    case Bool(b) => b
    case Obj(_) => true
  }

  /** `a || b` */
  function Or(a: Value, b: Value): Value
  {
    if Truthy(a) then a else b
  }

  /** `r.key`, which is `undefined` for a missing field. */
  function Get(r: Record, key: string): Value
  {
    if key in r then r[key] else Undefined
  }

  /** The value of the first entry named `key` (property names are unique in an object). */
  function Lookup(entries: seq<(string, Value)>, key: string): Value
  {
    if entries == [] then Undefined
    else if entries[0].0 == key then entries[0].1
    else Lookup(entries[1..], key)
  }

  /** `v?.key`: `undefined` unless `v` is an object that has the property. */
  function Member(v: Value, key: string): Value
  {
    if v.Obj? then Lookup(v.entries, key) else Undefined
  }

  /** `{ ...base, ...over }`: every field of `over` wins, the other fields of `base` are kept. */
  function Spread(base: Record, over: Record): (r: Record)
    ensures r.Keys == base.Keys + over.Keys
    ensures forall k :: Get(r, k) == if k in over then over[k] else Get(base, k)
  {
    base + over
  }

  function DigitChar(d: nat): char
    requires d < 10
  {
    "0123456789"[d]
  }

  function Digits(n: nat): string
  {
    if n < 10 then [DigitChar(n)] else Digits(n / 10) + [DigitChar(n % 10)]
  }

  /** `String(v)`, as a template literal `${v}` converts a value. */
  function Show(v: Value): string
  {
    match v
    case Undefined => "undefined"
    case Null => "null"
    case Str(s) => s
    case Num(n) => if n < 0 then "-" + Digits(-n) else Digits(n)
    case Bool(b) => if b then "true" else "false"
    case Obj(_) => "[object Object]"
  }

  /** The white space `trim` and `parseInt` skip: WhiteSpace and LineTerminator. */
  predicate IsJsSpace(c: char)
  {
    c == '\t' || c == '\n' || c == '\U{000B}' || c == '\U{000C}' || c == '\r' || c == ' ' ||
    c == '\U{00A0}' || c == '\U{1680}' || ('\U{2000}' <= c <= '\U{200A}') ||
    c == '\U{2028}' || c == '\U{2029}' || c == '\U{202F}' || c == '\U{205F}' ||
    c == '\U{3000}' || c == '\U{FEFF}'
  }

  /** The number of white-space characters `s` starts with. */
  function LeadingSpaces(s: string): (n: nat)
    ensures n <= |s|
    ensures forall i :: 0 <= i < n ==> IsJsSpace(s[i])
    ensures n < |s| ==> !IsJsSpace(s[n])
  {
    if s == [] || !IsJsSpace(s[0]) then 0 else 1 + LeadingSpaces(s[1..])
  }
}
