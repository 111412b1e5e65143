/** The JSON-like values that cross the tool-call boundary, and the handful of
    JavaScript operations the server applies to them (`typeof`, member access,
    truthiness and conversion to a string). */
module JsonValues {
  import opened Wrappers

  /** A JSON value. Numbers are integer-valued. An object maps member names to
      values; a member that is absent reads as `undefined`. */
  datatype Json =
    | Null
    | Bool(b: bool)
    | Num(n: int)
    | Str(s: string)
    | Arr(items: seq<Json>)
    | Obj(fields: map<string, Json>)

  /** `v.key`, with `None` for `undefined`. Only objects have own members; the
      built-in properties of arrays and strings (such as `length`) are not
      among the names this model looks up. */
  function Get(v: Json, key: string): Option<Json>
  {
    if v.Obj? && key in v.fields then Some(v.fields[key]) else None
  }

  /** `o?.key`: member access that yields `undefined` on `undefined` and `null`. */
  function Member(o: Option<Json>, key: string): Option<Json>
  {
    if o.Some? then Get(o.value, key) else None
  }

  /** The answers `typeof` can give for these values. */
  datatype JsType = Undefined | ObjectType | BooleanType | NumberType | StringType

  /** JavaScript's `typeof`; note that `typeof null` and `typeof []` are both "object". */
  function TypeOf(o: Option<Json>): JsType
  {
    match o
    case None => Undefined
    case Some(Null) => ObjectType
    case Some(Bool(_)) => BooleanType
    case Some(Num(_)) => NumberType
    case Some(Str(_)) => StringType
    case Some(Arr(_)) => ObjectType
    case Some(Obj(_)) => ObjectType
  }

  /** `Array.isArray(o)` */
  predicate IsArray(o: Option<Json>)
  {
    o.Some? && o.value.Arr?
  }

  /** `items.every((x) => typeof x === "string")` */
  predicate EveryString(items: seq<Json>)
  {
    forall x :: x in items ==> TypeOf(Some(x)) == StringType
  }

  /** Truthiness, as `||` and `if` test it: `undefined`, `null`, `false`, `0` and `""` are falsy. */
  predicate Truthy(o: Option<Json>)
  {
    match o
    case None => false
    case Some(Null) => false
    case Some(Bool(b)) => b
    case Some(Num(n)) => n != 0
    case Some(Str(s)) => s != ""
    case Some(Arr(_)) => true
    case Some(Obj(_)) => true
  }

  /** `String(v)`, the conversion a template literal `${v}` applies. */
  function Display(v: Json): string
  {
    match v
    case Null => "null"
    case Bool(b) => if b then "true" else "false"
    case Num(n) => if n < 0 then "-" + NatToString(-n) else NatToString(n)
    case Str(s) => s
    case Arr(items) =>
      // Array.prototype.join(","): null elements contribute the empty string
      Join(seq(|items|, i requires 0 <= i < |items| => if items[i] == Null then "" else Display(items[i])), ",")
    case Obj(_) => "[object Object]"
  }

  function NatToString(n: nat): string
  {
    if n < 10 then ["0123456789"[n]] else NatToString(n / 10) + ["0123456789"[n % 10]]
  }

  function Join(parts: seq<string>, separator: string): string
  {
    if |parts| == 0 then ""
    else if |parts| == 1 then parts[0]
    else parts[0] + separator + Join(parts[1..], separator)
  }
}
