/**
 * The dynamically typed values that flow through the services: what
 * `json.loads` produces, what a Firestore document holds, and the dicts the
 * agents return. A document or JSON object is a `Record`.
 */
module Values {
  import opened Wrappers
  import opened Text

  datatype Value =
    | Null
    | Bool(b: bool)
    | Int(i: int)
    | Real(r: real)
    | Str(s: string)
    | List(items: seq<Value>)
    | Obj(fields: map<string, Value>)
      /** A `datetime` (or Firestore's `DatetimeWithNanoseconds`); `iso` is what `isoformat()` returns. */
    | DateTime(iso: string)

  type Record = map<string, Value>

  /** Python truthiness: `None`, `False`, zero and empty containers are false. */
  predicate Truthy(v: Value)
  {
    match v
    case Null => false
    case Bool(b) => b
    case Int(i) => i != 0
    case Real(r) => r != 0.0
    case Str(s) => s != []
    case List(xs) => xs != []
    case Obj(m) => m != map[]
    case DateTime(_) => true
  }

  /** `d.get(k, default)`. */
  function Get(m: Record, k: string, default: Value): (v: Value)
    ensures k in m ==> v == m[k]
    ensures k !in m ==> v == default
  {
    if k in m then m[k] else default
  }

  /** What a Python `set` or `dict` key can be: lists and dicts are unhashable. */
  predicate Hashable(v: Value)
  {
    !v.List? && !v.Obj?
  }

  /** The `TypeError` that using `v` as a set member or dict key raises. */
  function UnhashableError(v: Value): string
  {
    "unhashable type: '" + TypeName(v) + "'"
  }

  /** A Python number as a real (`bool` counts as 0 or 1); `None` for a value arithmetic rejects. */
  function Number(v: Value): (r: Option<real>)
    ensures r.Some? <==> v.Int? || v.Real? || v.Bool?
    ensures v.Int? ==> r == Some(v.i as real)
    ensures v.Real? ==> r == Some(v.r)
  {
    match v
    case Int(i) => Some(i as real)
    case Real(x) => Some(x)
    case Bool(b) => Some(if b then 1.0 else 0.0)
    case _ => None
  }

  /** `str(v)` for the scalar values that the services format into text. */
  function Display(v: Value): string
  {
    match v
    case Null => "None"
    case Bool(b) => if b then "True" else "False"
    case Int(i) => IntToString(i)
    case Str(s) => s
    case DateTime(iso) => iso
    case _ => "<value>"
  }

  /** `len(v)`, or `None` where Python raises `TypeError`. */
  function Len(v: Value): (n: Option<nat>)
    ensures n.Some? <==> v.Str? || v.List? || v.Obj?
    ensures n.Some? ==> (n.value == 0 <==> !Truthy(v))
  {
    match v
    case Str(s) => Some(|s|)
    case List(xs) => Some(|xs|)
    case Obj(m) => Some(|m|)
    case _ => None
  }

  /** Python's name for the type of `v`, as error messages print it. */
  function TypeName(v: Value): string
  {
    match v
    case Null => "NoneType"
    case Bool(_) => "bool"
    case Int(_) => "int"
    case Real(_) => "float"
    case Str(_) => "str"
    case List(_) => "list"
    case Obj(_) => "dict"
    case DateTime(_) => "datetime"
  }

  /** The strings of `v` when it is a list of strings. */
  function StringItems(v: Value): (r: Option<seq<string>>)
    ensures r.Some? <==> v.List? && forall i :: 0 <= i < |v.items| ==> v.items[i].Str?
    ensures r.Some? ==> |r.value| == |v.items| && forall i :: 0 <= i < |v.items| ==> v.items[i] == Str(r.value[i])
  {
    if v.List? && forall i :: 0 <= i < |v.items| ==> v.items[i].Str? then
      Some(seq(|v.items|, i requires 0 <= i < |v.items| => v.items[i].s))
    else None
  }

  function StrList(xs: seq<string>): (v: Value)
    ensures v.List? && |v.items| == |xs|
  {
    List(seq(|xs|, i requires 0 <= i < |xs| => Str(xs[i])))
  }

  /**
   * `v.split("T")[0] if v else None`, the date the services derive from a
   * timestamp field, as written: the part before the first "T" of a string,
   * `None` for a missing or falsy value; any other value has no `split` and
   * raises, and that includes the `datetime` Firestore returns for a
   * timestamp.
   */
  function DateOfAsWritten(stamp: Value): (r: Result<Value, string>)
    ensures !Truthy(stamp) ==> r == Ok(Null)
    ensures Truthy(stamp) ==> (r.Ok? <==> stamp.Str?)
    ensures r.Ok? && Truthy(stamp) && stamp.Str? ==>
      r.value.Str? && 'T' !in r.value.s && StartsWith(stamp.s, r.value.s)
  {
    if !Truthy(stamp) then Ok(Null)
    else match stamp
      case Str(s) => Ok(Str(DatePart(s)))
      case _ => Err("'" + TypeName(stamp) + "' object has no attribute 'split'")
  }

  /** `s.split("T")[0]`. */
  function DatePart(s: string): (d: string)
    ensures 'T' !in d && StartsWith(s, d)
    ensures 'T' !in s ==> d == s
  {
    s[..FindChar(s, 'T')]
  }

  /**
   * The date of a timestamp field as evidently intended: a `datetime`
   * gives the date part of its ISO form, exactly as the ISO string would.
   */
  function DateOf(stamp: Value): (r: Result<Value, string>)
    ensures stamp.DateTime? && stamp.iso != [] ==> r == DateOfAsWritten(Str(stamp.iso))
    ensures !stamp.DateTime? ==> r == DateOfAsWritten(stamp)
    ensures r.Ok? <==> !Truthy(stamp) || stamp.Str? || stamp.DateTime?
  {
    match stamp
    case DateTime(iso) => Ok(Str(DatePart(iso)))
    case _ => DateOfAsWritten(stamp)
  }
}
