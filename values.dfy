/**
 * JavaScript values as the core's records hold them, and the few operations on
 * them the source relies on: property reads, truthiness, `||`, object spread
 * and `Number()` conversion.
 */
module Values {
  import opened Wrappers
  import Text

  /** A JavaScript value. Numbers are exact reals; functions and symbols never occur in the core's records. */
  datatype Value =
    | Undefined
    | Null
    | Bool(b: bool)
    | Num(n: real)
    | Str(s: string)
    | Arr(items: seq<Value>)
    | Obj(fields: map<string, Value>)

  /** The own properties of a plain object. */
  type Record = map<string, Value>

  /** `o.k` on a plain object: the stored value, or `undefined` when the key is absent. */
  function Get(o: Record, k: string): Value {
    if k in o then o[k] else Undefined
  }

  /** `v.k` read from any value; only objects carry the properties the core reads. */
  function Prop(v: Value, k: string): Value {
    if v.Obj? then Get(v.fields, k) else Undefined
  }

  /** JavaScript truthiness. A stored number is never NaN here, so only 0 is a falsy number. */
  predicate Truthy(v: Value) {
    match v
    case Undefined => false
    case Null => false
    case Bool(b) => b
    case Num(n) => n != 0.0
    case Str(s) => s != ""
    case Arr(_) => true
    case Obj(_) => true
  }

  /** `a || b`. */
  function Or(a: Value, b: Value): (r: Value)
    ensures Truthy(a) ==> r == a
    ensures !Truthy(a) ==> r == b
  {
    if Truthy(a) then a else b
  }

  /** The properties a string or an array contributes to `{...v}`: one per index, keyed by its decimal form. */
  function IndexKeyed(xs: seq<Value>): (m: Record)
    ensures forall i :: 0 <= i < |xs| ==> Text.Decimal(i) in m && m[Text.Decimal(i)] == xs[i]
    ensures forall k :: k in m ==> exists i :: 0 <= i < |xs| && k == Text.Decimal(i)
  {
    forall i, j | 0 <= i < |xs| && 0 <= j < |xs| && Text.Decimal(i) == Text.Decimal(j) ensures i == j {
      Text.DecimalInjective(i, j);
    }
    map i | 0 <= i < |xs| :: Text.Decimal(i) := xs[i]
  }

  /** The own enumerable properties `{...v}` copies from `v`. */
  function Spread(v: Value): Record {
    match v
    case Obj(m) => m
    case Arr(xs) => IndexKeyed(xs)
    case Str(s) => IndexKeyed(seq(|s|, i requires 0 <= i < |s| => Str([s[i]])))
    case _ => map[]
  }

  /** `{...(v || {})}` copies the same properties as `{...v}`: every falsy value spreads to nothing. */
  lemma SpreadOrEmpty(v: Value)
    ensures Spread(Or(v, Obj(map[]))) == Spread(v)
  {
    if v.Str? && v.s == "" {
      assert Spread(v) == map[];
    }
  }

  /**
   * `Number(v)` as an Option: None is NaN. The text of a string is read by
   * `parse`, which stands for JavaScript's numeric-literal grammar.
   */
  function ToNumber(v: Value, parse: string -> Option<real>): (r: Option<real>)
    ensures v.Num? ==> r == Some(v.n)
    ensures v.Str? ==> r == parse(v.s)
    ensures v.Undefined? ==> r == None
    ensures v.Null? ==> r == Some(0.0)
    ensures v.Bool? ==> r == Some(if v.b then 1.0 else 0.0)
  {
    match v
    case Undefined => None
    case Null => Some(0.0)
    case Bool(b) => Some(if b then 1.0 else 0.0)
    case Num(n) => Some(n)
    case Str(s) => parse(s)
    case Arr(_) => None
    case Obj(_) => None
  }

  /** `Number(v) || 0`: NaN and 0 both read as 0. */
  function NumberOrZero(v: Value, parse: string -> Option<real>): (r: real)
    ensures ToNumber(v, parse).None? ==> r == 0.0
    ensures ToNumber(v, parse).Some? ==> r == ToNumber(v, parse).value
  {
    ToNumber(v, parse).GetOr(0.0)
  }
}
