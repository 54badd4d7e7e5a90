/**
 * The loosely typed values the data layer receives and stores: what `JSON.parse` can produce, plus
 * `undefined` for a property that is not there. The JavaScript coercions the source leans on are
 * written out here: truthiness (`x || d`, `!x`), `Number(x)` and `new Date(x).getTime()`.
 */
module Json {
  import opened Basics
  import opened Text

  datatype Value =
    | Undefined                       // a missing property
    | Null
    | Bool(b: bool)
    | Num(n: real)                    // every JSON number; NaN and the infinities cannot come out of JSON
    | Str(s: string)
    | Stamp(ms: int)                  // an ISO-8601 string written by `toISOString`, kept as its instant
    | Arr(elems: seq<Value>)
    | Obj(fields: map<string, Value>)

  /** A plain object, as the store keeps receipts, settings and the insight snapshot. */
  type Record = map<string, Value>

  /** JavaScript truthiness: `undefined`, `null`, `false`, `0` and `""` are the falsy values. */
  predicate Truthy(v: Value) {
    match v
    case Undefined => false
    case Null => false
    case Bool(b) => b
    case Num(n) => n != 0.0
    case Str(s) => s != ""
    case _ => true
  }

  /** `m[key]` on an object: `undefined` when the key is absent. */
  function Field(m: Record, key: string): Value {
    if key in m then m[key] else Undefined
  }

  /** `x || d`. */
  function Or(x: Value, d: Value): (r: Value)
    ensures Truthy(x) ==> r == x
    ensures !Truthy(x) ==> r == d
  {
    if Truthy(x) then x else d
  }

  /** `v.key` on a value that is not `null` or `undefined`: only objects have the properties read here. */
  function Prop(v: Value, key: string): Value {
    if v.Obj? then Field(v.fields, key) else Undefined
  }

  /** The result of `Number(x)`. */
  datatype Number = NaN | Finite(r: real)

  /** A number that `||` keeps: neither NaN nor zero. */
  predicate TruthyNumber(x: Number) {
    x.Finite? && x.r != 0.0
  }

  /** `Number(v)`. */
  function ToNumber(v: Value): Number {
    match v
    case Undefined => NaN
    case Null => Finite(0.0)
    case Bool(b) => Finite(if b then 1.0 else 0.0)
    case Num(n) => Finite(n)
    case Str(s) => StringToNumber(s)
    case Stamp(_) => NaN
    case Arr(a) => ArrayToNumber(a)
    case Obj(_) => NaN
  }

  /**
   * `Number(a)` for an array, which converts `a.join(",")`: the empty array is 0, an array of two or
   * more elements holds a comma and is NaN, and a single element converts as its own string form.
   */
  function ArrayToNumber(a: seq<Value>): Number
    decreases a
  {
    if |a| == 0 then Finite(0.0)
    else if |a| >= 2 then NaN
    else
      match a[0]
      case Undefined => Finite(0.0)
      case Null => Finite(0.0)
      case Bool(_) => NaN
      case Num(n) => Finite(n)
      case Str(s) => StringToNumber(s)
      case Stamp(_) => NaN
      case Arr(inner) => ArrayToNumber(inner)
      case Obj(_) => NaN
  }

  predicate IsDigit(c: char) {
    '0' <= c <= '9'
  }

  predicate AllDigits(s: string) {
    forall i :: 0 <= i < |s| ==> IsDigit(s[i])
  }

  function DigitsValue(s: string): nat
    requires AllDigits(s)
  {
    if s == [] then 0 else 10 * DigitsValue(s[..|s| - 1]) + (s[|s| - 1] as int - '0' as int)
  }

  function Pow10(n: nat): (p: nat)
    ensures p >= 1
  {
    if n == 0 then 1 else 10 * Pow10(n - 1)
  }

  /** Index of the first `.` in `s`, or `|s|` when there is none. */
  function IndexOfDot(s: string): (i: nat)
    ensures i <= |s|
    ensures forall k :: 0 <= k < i ==> s[k] != '.'
    ensures i < |s| ==> s[i] == '.'
  {
    if s == [] then 0 else if s[0] == '.' then 0 else 1 + IndexOfDot(s[1..])
  }

  /** An unsigned decimal literal `ddd`, `ddd.ddd`, `ddd.` or `.ddd`. */
  function UnsignedDecimal(t: string): Number {
    var p := IndexOfDot(t);
    var whole := t[..p];
    var frac := if p < |t| then t[p + 1..] else "";
    if |whole| + |frac| > 0 && AllDigits(whole) && AllDigits(frac) then
      Finite(DigitsValue(whole) as real + DigitsValue(frac) as real / Pow10(|frac|) as real)
    else
      NaN
  }

  function Negate(x: Number): Number {
    if x.NaN? then NaN else Finite(-x.r)
  }

  /** `Number(s)` for a string: surrounding white space is ignored and the empty string is 0. */
  function StringToNumber(s: string): Number {
    var t := Trim(s);
    if t == "" then Finite(0.0)
    else if t[0] == '-' then Negate(UnsignedDecimal(t[1..]))
    else if t[0] == '+' then UnsignedDecimal(t[1..])
    else UnsignedDecimal(t)
  }

  /** `Number(v) || d`. */
  function NumberOr(v: Value, d: real): (r: real)
    ensures TruthyNumber(ToNumber(v)) ==> ToNumber(v) == Finite(r)
    ensures !TruthyNumber(ToNumber(v)) ==> r == d
  {
    var x := ToNumber(v);
    if TruthyNumber(x) then x.r else d
  }

  /** `Number(v) || null`. */
  function NumberOrNull(v: Value): (r: Value)
    ensures TruthyNumber(ToNumber(v)) ==> r == Num(ToNumber(v).r)
    ensures !TruthyNumber(ToNumber(v)) ==> r == Null
  {
    var x := ToNumber(v);
    if TruthyNumber(x) then Num(x.r) else Null
  }

  /** Coercing an already coerced value again changes nothing. */
  lemma NumberOrNullIdempotent(v: Value)
    ensures NumberOrNull(NumberOrNull(v)) == NumberOrNull(v)
  {
  }

  /** What `JSON.stringify` then `JSON.parse` make of a number: NaN comes back as `null`. */
  function NumberToJson(x: Number): Value {
    if x.NaN? then Null else Num(x.r)
  }

  /** Largest absolute time value a `Date` can hold, in milliseconds. */
  const MAX_TIME: real := 8640000000000000.0

  /** Truncation toward zero, as `Date`'s TimeClip applies it. */
  function TruncateToInt(n: real): int {
    if n >= 0.0 then n.Floor else -((-n).Floor)
  }

  /**
   * `new Date(v).getTime()`, with `None` for an invalid date (NaN). Parsing of date strings other than
   * the ones `toISOString` writes is not modelled: such strings read as invalid.
   */
  function TimeOf(v: Value): Option<int> {
    match v
    case Undefined => None
    case Null => Some(0)
    case Bool(b) => Some(if b then 1 else 0)
    case Num(n) => if -MAX_TIME <= n <= MAX_TIME then Some(TruncateToInt(n)) else None
    case Str(_) => None
    case Stamp(ms) => Some(ms)
    case Arr(_) => None
    case Obj(_) => None
  }
}
