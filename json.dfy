/**
 * The values `JSON.parse` produces, and the JavaScript operations the client,
 * the hook and the page apply to them: optional chaining (`v?.key`), truthiness, `||`, `??`,
 * `Array.isArray` and `String(v)`.  JSON numbers are integers in this model.
 */
module Json {
  import opened Wrappers
  import Text

  datatype Value =
    | Null
    | Bool(b: bool)
    | Num(n: int)
    | Str(s: string)
    | Arr(items: seq<Value>)
    | Obj(fields: map<string, Value>)

  /** `v?.key`; `None` is `undefined`.  Only objects carry named fields. */
  function Get(v: Option<Value>, key: string): Option<Value>
  {
    if v.Some? && v.value.Obj? && key in v.value.fields then Some(v.value.fields[key]) else None
  }

  /** JavaScript truthiness: `undefined`, `null`, `false`, `0` and `""` are falsy. */
  predicate Truthy(v: Option<Value>) {
    match v
    case None => false
    case Some(Null) => false
    case Some(Bool(b)) => b
    case Some(Num(n)) => n != 0
    case Some(Str(s)) => s != ""
    case Some(_) => true
  }

  /** `null` or `undefined`, the values `??` and `?.` skip. */
  predicate Nullish(v: Option<Value>) {
    v.None? || v.value.Null?
  }

  /** `a || b`. */
  function Or(a: Option<Value>, b: Option<Value>): (r: Option<Value>)
    ensures Truthy(a) ==> r == a
    ensures !Truthy(a) ==> r == b
    ensures Truthy(r) <==> Truthy(a) || Truthy(b)
  {
    if Truthy(a) then a else b
  }

  /** `a ?? b`: unlike `||`, only `null` and `undefined` fall through. */
  function Coalesce(a: Option<Value>, b: Option<Value>): (r: Option<Value>)
    ensures !Nullish(a) ==> r == a
    ensures Nullish(a) ==> r == b
    ensures Nullish(r) <==> Nullish(a) && Nullish(b)
  {
    if Nullish(a) then b else a
  }

  /** A falsy value that is not nullish is kept by `??` but replaced by `||`. */
  lemma CoalesceKeepsFalsy(a: Option<Value>, b: Option<Value>)
    requires !Nullish(a) && !Truthy(a)
    ensures Coalesce(a, b) == a
    ensures Or(a, b) == b
  {
  }

  /** Values compared by identity in `Set`/`Map` (SameValueZero): each parsed array or object is a fresh reference. */
  predicate IsReference(v: Option<Value>) {
    v.Some? && (v.value.Arr? || v.value.Obj?)
  }

  /** SameValueZero on parsed values: equal primitives (or both `undefined`); a fresh reference equals nothing else. */
  predicate SameValueZero(a: Option<Value>, b: Option<Value>) {
    !IsReference(a) && a == b
  }

  function DigitChar(d: nat): char
    requires d < 10
  {
    ('0' as int + d) as char
  }

  /** The number a string of decimal digits denotes, most significant digit first. */
  function DigitsValue(s: string): int
  {
    if s == [] then 0 else 10 * DigitsValue(s[..|s| - 1]) + (s[|s| - 1] as int - '0' as int)
  }

  /** The shortest decimal numeral of `n`: digits only, no leading zero, denoting `n`. */
  function NatDecimal(n: nat): (r: string)
    ensures r != [] && r[0] != '-'
    ensures forall i :: 0 <= i < |r| ==> '0' <= r[i] <= '9'
    ensures |r| > 1 ==> r[0] != '0'
    ensures DigitsValue(r) == n
  {
    if n < 10 then [DigitChar(n)] else NatDecimal(n / 10) + [DigitChar(n % 10)]
  }

  /** `String(n)` for an integer. */
  function Decimal(n: int): (r: string)
    ensures r != []
    ensures r[0] == '-' <==> n < 0
    ensures n >= 0 ==> DigitsValue(r) == n
    ensures n < 0 ==> |r| >= 2 && DigitsValue(r[1..]) == -n
    ensures forall i :: (if n < 0 then 1 else 0) <= i < |r| ==> '0' <= r[i] <= '9'
    ensures var sign := if n < 0 then 1 else 0;
            |r| > sign + 1 ==> r[sign] != '0'
  {
    if n < 0 then "-" + NatDecimal(-n) else NatDecimal(n)
  }

  /** `String(v)` for a defined value; an array prints its elements joined by "," with `null` as "". */
  function ValueString(v: Value): string
    decreases v
  {
    match v
    case Null => "null"
    case Bool(b) => if b then "true" else "false"
    case Num(n) => Decimal(n)
    case Str(s) => s
    case Obj(_) => "[object Object]"
    case Arr(items) =>
      Text.Join(seq(|items|, i requires 0 <= i < |items| =>
        if items[i].Null? then "" else ValueString(items[i])), ",")
  }

  /** `String(v)`, where `undefined` prints as "undefined". */
  function ToJsString(v: Option<Value>): (r: string)
    ensures v.Some? && v.value.Str? ==> r == v.value.s
    ensures v.Some? && v.value.Obj? ==> r == "[object Object]"
  {
    if v.None? then "undefined" else ValueString(v.value)
  }
}
