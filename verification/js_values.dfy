/**
 * JavaScript values as the pages' reducers, event handlers and row-cleaning
 * code see them: the untyped payloads that `dispatch` carries, the JSON rows
 * fetched from a file, and the few coercions (`*`, `split`, truthiness,
 * `!= null`) that the pages apply to them.
 */
module JsValues {

  /** A JavaScript number: a finite value or NaN (infinities are not modelled). */
  datatype Number = Finite(r: real) | NaN

  /**
   * A JavaScript value. `Host(id)` stands for an object that a library or the
   * browser created (a detector, a canvas, a video element, an image); two of
   * them are the same object exactly when their ids agree.
   */
  datatype Value =
    | Undefined
    | Null
    | Bool(b: bool)
    | Num(n: Number)
    | Str(s: string)
    | Arr(items: seq<Value>)
    | Obj(fields: map<string, Value>)
    | Host(id: nat)

  /** A finite number literal. */
  function NumValue(r: real): Value
  {
    Num(Finite(r))
  }

  /** An action object `{ type: kind, payload }`. */
  function ActionObject(kind: string, payload: Value): (a: Value)
    ensures a.Obj? && Get(a.fields, "type") == Str(kind) && Get(a.fields, "payload") == payload
  {
    Obj(map["type" := Str(kind), "payload" := payload])
  }

  /** The outcome of JavaScript code that may throw an `Error` with a message. */
  datatype Result<T> = Ok(value: T) | Thrown(message: string)

  /** Whether `if (v)` takes the then-branch. */
  predicate Truthy(v: Value)
  {
    match v
    case Undefined => false
    case Null => false
    case Bool(b) => b
    case Num(n) => n.Finite? && n.r != 0.0
    case Str(s) => s != ""
    case _ => true
  }

  /** `v == null` with JavaScript's loose equality: null or undefined. */
  predicate IsNullish(v: Value)
  {
    v == Undefined || v == Null
  }

  /** Reading `o[key]` from an object's own fields: undefined when absent. */
  function Get(fields: map<string, Value>, key: string): (v: Value)
    ensures key !in fields ==> v == Undefined
    ensures key in fields ==> v == fields[key]
  {
    if key in fields then fields[key] else Undefined
  }

  /**
   * The property read `v.key`: a TypeError on null and undefined, the field of
   * an object, and undefined on every other value (no modelled primitive or
   * array carries a property the pages read).
   */
  function Property(v: Value, key: string): (r: Result<Value>)
    ensures r.Thrown? <==> IsNullish(v)
    ensures r.Thrown? ==> IsTypeError(r.message)
    ensures v.Obj? ==> r == Ok(Get(v.fields, key))
  {
    match v
    case Undefined => Thrown(TypeError("cannot read properties of undefined"))
    case Null => Thrown(TypeError("cannot read properties of null"))
    case Obj(fields) => Ok(Get(fields, key))
    case _ => Ok(Undefined)
  }

  /** The message of a `TypeError`. */
  predicate IsTypeError(message: string)
  {
    "TypeError" <= message
  }

  /** The message of the `TypeError` that JavaScript raises, with its detail. */
  function TypeError(detail: string): (message: string)
    ensures IsTypeError(message)
  {
    "TypeError" + ": " + detail
  }

  predicate IsDigit(c: char)
  {
    '0' <= c <= '9'
  }

  predicate AllDigits(s: string)
  {
    forall i :: 0 <= i < |s| ==> IsDigit(s[i])
  }

  /** The value of a string of decimal digits, most significant first. */
  function DigitsValue(s: string): (n: nat)
    requires AllDigits(s)
  {
    if s == [] then 0
    else DigitsValue(s[..|s| - 1]) * 10 + (s[|s| - 1] as int - '0' as int)
  }

  /**
   * `Number(s)` for a string: the empty string is 0 and an unsigned string of
   * decimal digits is its value; every other string is NaN here.
   */
  function StringToNumber(s: string): (n: Number)
    ensures n.Finite? <==> AllDigits(s)
    ensures AllDigits(s) ==> n == Finite(DigitsValue(s) as real)
  {
    if AllDigits(s) then Finite(DigitsValue(s) as real) else NaN
  }

  /**
   * The numeric coercion that `v * 1` applies to its left operand. An array
   * becomes the number of its `join(',')`: the empty array is 0, an array of
   * two or more elements has a comma and is NaN, and a one-element array is
   * its element's text as a number (an empty text for null and undefined,
   * `"true"` or `"false"` for a boolean).
   */
  function ToNumber(v: Value): (n: Number)
    ensures v.Num? ==> n == v.n
    ensures v.Str? ==> n == StringToNumber(v.s)
    ensures v.Obj? || v.Host? || v == Undefined ==> n == NaN
    ensures v.Arr? && v.items == [] ==> n == Finite(0.0)
    ensures v.Arr? && |v.items| >= 2 ==> n == NaN
    ensures v.Arr? && |v.items| == 1 && IsNullish(v.items[0]) ==> n == Finite(0.0)
    ensures v.Arr? && |v.items| == 1 && v.items[0].Bool? ==> n == NaN
    ensures v.Arr? && |v.items| == 1 && !IsNullish(v.items[0]) && !v.items[0].Bool? ==> n == ToNumber(v.items[0])
  {
    match v
    case Undefined => NaN
    case Null => Finite(0.0)
    case Bool(b) => Finite(if b then 1.0 else 0.0)
    case Num(n) => n
    case Str(s) => StringToNumber(s)
    case Arr(items) =>
      if items == [] then Finite(0.0)
      else if |items| >= 2 then NaN
      else if IsNullish(items[0]) then Finite(0.0)
      else if items[0].Bool? then NaN
      else ToNumber(items[0])
    case Obj(_) => NaN
    case Host(_) => NaN
  }

  /** A one-element array multiplies like its element: `[5] * 1` is 5 and `["7"] * 1` is 7. */
  lemma SingletonArrayCoerces(e: Value)
    requires e.Num? || e.Str? || e.Arr?
    ensures ToNumber(Arr([e])) == ToNumber(e)
  {
  }

  function Add(a: Number, b: Number): (c: Number)
    ensures c.Finite? <==> a.Finite? && b.Finite?
  {
    if a.Finite? && b.Finite? then Finite(a.r + b.r) else NaN
  }

  function Mul(a: Number, b: Number): (c: Number)
    ensures c.Finite? <==> a.Finite? && b.Finite?
  {
    if a.Finite? && b.Finite? then Finite(a.r * b.r) else NaN
  }

  /** Division by a non-zero constant divisor. */
  function DivBy(a: Number, d: real): (c: Number)
    requires d != 0.0
    ensures c.Finite? <==> a.Finite?
    ensures c.Finite? ==> c.r * d == a.r
  {
    if a.Finite? then Finite(a.r / d) else NaN
  }

  /** `s.split(sep)` for a one-character separator. */
  function Split(s: string, sep: char): (parts: seq<string>)
    ensures |parts| >= 1
    ensures forall k :: 0 <= k < |parts| ==> sep !in parts[k]
    ensures |parts| <= |s| + 1
  {
    if s == [] then [""]
    else
      var rest := Split(s[1..], sep);
      if s[0] == sep then [""] + rest
      else [[s[0]] + rest[0]] + rest[1..]
  }

  /** `parts.join(sep)`. */
  function Join(parts: seq<string>, sep: char): string
    requires |parts| >= 1
  {
    if |parts| == 1 then parts[0] else parts[0] + [sep] + Join(parts[1..], sep)
  }

  /** Splitting and joining again gives back the string. */
  lemma {:induction false} SplitJoin(s: string, sep: char)
    ensures Join(Split(s, sep), sep) == s
  {
    if s != [] {
      SplitJoin(s[1..], sep);
      var rest := Split(s[1..], sep);
      if s[0] != sep && |rest| > 1 {
        assert Split(s, sep)[1..] == rest[1..];
      }
    }
  }

  /** A piece without the separator is the first part of the split. */
  lemma {:induction false} SplitAtFirst(a: string, sep: char, b: string)
    requires sep !in a
    ensures Split(a + [sep] + b, sep) == [a] + Split(b, sep)
  {
    if a != [] {
      assert (a + [sep] + b)[1..] == a[1..] + [sep] + b;
      SplitAtFirst(a[1..], sep, b);
      assert [a[0]] + a[1..] == a;
    } else {
      assert a + [sep] + b == [sep] + b;
    }
  }

  /** A string without the separator splits into itself alone. */
  lemma {:induction false} SplitWithout(a: string, sep: char)
    requires sep !in a
    ensures Split(a, sep) == [a]
  {
    if a != [] {
      SplitWithout(a[1..], sep);
      assert [a[0]] + a[1..] == a;
    }
  }

  function DigitChar(d: nat): (c: char)
    requires d < 10
    ensures IsDigit(c) && c as int - '0' as int == d
  {
    ('0' as int + d) as char
  }

  /** `String(n)` for a natural number: its decimal digits. */
  function NatToString(n: nat): (s: string)
    ensures |s| >= 1 && AllDigits(s)
    ensures DigitsValue(s) == n
  {
    if n < 10 then [DigitChar(n)]
    else
      var prefix := NatToString(n / 10);
      var s := prefix + [DigitChar(n % 10)];
      assert s[..|s| - 1] == prefix;
      s
  }
}
