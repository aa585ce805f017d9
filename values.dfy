/**
 * The slice of JavaScript values the query layer handles: primitives,
 * arrays and model instances, with truthiness, strict equality, string
 * conversion and the `x|0` integer coercion.
 */
module Values {
  import opened Wrappers
  import opened Strings

  /**
   * A JavaScript value. Numbers are integral (fractional numbers and NaN
   * are not part of this model); `Inst` is a model instance, identified
   * here by the name of its model and the value of its `id` field.
   */
  datatype Val =
    | Undefined
    | Null
    | Bool(b: bool)
    | Num(n: int)
    | Str(s: string)
    | Arr(items: seq<Val>)
    | Inst(modelName: string, id: Val)

  /** `!!v`. */
  predicate Truthy(v: Val)
  {
    match v
    case Undefined => false
    case Null => false
    case Bool(b) => b
    case Num(n) => n != 0
    case Str(s) => |s| > 0
    case Arr(_) => true
    case Inst(_, _) => true
  }

  /** Neither `undefined` nor `null`. */
  predicate Present(v: Val)
  {
    !v.Undefined? && !v.Null?
  }

  /**
   * `a === b`. Arrays and instances are objects, compared by identity; two
   * object values are never taken to be the same object here.
   */
  predicate StrictEq(a: Val, b: Val)
  {
    match (a, b)
    case (Undefined, Undefined) => true
    case (Null, Null) => true
    case (Bool(x), Bool(y)) => x == y
    case (Num(x), Num(y)) => x == y
    case (Str(x), Str(y)) => x == y
    case _ => false
  }

  /** `String(v)`. */
  function ToStr(v: Val): string
    decreases v, 0
  {
    match v
    case Undefined => "undefined"
    case Null => "null"
    case Bool(b) => if b then "true" else "false"
    case Num(n) => IntToString(n)
    case Str(s) => s
    case Arr(items) => Join(JoinTexts(items), ",")
    case Inst(_, _) => "[object Object]"
  }

  /** How `Array.prototype.join` renders one element: `null` and `undefined` become `''`. */
  function JoinText(v: Val): (r: string)
    ensures !Present(v) ==> r == ""
    ensures Present(v) ==> r == ToStr(v)
    decreases v, 1
  {
    if Present(v) then ToStr(v) else ""
  }

  function JoinTexts(items: seq<Val>): (r: seq<string>)
    ensures |r| == |items|
    decreases items
  {
    if |items| == 0 then [] else [JoinText(items[0])] + JoinTexts(items[1..])
  }

  /**
   * ECMAScript StringToNumber for the integral literals this model covers:
   * surrounding white space is ignored, an empty string is 0, then an
   * optionally signed decimal literal or a `0x` hexadecimal literal.
   * Every other string gives `None`. That covers the strings JavaScript
   * reads as NaN, but also fractional and exponent literals such as
   * `"1.5"` or `"1e0"`, which JavaScript reads as numbers; non-integral
   * numbers are outside this model.
   */
  function StringToInteger(s: string): (r: Option<int>)
  {
    var t := TrimEnd(TrimStart(s));
    if |t| == 0 then Some(0)
    else
      var negative := t[0] == '-';
      var hex := |t| >= 2 && t[0] == '0' && (t[1] == 'x' || t[1] == 'X');
      var radix := if hex then 16 else 10;
      var w := if hex then t[2..] else if t[0] == '-' || t[0] == '+' then t[1..] else t;
      if |w| == 0 || DigitRun(w, radix) != |w| then None
      else
        var magnitude: int := DigitsValue(w, radix);
        Some(if negative then -magnitude else magnitude)
  }

  function TrimEnd(s: string): (r: string)
    ensures |r| <= |s|
  {
    if |s| > 0 && IsJsSpace(s[|s| - 1]) then TrimEnd(s[..|s| - 1]) else s
  }

  const TwoTo32: int := 0x1_0000_0000
  const TwoTo31: int := 0x8000_0000

  /** ECMAScript ToInt32 on an integer: reduce modulo 2^32 into [-2^31, 2^31). */
  function WrapInt32(n: int): (r: int)
    ensures -TwoTo31 <= r < TwoTo31
    ensures (r - n) % TwoTo32 == 0
  {
    var m := n % TwoTo32;
    if m >= TwoTo31 then m - TwoTo32 else m
  }

  /** `v|0`: ToNumber followed by ToInt32, NaN giving 0. */
  function BitOrZero(v: Val): (r: int)
    ensures -TwoTo31 <= r < TwoTo31
  {
    match v
    case Undefined => 0
    case Null => 0
    case Bool(b) => if b then 1 else 0
    case Num(n) => WrapInt32(n)
    case Str(s) => WrapInt32(StringToInteger(s).GetOr(0))
    case Arr(_) => WrapInt32(StringToInteger(ToStr(v)).GetOr(0))
    case Inst(_, _) => 0
  }

  /** `b|0` is 1 for true and 0 for false; an integer in 32-bit range is unchanged. */
  lemma {:induction false} BitOrZeroFacts(b: bool, n: int)
    ensures BitOrZero(Bool(b)) == (if b then 1 else 0)
    ensures -TwoTo31 <= n < TwoTo31 ==> BitOrZero(Num(n)) == n
  {
  }

  /** A decimal string read back by `|0` gives the number it was written from. */
  lemma {:induction false} BitOrZeroOfDecimal(n: nat)
    requires n < TwoTo31
    ensures BitOrZero(Str(NatToString(n))) == n
  {
    StringToIntegerOfDecimal(n);
    BitOrZeroFacts(false, n);
    assert BitOrZero(Str(NatToString(n))) == WrapInt32(n) == BitOrZero(Num(n));
  }

  lemma {:induction false} StringToIntegerOfDecimal(n: nat)
    ensures StringToInteger(NatToString(n)) == Some(n)
  {
    var s := NatToString(n);
    DigitsOfNat(n);
    assert TrimEnd(TrimStart(s)) == s by {
      DigitNotSpace(s[0]);
      DigitNotSpace(s[|s| - 1]);
    }
    StringToIntegerOfDigits(s);
  }

  /** A run of decimal digits without a `0x` prefix reads as its decimal value. */
  lemma {:induction false} StringToIntegerOfDigits(s: string)
    requires |s| > 0 && TrimEnd(TrimStart(s)) == s
    requires IsDigit(s[0]) && (s[0] == '0' ==> |s| == 1)
    requires forall i :: 0 <= i < |s| ==> DigitValue(s[i], 10).Some?
    requires DigitRun(s, 10) == |s|
    ensures StringToInteger(s) == Some(DigitsValue(s, 10))
  {
    assert s[0] != '-' && s[0] != '+';
  }
}
