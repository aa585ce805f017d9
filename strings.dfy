/**
 * The JavaScript string operations the query layer relies on:
 * `Array.prototype.join`, `String.prototype.split` with a string separator,
 * `indexOf`, number-to-string conversion and the global `parseInt`.
 */
module Strings {
  import opened Wrappers

  /** `parts.join(sep)`. */
  function Join(parts: seq<string>, sep: string): string
  {
    if |parts| == 0 then ""
    else if |parts| == 1 then parts[0]
    else parts[0] + sep + Join(parts[1..], sep)
  }

  lemma {:induction false} JoinAppend(a: seq<string>, b: seq<string>, sep: string)
    requires |a| > 0 && |b| > 0
    ensures Join(a + b, sep) == Join(a, sep) + sep + Join(b, sep)
  {
    if |a| == 1 {
      assert (a + b)[1..] == b;
    } else {
      assert (a + b)[1..] == a[1..] + b;
      JoinAppend(a[1..], b, sep);
    }
  }

  lemma {:induction false} JoinSnoc(a: seq<string>, x: string, sep: string)
    requires |a| > 0
    ensures Join(a + [x], sep) == Join(a, sep) + sep + x
  {
    JoinAppend(a, [x], sep);
  }

  lemma {:induction false} JoinCons(x: string, a: seq<string>, sep: string)
    requires |a| > 0
    ensures Join([x] + a, sep) == x + sep + Join(a, sep)
  {
    assert ([x] + a)[1..] == a;
  }

  /** `s` contains `d` starting at index `j`. */
  predicate OccursAt(s: string, d: string, j: nat)
  {
    j + |d| <= |s| && s[j..j + |d|] == d
  }

  /** `s.indexOf(d, from)`, for a non-empty `d`. */
  function IndexOfFrom(s: string, d: string, from: nat): (r: Option<nat>)
    requires |d| > 0
    ensures r.Some? ==> from <= r.value && OccursAt(s, d, r.value)
    ensures r.Some? ==> forall j :: from <= j < r.value ==> !OccursAt(s, d, j)
    ensures r.None? ==> forall j :: from <= j ==> !OccursAt(s, d, j)
    decreases |s| - from
  {
    if from + |d| > |s| then None
    else if s[from..from + |d|] == d then Some(from)
    else IndexOfFrom(s, d, from + 1)
  }

  /** `s.split(d)` for a non-empty separator string `d`. */
  function Split(s: string, d: string): (r: seq<string>)
    requires |d| > 0
    ensures |r| >= 1
    decreases |s|
  {
    match IndexOfFrom(s, d, 0)
    case None => [s]
    case Some(i) => [s[..i]] + Split(s[i + |d|..], d)
  }

  /** Splitting and re-joining with the same separator gives back the string. */
  lemma {:induction false} SplitJoin(s: string, d: string)
    requires |d| > 0
    ensures Join(Split(s, d), d) == s
    decreases |s|
  {
    match IndexOfFrom(s, d, 0)
    case None =>
    case Some(i) =>
      var rest := s[i + |d|..];
      var tail := Split(rest, d);
      SplitJoin(rest, d);
      assert Split(s, d) == [s[..i]] + tail;
      JoinCons(s[..i], tail, d);
      assert s == s[..i] + s[i..i + |d|] + rest;
  }

  /** No piece produced by `Split` contains the separator. */
  lemma {:induction false} SplitPiecesFree(s: string, d: string, k: nat)
    requires |d| > 0 && k < |Split(s, d)|
    ensures forall j :: !OccursAt(Split(s, d)[k], d, j)
    decreases |s|
  {
    var found := IndexOfFrom(s, d, 0);
    if found.Some? {
      var i := found.value;
      var rest := s[i + |d|..];
      assert Split(s, d) == [s[..i]] + Split(rest, d);
      if k == 0 {
        PrefixFree(s, d, i);
      } else {
        SplitPiecesFree(rest, d, k - 1);
        assert Split(s, d)[k] == Split(rest, d)[k - 1];
      }
    }
  }

  lemma {:induction false} PrefixFree(s: string, d: string, i: nat)
    requires |d| > 0 && i <= |s|
    requires forall j :: 0 <= j < i ==> !OccursAt(s, d, j)
    ensures forall j :: !OccursAt(s[..i], d, j)
  {
    forall j: nat | OccursAt(s[..i], d, j) ensures false {
      assert s[..i][j..j + |d|] == s[j..j + |d|];
      assert OccursAt(s, d, j);
    }
  }

  /** A string without the separator splits into itself alone. */
  lemma {:induction false} SplitNoSeparator(s: string, d: string)
    requires |d| > 0
    requires forall j :: !OccursAt(s, d, j)
    ensures Split(s, d) == [s]
  {
  }

  /**
   * The last piece of a split with more than one piece: the earlier pieces
   * re-joined, the separator and the last piece give back the string, and
   * the last piece holds no separator.
   */
  lemma {:induction false} SplitLast(s: string, d: string, k: nat)
    requires |d| > 0 && k > 0 && k == |Split(s, d)| - 1
    ensures Join(Split(s, d)[..k], d) + d + Split(s, d)[k] == s
    ensures forall j :: !OccursAt(Split(s, d)[k], d, j)
  {
    var p := Split(s, d);
    SplitJoin(s, d);
    assert p == p[..k] + [p[k]];
    JoinSnoc(p[..k], p[k], d);
    SplitPiecesFree(s, d, k);
  }

  /** A string splits into one piece exactly when it does not contain the separator. */
  lemma {:induction false} SplitSingle(s: string, d: string)
    requires |d| > 0
    ensures |Split(s, d)| == 1 <==> forall j :: !OccursAt(s, d, j)
  {
    var found := IndexOfFrom(s, d, 0);
    if found.Some? {
      var i := found.value;
      assert Split(s, d) == [s[..i]] + Split(s[i + |d|..], d);
      assert OccursAt(s, d, i);
    }
  }

  /**
   * Joining pieces free of a one-character separator and splitting the
   * result gives the pieces back.
   */
  lemma {:induction false} SplitOfJoin(parts: seq<string>, d: string)
    requires |d| == 1 && |parts| > 0
    requires forall k, j :: 0 <= k < |parts| ==> !OccursAt(parts[k], d, j)
    ensures Split(Join(parts, d), d) == parts
  {
    var p0 := parts[0];
    if |parts| == 1 {
      SplitNoSeparator(p0, d);
    } else {
      var rest := Join(parts[1..], d);
      var s := Join(parts, d);
      assert s == p0 + d + rest;
      forall j: nat | j < |p0| ensures !OccursAt(s, d, j) {
        assert !OccursAt(parts[0], d, j);
        assert s[j..j + 1] == p0[j..j + 1];
      }
      assert s[|p0|..|p0| + 1] == d;
      assert OccursAt(s, d, |p0|);
      var found := IndexOfFrom(s, d, 0);
      assert found == Some(|p0|);
      assert s[..|p0|] == p0 && s[|p0| + 1..] == rest;
      SplitOfJoin(parts[1..], d);
      assert parts == [p0] + parts[1..];
    }
  }

  predicate IsDigit(c: char)
  {
    '0' <= c <= '9'
  }

  function DigitChar(n: nat): (c: char)
    requires n < 10
    ensures IsDigit(c) && (c as int) - ('0' as int) == n
  {
    (('0' as int) + n) as char
  }

  /** Decimal rendering of a natural number, as `String(n)` gives it. */
  function NatToString(n: nat): (r: string)
    ensures |r| >= 1
    ensures forall i :: 0 <= i < |r| ==> IsDigit(r[i])
    ensures r[0] == '0' ==> n == 0 && |r| == 1
  {
    if n < 10 then [DigitChar(n)] else NatToString(n / 10) + [DigitChar(n % 10)]
  }

  /** `String(i)` for an integral number. */
  function IntToString(i: int): string
  {
    if i < 0 then "-" + NatToString(-i) else NatToString(i)
  }

  /**
   * The ECMAScript StrWhiteSpaceChar set (WhiteSpace and LineTerminator),
   * which `parseInt` skips at the start of its input.
   */
  predicate IsJsSpace(c: char)
  {
    var k := c as int;
    k == 0x09 || k == 0x0A || k == 0x0B || k == 0x0C || k == 0x0D || k == 0x20 ||
    k == 0xA0 || k == 0x1680 || (0x2000 <= k <= 0x200A) || k == 0x2028 || k == 0x2029 ||
    k == 0x202F || k == 0x205F || k == 0x3000 || k == 0xFEFF
  }

  function TrimStart(s: string): (r: string)
    ensures |r| <= |s|
    ensures |r| > 0 ==> !IsJsSpace(r[0])
    ensures |s| > 0 && !IsJsSpace(s[0]) ==> r == s
  {
    if |s| > 0 && IsJsSpace(s[0]) then TrimStart(s[1..]) else s
  }

  /** The value of `c` as a digit in base `radix` (10 or 16), if it is one. */
  function DigitValue(c: char, radix: nat): (r: Option<nat>)
    ensures r.Some? ==> r.value < radix
  {
    var v :=
      if '0' <= c <= '9' then (c as int) - ('0' as int)
      else if 'a' <= c <= 'z' then (c as int) - ('a' as int) + 10
      else if 'A' <= c <= 'Z' then (c as int) - ('A' as int) + 10
      else radix;
    if v < radix then Some(v) else None
  }

  /** Length of the longest prefix of `s` made of base-`radix` digits. */
  function DigitRun(s: string, radix: nat): (k: nat)
    ensures k <= |s|
    ensures forall i :: 0 <= i < k ==> DigitValue(s[i], radix).Some?
    ensures k < |s| ==> DigitValue(s[k], radix).None?
  {
    if |s| == 0 || DigitValue(s[0], radix).None? then 0 else 1 + DigitRun(s[1..], radix)
  }

  /** The number written by the digits `s` in base `radix`. */
  function DigitsValue(s: string, radix: nat): nat
    requires forall i :: 0 <= i < |s| ==> DigitValue(s[i], radix).Some?
  {
    if |s| == 0 then 0
    else DigitsValue(s[..|s| - 1], radix) * radix + DigitValue(s[|s| - 1], radix).value
  }

  /**
   * The global `parseInt(s)` with no radix: skip leading white space, read an
   * optional sign, a `0x`/`0X` prefix selects base 16, then the longest run of
   * digits; no digit at all gives NaN, modelled as `None`.
   */
  function ParseInt(s: string): Option<int>
  {
    var t := TrimStart(s);
    var negative := |t| > 0 && t[0] == '-';
    var u := if |t| > 0 && (t[0] == '-' || t[0] == '+') then t[1..] else t;
    var hex := |u| >= 2 && u[0] == '0' && (u[1] == 'x' || u[1] == 'X');
    var radix := if hex then 16 else 10;
    var w := if hex then u[2..] else u;
    var k := DigitRun(w, radix);
    if k == 0 then None
    else
      var magnitude: int := DigitsValue(w[..k], radix);
      var value: int := if negative then -magnitude else magnitude;
      Some(value)
  }

  lemma {:induction false} DigitsOfNat(n: nat)
    ensures forall i :: 0 <= i < |NatToString(n)| ==> DigitValue(NatToString(n)[i], 10).Some?
    ensures DigitRun(NatToString(n), 10) == |NatToString(n)|
    ensures DigitsValue(NatToString(n), 10) == n
  {
    var r := NatToString(n);
    forall i | 0 <= i < |r| ensures DigitValue(r[i], 10).Some? {
      assert IsDigit(r[i]);
    }
    if n >= 10 {
      DigitsOfNat(n / 10);
      var p := NatToString(n / 10);
      assert r == p + [DigitChar(n % 10)];
      assert r[..|r| - 1] == p;
    }
  }

  lemma {:induction false} DigitNotSpace(c: char)
    requires IsDigit(c)
    ensures !IsJsSpace(c)
  {
  }

  /** `parseInt(String(n)) == n` for every integral number. */
  lemma {:induction false} ParseIntOfIntToString(n: int)
    ensures ParseInt(IntToString(n)) == Some(n)
  {
    var m: nat := if n < 0 then -n else n;
    var digits := NatToString(m);
    DigitsOfNat(m);
    DigitNotSpace(digits[0]);
    assert digits[..|digits|] == digits;
    if n < 0 {
      var s := "-" + digits;
      assert TrimStart(s) == s && s[1..] == digits;
      ParseIntOfDigits(s, digits);
    } else {
      assert TrimStart(digits) == digits;
      ParseIntOfDigits(digits, digits);
    }
  }

  /** An optional sign followed by a run of decimal digits reads as that number. */
  lemma {:induction false} ParseIntOfDigits(s: string, digits: string)
    requires s == digits || s == "-" + digits
    requires TrimStart(s) == s
    requires |digits| > 0 && IsDigit(digits[0]) && (digits[0] == '0' ==> |digits| == 1)
    requires forall i :: 0 <= i < |digits| ==> DigitValue(digits[i], 10).Some?
    requires DigitRun(digits, 10) == |digits|
    ensures var v: int := DigitsValue(digits, 10); ParseInt(s) == Some(if s == digits then v else -v)
  {
    assert digits[..|digits|] == digits;
    if s != digits {
      assert s[0] == '-' && s[1..] == digits;
    }
  }

  /** ASCII lower-casing. */
  function ToLowerAscii(s: string): (r: string)
    ensures |r| == |s|
  {
    if |s| == 0 then ""
    else
      var c := s[0];
      [if 'A' <= c <= 'Z' then ((c as int) + 32) as char else c] + ToLowerAscii(s[1..])
  }

  /** Index of the last occurrence of `c` in `s`. */
  function LastIndexOf(s: string, c: char): (r: Option<nat>)
    ensures r.Some? ==> r.value < |s| && s[r.value] == c && forall j :: r.value < j < |s| ==> s[j] != c
    ensures r.None? ==> forall j :: 0 <= j < |s| ==> s[j] != c
  {
    if |s| == 0 then None
    else if s[|s| - 1] == c then Some(|s| - 1)
    else LastIndexOf(s[..|s| - 1], c)
  }
}
