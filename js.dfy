/**
 * The few JavaScript built-ins the order form relies on, over strings of code points:
 * `String.prototype.trim`, `toLowerCase`, `includes`, `Array.prototype.filter` with `!==`,
 * `String(n)` for an integer and `parseInt` without a radix argument.
 */
module Js {
  import opened Wrappers

  // ---------------------------------------------------------------- whitespace and trim

  /** The WhiteSpace and LineTerminator code points of ECMA-262 (sections 12.2 and 12.3):
      what `trim` strips and what `parseInt` skips before the number. */
  predicate IsWhitespace(c: char) {
    || c == '\t' || c == '\n' || c == '\U{000B}' || c == '\U{000C}' || c == '\r' || c == ' '
    || c == '\U{00A0}' || c == '\U{1680}' || ('\U{2000}' <= c <= '\U{200A}')
    || c == '\U{2028}' || c == '\U{2029}' || c == '\U{202F}' || c == '\U{205F}'
    || c == '\U{3000}' || c == '\U{FEFF}'
  }

  /** `s` without its leading whitespace: a suffix of `s` that starts with a non-blank. */
  function TrimStart(s: string): (r: string)
    ensures |r| <= |s| && r == s[|s| - |r|..]
    ensures forall i :: 0 <= i < |s| - |r| ==> IsWhitespace(s[i])
    ensures r != [] ==> !IsWhitespace(r[0])
  {
    if s != [] && IsWhitespace(s[0]) then TrimStart(s[1..]) else s
  }

  /** `s` without its trailing whitespace: a prefix of `s` that ends with a non-blank. */
  function TrimEnd(s: string): (r: string)
    ensures |r| <= |s| && r == s[..|r|]
    ensures forall i :: |r| <= i < |s| ==> IsWhitespace(s[i])
    ensures r != [] ==> !IsWhitespace(r[|r| - 1])
  {
    if s != [] && IsWhitespace(s[|s| - 1]) then TrimEnd(s[..|s| - 1]) else s
  }

  /** `s.trim()`. */
  function Trim(s: string): string {
    TrimEnd(TrimStart(s))
  }

  /** A field the source treats as not filled in (`!s || s.trim() === ''`, and `!s.trim()`):
      every character is whitespace, the empty string included. */
  predicate IsBlank(s: string) {
    s == [] || (IsWhitespace(s[0]) && IsBlank(s[1..]))
  }

  lemma {:induction false} BlankIffAllWhitespace(s: string)
    ensures IsBlank(s) <==> forall i :: 0 <= i < |s| ==> IsWhitespace(s[i])
  {
    if s != [] {
      BlankIffAllWhitespace(s[1..]);
      assert forall i :: 1 <= i < |s| ==> s[i] == s[1..][i - 1];
    }
  }

  /** Blank means exactly that `trim` leaves nothing. */
  lemma BlankIffTrimEmpty(s: string)
    ensures IsBlank(s) <==> Trim(s) == ""
  {
    BlankIffAllWhitespace(s);
    var t := TrimStart(s);
    if Trim(s) == "" {
      assert forall i :: 0 <= i < |t| ==> IsWhitespace(t[i]);
      assert t == [];
    }
  }

  // ---------------------------------------------------------------- case and substrings

  /** `toLowerCase` on one code point, for the Basic Latin and Cyrillic capitals the form's
      messages are written in; every other code point is left as it is. */
  function LowerChar(c: char): char {
    if 'A' <= c <= 'Z' then (c as int + 32) as char
    else if '\U{0410}' <= c <= '\U{042F}' then (c as int + 32) as char
    else if '\U{0400}' <= c <= '\U{040F}' then (c as int + 80) as char
    else c
  }

  /** `s.toLowerCase()`, character by character. */
  function ToLower(s: string): (r: string)
    ensures |r| == |s|
    ensures forall i :: 0 <= i < |s| ==> r[i] == LowerChar(s[i])
  {
    seq(|s|, i requires 0 <= i < |s| => LowerChar(s[i]))
  }

  /** Lower-casing twice is lower-casing once. */
  lemma ToLowerIdempotent(s: string)
    ensures ToLower(ToLower(s)) == ToLower(s)
  {
    assert forall i :: 0 <= i < |s| ==> LowerChar(LowerChar(s[i])) == LowerChar(s[i]);
  }

  /** `s.includes(part)`: `part` occurs in `s` at the first position or somewhere later. */
  predicate Includes(s: string, part: string)
    decreases |s|
  {
    part <= s || (s != [] && Includes(s[1..], part))
  }

  /** `part` stands in `s` from position `i` on. */
  predicate OccursAt(s: string, part: string, i: int) {
    0 <= i <= |s| - |part| && s[i..i + |part|] == part
  }

  /** `includes` holds exactly when `part` is a contiguous slice of `s`. */
  lemma {:induction false} IncludesIff(s: string, part: string)
    ensures Includes(s, part) <==> exists i :: OccursAt(s, part, i)
    decreases |s|
  {
    if part <= s {
      assert OccursAt(s, part, 0);
    } else if s == [] {
    } else {
      IncludesIff(s[1..], part);
      if exists i :: OccursAt(s, part, i) {
        var i :| OccursAt(s, part, i);
        assert i != 0;
        assert OccursAt(s[1..], part, i - 1);
      }
      if Includes(s[1..], part) {
        var j :| OccursAt(s[1..], part, j);
        assert OccursAt(s, part, j + 1);
      }
    }
  }

  // ---------------------------------------------------------------- lists

  /** `xs.filter(y => y !== x)`. */
  function Without<T(==,!new)>(xs: seq<T>, x: T): (r: seq<T>)
    ensures forall y :: y in r <==> y in xs && y != x
    ensures |r| <= |xs|
    ensures x !in xs ==> r == xs
  {
    if xs == [] then []
    else if xs[0] == x then Without(xs[1..], x)
    else assert xs == [xs[0]] + xs[1..]; [xs[0]] + Without(xs[1..], x)
  }

  /** `r` is `xs` with some elements left out, the rest in their original order. */
  predicate IsSubsequence<T(==)>(r: seq<T>, xs: seq<T>)
    decreases |xs|
  {
    r == [] || (xs != [] && if r[0] == xs[0] then IsSubsequence(r[1..], xs[1..]) else IsSubsequence(r, xs[1..]))
  }

  /** A subsequence takes no element more often than the sequence holds it. */
  lemma {:induction false} SubsequenceMultiset<T>(r: seq<T>, xs: seq<T>)
    requires IsSubsequence(r, xs)
    ensures multiset(r) <= multiset(xs)
    decreases |xs|
  {
    if r != [] {
      assert xs == [xs[0]] + xs[1..];
      if r[0] == xs[0] {
        SubsequenceMultiset(r[1..], xs[1..]);
        assert r == [r[0]] + r[1..];
      } else {
        SubsequenceMultiset(r, xs[1..]);
      }
    }
  }

  /** `filter` keeps the other elements in their order and with their multiplicity: the result
      is a subsequence of `xs` holding every element but `x` exactly as often as `xs` does. */
  lemma {:induction false} WithoutIsFilter<T(!new)>(xs: seq<T>, x: T)
    ensures IsSubsequence(Without(xs, x), xs)
    ensures multiset(Without(xs, x)) == multiset(xs)[x := 0]
  {
    if xs != [] {
      WithoutIsFilter(xs[1..], x);
      var r := Without(xs, x);
      assert xs == [xs[0]] + xs[1..];
      if xs[0] == x {
        if r != [] {
          assert r[0] in r;
        }
      } else {
        assert r[1..] == Without(xs[1..], x);
      }
    }
  }

  /** Conversely, those two facts leave no choice: any such subsequence is the filtered list. */
  lemma {:induction false} FilterUnique<T(!new)>(r: seq<T>, xs: seq<T>, x: T)
    requires IsSubsequence(r, xs) && multiset(r) == multiset(xs)[x := 0]
    ensures r == Without(xs, x)
    decreases |xs|
  {
    if xs == [] {
    } else {
      var a, t := xs[0], xs[1..];
      assert xs == [a] + t;
      if a == x {
        assert multiset(t)[x := 0] == multiset(xs)[x := 0];
        if r != [] {
          assert r[0] in multiset(r);
          assert r[0] != a;
        }
        FilterUnique(r, t, x);
      } else {
        assert multiset(r)[a] == multiset(t)[a] + 1;
        assert r != [];
        assert r == [r[0]] + r[1..];
        if r[0] == a {
          var kept, rest := multiset(xs)[x := 0], multiset(t)[x := 0];
          assert kept == multiset([a]) + rest by {
            forall y ensures kept[y] == (multiset([a]) + rest)[y] {
            }
          }
          assert multiset(r) == multiset([a]) + multiset(r[1..]);
          MultisetCancel(multiset([a]), multiset(r[1..]), rest);
          FilterUnique(r[1..], t, x);
        } else {
          SubsequenceMultiset(r, t);
          assert false;
        }
      }
    }
  }

  lemma MultisetCancel<T>(a: multiset<T>, m: multiset<T>, n: multiset<T>)
    requires a + m == a + n
    ensures m == n
  {
    forall y ensures m[y] == n[y] {
      assert (a + m)[y] == (a + n)[y];
    }
  }

  /** Removing a value other than the first element keeps that element first. */
  lemma FirstSurvivesWithout<T(!new)>(xs: seq<T>, x: T)
    requires xs != [] && xs[0] != x
    ensures Without(xs, x) != [] && Without(xs, x)[0] == xs[0]
  {
  }

  /** Filtering distributes over concatenation. */
  lemma {:induction false} WithoutConcat<T(!new)>(xs: seq<T>, ys: seq<T>, x: T)
    ensures Without(xs + ys, x) == Without(xs, x) + Without(ys, x)
  {
    if xs == [] {
      assert xs + ys == ys;
    } else {
      assert (xs + ys)[0] == xs[0];
      assert (xs + ys)[1..] == xs[1..] + ys;
      WithoutConcat(xs[1..], ys, x);
    }
  }

  /** A checkbox over a list of values: `checked ? [...xs, x] : xs.filter(y => y !== x)`. */
  function Toggled<T(==,!new)>(xs: seq<T>, x: T, checked: bool): (r: seq<T>)
    ensures forall y :: y in r <==> (y in xs && y != x) || (checked && y == x)
    ensures checked ==> |r| == |xs| + 1 && r[..|xs|] == xs && r[|xs|] == x
    ensures !checked ==> x !in r && r == Without(xs, x)
  {
    if checked then xs + [x] else Without(xs, x)
  }

  /** Unchecking a box right after checking it removes every copy of the value. */
  lemma CheckThenUncheck<T(!new)>(xs: seq<T>, x: T)
    ensures Toggled(Toggled(xs, x, true), x, false) == Without(xs, x)
    ensures x !in xs ==> Toggled(Toggled(xs, x, true), x, false) == xs
  {
    WithoutConcat(xs, [x], x);
    assert Without([x], x) == [];
  }

  // ---------------------------------------------------------------- numbers and text

  function DigitChar(d: nat): (c: char)
    requires d < 10
    ensures '0' <= c <= '9' && c as int - '0' as int == d
  {
    (d + '0' as int) as char
  }

  /** `String(n)` for a non-negative integer: its decimal digits without leading zeros. */
  function NatToString(n: nat): (r: string)
    ensures r != [] && forall i :: 0 <= i < |r| ==> '0' <= r[i] <= '9'
    ensures r[0] == '0' ==> n == 0
    decreases n
  {
    if n < 10 then [DigitChar(n)] else NatToString(n / 10) + [DigitChar(n % 10)]
  }

  /** `String(n)` (or `n.toString()`) for an integer. */
  function NumberToString(n: int): string {
    if n < 0 then "-" + NatToString(-n) else NatToString(n)
  }

  /** The value of an alphanumeric character as a digit (0-35), or -1. */
  function DigitValue(c: char): int {
    if '0' <= c <= '9' then c as int - '0' as int
    else if 'a' <= c <= 'z' then c as int - 'a' as int + 10
    else if 'A' <= c <= 'Z' then c as int - 'A' as int + 10
    else -1
  }

  predicate IsDigitIn(c: char, radix: nat) {
    0 <= DigitValue(c) < radix
  }

  /** The longest prefix of `s` made of digits of the radix. */
  function DigitPrefix(s: string, radix: nat): (r: string)
    ensures r <= s
    ensures forall i :: 0 <= i < |r| ==> IsDigitIn(r[i], radix)
    ensures |r| < |s| ==> !IsDigitIn(s[|r|], radix)
  {
    if s != [] && IsDigitIn(s[0], radix) then [s[0]] + DigitPrefix(s[1..], radix) else []
  }

  /** The number a string of digits denotes, most significant digit first. */
  function DigitsValue(ds: string, radix: nat): nat
    requires forall i :: 0 <= i < |ds| ==> IsDigitIn(ds[i], radix)
  {
    if ds == [] then 0
    else
      assert IsDigitIn(ds[|ds| - 1], radix);
      Shift(DigitsValue(ds[..|ds| - 1], radix), radix, DigitValue(ds[|ds| - 1]))
  }

  /** One more digit on the right of the digits read so far. */
  function Shift(high: nat, radix: nat, digit: nat): nat {
    high * radix + digit
  }

  /** The unsigned part of `parseInt`: when `hexPrefix` is allowed, a leading `0x`/`0X` selects
      radix 16; then the longest run of digits is read; no digit at all is `NaN` (`None`). */
  function ParseUnsigned(u: string, hexPrefix: bool): Option<nat> {
    var hex := hexPrefix && |u| >= 2 && u[0] == '0' && (u[1] == 'x' || u[1] == 'X');
    var radix := if hex then 16 else 10;
    var digits := DigitPrefix(if hex then u[2..] else u, radix);
    if digits == [] then None else Some(DigitsValue(digits, radix))
  }

  /** Section 19.2.5 of ECMA-262: skip leading whitespace, take an optional sign, then the
      unsigned part. `None` is `NaN`. */
  function ParseSigned(s: string, hexPrefix: bool): Option<int> {
    SignedValue(TrimStart(s), hexPrefix)
  }

  /** The sign and the unsigned part, once the leading whitespace is gone. */
  function SignedValue(t: string, hexPrefix: bool): Option<int> {
    if t != [] && t[0] == '-' then
      match ParseUnsigned(t[1..], hexPrefix)
      case None => None
      case Some(m) => Some(0 - m as int)
    else
      var u := if t != [] && t[0] == '+' then t[1..] else t;
      match ParseUnsigned(u, hexPrefix)
      case None => None
      case Some(m) => Some(m)
  }

  /** `parseInt(s)`, no radix argument: a `0x` prefix reads hexadecimal. */
  function ParseInt(s: string): Option<int> {
    ParseSigned(s, true)
  }

  /** `parseInt(s, 10)`. */
  function ParseInt10(s: string): Option<int> {
    ParseSigned(s, false)
  }

  /** `parseFloat` is not modelled: the steps that compare a parsed decimal receive the parser
      as a parameter. `None` is `NaN`. */
  type FloatParser = string -> Option<real>

  lemma {:induction false} NatToStringValue(n: nat)
    ensures DigitsValue(NatToString(n), 10) == n
    decreases n
  {
    var r := NatToString(n);
    if n >= 10 {
      NatToStringValue(n / 10);
      assert r[..|r| - 1] == NatToString(n / 10);
    }
  }

  lemma DigitsArePrefix(ds: string)
    requires forall i :: 0 <= i < |ds| ==> '0' <= ds[i] <= '9'
    ensures DigitPrefix(ds, 10) == ds
  {
    if ds != [] {
      DigitsArePrefix(ds[1..]);
    }
  }

  /** The digits `String(n)` writes for `n >= 0` read back as `n`. */
  lemma ParseUnsignedOfNatToString(n: nat, hexPrefix: bool)
    ensures ParseUnsigned(NatToString(n), hexPrefix) == Some(n)
  {
    var s := NatToString(n);
    NatToStringValue(n);
    DigitsArePrefix(s);
  }

  /** A string that starts with a digit or a minus sign has no whitespace to skip. */
  lemma TrimStartNoop(s: string)
    requires s != [] && ('0' <= s[0] <= '9' || s[0] == '-')
    ensures TrimStart(s) == s
  {
    assert !IsWhitespace(s[0]);
  }

  lemma ParseSignedOfNatToString(n: nat, hexPrefix: bool)
    ensures ParseSigned(NatToString(n), hexPrefix) == Some(n)
  {
    var s := NatToString(n);
    TrimStartNoop(s);
    assert s[0] != '-' && s[0] != '+';
    ParseUnsignedOfNatToString(n, hexPrefix);
  }

  lemma ParseSignedOfNegative(m: nat, hexPrefix: bool)
    requires m > 0
    ensures ParseSigned("-" + NatToString(m), hexPrefix) == Some(0 - m as int)
  {
    var d := NatToString(m);
    var s := "-" + d;
    TrimStartNoop(s);
    assert s[1..] == d;
    ParseUnsignedOfNatToString(m, hexPrefix);
    ParseSignedOfMinus(s, m, hexPrefix);
  }

  /** A minus sign, with nothing to trim before it, in front of digits that read as `m` reads
      as `-m`. */
  lemma ParseSignedOfMinus(s: string, m: nat, hexPrefix: bool)
    requires s != [] && s[0] == '-' && TrimStart(s) == s
    requires ParseUnsigned(s[1..], hexPrefix) == Some(m)
    ensures ParseSigned(s, hexPrefix) == Some(0 - m as int)
  {
    assert SignedValue(s, hexPrefix) == Some(0 - m as int);
  }

  lemma ParseSignedOfNumberToString(n: int, hexPrefix: bool)
    ensures ParseSigned(NumberToString(n), hexPrefix) == Some(n)
  {
    if n >= 0 {
      assert NumberToString(n) == NatToString(n);
      ParseSignedOfNatToString(n, hexPrefix);
    } else {
      var m: nat := -n;
      assert NumberToString(n) == "-" + NatToString(m);
      ParseSignedOfNegative(m, hexPrefix);
      assert 0 - m as int == n;
    }
  }

  /** Reading back what `String(n)` wrote gives `n` again, with or without a radix argument. */
  lemma ParseOfNumberToString(n: int)
    ensures ParseInt(NumberToString(n)) == Some(n)
    ensures ParseInt10(NumberToString(n)) == Some(n)
  {
    ParseSignedOfNumberToString(n, true);
    ParseSignedOfNumberToString(n, false);
  }
}
