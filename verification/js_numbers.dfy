/** The two number/string conversions the pages rely on: an integer's
    `toString()` (section 6.1.6.1.20 of ECMA-262, Number::toString, for
    non-negative integers below 10^21, where it prints plain decimal
    digits) and the global `parseInt(string)` with no radix (section 19.2.5
    of ECMA-262). Numbers are mathematical integers here: the loss of
    precision past 2^53 and the exponent notation `toString` uses from
    10^21 on are not modelled. */
module JsNumbers {
  import opened Domain

  /** The character of a decimal digit. */
  function DigitChar(d: nat): (c: char)
    requires d < 10
    ensures '0' <= c <= '9'
    ensures c as int - '0' as int == d
  {
    (d + '0' as int) as char
  }

  predicate IsDecimalDigit(c: char) { '0' <= c <= '9' }

  /** `n.toString()` for a non-negative integer `n`: its decimal digits,
      most significant first, without leading zeros. */
  function DecimalString(n: nat): (s: string)
    ensures |s| >= 1
    ensures forall i :: 0 <= i < |s| ==> IsDecimalDigit(s[i])
    ensures s[0] == '0' ==> n == 0 && s == "0"
  {
    if n < 10 then [DigitChar(n)]
    else DecimalString(n / 10) + [DigitChar(n % 10)]
  }

  /** The characters StrWhiteSpaceChar admits: WhiteSpace (tab, vertical
      tab, form feed, the byte order mark and every space separator of
      Unicode category Zs) and LineTerminator. */
  predicate IsJsWhitespace(c: char)
  {
    var u := c as int;
    || u == 0x09 || u == 0x0A || u == 0x0B || u == 0x0C || u == 0x0D
    || u == 0x20 || u == 0xA0 || u == 0x1680
    || (0x2000 <= u <= 0x200A)
    || u == 0x2028 || u == 0x2029 || u == 0x202F || u == 0x205F
    || u == 0x3000 || u == 0xFEFF
  }

  /** The value of `c` as a digit of `radix` (10 or 16), if it is one. */
  function DigitValue(c: char, radix: nat): (r: Option<nat>)
    ensures r.Some? ==> r.value < radix
    ensures radix == 10 ==> (r.Some? <==> IsDecimalDigit(c))
    ensures radix == 10 && r.Some? ==> r.value == c as int - '0' as int
  {
    var v :=
      if '0' <= c <= '9' then c as int - '0' as int
      else if 'a' <= c <= 'z' then c as int - 'a' as int + 10
      else if 'A' <= c <= 'Z' then c as int - 'A' as int + 10
      else 36;
    if v < radix then Some(v) else None
  }

  /** The digit values of the longest prefix of `s` made of digits of `radix`. */
  function LeadingDigits(s: string, radix: nat): (ds: seq<nat>)
    ensures |ds| <= |s|
    ensures forall i :: 0 <= i < |ds| ==> DigitValue(s[i], radix) == Some(ds[i])
    ensures |ds| < |s| ==> DigitValue(s[|ds|], radix).None?
  {
    if s == [] then []
    else match DigitValue(s[0], radix)
      case None => []
      case Some(d) => [d] + LeadingDigits(s[1..], radix)
  }

  /** The mathematical value of a digit sequence, most significant first. */
  function Horner(ds: seq<nat>, radix: nat): nat
  {
    if ds == [] then 0 else Horner(ds[..|ds| - 1], radix) * radix + ds[|ds| - 1]
  }

  /** The length of the leading run of StrWhiteSpace characters. */
  function LeadingWhitespace(s: string): (n: nat)
    ensures n <= |s|
    ensures forall i :: 0 <= i < n ==> IsJsWhitespace(s[i])
    ensures n < |s| ==> !IsJsWhitespace(s[n])
  {
    if s != [] && IsJsWhitespace(s[0]) then
      var n := LeadingWhitespace(s[1..]);
      assert forall i :: 1 <= i <= n ==> s[i] == s[1..][i - 1];
      n + 1
    else 0
  }

  /** The text after an optional leading sign. */
  function Unsigned(t: string): (u: string)
    ensures |u| <= |t| && u == t[|t| - |u|..]
  {
    if t != [] && (t[0] == '-' || t[0] == '+') then t[1..] else t
  }

  predicate HasHexPrefix(u: string)
  {
    |u| >= 2 && u[0] == '0' && (u[1] == 'x' || u[1] == 'X')
  }

  /** The magnitude `parseInt` reads from unsigned text: radix 16 after a
      `0x` or `0X` prefix, radix 10 otherwise; `None` without digits. */
  function Magnitude(u: string): (m: Option<nat>)
  {
    var radix := if HasHexPrefix(u) then 16 else 10;
    var ds := LeadingDigits(if HasHexPrefix(u) then u[2..] else u, radix);
    if ds == [] then None else Some(Horner(ds, radix))
  }

  /** `parseInt(s)`: skip leading white space, read an optional sign, read
      radix 16 after a `0x` or `0X` prefix and radix 10 otherwise, and
      convert the longest run of digits; `None` is `NaN`, the result when
      that run is empty. A negative result needs a minus sign in `s`. */
  function ParseInt(s: string): (r: Option<int>)
    ensures r.Some? && r.value < 0 ==> exists i :: 0 <= i < |s| && s[i] == '-'
  {
    var t := s[LeadingWhitespace(s)..];
    match Magnitude(Unsigned(t))
    case None => None
    case Some(m) =>
      if t != [] && t[0] == '-' then
        assert s[LeadingWhitespace(s)] == '-';
        Some(-(m as int))
      else Some(m)
  }

  /** A string without a single decimal digit parses to `NaN`: a `0x`
      prefix needs its `0`, and every digit of either radix below ten is a
      decimal digit. */
  lemma NoDigitIsNaN(s: string)
    requires forall i :: 0 <= i < |s| ==> !IsDecimalDigit(s[i])
    ensures ParseInt(s) == None
  {
    var t := s[LeadingWhitespace(s)..];
    var u := Unsigned(t);
    assert forall i :: 0 <= i < |u| ==> u[i] == s[|s| - |u| + i];
    assert !HasHexPrefix(u);
    if u != [] {
      assert !IsDecimalDigit(u[0]);
    }
  }

  /** Over a string of decimal digits, the longest digit prefix is the
      whole string, digit by digit. */
  lemma DigitRun(s: string)
    requires forall i :: 0 <= i < |s| ==> IsDecimalDigit(s[i])
    ensures |LeadingDigits(s, 10)| == |s|
    ensures forall i :: 0 <= i < |s| ==> LeadingDigits(s, 10)[i] == s[i] as int - '0' as int
  {
  }

  /** A digit sequence extended by one digit is worth ten times as much plus
      that digit. */
  lemma HornerStep(ds: seq<nat>, prefix: seq<nat>, d: nat, hi: nat)
    requires |ds| == |prefix| + 1 && ds[..|prefix|] == prefix && ds[|prefix|] == d
    requires Horner(prefix, 10) == hi
    ensures Horner(ds, 10) == hi * 10 + d
  {
  }

  /** The digits of `DecimalString(n)`, read back in radix 10, are worth `n`. */
  lemma {:induction false} DecimalStringReadsBack(n: nat)
    ensures Horner(LeadingDigits(DecimalString(n), 10), 10) == n
  {
    var s := DecimalString(n);
    var ds := LeadingDigits(s, 10);
    DigitRun(s);
    if n < 10 {
      assert ds == [n];
      assert ds[..0] == [];
    } else {
      var q := DecimalString(n / 10);
      var dq := LeadingDigits(q, 10);
      DecimalStringReadsBack(n / 10);
      DigitRun(q);
      assert s == q + [DigitChar(n % 10)];
      assert ds[..|q|] == dq by {
        forall i | 0 <= i < |q|
          ensures ds[i] == dq[i]
        {
          assert s[i] == q[i];
        }
      }
      assert ds[|q|] == n % 10 by {
        assert s[|q|] == DigitChar(n % 10);
      }
      HornerStep(ds, dq, n % 10, n / 10);
    }
  }

  /** A team option's value, `team.id.toString()`, reads back through
      `parseInt` as the same id. */
  lemma ParseIntOfDecimalString(n: nat)
    ensures ParseInt(DecimalString(n)) == Some(n)
  {
    var s := DecimalString(n);
    assert !IsJsWhitespace(s[0]) && s[0] != '-' && s[0] != '+';
    assert LeadingWhitespace(s) == 0;
    assert s[0..] == s;
    assert Unsigned(s) == s;
    assert !HasHexPrefix(s);
    DecimalStringReadsBack(n);
    assert LeadingDigits(s, 10) != [] by {
      assert DigitValue(s[0], 10).Some?;
    }
    assert Magnitude(s) == Some(n);
  }
}
