/**
 * Python's `int(s)` on a string, as the handler uses it to read `expiryDays`,
 * and the decimal rendering `str(n)` that is its inverse.
 *
 * `int(s)` accepts surrounding whitespace (see IsIntSpace), one optional sign, and decimal digits
 * in which a single underscore may stand between two digits. A literal of more
 * than 4300 digits is refused (the default of `sys.get_int_max_str_digits()`).
 * Every refusal is a ValueError, so `ParseInt` returns None for it.
 */
module PyInt {
  import opened Wrappers

  /** The default limit on the number of digits `int()` converts. */
  const MaxStrDigits: nat := 4300

  predicate IsDigit(c: char) {
    '0' <= c <= '9'
  }

  /** The characters `int()` skips around a literal: the ASCII whitespace of C's
      `isspace()`, and every non-ASCII character `str.isspace()` accepts (which
      `int()` first turns into a space). The ASCII separators U+001C to U+001F pass
      `str.isspace()` but are not skipped by `int()`. */
  predicate IsIntSpace(c: char) {
    || c == ' '
    || '\t' <= c <= '\r'
    || c == '\U{85}' || c == '\U{A0}' || c == '\U{1680}'
    || '\U{2000}' <= c <= '\U{200A}'
    || c == '\U{2028}' || c == '\U{2029}' || c == '\U{202F}' || c == '\U{205F}' || c == '\U{3000}'
  }

  predicate AllSpace(s: string) {
    forall i :: 0 <= i < |s| ==> IsIntSpace(s[i])
  }

  predicate AllDigits(s: string) {
    forall i :: 0 <= i < |s| ==> IsDigit(s[i])
  }

  /** `s` with its leading whitespace removed. */
  function StripLeft(s: string): (r: string)
    ensures r == [] || !IsIntSpace(r[0])
  {
    if |s| > 0 && IsIntSpace(s[0]) then StripLeft(s[1..]) else s
  }

  /** `s` with its trailing whitespace removed. */
  function StripRight(s: string): (r: string)
    ensures r == [] || !IsIntSpace(r[|r| - 1])
  {
    if |s| > 0 && IsIntSpace(s[|s| - 1]) then StripRight(s[..|s| - 1]) else s
  }

  /** `s` without the whitespace `int()` skips at both ends. */
  function Strip(s: string): string {
    StripRight(StripLeft(s))
  }

  predicate AllDigitsOrUnderscores(s: string) {
    forall i :: 0 <= i < |s| ==> IsDigit(s[i]) || s[i] == '_'
  }

  /** One or more digits, with single underscores allowed only between two digits. */
  predicate WellFormedDigits(s: string) {
    && |s| > 0
    && AllDigitsOrUnderscores(s)
    && IsDigit(s[0]) && IsDigit(s[|s| - 1])
    && forall i :: 0 < i < |s| ==> !(s[i - 1] == '_' && s[i] == '_')
  }

  /** The digits of `s` in order, its underscores dropped. */
  function RemoveUnderscores(s: string): (r: string)
    ensures AllDigitsOrUnderscores(s) ==> AllDigits(r)
  {
    if s == [] then []
    else (if s[0] == '_' then [] else [s[0]]) + RemoveUnderscores(s[1..])
  }

  function DigitValue(c: char): nat
    requires IsDigit(c)
  {
    c as int - '0' as int
  }

  function DigitChar(d: nat): (c: char)
    requires d < 10
    ensures IsDigit(c) && DigitValue(c) == d
  {
    ('0' as int + d) as char
  }

  /** The number a string of decimal digits denotes, most significant digit first. */
  function DigitsValue(ds: string): nat
    requires AllDigits(ds)
  {
    if ds == [] then 0 else DigitsValue(ds[..|ds| - 1]) * 10 + DigitValue(ds[|ds| - 1])
  }

  /** `int(s)` for a string `s`: Some(value), or None where Python raises ValueError. */
  function ParseInt(s: string): Option<int> {
    ParseSigned(Strip(s))
  }

  /** A stripped literal: an optional sign, then the digits. */
  function ParseSigned(t: string): Option<int> {
    if |t| > 0 && t[0] == '-' then
      match ParseDigits(t[1..])
      case None => None
      case Some(magnitude) => Some(-magnitude)
    else if |t| > 0 && t[0] == '+' then ParseDigits(t[1..])
    else ParseDigits(t)
  }

  /** The unsigned part of a literal, refused when it is malformed or has too many digits. */
  function ParseDigits(body: string): Option<int> {
    if !WellFormedDigits(body) then None
    else
      var digits := RemoveUnderscores(body);
      if |digits| > MaxStrDigits then None else Some(DigitsValue(digits))
  }

  /** The decimal digits of `n`, without leading zeros. */
  function NatString(n: nat): (r: string)
    ensures |r| > 0 && AllDigits(r)
    ensures r[0] != '0' || n == 0
  {
    if n < 10 then [DigitChar(n)] else NatString(n / 10) + [DigitChar(n % 10)]
  }

  function Abs(n: int): nat {
    if n < 0 then -n else n
  }

  /** Python's `str(n)` (and C's `%d`) for an integer `n`. */
  function DecimalString(n: int): (r: string)
    ensures |r| > 0 && IsDigit(r[|r| - 1])
    ensures r[0] == '-' <==> n < 0
  {
    if n < 0 then "-" + NatString(-n) else NatString(n)
  }

  lemma {:induction false} DigitsValueOfNatString(n: nat)
    ensures DigitsValue(NatString(n)) == n
  {
    if n >= 10 {
      var s := NatString(n);
      assert s[..|s| - 1] == NatString(n / 10);
      DigitsValueOfNatString(n / 10);
    }
  }

  lemma {:induction false} RemoveUnderscoresOfDigits(s: string)
    requires AllDigits(s)
    ensures RemoveUnderscores(s) == s
  {
    if s != [] {
      RemoveUnderscoresOfDigits(s[1..]);
    }
  }

  /** A string of digits is a well-formed literal. */
  lemma DigitsAreWellFormed(s: string)
    requires |s| > 0 && AllDigits(s)
    ensures WellFormedDigits(s)
  {
  }

  /** A string that neither starts nor ends with whitespace is its own stripped form. */
  lemma StripOfUnpadded(s: string)
    requires s == [] || (!IsIntSpace(s[0]) && !IsIntSpace(s[|s| - 1]))
    ensures Strip(s) == s
  {
  }

  /** The digits of `str(n)` parse back to `n`. */
  lemma ParseDigitsOfNatString(n: nat)
    requires |NatString(n)| <= MaxStrDigits
    ensures ParseDigits(NatString(n)) == Some(n)
  {
    var m := NatString(n);
    DigitsAreWellFormed(m);
    RemoveUnderscoresOfDigits(m);
    DigitsValueOfNatString(n);
  }

  /** `int(str(n)) == n` for every `n` whose magnitude has at most 4300 digits. */
  lemma ParseIntOfDecimal(n: int)
    requires |NatString(Abs(n))| <= MaxStrDigits
    ensures ParseInt(DecimalString(n)) == Some(n)
  {
    var s := DecimalString(n);
    StripOfUnpadded(s);
    ParseDigitsOfNatString(Abs(n));
    if n < 0 {
      assert s[1..] == NatString(Abs(n));
    } else {
      assert s == NatString(n) && s[0] != '-' && s[0] != '+';
    }
  }

  lemma {:induction false} StripLeftSpacePrefix(pre: string, s: string)
    requires AllSpace(pre)
    ensures StripLeft(pre + s) == StripLeft(s)
  {
    if pre == [] {
      assert pre + s == s;
    } else {
      assert IsIntSpace(pre[0]);
      assert (pre + s)[0] == pre[0];
      assert (pre + s)[1..] == pre[1..] + s;
      assert AllSpace(pre[1..]) by {
        forall i | 0 <= i < |pre| - 1 ensures IsIntSpace(pre[1..][i]) {
          assert pre[1..][i] == pre[i + 1];
        }
      }
      StripLeftSpacePrefix(pre[1..], s);
    }
  }

  lemma {:induction false} StripRightSpaceSuffix(s: string, post: string)
    requires AllSpace(post)
    ensures StripRight(s + post) == StripRight(s)
  {
    if post == [] {
      assert s + post == s;
    } else {
      assert IsIntSpace(post[|post| - 1]);
      var p := post[..|post| - 1];
      assert (s + post)[|s + post| - 1] == post[|post| - 1];
      assert (s + post)[..|s + post| - 1] == s + p;
      assert AllSpace(p) by {
        forall i | 0 <= i < |p| ensures IsIntSpace(p[i]) {
          assert p[i] == post[i];
        }
      }
      StripRightSpaceSuffix(s, p);
    }
  }

  /** Appending anything to a string that is not all whitespace leaves its stripped prefix alone. */
  lemma {:induction false} StripLeftAppend(s: string, post: string)
    requires !AllSpace(s)
    ensures StripLeft(s + post) == StripLeft(s) + post
  {
    assert s != [];
    if IsIntSpace(s[0]) {
      assert (s + post)[1..] == s[1..] + post;
      assert !AllSpace(s[1..]) by {
        var i :| 0 <= i < |s| && !IsIntSpace(s[i]);
        assert s[1..][i - 1] == s[i];
      }
      StripLeftAppend(s[1..], post);
    }
  }

  /** Stripping removes exactly the whitespace `int()` skips that was added around a string. */
  lemma StripIgnoresSurroundingSpace(pre: string, s: string, post: string)
    requires AllSpace(pre) && AllSpace(post)
    ensures Strip(pre + s + post) == Strip(s)
  {
    assert pre + s + post == pre + (s + post);
    StripLeftSpacePrefix(pre, s + post);
    if AllSpace(s) {
      assert AllSpace(s + post);
      StripLeftSpacePrefix(s + post, []);
      StripLeftSpacePrefix(s, []);
      assert s + post + [] == s + post;
      assert s + [] == s;
    } else {
      StripLeftAppend(s, post);
      StripRightSpaceSuffix(StripLeft(s), post);
    }
  }

  /** `int()` ignores whitespace around its argument. */
  lemma ParseIntIgnoresSurroundingSpace(pre: string, s: string, post: string)
    requires AllSpace(pre) && AllSpace(post)
    ensures ParseInt(pre + s + post) == ParseInt(s)
  {
    StripIgnoresSurroundingSpace(pre, s, post);
  }

  /** `int()` drops the underscores between digits. */
  lemma ParseIntAcceptsUnderscores()
    ensures ParseInt("1_000") == Some(1000)
  {
    assert StripLeft("1_000") == "1_000" && StripRight("1_000") == "1_000";
    assert RemoveUnderscores("1_000") == "1000";
    assert NatString(1000) == "1000";
    DigitsValueOfNatString(1000);
  }

  /** `int()` accepts leading zeros. */
  lemma ParseIntAcceptsLeadingZeros()
    ensures ParseInt("007") == Some(7)
  {
    assert StripLeft("007") == "007" && StripRight("007") == "007";
    RemoveUnderscoresOfDigits("007");
    assert "007"[..2] == "00" && "00"[..1] == "0" && "0"[..0] == "";
    assert DigitsValue("0") == 0;
    assert DigitsValue("00") == 0;
  }

  /** `int()` accepts surrounding whitespace and a plus sign. */
  lemma ParseIntAcceptsSpaceAndSign()
    ensures ParseInt(" +12\n") == Some(12)
  {
    assert ParseInt("+12") == Some(12) by {
      StripOfUnpadded("+12");
      assert NatString(12) == "12" && "+12"[1..] == "12";
      ParseDigitsOfNatString(12);
    }
    assert AllSpace(" ") && AllSpace("\n");
    ParseIntIgnoresSurroundingSpace(" ", "+12", "\n");
    assert " " + "+12" + "\n" == " +12\n";
  }

  /** Words are a ValueError, "never" among them. */
  lemma ParseIntRefusesWords()
    ensures ParseInt("never") == None
    ensures ParseInt("abc") == None
  {
    StripOfUnpadded("never");
    StripOfUnpadded("abc");
  }

  /** An underscore must stand between two digits. */
  lemma ParseIntRefusesMisplacedUnderscores()
    ensures ParseInt("1__0") == None
    ensures ParseInt("_1") == None
  {
    StripOfUnpadded("1__0");
    assert "1__0"[1] == '_' && "1__0"[2] == '_';
    StripOfUnpadded("_1");
  }

  /** A sign needs digits right after it, and an empty string is no number. */
  lemma ParseIntRefusesMissingDigits()
    ensures ParseInt("+") == None
    ensures ParseInt("- 1") == None
    ensures ParseInt("") == None
  {
    StripOfUnpadded("+");
    StripOfUnpadded("- 1");
    assert "- 1"[1..] == " 1" && !IsDigit(" 1"[0]);
    StripOfUnpadded("");
  }

  /** An ASCII information separator is not whitespace to `int()`. */
  lemma ParseIntRefusesInformationSeparator()
    ensures ParseInt("\U{1C}3") == None
  {
    StripOfUnpadded("\U{1C}3");
  }
}
