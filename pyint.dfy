/**
 * The subset of Python's `int(str)` that the pagination values go through:
 * surrounding ASCII whitespace, an optional sign, and decimal digits in which
 * single underscores may separate digits. Any other text is a `ValueError`,
 * modelled as `None`.
 */
module PyInt {
  import opened Wrappers

  predicate IsSpace(c: char) {
    c == ' ' || c == '\t' || c == '\n' || c == '\r' || c == '\U{000B}' || c == '\U{000C}'
  }

  predicate IsDigit(c: char) {
    '0' <= c <= '9'
  }

  function DigitValue(c: char): nat
    requires IsDigit(c)
  {
    c as int - '0' as int
  }

  function TrimLeft(s: string): (r: string)
    ensures r == [] || !IsSpace(r[0])
    ensures |r| <= |s| && r == s[|s| - |r|..]
  {
    if s != [] && IsSpace(s[0]) then TrimLeft(s[1..]) else s
  }

  function TrimRight(s: string): (r: string)
    ensures r == [] || !IsSpace(r[|r| - 1])
    ensures |r| <= |s| && r == s[..|r|]
  {
    if s != [] && IsSpace(s[|s| - 1]) then TrimRight(s[..|s| - 1]) else s
  }

  function Strip(s: string): string {
    TrimRight(TrimLeft(s))
  }

  /**
   * Decimal digits with single underscores between them, as Python's grammar
   * for a decimal integer allows: it ends in a digit, and what comes before
   * that digit is nothing, well-formed digits, or well-formed digits and one
   * underscore.
   */
  predicate WellFormedDigits(s: string)
    decreases |s|
  {
    && |s| > 0
    && IsDigit(s[|s| - 1])
    && var p := s[..|s| - 1];
       || p == []
       || WellFormedDigits(p)
       || (p[|p| - 1] == '_' && WellFormedDigits(p[..|p| - 1]))
  }

  /** The number the digits of `s` spell; other characters (the underscores) are skipped. */
  function DigitsValue(s: string): nat {
    if s == [] then 0
    else if IsDigit(s[|s| - 1]) then DigitsValue(s[..|s| - 1]) * 10 + DigitValue(s[|s| - 1])
    else DigitsValue(s[..|s| - 1])
  }

  /** Well-formed digits and the number they spell; `None` for anything else. */
  function ParseDigits(d: string): Option<int> {
    if WellFormedDigits(d) then Some(DigitsValue(d)) else None
  }

  /** A stripped text: an optional sign, then well-formed digits. */
  function ParseSigned(t: string): Option<int> {
    if |t| > 0 && t[0] == '-' then
      match ParseDigits(t[1..])
      case Some(v) => Some(-v)
      case None => None
    else if |t| > 0 && t[0] == '+' then ParseDigits(t[1..])
    else ParseDigits(t)
  }

  /** A stripped text without its leading sign, if it has one. */
  function Unsigned(t: string): string {
    if |t| > 0 && (t[0] == '-' || t[0] == '+') then t[1..] else t
  }

  /** `int(s)` for a string `s`: `Some` of the integer, or `None` where Python raises `ValueError`. */
  function ParseInt(s: string): Option<int> {
    ParseSigned(Strip(s))
  }

  /** The canonical decimal numeral of a natural number. */
  function NatDigits(n: nat): (r: string)
    ensures |r| > 0 && IsDigit(r[0]) && IsDigit(r[|r| - 1])
  {
    var d := ['0' + (n % 10) as char];
    if n < 10 then d else NatDigits(n / 10) + d
  }

  /** `str(n)` for an integer `n`. */
  function ShowInt(n: int): string {
    if n < 0 then "-" + NatDigits(-n) else NatDigits(n)
  }

  lemma {:induction false} NatDigitsValue(n: nat)
    ensures WellFormedDigits(NatDigits(n))
    ensures DigitsValue(NatDigits(n)) == n
  {
    var s := NatDigits(n);
    if n >= 10 {
      NatDigitsValue(n / 10);
      assert s[..|s| - 1] == NatDigits(n / 10);
    } else {
      assert s[..|s| - 1] == [];
    }
  }

  lemma {:induction false} NoSpaceIsStripped(s: string)
    requires s == [] || (!IsSpace(s[0]) && !IsSpace(s[|s| - 1]))
    ensures Strip(s) == s
  {
  }

  lemma {:induction false} WellFormedStartsWithDigit(s: string)
    requires WellFormedDigits(s)
    ensures IsDigit(s[0])
  {
    var p := s[..|s| - 1];
    if p != [] {
      if WellFormedDigits(p) {
        WellFormedStartsWithDigit(p);
        assert p[0] == s[0];
      } else {
        var q := p[..|p| - 1];
        WellFormedStartsWithDigit(q);
        assert q[0] == s[0];
      }
    }
  }

  lemma {:induction false} DigitsAreStripped(d: string)
    requires WellFormedDigits(d)
    ensures Strip(d) == d
  {
    WellFormedStartsWithDigit(d);
    NoSpaceIsStripped(d);
  }

  lemma {:induction false} StrippedParse(s: string)
    requires Strip(s) == s
    ensures ParseInt(s) == ParseSigned(s)
  {
  }

  lemma {:induction false} UnsignedDigits(d: string)
    requires WellFormedDigits(d)
    ensures ParseSigned(d) == Some(DigitsValue(d) as int)
  {
    WellFormedStartsWithDigit(d);
  }

  lemma {:induction false} NegativeIsStripped(d: string)
    requires WellFormedDigits(d)
    ensures Strip("-" + d) == "-" + d
  {
    var s := "-" + d;
    assert s[|s| - 1] == d[|d| - 1];
    NoSpaceIsStripped(s);
  }

  lemma {:induction false} NegativeDigits(d: string)
    requires WellFormedDigits(d)
    ensures ParseSigned("-" + d) == Some(-(DigitsValue(d) as int))
  {
    var s := "-" + d;
    assert s[0] == '-' && s[1..] == d;
    assert ParseDigits(d) == Some(DigitsValue(d) as int);
  }

  lemma {:induction false} ParseUnsigned(d: string)
    requires WellFormedDigits(d)
    ensures ParseInt(d) == Some(DigitsValue(d) as int)
  {
    DigitsAreStripped(d);
    StrippedParse(d);
    UnsignedDigits(d);
  }

  lemma {:induction false} ParseNegative(d: string)
    requires WellFormedDigits(d)
    ensures ParseInt("-" + d) == Some(-(DigitsValue(d) as int))
  {
    NegativeIsStripped(d);
    NegativeDigits(d);
    StrippedParse("-" + d);
  }

  lemma {:induction false} ParseShowNonNegative(n: nat)
    ensures ParseInt(ShowInt(n)) == Some(n)
  {
    var d := NatDigits(n);
    assert ShowInt(n) == d;
    NatDigitsValue(n);
    ParseUnsigned(d);
  }

  lemma {:induction false} ParseShowNegative(n: int)
    requires n < 0
    ensures ParseInt(ShowInt(n)) == Some(n)
  {
    var d := NatDigits(-n);
    assert ShowInt(n) == "-" + d;
    NatDigitsValue(-n);
    ParseNegative(d);
  }

  /** Parsing the numeral of any integer gives that integer back. */
  lemma {:induction false} ParseShowRoundTrip(n: int)
    ensures ParseInt(ShowInt(n)) == Some(n)
  {
    if n < 0 {
      ParseShowNegative(n);
    } else {
      ParseShowNonNegative(n);
    }
  }

  lemma {:induction false} ParsedEndsInDigit(t: string)
    requires ParseSigned(t).Some?
    ensures |t| > 0 && IsDigit(t[|t| - 1])
  {
    if |t| > 0 && (t[0] == '-' || t[0] == '+') {
      var d := t[1..];
      assert WellFormedDigits(d);
      assert d[|d| - 1] == t[|t| - 1];
    }
  }

  /** Stripping keeps a contiguous part of the text, starting at `a`. */
  lemma {:induction false} StripIsInfix(s: string) returns (a: nat)
    ensures a + |Strip(s)| <= |s| && Strip(s) == s[a..a + |Strip(s)|]
  {
    var l := TrimLeft(s);
    var t := TrimRight(l);
    a := |s| - |l|;
    assert t == l[..|t|] && l == s[a..];
    assert t == s[a..a + |t|];
  }

  /** A successful parse needs at least one digit somewhere in the text. */
  lemma {:induction false} ParseNeedsDigit(s: string)
    requires ParseInt(s).Some?
    ensures exists i :: 0 <= i < |s| && IsDigit(s[i])
  {
    var t := Strip(s);
    ParsedEndsInDigit(t);
    var a := StripIsInfix(s);
    assert s[a + |t| - 1] == t[|t| - 1];
  }

  /**
   * Conversion succeeds exactly when the stripped text is an optional sign
   * and well-formed digits, and only a leading '-' makes the result negative.
   */
  lemma {:induction false} ParseIntAccepts(s: string)
    ensures ParseInt(s).Some? <==> WellFormedDigits(Unsigned(Strip(s)))
    ensures ParseInt(s).Some? && ParseInt(s).value < 0 ==> Strip(s)[0] == '-'
  {
  }

  lemma ParseAcceptsSignAndSpace()
    ensures ParseInt(" -7\n") == Some(-7)
  {
    var s := " -7\n";
    assert TrimLeft(s) == "-7\n" by {
      assert IsSpace(s[0]) && s[1..] == "-7\n";
      assert !IsSpace('-');
    }
    assert TrimRight("-7\n") == "-7" by {
      assert "-7\n"[..2] == "-7";
      assert !IsSpace('7');
    }
    assert "-7"[1..] == "7";
    assert ParseDigits("7") == Some(7) by {
      assert "7"[..0] == [];
      assert WellFormedDigits("7");
    }
  }

  lemma ParseAcceptsUnderscore()
    ensures ParseInt("1_000") == Some(1000)
  {
    var s := "1_000";
    assert s[..4] == "1_00" && "1_00"[..3] == "1_0" && "1_0"[..2] == "1_";
    assert "1_"[..1] == "1" && "1"[..0] == [];
    assert WellFormedDigits(s) by {
      assert WellFormedDigits("1");
      assert WellFormedDigits("1_0");
      assert WellFormedDigits("1_00");
    }
    assert DigitsValue(s) == 1000 by {
      assert DigitsValue("1") == 1;
      assert DigitsValue("1_") == 1;
      assert DigitsValue("1_0") == 10;
      assert DigitsValue("1_00") == 100;
    }
    ParseUnsigned(s);
  }

  lemma ParseRejectsDoubleUnderscore()
    ensures ParseInt("1__0") == None
  {
    var u := "1__0";
    NoSpaceIsStripped(u);
    assert u[..3] == "1__" && "1__"[..2] == "1_";
    assert !WellFormedDigits("1__") && !WellFormedDigits("1_");
    assert !WellFormedDigits(u);
  }

  lemma ParseRejectsDecimalPoint()
    ensures ParseInt("5.0") == None
  {
    var f := "5.0";
    NoSpaceIsStripped(f);
    assert f[..2] == "5.";
    assert !WellFormedDigits("5.");
    assert !WellFormedDigits(f);
  }

  lemma ParseRejectsEmpty()
    ensures ParseInt("") == None
  {
    assert Strip("") == "";
  }
}
