/**
 * Values and string helpers shared by every module of the canteen model:
 * an optional value, Python-style integer parsing and formatting of
 * decimal digits, ASCII upper-casing and whitespace stripping.
 */
module Common {

  datatype Option<T> = None | Some(value: T)

  // ---------------------------------------------------------------------
  // Decimal digits
  // ---------------------------------------------------------------------

  predicate IsDigit(c: char) { '0' <= c <= '9' }

  predicate AllDigits(s: string) { forall i :: 0 <= i < |s| ==> IsDigit(s[i]) }

  function DigitChar(d: nat): (c: char)
    requires d < 10
    ensures IsDigit(c)
  {
    ('0' as int + d) as char
  }

  function DigitValue(c: char): (d: nat)
    requires IsDigit(c)
    ensures d < 10 && DigitChar(d) == c
  {
    c as int - '0' as int
  }

  /** The value of a string of decimal digits, most significant first. */
  function DigitsValue(s: string): nat
    requires AllDigits(s)
  {
    if |s| == 0 then 0 else DigitsValue(s[..|s| - 1]) * 10 + DigitValue(s[|s| - 1])
  }

  /** Shortest decimal representation of a natural number (Python's `str(n)`). */
  function NatToString(n: nat): (s: string)
    ensures |s| > 0 && AllDigits(s)
  {
    if n < 10 then [DigitChar(n)] else NatToString(n / 10) + [DigitChar(n % 10)]
  }

  lemma {:induction false} NatToStringRoundTrip(n: nat)
    ensures DigitsValue(NatToString(n)) == n
  {
    if n >= 10 {
      NatToStringRoundTrip(n / 10);
      var s := NatToString(n);
      assert s[..|s| - 1] == NatToString(n / 10);
    }
  }

  /** Left-pads with '0' up to `width` characters. */
  function ZeroPad(s: string, width: nat): (r: string)
    ensures |r| == if |s| >= width then |s| else width
    ensures r[|r| - |s|..] == s
    ensures forall i :: 0 <= i < |r| - |s| ==> r[i] == '0'
  {
    if |s| >= width then s else seq(width - |s|, _ => '0') + s
  }

  /** One more leading zero does not change the padded result. */
  lemma ZeroPadStep(s: string, width: nat)
    requires |s| < width
    ensures ZeroPad("0" + s, width) == ZeroPad(s, width)
  {
    var k := width - |s|;
    var zs: string := seq(k - 1, _ => '0');
    assert seq(k, _ => '0') == zs + "0";
    assert zs + ("0" + s) == (zs + "0") + s;
  }

  lemma {:induction false} LeadingZero(s: string)
    requires AllDigits(s)
    ensures AllDigits("0" + s) && DigitsValue("0" + s) == DigitsValue(s)
  {
    if |s| > 0 {
      var t := "0" + s;
      assert t[..|t| - 1] == "0" + s[..|s| - 1];
      LeadingZero(s[..|s| - 1]);
    }
  }

  lemma {:induction false} ZeroPadValue(s: string, width: nat)
    requires AllDigits(s)
    ensures AllDigits(ZeroPad(s, width)) && DigitsValue(ZeroPad(s, width)) == DigitsValue(s)
    decreases width - |s|
  {
    if |s| < width {
      LeadingZero(s);
      ZeroPadValue("0" + s, width);
      ZeroPadStep(s, width);
    }
  }

  /**
   * Python's `format(n, "0<width>d")`: the sign counts towards the width and
   * the zeros go between the sign and the digits.
   */
  function FormatInt(n: int, width: nat): (s: string)
    ensures |s| > 0
  {
    if n < 0 then "-" + ZeroPad(NatToString(-n), if width > 0 then width - 1 else 0)
    else ZeroPad(NatToString(n), width)
  }

  /**
   * Python's `int(s)`: surrounding whitespace is ignored, and what remains
   * must be an optional sign followed by one or more ASCII digits; `None`
   * stands for the ValueError it raises otherwise.
   */
  function ParseInt(s: string): Option<int>
  {
    ParseNumeral(Strip(s))
  }

  /** `int()` succeeds exactly when the stripped string is a sign and digits, and ignores the whitespace. */
  lemma ParseIntSpec(s: string)
    ensures var t := Strip(s);
            ParseInt(s).Some? <==> |t| > 0 && (AllDigits(t) || ((t[0] == '+' || t[0] == '-') && |t| > 1
                                                                && AllDigits(t[1..])))
    ensures ParseInt(Strip(s)) == ParseInt(s)
  {
    StripSpec(s);
  }

  /** An optional sign followed by one or more ASCII digits. */
  function ParseNumeral(s: string): (r: Option<int>)
    ensures r.Some? <==> |s| > 0 && (AllDigits(s) ||
                                     ((s[0] == '+' || s[0] == '-') && |s| > 1 && AllDigits(s[1..])))
  {
    if |s| > 0 && (s[0] == '+' || s[0] == '-') then
      if |s| > 1 && AllDigits(s[1..]) then
        var v: int := DigitsValue(s[1..]);
        Some(if s[0] == '-' then -v else v)
      else None
    else if |s| > 0 && AllDigits(s) then Some(DigitsValue(s))
    else None
  }

  lemma ParseDigits(s: string)
    requires |s| > 0 && AllDigits(s)
    ensures ParseInt(s) == Some(DigitsValue(s))
    ensures ParseInt("-" + s) == Some(-(DigitsValue(s) as int))
  {
    NumeralDigits(s);
    assert IsDigit(s[0]) && IsDigit(s[|s| - 1]);
    ParseUnpadded(s);
    var m := "-" + s;
    assert m[|m| - 1] == s[|s| - 1];
    ParseUnpadded(m);
  }

  lemma NumeralDigits(s: string)
    requires |s| > 0 && AllDigits(s)
    ensures ParseNumeral(s) == Some(DigitsValue(s))
    ensures ParseNumeral("-" + s) == Some(-(DigitsValue(s) as int))
  {
    assert IsDigit(s[0]);
    assert ("-" + s)[1..] == s;
  }

  lemma ParseUnpadded(s: string)
    requires |s| > 0 && !IsSpace(s[0]) && !IsSpace(s[|s| - 1])
    ensures ParseInt(s) == ParseNumeral(s)
  {
    StripKeeps(s);
  }

  /** Parsing what `FormatInt` wrote gives back the number. */
  lemma FormatParseRoundTrip(n: int, width: nat)
    ensures ParseInt(FormatInt(n, width)) == Some(n)
  {
    var digits := FormatIntShape(n, width);
    ParseSigned(FormatInt(n, width), digits, n < 0);
  }

  /** `FormatInt` writes a minus sign for a negative number, then the padded digits of its magnitude. */
  lemma FormatIntShape(n: int, width: nat) returns (digits: string)
    ensures |digits| > 0 && AllDigits(digits)
    ensures DigitsValue(digits) == if n < 0 then -n else n
    ensures FormatInt(n, width) == if n < 0 then "-" + digits else digits
  {
    var m: nat := if n < 0 then -n else n;
    var w := if n < 0 && width > 0 then width - 1 else if n < 0 then 0 else width;
    digits := ZeroPad(NatToString(m), w);
    NatToStringRoundTrip(m);
    ZeroPadValue(NatToString(m), w);
  }

  lemma ParseSigned(f: string, digits: string, negative: bool)
    requires |digits| > 0 && AllDigits(digits)
    requires f == if negative then "-" + digits else digits
    ensures ParseInt(f) == Some(if negative then -(DigitsValue(digits) as int) else DigitsValue(digits))
  {
    ParseDigits(digits);
  }

  // ---------------------------------------------------------------------
  // Strings
  // ---------------------------------------------------------------------

  predicate StartsWith(s: string, prefix: string)
  {
    |prefix| <= |s| && s[..|prefix|] == prefix
  }

  /** ASCII upper-casing of one character (Python's `str.upper` on ASCII). */
  function UpperChar(c: char): char
  {
    if 'a' <= c <= 'z' then (c as int - 32) as char else c
  }

  function Upper(s: string): (r: string)
    ensures |r| == |s|
    ensures forall i :: 0 <= i < |s| ==> r[i] == UpperChar(s[i])
  {
    if |s| == 0 then "" else [UpperChar(s[0])] + Upper(s[1..])
  }

  /** A string without lower-case ASCII letters is its own upper-case form. */
  lemma UpperKeeps(s: string)
    requires forall i :: 0 <= i < |s| ==> !('a' <= s[i] <= 'z')
    ensures Upper(s) == s
  {
  }

  /** Upper-casing twice is upper-casing once. */
  lemma UpperIdempotent(s: string)
    ensures Upper(Upper(s)) == Upper(s)
  {
    UpperKeeps(Upper(s));
  }

  /** Deletes every occurrence of `c` (Python's `s.replace(c, '')`). */
  function RemoveChar(s: string, c: char): (r: string)
    ensures c !in r
    ensures forall x :: x in r <==> x in s && x != c
    ensures multiset(r) == multiset(s)[c := 0]
    ensures |r| <= |s|
  {
    if |s| == 0 then ""
    else
      assert s == [s[0]] + s[1..];
      if s[0] == c then RemoveChar(s[1..], c) else [s[0]] + RemoveChar(s[1..], c)
  }

  lemma {:induction false} RemoveCharAbsent(s: string, c: char)
    requires c !in s
    ensures RemoveChar(s, c) == s
  {
    if |s| > 0 {
      RemoveCharAbsent(s[1..], c);
    }
  }

  /** Deleting a character distributes over concatenation. */
  lemma {:induction false} RemoveCharConcat(s: string, t: string, c: char)
    ensures RemoveChar(s + t, c) == RemoveChar(s, c) + RemoveChar(t, c)
  {
    if |s| > 0 {
      assert (s + t)[1..] == s[1..] + t;
      RemoveCharConcat(s[1..], t, c);
    } else {
      assert s + t == t;
    }
  }

  /** Deleting a character from a string with one character singled out. */
  lemma RemoveCharAround(before: string, x: char, after: string, c: char)
    ensures RemoveChar(before + [x] + after, c)
            == RemoveChar(before, c) + (if x == c then [] else [x]) + RemoveChar(after, c)
  {
    var middle := if x == c then [] else [x];
    assert RemoveChar([x], c) == middle by {
      assert [x][1..] == [];
    }
    RemoveCharConcat(before, [x], c);
    RemoveCharConcat(before + [x], after, c);
  }

  /** The characters Python's `str.strip()` removes (those for which `str.isspace` holds). */
  predicate IsSpace(c: char)
  {
    c == ' ' || c == '\t' || c == '\n' || c == '\r' || c == '\U{B}' || c == '\U{C}'
    || ('\U{1C}' <= c <= '\U{1F}') || c == '\U{85}' || c == '\U{A0}' || c == '\U{1680}'
    || ('\U{2000}' <= c <= '\U{200A}') || c == '\U{2028}' || c == '\U{2029}' || c == '\U{202F}'
    || c == '\U{205F}' || c == '\U{3000}'
  }

  function StripLeft(s: string): (r: string)
    ensures |r| <= |s| && r == s[|s| - |r|..]
    ensures |r| > 0 ==> !IsSpace(r[0])
    ensures forall i :: 0 <= i < |s| - |r| ==> IsSpace(s[i])
  {
    if |s| > 0 && IsSpace(s[0]) then StripLeft(s[1..]) else s
  }

  function StripRight(s: string): (r: string)
    ensures |r| <= |s| && r == s[..|r|]
    ensures |r| > 0 ==> !IsSpace(r[|r| - 1])
    ensures forall i :: |r| <= i < |s| ==> IsSpace(s[i])
  {
    if |s| > 0 && IsSpace(s[|s| - 1]) then StripRight(s[..|s| - 1]) else s
  }

  /** Python's `s.strip()`. */
  function Strip(s: string): (r: string)
  {
    StripRight(StripLeft(s))
  }

  /**
   * A stripped string is empty exactly when the input is all whitespace,
   * otherwise it starts and ends with a non-space; stripping again changes nothing.
   */
  lemma StripSpec(s: string)
    ensures |Strip(s)| > 0 ==> !IsSpace(Strip(s)[0]) && !IsSpace(Strip(s)[|Strip(s)| - 1])
    ensures Strip(s) == "" <==> forall i :: 0 <= i < |s| ==> IsSpace(s[i])
    ensures Strip(Strip(s)) == Strip(s)
  {
    var l := StripLeft(s);
    var r := StripRight(l);
    if r == "" {
      assert |l| == 0;
    } else {
      assert r[0] == l[0];
    }
  }

  /** A string that neither starts nor ends with whitespace is its own stripped form. */
  lemma StripKeeps(s: string)
    requires |s| > 0 ==> !IsSpace(s[0]) && !IsSpace(s[|s| - 1])
    ensures Strip(s) == s
  {
  }

  /** Everything before the first `sep` (Python's `s.split(sep)[0]`). */
  function FirstField(s: string, sep: char): (r: string)
    ensures StartsWith(s, r)
    ensures sep !in r
    ensures |r| < |s| ==> s[|r|] == sep
  {
    if |s| == 0 || s[0] == sep then "" else [s[0]] + FirstField(s[1..], sep)
  }
}
