/**
 * The decimal conversions the monitor relies on: `strconv.ParseInt(s, 10, 64)`,
 * `fmt.Sscanf(s, "%d", &v)` into an int64, `fmt.Sscanf(s, "%f", &f)` followed by
 * `int64(f)`, and `%d` formatting.  Strings are sequences of characters.
 */
module GoFmt {
  import opened Wrappers
  import opened GoNum

  predicate IsDigit(c: char) { '0' <= c <= '9' }

  predicate AllDigits(s: string) { forall i :: 0 <= i < |s| ==> IsDigit(s[i]) }

  function DigitValue(c: char): nat
    requires IsDigit(c)
  {
    c as int - '0' as int
  }

  function DigitChar(d: nat): (c: char)
    requires d < 10
    ensures IsDigit(c) && DigitValue(c) == d
  {
    ('0' as int + d) as char
  }

  /** The value of a string of decimal digits, most significant digit first. */
  function DigitsValue(s: string): nat
    requires AllDigits(s)
  {
    if s == [] then 0 else 10 * DigitsValue(s[..|s| - 1]) + DigitValue(s[|s| - 1])
  }

  /** The decimal digits of `n`, without leading zeros. */
  function FormatNat(n: nat): (s: string)
    ensures |s| > 0 && AllDigits(s) && DigitsValue(s) == n
    ensures s[0] == '0' ==> s == "0"
  {
    if n < 10 then [DigitChar(n)]
    else
      var p := FormatNat(n / 10);
      var s := p + [DigitChar(n % 10)];
      assert s[..|s| - 1] == p;
      s
  }

  /** `fmt.Sprintf("%d", n)`: a minus sign for negative values, then the digits of the magnitude. */
  function FormatInt(n: int): (s: string)
    ensures |s| > 0
    ensures n >= 0 ==> AllDigits(s) && DigitsValue(s) == n
    ensures n < 0 ==> s[0] == '-' && AllDigits(s[1..]) && DigitsValue(s[1..]) == -n
  {
    if n < 0 then
      var s := "-" + FormatNat(-n);
      assert s[1..] == FormatNat(-n);
      s
    else FormatNat(n)
  }

  predicate IsSign(c: char) { c == '+' || c == '-' }

  /**
   * `strconv.ParseInt(s, 10, 64)`: the whole string must be an optional sign followed by
   * at least one decimal digit (no underscores, no base prefix), and the value must fit
   * in an int64; anything else is an error (`None`).
   */
  function ParseInt(s: string): (r: Option<int64>)
    ensures s == [] ==> r.None?
    ensures r.Some? ==> |s| > 0 && (IsSign(s[0]) || (AllDigits(s) && r.value == DigitsValue(s)))
    ensures r.Some? && IsSign(s[0]) ==> AllDigits(s[1..]) && |s| > 1
    ensures r.Some? && s[0] == '-' ==> r.value == -(DigitsValue(s[1..]) as int)
    ensures r.Some? && s[0] == '+' ==> r.value == DigitsValue(s[1..])
  {
    var signed := |s| > 0 && IsSign(s[0]);
    var digits := if signed then s[1..] else s;
    if digits == [] || !AllDigits(digits) then None
    else
      var v: int := if signed && s[0] == '-' then -(DigitsValue(digits) as int) else DigitsValue(digits);
      if MinInt64 <= v <= MaxInt64 then Some(v) else None
  }

  /** The length of the longest prefix of `s` made of decimal digits. */
  function DigitRun(s: string): (n: nat)
    ensures n <= |s| && AllDigits(s[..n])
    ensures n < |s| ==> !IsDigit(s[n])
  {
    if s == [] || !IsDigit(s[0]) then 0
    else
      var k := DigitRun(s[1..]);
      assert s[..k + 1] == [s[0]] + s[1..][..k];
      k + 1
  }

  /**
   * `fmt.Sscanf(s, "%d", &v)` with `v` an int64: an optional sign, then the longest run of
   * digits (at least one), converted with the int64 range check; what follows the digits
   * is left unread.
   */
  function ScanInt(s: string): (r: Option<int64>)
    ensures r.Some? ==> |s| > 0 && (IsDigit(s[0]) || IsSign(s[0]))
    ensures r.Some? && s[0] == '-' ==> r.value <= 0
    ensures r.Some? && s[0] != '-' ==> r.value >= 0
  {
    var start := if |s| > 0 && IsSign(s[0]) then 1 else 0;
    var n := DigitRun(s[start..]);
    if n == 0 then None else ParseInt(s[..start + n])
  }

  predicate IsMantissaChar(c: char) { IsDigit(c) || c == '_' }

  /** The length of the longest prefix of `s` that Go's float scanner collects as digits (digits and `_`). */
  function MantissaRun(s: string): (n: nat)
    ensures n <= |s|
    ensures forall i :: 0 <= i < n ==> IsMantissaChar(s[i])
    ensures n < |s| ==> !IsMantissaChar(s[n])
  {
    if s == [] || !IsMantissaChar(s[0]) then 0 else 1 + MantissaRun(s[1..])
  }

  /**
   * `strconv.ParseFloat`'s rule for underscores in a decimal number: each one stands
   * between two digits.  Applied to a run of digits and underscores, which a sign, the
   * point or the end of the token delimits.
   */
  predicate UnderscoresBetweenDigits(t: string)
  {
    forall i :: 0 <= i < |t| && t[i] == '_' ==> 0 < i < |t| - 1 && IsDigit(t[i - 1]) && IsDigit(t[i + 1])
  }

  /** The digits of a run of digits and underscores, with the underscores dropped. */
  function StripUnderscores(t: string): (d: string)
    requires forall i :: 0 <= i < |t| ==> IsMantissaChar(t[i])
    ensures AllDigits(d) && |d| <= |t|
    ensures AllDigits(t) ==> d == t
  {
    if t == [] then []
    else
      var head: string := if t[0] == '_' then [] else [t[0]];
      var tail := StripUnderscores(t[1..]);
      assert AllDigits(head + tail) by {
        forall i | 0 <= i < |head + tail|
          ensures IsDigit((head + tail)[i])
        {
          if i >= |head| {
            assert (head + tail)[i] == tail[i - |head|];
          } else {
            assert IsMantissaChar(t[0]) && t[0] != '_';
          }
        }
      }
      assert AllDigits(t) ==> head == [t[0]] && t == [t[0]] + t[1..];
      head + tail
  }

  /**
   * `fmt.Sscanf(s, "%f", &f)` followed by `int64(f)`, for the decimal forms
   * `[sign] digits [. digits]`.  The scanner collects digits and underscores; the token
   * must hold at least one digit, every underscore must stand between two digits, and the
   * result is the integer part of the token's exact decimal value (truncation toward
   * zero).  Go first rounds the token to a float64, which this does not model.  Tokens
   * continued by an exponent letter are reported as not parsed.
   */
  function ScanFloatTrunc(s: string): (r: Option<int64>)
    ensures r.Some? ==> |s| > 0 && (IsDigit(s[0]) || IsSign(s[0]) || s[0] == '.')
    ensures r.Some? && s[0] == '-' ==> r.value <= 0
    ensures r.Some? && s[0] != '-' ==> r.value >= 0
  {
    var start := if |s| > 0 && IsSign(s[0]) then 1 else 0;
    var rest := s[start..];
    var i := MantissaRun(rest);
    var intPart := rest[..i];
    var hasPoint := i < |rest| && rest[i] == '.';
    var fracLen := if hasPoint then MantissaRun(rest[i + 1..]) else 0;
    var frac := if hasPoint then rest[i + 1..][..fracLen] else [];
    var tokenEnd := if hasPoint then i + 1 + fracLen else i;
    if intPart == [] && frac == [] then None
    else if !UnderscoresBetweenDigits(intPart) || !UnderscoresBetweenDigits(frac) then None
    else if tokenEnd < |rest| && rest[tokenEnd] in "eEpP" then None
    else
      var magnitude := DigitsValue(StripUnderscores(intPart));
      var v: int := if start == 1 && s[0] == '-' then -(magnitude as int) else magnitude;
      if MinInt64 <= v <= MaxInt64 then Some(v) else None
  }

  /** Formatting an int64 and parsing it back gives the same value. */
  lemma FormatParseRoundTrip(n: int64)
    ensures ParseInt(FormatInt(n)) == Some(n)
  {
    var s := FormatInt(n);
    if n < 0 {
      assert IsSign(s[0]);
    } else {
      assert IsDigit(s[0]);
    }
  }

  lemma {:induction false} DigitRunOfDigits(d: string, rest: string)
    requires AllDigits(d)
    requires rest == [] || !IsDigit(rest[0])
    ensures DigitRun(d + rest) == |d|
  {
    if d == [] {
      assert d + rest == rest;
    } else {
      assert (d + rest)[1..] == d[1..] + rest;
      DigitRunOfDigits(d[1..], rest);
    }
  }

  /**
   * Scanning with `%d` reads exactly the formatted integer and ignores what follows it when
   * that does not start with a digit: "62341.5" scans as 62341.
   */
  lemma ScanIntStopsAtNonDigit(n: int64, rest: string)
    requires rest == [] || !IsDigit(rest[0])
    ensures ScanInt(FormatInt(n) + rest) == Some(n)
  {
    var f := FormatInt(n);
    var s := f + rest;
    FormatParseRoundTrip(n);
    if n < 0 {
      assert s[0] == f[0] == '-';
      assert f == [f[0]] + f[1..];
      assert s == [f[0]] + (f[1..] + rest);
      assert s[1..] == f[1..] + rest;
      DigitRunOfDigits(f[1..], rest);
      assert s[..1 + |f[1..]|] == f;
    } else {
      assert !IsSign(s[0]) by { assert IsDigit(f[0]); }
      assert s[0..] == f + rest;
      DigitRunOfDigits(f, rest);
      assert s[..|f|] == f;
    }
  }

  lemma {:induction false} MantissaRunOfDigits(d: string, rest: string)
    requires AllDigits(d)
    requires rest == [] || !IsMantissaChar(rest[0])
    ensures MantissaRun(d + rest) == |d|
  {
    if d == [] {
      assert d + rest == rest;
    } else {
      assert (d + rest)[1..] == d[1..] + rest;
      MantissaRunOfDigits(d[1..], rest);
    }
  }

  /** A reset header such as "62341.5" keeps only its integer part, 62341. */
  lemma ScanFloatTruncKeepsIntegerPart(n: nat, frac: string)
    requires n <= MaxInt64
    requires AllDigits(frac)
    ensures ScanFloatTrunc(FormatNat(n) + "." + frac) == Some(n)
  {
    var d := FormatNat(n);
    assert forall i :: 0 <= i < |d| ==> IsMantissaChar(d[i]);
    assert forall i :: 0 <= i < |frac| ==> IsMantissaChar(frac[i]);
    ScanFloatTruncOfPointed(d, frac);
  }

  /**
   * A reset header without a point, such as "62341", reads as that number, whatever
   * follows it that cannot continue a float token.
   */
  lemma ScanFloatTruncReadsInteger(n: nat, rest: string)
    requires n <= MaxInt64
    requires rest == [] || (!IsMantissaChar(rest[0]) && rest[0] != '.' && rest[0] !in "eEpP")
    ensures ScanFloatTrunc(FormatNat(n) + rest) == Some(n)
  {
    var d := FormatNat(n);
    var s := d + rest;
    assert !IsSign(s[0]) by { assert IsDigit(d[0]); }
    assert s[0..] == s;
    MantissaRunOfDigits(d, rest);
    assert s[..|d|] == d;
    assert |d| < |s| ==> s[|d|] == rest[0];
  }

  /** A run of digits and underscores is taken whole when what follows cannot continue it. */
  lemma {:induction false} MantissaRunOfRun(d: string, rest: string)
    requires forall i :: 0 <= i < |d| ==> IsMantissaChar(d[i])
    requires rest == [] || !IsMantissaChar(rest[0])
    ensures MantissaRun(d + rest) == |d|
  {
    if d == [] {
      assert d + rest == rest;
    } else {
      assert (d + rest)[1..] == d[1..] + rest;
      MantissaRunOfRun(d[1..], rest);
    }
  }

  /**
   * A reset header "<int>.<frac>" whose parts are runs of digits and underscores, each
   * underscore between two digits, reads as the integer part with its underscores dropped.
   */
  lemma ScanFloatTruncOfPointed(intPart: string, frac: string)
    requires forall i :: 0 <= i < |intPart| ==> IsMantissaChar(intPart[i])
    requires forall i :: 0 <= i < |frac| ==> IsMantissaChar(frac[i])
    requires intPart != [] && UnderscoresBetweenDigits(intPart) && UnderscoresBetweenDigits(frac)
    requires DigitsValue(StripUnderscores(intPart)) <= MaxInt64
    ensures ScanFloatTrunc(intPart + "." + frac) == Some(DigitsValue(StripUnderscores(intPart)))
  {
    assert intPart[0] != '_';
    PointedTokenParts(intPart, frac);
  }

  /** How the float scanner splits "<int>.<frac>" when both parts are runs of digits and underscores. */
  lemma PointedTokenParts(intPart: string, frac: string)
    requires forall i :: 0 <= i < |intPart| ==> IsMantissaChar(intPart[i])
    requires forall i :: 0 <= i < |frac| ==> IsMantissaChar(frac[i])
    requires intPart != [] && intPart[0] != '_'
    ensures var s := intPart + "." + frac;
            var i := |intPart|;
            !IsSign(s[0]) && s[0..] == s && MantissaRun(s) == i && s[..i] == intPart && s[i] == '.' &&
            MantissaRun(s[i + 1..]) == |frac| && s[i + 1..][..|frac|] == frac && i + 1 + |frac| == |s|
  {
    var s := intPart + "." + frac;
    assert IsMantissaChar(intPart[0]);
    assert s == intPart + ("." + frac);
    MantissaRunOfRun(intPart, "." + frac);
    assert s[|intPart| + 1..] == frac + [];
    MantissaRunOfRun(frac, []);
  }

  /** An underscore between digits is skipped: "1_000.5" reads as 1000. */
  lemma UnderscoreBetweenDigitsSkipped()
    ensures ScanFloatTrunc("1_000.5") == Some(1000)
  {
    ThousandUnderscores();
    ThousandValue();
    assert "1_000" + "." + "5" == "1_000.5";
    ScanFloatTruncOfPointed("1_000", "5");
  }

  lemma ThousandUnderscores()
    ensures UnderscoresBetweenDigits("1_000")
    ensures StripUnderscores("1_000") == "1000"
  {
    assert "1_000"[1..] == "_000";
    assert "_000"[1..] == "000";
    assert StripUnderscores("000") == "000";
  }

  lemma ThousandValue()
    ensures DigitsValue("1000") == 1000
  {
    assert "1000"[..3] == "100";
    assert "100"[..2] == "10";
    assert "10"[..1] == "1";
  }

  /** Two underscores in a row are refused: "1__000" does not read. */
  lemma AdjacentUnderscoresRefused()
    ensures ScanFloatTrunc("1__000") == None
  {
    var u := "1__000";
    assert u[0..] == u;
    assert MantissaRun(u) == 6 by {
      MantissaRunOfDigits("000", []);
      assert "000" + [] == "000";
      assert "_000"[1..] == "000";
      assert "__000"[1..] == "_000";
      assert u[1..] == "__000";
    }
    assert u[..6] == u;
    assert !UnderscoresBetweenDigits(u) by {
      assert u[1] == '_' && !IsDigit(u[2]);
    }
  }
}
