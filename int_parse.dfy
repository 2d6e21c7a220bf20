/**
 * .NET's `int.TryParse(string, out int)` with its default number style
 * (leading and trailing white space, an optional leading sign, decimal digits),
 * and the agent's "parsed value, or 0 when parsing fails".
 */
module IntParse {
  import opened Wrappers
  import opened CSharpInt

  /** The white space the default number style skips: U+0009 to U+000D and U+0020. */
  predicate IsWhite(c: char) {
    c == ' ' || '\t' <= c <= '\r'
  }

  predicate IsDigit(c: char) {
    '0' <= c <= '9'
  }

  predicate AllWhite(s: string) {
    forall i :: 0 <= i < |s| ==> IsWhite(s[i])
  }

  predicate AllDigits(s: string) {
    forall i :: 0 <= i < |s| ==> IsDigit(s[i])
  }

  /** The sign part of a numeral: nothing, `+` or `-`. */
  predicate IsSign(sign: string) {
    sign == "" || sign == "+" || sign == "-"
  }

  function DigitValue(c: char): (d: nat)
    requires IsDigit(c)
    ensures d <= 9
  {
    c as int - '0' as int
  }

  function DigitChar(d: nat): (c: char)
    requires d <= 9
    ensures IsDigit(c) && DigitValue(c) == d
  {
    ('0' as int + d) as char
  }

  /** The value of a string of decimal digits, most significant first (leading zeros allowed). */
  function DigitsValue(s: string): nat
    requires AllDigits(s)
  {
    if s == [] then 0 else 10 * DigitsValue(s[..|s| - 1]) + DigitValue(s[|s| - 1])
  }

  function SignedValue(sign: string, digits: string): int
    requires AllDigits(digits)
  {
    if sign == "-" then 0 - DigitsValue(digits) else DigitsValue(digits)
  }

  /** s without its leading white space. */
  function TrimStart(s: string): (t: string)
    ensures |t| <= |s| && t == s[|s| - |t|..]
    ensures AllWhite(s[..|s| - |t|])
    ensures t == [] || !IsWhite(t[0])
  {
    if s != [] && IsWhite(s[0]) then TrimStart(s[1..]) else s
  }

  /** s without its trailing white space. */
  function TrimEnd(s: string): (t: string)
    ensures |t| <= |s| && t == s[..|t|]
    ensures AllWhite(s[|t|..])
    ensures t == [] || !IsWhite(t[|t| - 1])
  {
    if s != [] && IsWhite(s[|s| - 1]) then TrimEnd(s[..|s| - 1]) else s
  }

  /** Length of the sign at the head of an already trimmed string. */
  function SignLength(t: string): (n: nat)
    ensures n <= |t| && IsSign(t[..n])
  {
    if t != [] && (t[0] == '+' || t[0] == '-') then 1 else 0
  }

  /** s without white space at either end. */
  function Trim(s: string): (t: string)
    ensures |t| <= |s|
  {
    TrimEnd(TrimStart(s))
  }

  /** An optional sign followed by at least one digit, when the value fits in an int. */
  function ParseTrimmed(t: string): (r: Option<int>)
    ensures r.Some? ==> InInt32(r.value)
  {
    var n := SignLength(t);
    var digits := t[n..];
    if digits != [] && AllDigits(digits) && InInt32(SignedValue(t[..n], digits))
    then Some(SignedValue(t[..n], digits))
    else None
  }

  /**
   * `int.TryParse`: Some(value) for white space, an optional sign, at least one
   * digit and white space, when the value fits in an `int`; None otherwise
   * (including the empty string and overflow).
   */
  function TryParse(s: string): (r: Option<int>)
    ensures r.Some? ==> InInt32(r.value)
  {
    ParseTrimmed(Trim(s))
  }

  /** `int.TryParse(s, out var v) ? v : 0`. */
  function ParseIntOr0(s: string): (n: int)
    ensures InInt32(n)
  {
    match TryParse(s)
    case Some(v) => v
    case None => 0
  }

  /** `n.ToString()` for an int: decimal digits, with `-` in front of a negative value. */
  function FormatInt(n: int): (s: string)
    ensures s != []
    ensures s[0] == '-' <==> n < 0
    ensures n < 0 ==> s[1..] == NatDigits(-n)
    ensures n >= 0 ==> s == NatDigits(n)
  {
    if n < 0 then "-" + NatDigits(-n) else NatDigits(n)
  }

  /** The shortest decimal digits of n: no leading zero, except for 0 itself. */
  function NatDigits(n: nat): (s: string)
    ensures s != [] && AllDigits(s)
    ensures n == 0 <==> s == "0"
    ensures n > 0 ==> s[0] != '0'
  {
    if n < 10 then [DigitChar(n)] else NatDigits(n / 10) + [DigitChar(n % 10)]
  }

  lemma {:induction false} NatDigitsValue(n: nat)
    ensures DigitsValue(NatDigits(n)) == n
  {
    if n >= 10 {
      var s := NatDigits(n);
      assert s[..|s| - 1] == NatDigits(n / 10);
      NatDigitsValue(n / 10);
    }
  }

  lemma {:induction false} TrimStartOf(w: string, x: string)
    requires AllWhite(w)
    requires x == [] || !IsWhite(x[0])
    ensures TrimStart(w + x) == x
  {
    if w == [] {
      assert w + x == x;
    } else {
      assert (w + x)[1..] == w[1..] + x;
      TrimStartOf(w[1..], x);
    }
  }

  lemma {:induction false} TrimEndOf(x: string, w: string)
    requires AllWhite(w)
    requires x == [] || !IsWhite(x[|x| - 1])
    ensures TrimEnd(x + w) == x
  {
    if w == [] {
      assert x + w == x;
    } else {
      assert (x + w)[..|x + w| - 1] == x + w[..|w| - 1];
      TrimEndOf(x, w[..|w| - 1]);
    }
  }

  /** Trimming a numeral surrounded by white space leaves the numeral. */
  lemma TrimNumeral(lead: string, sign: string, digits: string, trail: string)
    requires AllWhite(lead) && AllWhite(trail) && IsSign(sign)
    requires digits != [] && AllDigits(digits)
    ensures Trim(lead + sign + digits + trail) == sign + digits
  {
    var core := sign + digits;
    assert core[0] == (if sign == "" then digits[0] else sign[0]);
    assert core[|core| - 1] == digits[|digits| - 1];
    assert lead + sign + digits + trail == lead + (core + trail);
    TrimStartOf(lead, core + trail);
    TrimEndOf(core, trail);
  }

  lemma ParseSignedDigits(sign: string, digits: string)
    requires IsSign(sign) && digits != [] && AllDigits(digits)
    ensures ParseTrimmed(sign + digits) ==
      if InInt32(SignedValue(sign, digits)) then Some(SignedValue(sign, digits)) else None
  {
  }

  /** Every well-formed numeral whose value fits in an int parses to that value. */
  lemma TryParseAccepts(lead: string, sign: string, digits: string, trail: string)
    requires AllWhite(lead) && AllWhite(trail) && IsSign(sign)
    requires digits != [] && AllDigits(digits)
    requires InInt32(SignedValue(sign, digits))
    ensures TryParse(lead + sign + digits + trail) == Some(SignedValue(sign, digits))
  {
    TrimNumeral(lead, sign, digits, trail);
    ParseSignedDigits(sign, digits);
  }

  /** A well-formed numeral whose value does not fit in an int fails to parse. */
  lemma TryParseRejectsOverflow(lead: string, sign: string, digits: string, trail: string)
    requires AllWhite(lead) && AllWhite(trail) && IsSign(sign)
    requires digits != [] && AllDigits(digits)
    requires !InInt32(SignedValue(sign, digits))
    ensures TryParse(lead + sign + digits + trail) == None
  {
    TrimNumeral(lead, sign, digits, trail);
    ParseSignedDigits(sign, digits);
  }

  lemma {:induction false} TrimStartSplit(s: string) returns (lead: string)
    ensures s == lead + TrimStart(s) && AllWhite(lead)
  {
    lead := s[..|s| - |TrimStart(s)|];
  }

  lemma {:induction false} TrimEndSplit(s: string) returns (trail: string)
    ensures s == TrimEnd(s) + trail && AllWhite(trail)
  {
    trail := s[|TrimEnd(s)|..];
  }

  /** A string is its trimmed part between a white prefix and a white suffix. */
  lemma TrimSplit(s: string) returns (lead: string, trail: string)
    ensures s == lead + Trim(s) + trail
    ensures AllWhite(lead) && AllWhite(trail)
  {
    var started := TrimStart(s);
    lead := TrimStartSplit(s);
    trail := TrimEndSplit(started);
    assert started == Trim(s) + trail;
    AppendAssoc(lead, Trim(s), trail);
  }

  /** A trimmed string that parses is a sign followed by digits. */
  lemma ParseTrimmedSound(t: string) returns (sign: string, digits: string)
    requires ParseTrimmed(t).Some?
    ensures t == sign + digits && IsSign(sign)
    ensures digits != [] && AllDigits(digits)
    ensures ParseTrimmed(t).value == SignedValue(sign, digits)
  {
    var n := SignLength(t);
    sign, digits := t[..n], t[n..];
    assert t == sign + digits;
  }

  lemma AppendAssoc(a: string, b: string, c: string)
    ensures a + (b + c) == a + b + c
  {
  }

  lemma SplitAssoc(a: string, b: string, c: string, d: string)
    ensures a + (b + c) + d == a + b + c + d
  {
  }

  /** Whatever parses is a well-formed numeral: white space, a sign, digits, white space. */
  lemma TryParseSound(s: string) returns (lead: string, sign: string, digits: string, trail: string)
    requires TryParse(s).Some?
    ensures s == lead + sign + digits + trail
    ensures AllWhite(lead) && AllWhite(trail) && IsSign(sign)
    ensures digits != [] && AllDigits(digits)
    ensures TryParse(s).value == SignedValue(sign, digits)
  {
    var t := Trim(s);
    assert TryParse(s) == ParseTrimmed(t);
    lead, trail := TrimSplit(s);
    sign, digits := ParseTrimmedSound(t);
    SplitAssoc(lead, sign, digits, trail);
  }

  /** A character that is neither white space, a sign nor a digit makes the field count as 0. */
  lemma ForeignCharGivesZero(s: string, i: nat)
    requires i < |s|
    requires !IsWhite(s[i]) && !IsDigit(s[i]) && s[i] != '+' && s[i] != '-'
    ensures TryParse(s) == None && ParseIntOr0(s) == 0
  {
    if TryParse(s).Some? {
      var lead, sign, digits, trail := TryParseSound(s);
      assert false;
    }
  }

  /** A field with no digit at all (in particular an empty or blank one) counts as 0. */
  lemma NoDigitGivesZero(s: string)
    requires forall i :: 0 <= i < |s| ==> !IsDigit(s[i])
    ensures TryParse(s) == None && ParseIntOr0(s) == 0
  {
  }

  /** The sign of n followed by the digits of its magnitude has the value n. */
  lemma SignedNatDigits(n: int)
    ensures var m: nat := if n < 0 then -n else n;
      SignedValue(if n < 0 then "-" else "", NatDigits(m)) == n
  {
    var m: nat := if n < 0 then -n else n;
    NatDigitsValue(m);
  }

  /** A formatted int is a sign followed by digits whose signed value is the int. */
  lemma FormatIntSplit(n: int) returns (sign: string, digits: string)
    ensures FormatInt(n) == sign + digits
    ensures IsSign(sign) && digits != [] && AllDigits(digits)
    ensures SignedValue(sign, digits) == n
  {
    var m: nat := if n < 0 then -n else n;
    sign, digits := if n < 0 then "-" else "", NatDigits(m);
    SignedNatDigits(n);
    assert FormatInt(n) == sign + digits by {
      if n >= 0 {
        assert "" + digits == digits;
      }
    }
  }

  /** Formatting an int and parsing it back gives the int. */
  lemma FormatParseRoundTrip(n: int)
    requires InInt32(n)
    ensures TryParse(FormatInt(n)) == Some(n)
    ensures ParseIntOr0(FormatInt(n)) == n
  {
    var sign, digits := FormatIntSplit(n);
    assert FormatInt(n) == "" + sign + digits + "";
    TryParseAccepts("", sign, digits, "");
  }
}
