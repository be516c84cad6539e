/**
 * The JavaScript string primitives the pages rely on: the `\s` class of
 * regular expressions, String.prototype.trim, toLowerCase, the `\D` and `\s`
 * removals of the card form, and the global parseInt.
 */
module Text {
  import opened Seqs

  /**
   * The characters JavaScript counts as white space for `\s`, trim and
   * parseInt: the WhiteSpace and LineTerminator productions of ECMAScript.
   */
  predicate IsWhitespace(c: char)
  {
    var n := c as int;
    n == 0x20 || (0x09 <= n <= 0x0D) || n == 0xA0 || n == 0x1680
    || (0x2000 <= n <= 0x200A) || n == 0x2028 || n == 0x2029
    || n == 0x202F || n == 0x205F || n == 0x3000 || n == 0xFEFF
  }

  predicate IsDigit(c: char)
  {
    '0' <= c <= '9'
  }

  /** Number of leading characters of `s` that satisfy p. */
  function LeadingCount(s: string, p: char -> bool): (n: nat)
    ensures n <= |s|
    ensures forall i :: 0 <= i < n ==> p(s[i])
    ensures n < |s| ==> !p(s[n])
  {
    if s == [] || !p(s[0]) then 0 else 1 + LeadingCount(s[1..], p)
  }

  /** Number of trailing characters of `s` that satisfy p. */
  function TrailingCount(s: string, p: char -> bool): (n: nat)
    ensures n <= |s|
    ensures forall i :: |s| - n <= i < |s| ==> p(s[i])
    ensures n < |s| ==> !p(s[|s| - n - 1])
  {
    if s == [] || !p(s[|s| - 1]) then 0 else 1 + TrailingCount(s[..|s| - 1], p)
  }

  /** String.prototype.trimStart. */
  function TrimStart(s: string): (r: string)
    ensures |r| <= |s|
    ensures r == s[|s| - |r|..]
    ensures forall i :: 0 <= i < |s| - |r| ==> IsWhitespace(s[i])
    ensures r == [] || !IsWhitespace(r[0])
  {
    s[LeadingCount(s, IsWhitespace)..]
  }

  /** String.prototype.trimEnd. */
  function TrimEnd(s: string): (r: string)
    ensures |r| <= |s|
    ensures r == s[..|r|]
    ensures forall i :: |r| <= i < |s| ==> IsWhitespace(s[i])
    ensures r == [] || !IsWhitespace(r[|r| - 1])
  {
    s[..|s| - TrailingCount(s, IsWhitespace)]
  }

  /** String.prototype.trim: white space removed at both ends. */
  function Trim(s: string): string
  {
    TrimEnd(TrimStart(s))
  }

  /** A string trims to "" exactly when it is all white space. */
  lemma TrimBlank(s: string)
    ensures Trim(s) == "" <==> forall i :: 0 <= i < |s| ==> IsWhitespace(s[i])
  {
  }

  /** What trim keeps has no white space at either end. */
  lemma TrimEnds(s: string)
    ensures var r := Trim(s);
            r == [] || (!IsWhitespace(r[0]) && !IsWhitespace(r[|r| - 1]))
  {
    var t := TrimStart(s);
    var r := TrimEnd(t);
    if r != [] {
      assert r[0] == t[0];
    }
  }

  /** Trimming twice changes nothing more. */
  lemma TrimIdempotent(s: string)
    ensures Trim(Trim(s)) == Trim(s)
  {
    var r := Trim(s);
    TrimEnds(s);
    assert LeadingCount(r, IsWhitespace) == 0;
    assert TrimStart(r) == r;
    assert TrailingCount(r, IsWhitespace) == 0;
  }

  /**
   * toLowerCase on one character: the ASCII capitals and the Latin-1 capitals
   * U+00C0..U+00DE except the multiplication sign move up by 0x20.
   */
  function LowerChar(c: char): (r: char)
    ensures IsWhitespace(r) <==> IsWhitespace(c)
    ensures IsDigit(r) <==> IsDigit(c)
  {
    if ('A' <= c <= 'Z') || ('À' <= c <= 'Þ' && c != '×')
    then (c as int + 0x20) as char
    else c
  }

  predicate IsUpper(c: char)
  {
    ('A' <= c <= 'Z') || ('À' <= c <= 'Þ' && c != '×')
  }

  /** String.prototype.toLowerCase, character by character. */
  function ToLower(s: string): (r: string)
    ensures |r| == |s|
    ensures forall i :: 0 <= i < |s| ==> r[i] == LowerChar(s[i])
    ensures forall i :: 0 <= i < |s| ==> !IsUpper(r[i])
  {
    seq(|s|, i requires 0 <= i < |s| => LowerChar(s[i]))
  }

  /**
   * toUpperCase on one character: the ASCII small letters and the Latin-1
   * small letters U+00E0..U+00FE except the division sign move down by 0x20.
   */
  function UpperChar(c: char): (r: char)
    ensures IsLower(c) ==> IsUpper(r) && LowerChar(r) == c
    ensures !IsLower(c) ==> r == c
  {
    if IsLower(c) then (c as int - 0x20) as char else c
  }

  predicate IsLower(c: char)
  {
    ('a' <= c <= 'z') || ('à' <= c <= 'þ' && c != '÷')
  }

  /** String.prototype.toUpperCase, character by character. */
  function ToUpper(s: string): (r: string)
    ensures |r| == |s|
    ensures forall i :: 0 <= i < |s| ==> r[i] == UpperChar(s[i])
    ensures forall i :: 0 <= i < |s| ==> !IsLower(r[i])
  {
    seq(|s|, i requires 0 <= i < |s| => UpperChar(s[i]))
  }

  /** Lower-casing undoes upper-casing on a string without capitals. */
  lemma LowerUndoesUpper(s: string)
    requires forall i :: 0 <= i < |s| ==> !IsUpper(s[i])
    ensures ToLower(ToUpper(s)) == s
  {
    assert forall i :: 0 <= i < |s| ==> LowerChar(UpperChar(s[i])) == s[i];
  }

  /** Lower-casing an already lower-cased string changes nothing. */
  lemma ToLowerIdempotent(s: string)
    ensures ToLower(ToLower(s)) == ToLower(s)
  {
  }

  /** value.replace(/\D/g, ''): the decimal digits of `s`, in order. */
  function OnlyDigits(s: string): (r: string)
    ensures forall i :: 0 <= i < |r| ==> IsDigit(r[i])
    ensures forall i :: 0 <= i < |s| && IsDigit(s[i]) ==> s[i] in r
  {
    FilterMembers(s, IsDigit);
    Filter(s, IsDigit)
  }

  /** Removing the non-digits of a digit string changes nothing. */
  lemma OnlyDigitsIdempotent(s: string)
    ensures OnlyDigits(OnlyDigits(s)) == OnlyDigits(s)
  {
    FilterAll(OnlyDigits(s), IsDigit);
  }

  predicate NotWhitespace(c: char)
  {
    !IsWhitespace(c)
  }

  /** value.replace(/\s/g, ''). */
  function RemoveWhitespace(s: string): (r: string)
    ensures forall i :: 0 <= i < |r| ==> !IsWhitespace(r[i])
    ensures forall i :: 0 <= i < |s| && !IsWhitespace(s[i]) ==> s[i] in r
  {
    FilterMembers(s, NotWhitespace);
    Filter(s, NotWhitespace)
  }

  /** The value of a character as a digit, up to base 16; -1 when it is none. */
  function DigitValue(c: char): (d: int)
    ensures -1 <= d < 16
    ensures IsDigit(c) ==> d == c as int - '0' as int
  {
    if '0' <= c <= '9' then c as int - '0' as int
    else if 'a' <= c <= 'f' then c as int - 'a' as int + 10
    else if 'A' <= c <= 'F' then c as int - 'A' as int + 10
    else -1
  }

  predicate IsDigitIn(c: char, radix: nat)
  {
    0 <= DigitValue(c) < radix
  }

  /** Length of the run of base-`radix` digits at the start of `s`. */
  function DigitRun(s: string, radix: nat): (n: nat)
    ensures n <= |s|
    ensures forall i :: 0 <= i < n ==> IsDigitIn(s[i], radix)
    ensures n < |s| ==> !IsDigitIn(s[n], radix)
  {
    if s == [] || !IsDigitIn(s[0], radix) then 0 else 1 + DigitRun(s[1..], radix)
  }

  /** Positional value of a digit string in the given base. */
  function ValueIn(ds: string, radix: nat): nat
    requires forall i :: 0 <= i < |ds| ==> IsDigitIn(ds[i], radix)
  {
    if ds == [] then 0
    else
      var high: nat := ValueIn(ds[..|ds| - 1], radix);
      assert high * radix >= 0;
      assert IsDigitIn(ds[|ds| - 1], radix);
      high * radix + DigitValue(ds[|ds| - 1])
  }

  /**
   * parseInt(s) without a radix argument: leading white space is skipped,
   * one sign is read, a `0x` or `0X` prefix selects base 16, and the longest
   * run of digits that follows gives the value; with no such digit the
   * result is NaN, here None.
   */
  function ParseInt(s: string): (r: Option<int>)
  {
    var t := TrimStart(s);
    if |t| > 0 && t[0] == '-' then Negated(ParseMagnitude(t[1..]))
    else if |t| > 0 && t[0] == '+' then ParseMagnitude(t[1..])
    else ParseMagnitude(t)
  }

  function Negated(m: Option<int>): Option<int>
  {
    if m.Some? then Some(-m.value) else None
  }

  /** The unsigned part: a `0x` or `0X` prefix selects base 16, base 10 otherwise. */
  function ParseMagnitude(u: string): Option<int>
  {
    if |u| >= 2 && u[0] == '0' && (u[1] == 'x' || u[1] == 'X') then ParseRun(u[2..], 16)
    else ParseRun(u, 10)
  }

  /** The longest run of digits at the start, or None when there is no digit. */
  function ParseRun(body: string, radix: nat): Option<int>
  {
    var n := DigitRun(body, radix);
    if n == 0 then None else Some(ValueIn(body[..n], radix))
  }

  function DigitChar(d: nat): (c: char)
    requires d < 10
    ensures IsDigit(c) && DigitValue(c) == d
  {
    ('0' as int + d) as char
  }

  /** The decimal numeral of n, as Number.prototype.toString writes it. */
  function NatString(n: nat): (r: string)
    ensures |r| >= 1
    ensures forall i :: 0 <= i < |r| ==> IsDigit(r[i])
    ensures r[0] == '0' ==> n == 0 && |r| == 1
  {
    if n < 10 then [DigitChar(n)] else NatString(n / 10) + [DigitChar(n % 10)]
  }

  function IntString(n: int): string
  {
    if n < 0 then "-" + NatString(-n) else NatString(n)
  }

  lemma {:induction false} ValueOfNatString(n: nat)
    ensures ValueIn(NatString(n), 10) == n
  {
    if n >= 10 {
      var r := NatString(n);
      ValueOfNatString(n / 10);
      assert r[..|r| - 1] == NatString(n / 10);
    }
  }

  /** parseInt reads back every nonnegative integer written in decimal. */
  lemma ParseIntString(n: nat)
    ensures ParseInt(IntString(n)) == Some(n)
  {
    var ds := NatString(n);
    ValueOfNatString(n);
    ParseNumeral(ds);
    NoLeadingBlank(ds);
  }

  /** A string that starts with a digit has nothing for trimStart to remove. */
  lemma NoLeadingBlank(t: string)
    requires |t| > 0 && IsDigit(t[0])
    ensures TrimStart(t) == t
  {
    assert LeadingCount(t, IsWhitespace) == 0;
  }

  /** A decimal numeral without a redundant leading zero reads as its value. */
  lemma ParseNumeral(ds: string)
    requires |ds| >= 1 && forall i :: 0 <= i < |ds| ==> IsDigit(ds[i])
    requires ds[0] == '0' ==> |ds| == 1
    ensures ParseMagnitude(ds) == Some(ValueIn(ds, 10) as int)
  {
    assert |ds| < 2 || ds[0] != '0';
    LeadingDigitsAll(ds);
    assert ds[..|ds|] == ds;
  }

  lemma {:induction false} LeadingDigitsAll(ds: string)
    requires forall i :: 0 <= i < |ds| ==> IsDigit(ds[i])
    ensures DigitRun(ds, 10) == |ds|
  {
    if ds != [] {
      LeadingDigitsAll(ds[1..]);
    }
  }
}
