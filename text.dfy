/** The JavaScript string and number built-ins that the planner's logic relies on:
    `trim`, `\s`, ASCII `toLowerCase`, `startsWith`, `replace(/[^0-9.]/g, '')`,
    `parseFloat` on the result of that replace, `parseInt` of a digit run and the
    decimal printing of numbers inside template literals. */
module Text {
  import opened Wrappers

  // ---------------------------------------------------------------------------
  // Character classes

  /** ECMAScript WhiteSpace and LineTerminator code points: what `trim()` removes and `\s` matches. */
  predicate IsWhitespace(c: char) {
    c == '\t' || c == '\n' || c == '\U{000B}' || c == '\U{000C}' || c == '\r' || c == ' ' ||
    c == '\U{00A0}' || c == '\U{1680}' || ('\U{2000}' <= c <= '\U{200A}') ||
    c == '\U{2028}' || c == '\U{2029}' || c == '\U{202F}' || c == '\U{205F}' ||
    c == '\U{3000}' || c == '\U{FEFF}'
  }

  predicate IsDigit(c: char) { '0' <= c <= '9' }

  predicate IsUpper(c: char) { 'A' <= c <= 'Z' }

  predicate IsLetter(c: char) { 'a' <= c <= 'z' || 'A' <= c <= 'Z' }

  /** The regular-expression class `\w`. */
  predicate IsWordChar(c: char) { IsLetter(c) || IsDigit(c) || c == '_' }

  // ---------------------------------------------------------------------------
  // Trimming and case

  function TrimStart(s: string): (r: string)
    ensures |r| <= |s| && r == s[|s| - |r|..]
    ensures r == [] || !IsWhitespace(r[0])
  {
    if |s| > 0 && IsWhitespace(s[0]) then TrimStart(s[1..]) else s
  }

  /** Everything `TrimStart` cuts off is whitespace. */
  lemma {:induction false} TrimStartCutsWhitespace(s: string)
    ensures forall i :: 0 <= i < |s| - |TrimStart(s)| ==> IsWhitespace(s[i])
  {
    if |s| > 0 && IsWhitespace(s[0]) {
      TrimStartCutsWhitespace(s[1..]);
      assert forall i :: 1 <= i < |s| ==> s[i] == s[1..][i - 1];
    }
  }

  function TrimEnd(s: string): (r: string)
    ensures |r| <= |s| && r == s[..|r|]
    ensures r == [] || !IsWhitespace(r[|r| - 1])
  {
    if |s| > 0 && IsWhitespace(s[|s| - 1]) then TrimEnd(s[..|s| - 1]) else s
  }

  /** Everything `TrimEnd` cuts off is whitespace. */
  lemma {:induction false} TrimEndCutsWhitespace(s: string)
    ensures forall i :: |TrimEnd(s)| <= i < |s| ==> IsWhitespace(s[i])
  {
    if |s| > 0 && IsWhitespace(s[|s| - 1]) {
      TrimEndCutsWhitespace(s[..|s| - 1]);
    }
  }

  /** `String.prototype.trim`: the longest window of `s` that neither starts nor ends with
      whitespace (see `TrimKeepsCharacters` and `BlankIffAllWhitespace`). */
  function Trim(s: string): (r: string)
    ensures |r| <= |s|
    ensures r == [] || (!IsWhitespace(r[0]) && !IsWhitespace(r[|r| - 1]))
  {
    TrimEnd(TrimStart(s))
  }

  /** Trimming only removes characters. */
  lemma TrimKeepsCharacters(s: string)
    ensures forall c :: c in Trim(s) ==> c in s
  {
    var t := TrimStart(s);
    var r := TrimEnd(t);
    assert forall c :: c in r ==> c in t;
    assert forall c :: c in t ==> c in s;
  }

  /** Text that neither starts nor ends with whitespace is its own trim. */
  lemma TrimUntouched(s: string)
    requires s != [] && !IsWhitespace(s[0]) && !IsWhitespace(s[|s| - 1])
    ensures Trim(s) == s
  {
    assert TrimStart(s) == s;
  }

  /** `!s.trim()`: the input is empty once trimmed. */
  predicate IsBlank(s: string) { Trim(s) == [] }

  /** A string is blank exactly when every character of it is whitespace. */
  lemma BlankIffAllWhitespace(s: string)
    ensures IsBlank(s) <==> forall i :: 0 <= i < |s| ==> IsWhitespace(s[i])
  {
    var t := TrimStart(s);
    TrimStartCutsWhitespace(s);
    TrimEndCutsWhitespace(t);
    assert |t| > 0 ==> t[0] == s[|s| - |t|];
  }

  function LowerChar(c: char): char {
    if 'A' <= c <= 'Z' then (c as int + 32) as char else c
  }

  /** `toLowerCase` restricted to ASCII letters. */
  function ToLower(s: string): (r: string)
    ensures |r| == |s|
    ensures forall i :: 0 <= i < |s| ==> r[i] == LowerChar(s[i])
  {
    seq(|s|, i requires 0 <= i < |s| => LowerChar(s[i]))
  }

  predicate StartsWith(s: string, prefix: string) {
    |prefix| <= |s| && s[..|prefix|] == prefix
  }

  // ---------------------------------------------------------------------------
  // Searching

  /** `s.split(c)[0]`: everything before the first occurrence of `c`. */
  function BeforeFirst(s: string, c: char): (r: string)
    ensures |r| <= |s| && r == s[..|r|]
    ensures c !in r
    ensures |r| < |s| ==> s[|r|] == c
  {
    if s == [] || s[0] == c then [] else [s[0]] + BeforeFirst(s[1..], c)
  }

  /** Without `c` in `s` the whole of `s` comes before it. */
  lemma {:induction false} BeforeFirstAbsent(s: string, c: char)
    requires c !in s
    ensures BeforeFirst(s, c) == s
  {
    if s != [] {
      assert s[0] in s;
      assert forall x :: x in s[1..] ==> x in s;
      BeforeFirstAbsent(s[1..], c);
    }
  }

  // ---------------------------------------------------------------------------
  // Joining

  /** `parts.join(sep)`. */
  function Join(parts: seq<string>, sep: string): string {
    if |parts| == 0 then ""
    else if |parts| == 1 then parts[0]
    else parts[0] + sep + Join(parts[1..], sep)
  }

  /** `items.map(x => `${marker}${x}`).join('\n')`: one line per item behind a bullet. */
  function Bullets(marker: string, items: seq<string>): string {
    Join(seq(|items|, i requires 0 <= i < |items| => marker + items[i]), "\n")
  }

  /** `xs.slice(0, n)`. */
  function Take<T>(xs: seq<T>, n: nat): (r: seq<T>)
    ensures |r| == if |xs| < n then |xs| else n
    ensures r == xs[..|r|]
  {
    if |xs| <= n then xs else xs[..n]
  }

  // ---------------------------------------------------------------------------
  // Digits and numbers

  function DigitValue(c: char): nat
    requires IsDigit(c)
  {
    c as int - '0' as int
  }

  function DigitChar(d: nat): (c: char)
    requires d < 10
    ensures IsDigit(c) && DigitValue(c) == d
  {
    ('0' as int + d) as char
  }

  predicate AllDigits(s: string) {
    forall i :: 0 <= i < |s| ==> IsDigit(s[i])
  }

  /** The value of a run of decimal digits, most significant first. */
  function DigitsValue(s: string): nat
    requires AllDigits(s)
  {
    if s == [] then 0 else DigitsValue(s[..|s| - 1]) * 10 + DigitValue(s[|s| - 1])
  }

  function Pow10(n: nat): (r: nat)
    ensures r >= 1
  {
    if n == 0 then 1 else 10 * Pow10(n - 1)
  }

  /** The longest prefix of `s` made of digits. */
  function LeadingDigits(s: string): (r: string)
    ensures |r| <= |s| && r == s[..|r|] && AllDigits(r)
    ensures |r| < |s| ==> !IsDigit(s[|r|])
  {
    if s != [] && IsDigit(s[0]) then [s[0]] + LeadingDigits(s[1..]) else []
  }

  /** The decimal representation of a natural number, without leading zeros. */
  function NatToString(n: nat): (r: string)
    ensures |r| > 0 && AllDigits(r)
  {
    if n < 10 then [DigitChar(n)] else NatToString(n / 10) + [DigitChar(n % 10)]
  }

  /** `${n}` for an integer. */
  function IntToString(n: int): string {
    if n < 0 then "-" + NatToString(-n) else NatToString(n)
  }

  /** Reading back a printed natural number gives the number. */
  lemma {:induction false} NatToStringValue(n: nat)
    ensures DigitsValue(NatToString(n)) == n
  {
    if n >= 10 {
      var p := NatToString(n / 10);
      var s := p + [DigitChar(n % 10)];
      assert s[..|s| - 1] == p;
      NatToStringValue(n / 10);
    }
  }

  /** Up to `fuel` fractional digits of `f`, stopping as soon as the rest is zero. */
  function FractionDigits(f: real, fuel: nat): string
    requires 0.0 <= f < 1.0
    decreases fuel
  {
    if fuel == 0 || f == 0.0 then ""
    else
      var d := (f * 10.0).Floor;
      assert 0 <= d < 10;
      [DigitChar(d)] + FractionDigits(f * 10.0 - d as real, fuel - 1)
  }

  /** `${x}` for a number: the integer part, then the fractional digits without trailing zeros. */
  function NumberToString(x: real): string {
    var a := if x < 0.0 then -x else x;
    var whole := a.Floor;
    var body := NatToString(whole) +
      (if a == whole as real then "" else "." + FractionDigits(a - whole as real, 20));
    if x < 0.0 then "-" + body else body
  }

  // ---------------------------------------------------------------------------
  // `replace(/[^0-9.]/g, '')` followed by `parseFloat`

  predicate IsDigitOrDot(c: char) { IsDigit(c) || c == '.' }

  /** `s.replace(/[^0-9.]/g, '')`: the digits and dots of `s`, in order. */
  function KeepDigitsAndDots(s: string): (r: string)
    ensures |r| <= |s|
    ensures forall i :: 0 <= i < |r| ==> IsDigitOrDot(r[i])
  {
    if s == [] then []
    else (if IsDigitOrDot(s[0]) then [s[0]] else []) + KeepDigitsAndDots(s[1..])
  }

  lemma {:induction false} KeepDigitsAndDotsAppend(a: string, b: string)
    ensures KeepDigitsAndDots(a + b) == KeepDigitsAndDots(a) + KeepDigitsAndDots(b)
  {
    if a != [] {
      assert (a + b)[1..] == a[1..] + b;
      KeepDigitsAndDotsAppend(a[1..], b);
    } else {
      assert a + b == b;
    }
  }

  /** A string without digits and dots is removed completely. */
  lemma {:induction false} KeepDigitsAndDotsNone(s: string)
    requires forall i :: 0 <= i < |s| ==> !IsDigitOrDot(s[i])
    ensures KeepDigitsAndDots(s) == []
  {
    if s != [] { KeepDigitsAndDotsNone(s[1..]); }
  }

  /** A string of digits is kept as it is. */
  lemma {:induction false} KeepDigitsAndDotsDigits(s: string)
    requires AllDigits(s)
    ensures KeepDigitsAndDots(s) == s
  {
    if s != [] { KeepDigitsAndDotsDigits(s[1..]); }
  }

  /** `parseFloat` of a string made of digits and dots: the longest prefix of the form
      digits, optionally followed by a dot and more digits, with at least one digit;
      `None` stands for `NaN`. */
  function ParseFloat(s: string): (r: Option<real>)
    ensures r.Some? ==> r.value >= 0.0
  {
    var whole := LeadingDigits(s);
    var rest := s[|whole|..];
    var frac := if rest != [] && rest[0] == '.' then LeadingDigits(rest[1..]) else [];
    if whole == [] && frac == [] then None
    else Some(DigitsValue(whole) as real + DigitsValue(frac) as real / Pow10(|frac|) as real)
  }

  /** `parseFloat` yields `NaN` exactly when the text starts neither with a digit nor with
      a dot followed by a digit. */
  lemma ParseFloatNaN(s: string)
    ensures ParseFloat(s).None? <==>
      !(s != [] && (IsDigit(s[0]) || (s[0] == '.' && |s| > 1 && IsDigit(s[1]))))
  {
    var whole := LeadingDigits(s);
    if s != [] && IsDigit(s[0]) {
      assert whole != [];
    } else if s != [] && s[0] == '.' && |s| > 1 && IsDigit(s[1]) {
      assert whole == [];
      assert s[|whole|..] == s;
      assert LeadingDigits(s[1..]) != [];
    }
  }

  /** `parseFloat` of a digit run is the value of the digits. */
  lemma ParseFloatDigits(s: string)
    requires s != [] && AllDigits(s)
    ensures ParseFloat(s) == Some(DigitsValue(s) as real)
  {
    LeadingDigitsOfDigits(s);
  }

  lemma {:induction false} LeadingDigitsOfDigits(s: string)
    requires AllDigits(s)
    ensures LeadingDigits(s) == s
  {
    if s != [] { LeadingDigitsOfDigits(s[1..]); }
  }

  /** `parseFloat(text.replace(/[^0-9.]/g, ''))`, the parse the budget form and the
      accommodation filter share. It never yields a negative number: the minus sign is
      one of the characters the replace removes. */
  function ParseNumber(text: string): (r: Option<real>)
    ensures r.Some? ==> r.value >= 0.0
  {
    ParseFloat(KeepDigitsAndDots(text))
  }

  /** A text whose digits and dots are exactly one digit run parses to that run's value. */
  lemma ParseNumberOfDigits(prefix: string, digits: string, suffix: string)
    requires forall i :: 0 <= i < |prefix| ==> !IsDigitOrDot(prefix[i])
    requires forall i :: 0 <= i < |suffix| ==> !IsDigitOrDot(suffix[i])
    requires digits != [] && AllDigits(digits)
    ensures ParseNumber(prefix + digits + suffix) == Some(DigitsValue(digits) as real)
  {
    KeepDigitsAndDotsAppend(prefix + digits, suffix);
    KeepDigitsAndDotsAppend(prefix, digits);
    KeepDigitsAndDotsNone(prefix);
    KeepDigitsAndDotsNone(suffix);
    KeepDigitsAndDotsDigits(digits);
    assert KeepDigitsAndDots(prefix + digits + suffix) == digits;
    ParseFloatDigits(digits);
  }

  /** `Math.round`: the nearest integer, halves rounded up. */
  function Round(x: real): (r: int)
    ensures x - 0.5 < r as real <= x + 0.5
  {
    (x + 0.5).Floor
  }

  function Min(a: real, b: real): real { if a <= b then a else b }
}
