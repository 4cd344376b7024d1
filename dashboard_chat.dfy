/** src/components/dashboard/ChatInterface.tsx: the dashboard chat, which posts each message
    to the chat endpoint and keeps a travel context that it fills in from what the user
    writes (`extractContextFromMessage`). */
module DashboardChat {
  import opened Wrappers
  import opened Text

  // ---------------------------------------------------------------------------
  // Scanning

  /** The longest prefix of `s` whose characters all satisfy `p`: what a greedy `[...]+`
      or `\s+` consumes (when it is not empty). */
  function Span(s: string, p: char -> bool): (r: string)
    ensures |r| <= |s| && r == s[..|r|]
    ensures forall i :: 0 <= i < |r| ==> p(r[i])
    ensures |r| < |s| ==> !p(s[|r|])
  {
    if s != [] && p(s[0]) then [s[0]] + Span(s[1..], p) else []
  }

  /** A run of characters in the class, ended by one outside it or by the end of the text,
      is exactly what the greedy repetition takes. */
  lemma {:induction false} SpanAppend(a: string, b: string, p: char -> bool)
    requires forall i :: 0 <= i < |a| ==> p(a[i])
    requires b == [] || !p(b[0])
    ensures Span(a + b, p) == a
  {
    if a == [] {
      assert a + b == b;
    } else {
      assert (a + b)[1..] == a[1..] + b;
      SpanAppend(a[1..], b, p);
    }
  }

  /** `s.match(re)` for a pattern without the `g` flag: the match that starts leftmost.
      `at(t)` is the match of the pattern anchored at the start of `t`. */
  function FirstMatch<T>(s: string, at: string -> Option<T>): Option<T> {
    if s == [] then None
    else if at(s).Some? then at(s)
    else FirstMatch(s[1..], at)
  }

  /** The leftmost match is the anchored match at the first position where there is one. */
  lemma {:induction false} FirstMatchIsLeftmost<T>(s: string, at: string -> Option<T>)
    ensures FirstMatch(s, at).None? <==> forall i :: 0 <= i < |s| ==> at(s[i..]).None?
    ensures FirstMatch(s, at).Some? ==>
      exists i :: 0 <= i < |s| && FirstMatch(s, at) == at(s[i..]) &&
        forall j :: 0 <= j < i ==> at(s[j..]).None?
  {
    if s != [] {
      FirstMatchIsLeftmost(s[1..], at);
      assert s[0..] == s;
      assert forall i :: 0 < i < |s| ==> s[i..] == s[1..][i - 1..];
      if at(s).None? && FirstMatch(s[1..], at).Some? {
        var k :| 0 <= k < |s[1..]| && FirstMatch(s[1..], at) == at(s[1..][k..]) &&
          forall j :: 0 <= j < k ==> at(s[1..][j..]).None?;
        assert s[k + 1..] == s[1..][k..];
        assert forall j :: 0 <= j < k + 1 ==> at(s[j..]).None? by {
          forall j | 0 <= j < k + 1 ensures at(s[j..]).None? {
            if j > 0 { assert s[j..] == s[1..][j - 1..]; }
          }
        }
      }
    }
  }

  /** Skipping a prefix where the pattern matches nowhere. */
  lemma {:induction false} FirstMatchSkips<T>(prefix: string, rest: string, at: string -> Option<T>)
    requires forall i :: 0 <= i < |prefix| ==> at((prefix + rest)[i..]).None?
    ensures FirstMatch(prefix + rest, at) == FirstMatch(rest, at)
  {
    if prefix != [] {
      assert (prefix + rest)[0..] == prefix + rest;
      assert (prefix + rest)[1..] == prefix[1..] + rest;
      forall i | 0 <= i < |prefix[1..]| ensures at((prefix[1..] + rest)[i..]).None? {
        assert (prefix[1..] + rest)[i..] == (prefix + rest)[i + 1..];
      }
      FirstMatchSkips(prefix[1..], rest, at);
    }
  }

  // ---------------------------------------------------------------------------
  // The three patterns

  /** `/\$(\d+)/` anchored: a dollar sign, then the greedy digit run, read by `parseInt`. */
  function BudgetAt(t: string): Option<nat> {
    if |t| >= 2 && t[0] == '$' && IsDigit(t[1]) then Some(DigitsValue(LeadingDigits(t[1..]))) else None
  }

  /** The budget of a message: the digits after the first dollar sign that has any. */
  function BudgetMatch(message: string): Option<nat> {
    FirstMatch(message, BudgetAt)
  }

  /** A dollar sign followed by a digit. */
  predicate DollarDigitAt(message: string, i: int) {
    0 <= i && i + 1 < |message| && message[i] == '$' && IsDigit(message[i + 1])
  }

  /** The budget is the value of the whole digit run after the leftmost dollar sign that is
      followed by a digit, and there is none without such a dollar sign. */
  lemma BudgetIsLeftmostAmount(message: string)
    ensures BudgetMatch(message).None? <==> forall i :: 0 <= i < |message| ==> !DollarDigitAt(message, i)
    ensures BudgetMatch(message).Some? ==>
      exists i :: DollarDigitAt(message, i) &&
        BudgetMatch(message).value == DigitsValue(LeadingDigits(message[i + 1..])) &&
        forall j :: 0 <= j < i ==> !DollarDigitAt(message, j)
  {
    FirstMatchIsLeftmost(message, BudgetAt);
    forall i | 0 <= i < |message| ensures BudgetAt(message[i..]).Some? <==> DollarDigitAt(message, i) {
      assert message[i..][1..] == message[i + 1..];
    }
    if BudgetMatch(message).Some? {
      var i :| 0 <= i < |message| && BudgetMatch(message) == BudgetAt(message[i..]) &&
        forall j :: 0 <= j < i ==> BudgetAt(message[j..]).None?;
      assert message[i..][1..] == message[i + 1..];
    }
  }

  /** An amount written as `$` and its decimal digits is read back, when no earlier dollar
      sign is followed by a digit and no digit follows the amount. */
  lemma BudgetOfWrittenAmount(prefix: string, n: nat, suffix: string)
    requires forall i :: 0 <= i < |prefix| ==> prefix[i] != '$'
    requires suffix == [] || !IsDigit(suffix[0])
    ensures BudgetMatch(prefix + "$" + NatToString(n) + suffix) == Some(n)
  {
    var digits := NatToString(n);
    var rest := "$" + digits + suffix;
    assert prefix + "$" + digits + suffix == prefix + rest;
    forall i | 0 <= i < |prefix| ensures BudgetAt((prefix + rest)[i..]).None? {
      assert (prefix + rest)[i..][0] == prefix[i];
    }
    FirstMatchSkips(prefix, rest, BudgetAt);
    assert rest[1..] == digits + suffix;
    LeadingDigitsOfDigits(digits);
    LeadingDigitsAppend(digits, suffix);
    NatToStringValue(n);
  }

  /** A digit run keeps its length when a non-digit follows it. */
  lemma {:induction false} LeadingDigitsAppend(digits: string, suffix: string)
    requires AllDigits(digits)
    requires suffix == [] || !IsDigit(suffix[0])
    ensures LeadingDigits(digits + suffix) == digits
  {
    if digits != [] {
      assert (digits + suffix)[1..] == digits[1..] + suffix;
      LeadingDigitsAppend(digits[1..], suffix);
    }
  }

  /** `\w+\s+\d+` as a whole: a word, whitespace, digits. */
  predicate IsDatePart(p: string) {
    |p| >= 3 && IsWordChar(p[0]) && IsDigit(p[|p| - 1]) &&
    forall i :: 0 <= i < |p| ==> IsWordChar(p[i]) || IsWhitespace(p[i])
  }

  /** A word, whitespace and digits, each non-empty, make a date part. */
  lemma DatePartOfRuns(word: string, gap: string, digits: string)
    requires word != [] && gap != [] && digits != []
    requires forall i :: 0 <= i < |word| ==> IsWordChar(word[i])
    requires forall i :: 0 <= i < |gap| ==> IsWhitespace(gap[i])
    requires forall i :: 0 <= i < |digits| ==> IsDigit(digits[i])
    ensures IsDatePart(word + gap + digits)
  {
    var p := word + gap + digits;
    forall i | 0 <= i < |p| ensures IsWordChar(p[i]) || IsWhitespace(p[i]) {
      if i < |word| {
        assert p[i] == word[i];
      } else if i < |word| + |gap| {
        assert p[i] == gap[i - |word|];
      } else {
        assert p[i] == digits[i - |word| - |gap|];
      }
    }
  }

  /** `\w+\s+\d+` anchored, in a position where a whitespace or nothing may follow it: each
      of the three runs is maximal, since giving a character back leaves a character the
      next part cannot take. The capture and the text after it. */
  function DatePartAt(t: string): (r: Option<(string, string)>)
    ensures r.Some? ==> IsDatePart(r.value.0)
  {
    var word := Span(t, IsWordChar);
    var t1 := t[|word|..];
    var gap := Span(t1, IsWhitespace);
    var t2 := t1[|gap|..];
    var digits := Span(t2, IsDigit);
    if word == [] || gap == [] || digits == [] then None
    else
      DatePartOfRuns(word, gap, digits);
      Some((word + gap + digits, t2[|digits|..]))
  }

  /** A keyword matched case-insensitively (the `i` flag): the ASCII letters of the text,
      lower-cased, spell the keyword. */
  predicate KeywordAt(t: string, keyword: string) {
    |keyword| <= |t| && ToLower(t[..|keyword|]) == keyword
  }

  /** `(?:from|between)\s+` anchored: the text after it. */
  function OpenerAt(t: string): Option<string> {
    var k := if KeywordAt(t, "from") then 4 else if KeywordAt(t, "between") then 7 else 0;
    var gap := Span(t[k..], IsWhitespace);
    if k == 0 || gap == [] then None else Some(t[k + |gap|..])
  }

  /** `(?:\s+to\s+|\s+and\s+)` anchored: the text after it. */
  function SeparatorAt(v: string): Option<string> {
    var gap1 := Span(v, IsWhitespace);
    var w := v[|gap1|..];
    var k := if KeywordAt(w, "to") then 2 else if KeywordAt(w, "and") then 3 else 0;
    var gap2 := Span(w[k..], IsWhitespace);
    if gap1 == [] || k == 0 || gap2 == [] then None else Some(w[k + |gap2|..])
  }

  /** `/(?:from|between)\s+(\w+\s+\d+)(?:\s+to\s+|\s+and\s+)(\w+\s+\d+)/i` anchored. Every
      repetition in it is maximal and each alternation has at most one way to match, so
      the anchored match has one shape; both captures are a word, whitespace and a number. */
  function DatesAt(t: string): (r: Option<(string, string)>)
    ensures r.Some? ==> IsDatePart(r.value.0) && IsDatePart(r.value.1)
  {
    match OpenerAt(t)
    case None => None
    case Some(u) =>
      match DatePartAt(u)
      case None => None
      case Some((start, v)) =>
        match SeparatorAt(v)
        case None => None
        case Some(x) =>
          match DatePartAt(x)
          case None => None
          case Some((end, _)) => Some((start, end))
  }

  /** The start and end of the first date phrase of a message, as texts. */
  function DatesMatch(message: string): Option<(string, string)> {
    FirstMatch(message, DatesAt)
  }

  /** Both captured dates of a message are a word, whitespace and a number. */
  lemma DatesShape(message: string)
    requires DatesMatch(message).Some?
    ensures IsDatePart(DatesMatch(message).value.0) && IsDatePart(DatesMatch(message).value.1)
  {
    FirstMatchIsLeftmost(message, DatesAt);
  }

  /** A date written as a word, one space and a number, followed by text that does not
      continue the number, is one date part. */
  lemma {:induction false} DatePartOfWritten(word: string, number: string, after: string)
    requires word != [] && forall i :: 0 <= i < |word| ==> IsWordChar(word[i])
    requires number != [] && AllDigits(number)
    requires after == [] || !IsDigit(after[0])
    ensures DatePartAt(word + " " + number + after) == Some((word + " " + number, after))
  {
    var t := word + " " + number + after;
    assert t == word + (" " + number + after);
    SpanAppend(word, " " + number + after, IsWordChar);
    var t1 := t[|word|..];
    assert t1 == " " + (number + after);
    SpanAppend(" ", number + after, IsWhitespace);
    var t2 := t1[1..];
    assert t2 == number + after;
    SpanAppend(number, after, IsDigit);
    assert t2[|number|..] == after;
  }

  /** `from` and one space before a word open a date phrase. */
  lemma {:induction false} OpenerOfWritten(u: string)
    requires u != [] && IsWordChar(u[0])
    ensures OpenerAt("from " + u) == Some(u)
  {
    assert !IsWhitespace(u[0]);
    var t := "from " + u;
    assert t[..4] == "from";
    assert ToLower("from") == "from";
    assert t[4..] == " " + u;
    SpanAppend(" ", u, IsWhitespace);
    assert t[5..] == u;
  }

  /** ` to ` before a word separates the two dates. */
  lemma {:induction false} SeparatorOfWritten(x: string)
    requires x != [] && IsWordChar(x[0])
    ensures SeparatorAt(" to " + x) == Some(x)
  {
    assert !IsWhitespace(x[0]);
    var v := " to " + x;
    assert v == " " + ("to " + x);
    SpanAppend(" ", "to " + x, IsWhitespace);
    var w := v[1..];
    assert w == "to " + x;
    assert w[..2] == "to";
    assert ToLower("to") == "to";
    assert w[2..] == " " + x;
    SpanAppend(" ", x, IsWhitespace);
    assert w[3..] == x;
  }

  /** The anchored date pattern on `from <word> <number> to <word> <number>`. */
  lemma {:induction false} DatesAtWritten(w1: string, n1: string, w2: string, n2: string, suffix: string)
    requires w1 != [] && forall i :: 0 <= i < |w1| ==> IsWordChar(w1[i])
    requires w2 != [] && forall i :: 0 <= i < |w2| ==> IsWordChar(w2[i])
    requires n1 != [] && AllDigits(n1) && n2 != [] && AllDigits(n2)
    requires suffix == [] || !IsDigit(suffix[0])
    ensures DatesAt("from " + w1 + " " + n1 + " to " + w2 + " " + n2 + suffix) ==
      Some((w1 + " " + n1, w2 + " " + n2))
  {
    var x := w2 + " " + n2 + suffix;
    var v := " to " + x;
    var u := w1 + " " + n1 + v;
    var t := "from " + w1 + " " + n1 + " to " + w2 + " " + n2 + suffix;
    assert t == "from " + u;
    assert u[0] == w1[0] && x[0] == w2[0] && v[0] == ' ';
    OpenerOfWritten(u);
    DatePartOfWritten(w1, n1, v);
    SeparatorOfWritten(x);
    DatePartOfWritten(w2, n2, suffix);
    DatesAtOfParts(t, u, w1 + " " + n1, v, x, w2 + " " + n2, suffix);
  }

  /** The anchored date pattern in terms of its four pieces. */
  lemma {:induction false} DatesAtOfParts(t: string, u: string, start: string, v: string, x: string, end: string, after: string)
    requires OpenerAt(t) == Some(u) && DatePartAt(u) == Some((start, v))
    requires SeparatorAt(v) == Some(x) && DatePartAt(x) == Some((end, after))
    ensures DatesAt(t) == Some((start, end))
  { }

  /** A message that writes `from <word> <number> to <word> <number>`, after text in which
      neither `from` nor `between` occurs in any case, yields those two dates. */
  lemma {:induction false} DatesOfWrittenPhrase(prefix: string, w1: string, n1: string, w2: string, n2: string, suffix: string)
    requires forall i :: 0 <= i < |prefix| ==> !KeywordAt(prefix[i..], "from") && !KeywordAt(prefix[i..], "between")
    requires w1 != [] && forall i :: 0 <= i < |w1| ==> IsWordChar(w1[i])
    requires w2 != [] && forall i :: 0 <= i < |w2| ==> IsWordChar(w2[i])
    requires n1 != [] && AllDigits(n1) && n2 != [] && AllDigits(n2)
    requires suffix == [] || !IsDigit(suffix[0])
    ensures DatesMatch(prefix + "from " + w1 + " " + n1 + " to " + w2 + " " + n2 + suffix) ==
      Some((w1 + " " + n1, w2 + " " + n2))
  {
    var rest := "from " + w1 + " " + n1 + " to " + w2 + " " + n2 + suffix;
    var m := prefix + rest;
    assert prefix + "from " + w1 + " " + n1 + " to " + w2 + " " + n2 + suffix == m;
    assert rest[0] == 'f';
    forall i | 0 <= i < |prefix| ensures DatesAt(m[i..]).None? {
      NoKeywordAcross(prefix, rest, i, "from");
      NoKeywordAcross(prefix, rest, i, "between");
    }
    FirstMatchSkips(prefix, rest, DatesAt);
    DatesAtWritten(w1, n1, w2, n2, suffix);
  }

  /** Where the prefix has no opening keyword, none starts in it either once `from`
      follows: `f` stands in neither `from` nor `between` but first. */
  lemma {:induction false} NoKeywordAcross(prefix: string, rest: string, i: int, keyword: string)
    requires 0 <= i < |prefix| && |rest| >= 1 && rest[0] == 'f'
    requires keyword == "from" || keyword == "between"
    requires !KeywordAt(prefix[i..], keyword)
    ensures !KeywordAt((prefix + rest)[i..], keyword)
  {
    var t := (prefix + rest)[i..];
    var k := |prefix| - i;
    var n := |keyword|;
    if n <= |t| {
      if k < n {
        assert t[k] == 'f';
        assert ToLower(t[..n])[k] == 'f';
        assert keyword[k] != 'f';
      } else {
        assert t[..n] == prefix[i..][..n];
      }
    }
  }

  /** The opening keyword matches in any case: `FROM` and `from` start the same phrase. */
  lemma DatesKeywordCase(rest: string)
    ensures DatesAt("FROM" + rest) == DatesAt("from" + rest)
  {
    var upper := "FROM" + rest;
    var lower := "from" + rest;
    assert upper[..4] == "FROM" && lower[..4] == "from";
    assert ToLower("FROM") == "from";
    assert upper[4..] == rest == lower[4..];
    assert KeywordAt(upper, "from") && KeywordAt(lower, "from");
    var gap := Span(rest, IsWhitespace);
    assert upper[4 + |gap|..] == rest[|gap|..] == lower[4 + |gap|..];
    assert OpenerAt(upper) == OpenerAt(lower);
  }

  /** Without `from` or `between` in any case, a message has no dates. */
  lemma NoKeywordNoDates(message: string)
    requires forall i :: 0 <= i < |message| ==>
      !KeywordAt(message[i..], "from") && !KeywordAt(message[i..], "between")
    ensures DatesMatch(message).None?
  {
    FirstMatchIsLeftmost(message, DatesAt);
  }

  predicate IsLetterOrSpace(c: char) { IsLetter(c) || IsWhitespace(c) }

  /** A destination as the pattern captures it and `trim` leaves it: a capital first, only
      letters and whitespace, and no whitespace at the end. */
  predicate IsDestination(d: string) {
    d != [] && IsUpper(d[0]) && !IsWhitespace(d[|d| - 1]) &&
    forall i :: 0 <= i < |d| ==> IsLetterOrSpace(d[i])
  }

  /** Trimming a capitalised run of letters and whitespace leaves a destination. */
  lemma TrimCapitalised(g: string)
    requires g != [] && IsUpper(g[0]) && forall i :: 0 <= i < |g| ==> IsLetterOrSpace(g[i])
    ensures IsDestination(Trim(g))
  {
    assert TrimStart(g) == g;
    TrimEndCutsWhitespace(g);
    assert Trim(g) == g[..|Trim(g)|];
  }

  /** `[A-Z][a-zA-Z\s]+` anchored, then `.trim()`. */
  function NameAt(u: string): (r: Option<string>)
    ensures r.Some? ==> IsDestination(r.value)
  {
    if u == [] || !IsUpper(u[0]) then None
    else
      var tail := Span(u[1..], IsLetterOrSpace);
      if tail == [] then None
      else
        TrimCapitalised([u[0]] + tail);
        Some(Trim([u[0]] + tail))
  }

  /** `/(?:to|in|at)\s+([A-Z][a-zA-Z\s]+)/` anchored, and `.trim()` of the group. The
      pattern is case-sensitive and has no word boundary: the two letters may end a word
      (`into`), and the group needs a capital and at least one more letter or space. */
  function DestinationAt(t: string): (r: Option<string>)
    ensures r.Some? ==> IsDestination(r.value)
  {
    if |t| < 2 || !(t[..2] == "to" || t[..2] == "in" || t[..2] == "at") then None
    else
      var gap := Span(t[2..], IsWhitespace);
      if gap == [] then None else NameAt(t[2 + |gap|..])
  }

  /** The destination named after the first `to`, `in` or `at` that is followed by a
      capitalised name. */
  function DestinationMatch(message: string): Option<string> {
    FirstMatch(message, DestinationAt)
  }

  /** A destination starts with a capital, holds only letters and whitespace, and does not
      end in whitespace. */
  lemma DestinationShape(message: string)
    requires DestinationMatch(message).Some?
    ensures IsDestination(DestinationMatch(message).value)
  {
    FirstMatchIsLeftmost(message, DestinationAt);
  }

  /** One of the keywords of the destination pattern starts at position `i`. */
  predicate DestinationKeywordAt(s: string, i: int) {
    0 <= i && i + 2 <= |s| && (s[i..i + 2] == "to" || s[i..i + 2] == "in" || s[i..i + 2] == "at")
  }

  /** A capitalised name of at least two characters, not followed by another letter or
      space, is the whole name the pattern takes. */
  lemma {:induction false} NameOfWritten(name: string, suffix: string)
    requires |name| >= 2 && IsDestination(name)
    requires suffix == [] || !IsLetterOrSpace(suffix[0])
    ensures NameAt(name + suffix) == Some(name)
  {
    var u := name + suffix;
    assert u[0] == name[0];
    assert u[1..] == name[1..] + suffix;
    SpanAppend(name[1..], suffix, IsLetterOrSpace);
    assert [u[0]] + name[1..] == name;
    TrimUntouched(name);
  }

  /** The destination pattern finds no keyword where none starts. */
  lemma DestinationNeedsKeyword(t: string)
    requires !DestinationKeywordAt(t, 0)
    ensures DestinationAt(t) == None
  {
  }

  /** `to`, one space and a written name, anchored, yield the name. */
  lemma {:induction false} DestinationAtWritten(name: string, suffix: string)
    requires |name| >= 2 && IsDestination(name)
    requires suffix == [] || !IsLetterOrSpace(suffix[0])
    ensures DestinationAt("to " + name + suffix) == Some(name)
  {
    var rest := "to " + name + suffix;
    assert rest[..2] == "to";
    assert rest[2..] == " " + (name + suffix);
    assert !IsWhitespace(name[0]);
    SpanAppend(" ", name + suffix, IsWhitespace);
    assert rest[3..] == name + suffix;
    NameOfWritten(name, suffix);
  }

  /** A message that writes ` to <Name>`, after text in which none of `to`, `in` and `at`
      occurs, yields the name, when the name is a capital and at least one more letter or
      space, does not end in whitespace, and is not followed by another letter or space. */
  lemma {:induction false} DestinationOfWrittenName(prefix: string, name: string, suffix: string)
    requires forall i :: 0 <= i < |prefix| ==> !DestinationKeywordAt(prefix, i)
    requires |name| >= 2 && IsDestination(name)
    requires suffix == [] || !IsLetterOrSpace(suffix[0])
    ensures DestinationMatch(prefix + " to " + name + suffix) == Some(name)
  {
    var rest := "to " + name + suffix;
    var skip := prefix + " ";
    assert prefix + " to " + name + suffix == skip + rest;
    forall i | 0 <= i < |skip| ensures DestinationAt((skip + rest)[i..]).None? {
      NoDestinationKeywordBefore(prefix, rest, i);
      DestinationNeedsKeyword((skip + rest)[i..]);
    }
    FirstMatchSkips(skip, rest, DestinationAt);
    DestinationAtWritten(name, suffix);
  }

  /** No destination keyword starts in the prefix or the space after it. */
  lemma {:induction false} NoDestinationKeywordBefore(prefix: string, rest: string, i: int)
    requires forall j :: 0 <= j < |prefix| ==> !DestinationKeywordAt(prefix, j)
    requires 0 <= i <= |prefix|
    ensures !DestinationKeywordAt(((prefix + " ") + rest)[i..], 0)
  {
    var t := ((prefix + " ") + rest)[i..];
    if i + 2 <= |prefix| {
      assert !DestinationKeywordAt(prefix, i);
      assert t[..2] == prefix[i..i + 2];
    } else if |t| >= 2 {
      assert t[|prefix| - i] == ' ';
      assert t[..2][|prefix| - i] == ' ';
    }
  }

  // ---------------------------------------------------------------------------
  // The context

  /** The context starts as `{}`; each member appears once a message supplies it. The dates
      are the captured texts, not `Date` objects. */
  datatype DateTexts = DateTexts(start: string, end: string)

  datatype ChatContext = ChatContext(budget: Option<nat>, dates: Option<DateTexts>, destination: Option<string>)

  const EmptyContext := ChatContext(None, None, None)

  /** `extractContextFromMessage`: a copy of the context with every member the message
      matches replaced by what it captured. */
  function Extract(message: string, current: ChatContext): ChatContext
  {
    var withBudget := match BudgetMatch(message)
      case Some(b) => current.(budget := Some(b))
      case None => current;
    var withDates := match DatesMatch(message)
      case Some(d) => withBudget.(dates := Some(DateTexts(d.0, d.1)))
      case None => withBudget;
    match DestinationMatch(message)
    case Some(d) => withDates.(destination := Some(d))
    case None => withDates
  }

  /** Each member of the context is replaced by what its pattern captured, when it matches,
      and kept otherwise. */
  lemma ExtractFields(message: string, current: ChatContext)
    ensures var r := Extract(message, current);
      r.budget == (if BudgetMatch(message).Some? then BudgetMatch(message) else current.budget) &&
      r.destination == (if DestinationMatch(message).Some? then DestinationMatch(message) else current.destination) &&
      r.dates == match DatesMatch(message)
        case Some(d) => Some(DateTexts(d.0, d.1))
        case None => current.dates
  {
  }

  /** A message that matches none of the patterns leaves the context as it was, and one
      that matches all three replaces all of it. */
  lemma ExtractNoMatch(message: string, current: ChatContext)
    ensures BudgetMatch(message).None? && DatesMatch(message).None? && DestinationMatch(message).None? ==>
      Extract(message, current) == current
    ensures BudgetMatch(message).Some? && DatesMatch(message).Some? && DestinationMatch(message).Some? ==>
      Extract(message, current) == Extract(message, EmptyContext)
  {
  }

  /** Extracting the same message twice changes nothing more. */
  lemma ExtractIdempotent(message: string, current: ChatContext)
    ensures Extract(message, Extract(message, current)) == Extract(message, current)
  {
  }

  // ---------------------------------------------------------------------------
  // Messages

  /** A chat message without its id and timestamp. The assistant's text is `data.response`,
      which is `undefined` when the body has no such member. */
  datatype Message = Message(role: Speaker, content: Option<string>)

  /** The reply shown when the request fails or the response is not ok. */
  const Apology := "I apologize," + " but I'm " + "having trouble " + "connecting to " +
    "my AI services." + " Please try " + "again later."

  /** The component's state. */
  datatype ChatState = ChatState(messages: seq<Message>, input: string, isLoading: bool, context: ChatContext)

  /** What the awaiting part of `handleSubmit` closes over: the message it posted and the
      context as it was when the message was sent. */
  datatype Request = Request(message: string, context: ChatContext)

  /** The synchronous part of `handleSubmit`: a blank input does nothing; otherwise the
      user's line goes in, the input is cleared, loading starts and the request goes out. */
  function Send(s: ChatState): (ChatState, Option<Request>) {
    if IsBlank(s.input) then (s, None)
    else (s.(messages := s.messages + [Message(User, Some(s.input))], input := "", isLoading := true),
          Some(Request(s.input, s.context)))
  }

  /** The part after the awaited request: on an ok response the context is extracted from
      the posted message and `data.response` is shown; otherwise the apology is shown. Loading
      ends either way (`finally`). */
  function Receive(s: ChatState, request: Request, reply: FetchOutcome<Option<string>>): ChatState {
    if reply.Response? && reply.ok then
      s.(messages := s.messages + [Message(Assistant, reply.body)], isLoading := false,
         context := Extract(request.message, request.context))
    else
      s.(messages := s.messages + [Message(Assistant, Some(Apology))], isLoading := false)
  }

  /** A blank input changes nothing and sends nothing; any other input adds the user's line,
      untrimmed, clears the input, starts loading and posts that line with the context of
      the moment. */
  lemma SendShape(s: ChatState)
    ensures IsBlank(s.input) ==> Send(s) == (s, None)
    ensures !IsBlank(s.input) ==>
      var (r, request) := Send(s);
      r.messages == s.messages + [Message(User, Some(s.input))] &&
      r.input == "" && r.isLoading && r.context == s.context &&
      request == Some(Request(s.input, s.context))
  {
  }

  /** The end of a request adds exactly one assistant line and ends loading. The context
      only learns from a message whose request succeeded; a failed one shows the apology and
      leaves the context alone. */
  lemma ReceiveShape(s: ChatState, request: Request, reply: FetchOutcome<Option<string>>)
    ensures var r := Receive(s, request, reply);
      |r.messages| == |s.messages| + 1 && r.messages[..|s.messages|] == s.messages &&
      r.messages[|s.messages|].role == Assistant && !r.isLoading && r.input == s.input
    ensures reply.Response? && reply.ok ==>
      Receive(s, request, reply).context == Extract(request.message, request.context) &&
      Receive(s, request, reply).messages[|s.messages|].content == reply.body
    ensures !(reply.Response? && reply.ok) ==>
      Receive(s, request, reply).context == s.context &&
      Receive(s, request, reply).messages[|s.messages|].content == Some(Apology)
  {
  }

  /** The component. */
  class Chat {
    var messages: seq<Message>
    var input: string
    var isLoading: bool
    var context: ChatContext

    function State(): ChatState
      reads this
    {
      ChatState(messages, input, isLoading, context)
    }

    constructor ()
      ensures State() == ChatState([], "", false, EmptyContext)
    {
      messages := [];
      input := "";
      isLoading := false;
      context := EmptyContext;
    }

    /** The input's `onChange`. */
    method Type(text: string)
      modifies this
      ensures State() == old(State()).(input := text)
    {
      input := text;
    }

    /** The send button is `disabled={isLoading}`, which also blocks Enter's implicit
        submission, so no second request starts while one is pending. */
    predicate CanSubmit()
      reads this
    {
      !isLoading
    }

    /** `handleSubmit` up to the awaited `fetch`; the request, if one goes out. Its form can
        submit only when `CanSubmit()`. */
    method Submit() returns (request: Option<Request>)
      modifies this
      ensures (State(), request) == Send(old(State()))
    {
      if IsBlank(input) {
        return None;
      }
      request := Some(Request(input, context));
      messages := messages + [Message(User, Some(input))];
      input := "";
      isLoading := true;
    }

    /** The rest of `handleSubmit`, once the request of an earlier `Submit` has ended. */
    method Complete(request: Request, reply: FetchOutcome<Option<string>>)
      modifies this
      ensures State() == Receive(old(State()), request, reply)
    {
      if reply.Response? && reply.ok {
        context := Extract(request.message, request.context);
        messages := messages + [Message(Assistant, reply.body)];
      } else {
        messages := messages + [Message(Assistant, Some(Apology))];
      }
      isLoading := false;
    }
  }
}
