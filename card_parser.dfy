/** Classification of one line of a deck list (src/blocks/decklist-block/cardParser.ts).

    A line is a comment when it starts with `#` or `//`; otherwise it is a card
    entry when the regular expression `/(\d+) (.*)/` matches somewhere in it
    (count = the digits, name = the rest of the line); otherwise it is
    uncertain. The regular expression is modelled by its meaning: the leftmost
    position holding a digit run followed by a space.
 */
module CardParser {

  /** The three immutable variants a line is classified into. */
  datatype ParsedLine =
    | Comment(value: string)
    | Card(cardname: string, count: nat)
    | Uncertain(line: string)

  datatype Option<T> = None | Some(value: T)

  /** A match of `(\d+) `: the digits are `s[start..space]`, the single space is `s[space]`. */
  datatype CountMatch = CountMatch(start: nat, space: nat)

  /** `\d` in a JavaScript regular expression: an ASCII decimal digit. */
  predicate IsDigit(c: char) {
    '0' <= c <= '9'
  }

  /** The characters the regular-expression `.` does not match. */
  predicate IsLineTerminator(c: char) {
    c == '\n' || c == '\r' || c == '\U{2028}' || c == '\U{2029}'
  }

  predicate AllDigits(d: string) {
    forall k :: 0 <= k < |d| ==> IsDigit(d[k])
  }

  predicate NoLineTerminator(s: string) {
    forall k :: 0 <= k < |s| ==> !IsLineTerminator(s[k])
  }

  predicate StartsWith(s: string, prefix: string) {
    |prefix| <= |s| && s[..|prefix|] == prefix
  }

  /** The comment test: a strict prefix test, no whitespace is skipped. */
  predicate IsCommentLine(s: string) {
    StartsWith(s, "#") || StartsWith(s, "//")
  }

  /** `(\d+) ` can match with its digits at `s[i..j]` and its space at `s[j]`. */
  predicate IsCountAt(s: string, i: nat, j: nat) {
    i < j < |s| && (forall k :: i <= k < j ==> IsDigit(s[k])) && s[j] == ' '
  }

  /** Some start position admits a match of `(\d+) `. */
  ghost predicate HasCount(s: string) {
    exists i: nat, j: nat :: IsCountAt(s, i, j)
  }

  /** The match an unanchored regular expression reports: no earlier start position matches. */
  ghost predicate IsLeftmostCount(s: string, i: nat, j: nat) {
    IsCountAt(s, i, j) && forall i': nat, j': nat :: i' < i ==> !IsCountAt(s, i', j')
  }

  /** The end of the maximal run of digits that starts at `i`. */
  function DigitRunEnd(s: string, i: nat): (j: nat)
    requires i <= |s|
    ensures i <= j <= |s|
    ensures forall k :: i <= k < j ==> IsDigit(s[k])
    ensures j == |s| || !IsDigit(s[j])
    decreases |s| - i
  {
    if i < |s| && IsDigit(s[i]) then DigitRunEnd(s, i + 1) else i
  }

  /** A match starting at `i` can only end at the end of the digit run from `i`:
      the greedy `\d+` has nothing to backtrack to. */
  lemma CountEndsAtRunEnd(s: string, i: nat, j: nat)
    requires IsCountAt(s, i, j)
    ensures j == DigitRunEnd(s, i)
  {
  }

  /** The regular-expression search: tries each start position from `from` on, left to right. */
  function FindCount(s: string, from: nat): (r: Option<CountMatch>)
    requires from <= |s|
    ensures r.Some? ==> from <= r.value.start && IsCountAt(s, r.value.start, r.value.space)
    ensures r.Some? ==> forall i: nat, j: nat :: from <= i < r.value.start ==> !IsCountAt(s, i, j)
    ensures r.None? ==> forall i: nat, j: nat :: from <= i ==> !IsCountAt(s, i, j)
    decreases |s| - from
  {
    if from == |s| then None
    else
      var e := DigitRunEnd(s, from);
      if IsDigit(s[from]) && e < |s| && s[e] == ' ' then
        Some(CountMatch(from, e))
      else
        NoCountAt(s, from);
        FindCount(s, from + 1)
  }

  /** No match starts at `from` when `s[from]` is not a digit or its digit run is not followed by a space. */
  lemma NoCountAt(s: string, from: nat)
    requires from < |s|
    requires !(IsDigit(s[from]) && DigitRunEnd(s, from) < |s| && s[DigitRunEnd(s, from)] == ' ')
    ensures forall j: nat :: !IsCountAt(s, from, j)
  {
    forall j: nat | IsCountAt(s, from, j)
      ensures false
    {
      CountEndsAtRunEnd(s, from, j);
    }
  }

  /** The text captured by `(.*)`: everything up to the first line terminator. */
  function LineText(t: string): (r: string)
    ensures |r| <= |t| && r == t[..|r|]
    ensures NoLineTerminator(r)
    ensures |r| == |t| || IsLineTerminator(t[|r|])
  {
    if t == [] || IsLineTerminator(t[0]) then [] else [t[0]] + LineText(t[1..])
  }

  function DigitValue(c: char): (v: nat)
    requires IsDigit(c)
    ensures v < 10
  {
    c as int - '0' as int
  }

  function Pow10(n: nat): (p: nat)
  {
    if n == 0 then 1 else 10 * Pow10(n - 1)
  }

  /** `parseInt` of a string of decimal digits, as an exact natural number. */
  function DecimalValue(d: string): (v: nat)
    requires AllDigits(d)
    ensures v < Pow10(|d|)
  {
    if d == [] then 0 else DecimalValue(d[..|d| - 1]) * 10 + DigitValue(d[|d| - 1])
  }

  /** Classifies one line of a deck list. */
  function ParseLine(value: string): (r: ParsedLine)
    ensures r.Comment? <==> IsCommentLine(value)
    ensures r.Comment? ==> r.value == value
    ensures r.Uncertain? <==> !IsCommentLine(value) && !HasCount(value)
    ensures r.Uncertain? ==> r.line == value
    ensures r.Card? ==> exists i: nat, j: nat ::
      IsLeftmostCount(value, i, j) && r == Card(LineText(value[j + 1..]), DecimalValue(value[i..j]))
  {
    if IsCommentLine(value) then Comment(value)
    else
      match FindCount(value, 0)
      case Some(m) =>
        assert IsLeftmostCount(value, m.start, m.space);
        Card(LineText(value[m.space + 1..]), DecimalValue(value[m.start..m.space]))
      case None => Uncertain(value)
  }

  /** The regular expression reports exactly one match: two leftmost matches coincide. */
  lemma LeftmostCountUnique(s: string, i: nat, j: nat, i2: nat, j2: nat)
    requires IsLeftmostCount(s, i, j) && IsLeftmostCount(s, i2, j2)
    ensures i == i2 && j == j2
  {
    CountEndsAtRunEnd(s, i, j);
    CountEndsAtRunEnd(s, i2, j2);
  }

  /** A non-comment line with a match is a card whose count is the value of the
      leftmost digit run followed by a space and whose name is the rest of that line. */
  lemma ParseLineCard(s: string, i: nat, j: nat)
    requires !IsCommentLine(s) && IsLeftmostCount(s, i, j)
    ensures ParseLine(s) == Card(LineText(s[j + 1..]), DecimalValue(s[i..j]))
  {
    var r := FindCount(s, 0);
    assert r.Some? by { assert IsCountAt(s, i, j); }
    assert IsLeftmostCount(s, r.value.start, r.value.space);
    LeftmostCountUnique(s, i, j, r.value.start, r.value.space);
  }

  /** The reported digits are a whole run: text before them does not end in a digit. */
  lemma LeftmostCountStartsRun(s: string, i: nat, j: nat)
    requires IsLeftmostCount(s, i, j)
    ensures i == 0 || !IsDigit(s[i - 1])
  {
    if i > 0 {
      assert !IsCountAt(s, i - 1, j);
    }
  }

  /** Without line terminators, a card line is the ignored prefix, the digits,
      one space and the card name, in that order. */
  lemma ParseLineRecompose(s: string, i: nat, j: nat)
    requires !IsCommentLine(s) && IsLeftmostCount(s, i, j) && NoLineTerminator(s)
    ensures ParseLine(s).Card? && ParseLine(s).cardname == s[j + 1..]
    ensures s == s[..i] + s[i..j] + " " + ParseLine(s).cardname
  {
    ParseLineCard(s, i, j);
    var t := s[j + 1..];
    assert forall k :: 0 <= k < |t| ==> t[k] == s[j + 1 + k];
    LineTextWhole(t);
    SplitAroundSpace(s, i, j);
  }

  lemma SplitAroundSpace(s: string, i: nat, j: nat)
    requires i <= j < |s| && s[j] == ' '
    ensures s == s[..i] + s[i..j] + " " + s[j + 1..]
  {
    assert s == s[..i] + s[i..j] + [s[j]] + s[j + 1..];
  }

  function DigitChar(v: nat): (c: char)
    requires v < 10
    ensures IsDigit(c) && DigitValue(c) == v
  {
    ('0' as int + v) as char
  }

  /** The decimal spelling of a number without leading zeros (`String(n)`). */
  function DecimalDigits(n: nat): (d: string)
    ensures AllDigits(d) && d != []
  {
    if n < 10 then [DigitChar(n)] else DecimalDigits(n / 10) + [DigitChar(n % 10)]
  }

  /** A digit string with no leading zero, or the single digit zero. */
  predicate IsCanonicalDecimal(d: string) {
    AllDigits(d) && d != [] && (d[0] == '0' ==> |d| == 1)
  }

  /** `parseInt` reads back the number that was spelt. */
  lemma {:induction false} DecimalValueOfDigits(n: nat)
    ensures DecimalValue(DecimalDigits(n)) == n
  {
    if n >= 10 {
      var d := DecimalDigits(n);
      assert d[..|d| - 1] == DecimalDigits(n / 10);
      DecimalValueOfDigits(n / 10);
    }
  }

  /** Spelling the value of a canonical digit string gives that string back. */
  lemma {:induction false} DigitsOfDecimalValue(d: string)
    requires IsCanonicalDecimal(d)
    ensures DecimalDigits(DecimalValue(d)) == d
  {
    if |d| > 1 {
      var p := d[..|d| - 1];
      assert IsCanonicalDecimal(p);
      LeadingDigitPositive(p);
      DigitsOfDecimalValue(p);
      assert d == p + [d[|d| - 1]];
    }
  }

  lemma {:induction false} LeadingDigitPositive(d: string)
    requires AllDigits(d) && d != [] && d[0] != '0'
    ensures DecimalValue(d) >= 1
  {
    if |d| > 1 {
      LeadingDigitPositive(d[..|d| - 1]);
    }
  }

  /** Leading zeros do not change the count: `parseInt("04") == 4`. */
  lemma {:induction false} LeadingZeroIgnored(d: string)
    requires AllDigits(d)
    ensures DecimalValue("0" + d) == DecimalValue(d)
  {
    if d != [] {
      assert ("0" + d)[..|d|] == "0" + d[..|d| - 1];
      LeadingZeroIgnored(d[..|d| - 1]);
    }
  }

  /** Text without line terminators is captured whole by `(.*)`. */
  lemma LineTextWhole(t: string)
    requires NoLineTerminator(t)
    ensures LineText(t) == t
  {
  }

  /** `(.*)` stops at the first line terminator. */
  lemma LineTextStops(a: string, c: char, b: string)
    requires NoLineTerminator(a) && IsLineTerminator(c)
    ensures LineText(a + [c] + b) == a
  {
    var t := a + [c] + b;
    assert forall k :: 0 <= k < |a| ==> t[k] == a[k];
    assert t[|a|] == c;
    assert t[..|a|] == a;
  }

  /** A line with no digit at all has no match. */
  lemma NoDigitNoCount(s: string)
    requires forall k :: 0 <= k < |s| ==> !IsDigit(s[k])
    ensures !HasCount(s)
  {
    forall i: nat, j: nat | i < |s|
      ensures !IsCountAt(s, i, j)
    {
      assert !IsDigit(s[i]);
    }
  }

  /** A match is the leftmost one when no digit comes before it. */
  lemma FirstDigitLeftmost(s: string, i: nat, j: nat)
    requires IsCountAt(s, i, j) && forall k :: 0 <= k < i ==> !IsDigit(s[k])
    ensures IsLeftmostCount(s, i, j)
  {
    forall i': nat, j': nat | i' < i
      ensures !IsCountAt(s, i', j')
    {
      assert !IsDigit(s[i']);
    }
  }

  /** Comment lines from a deck list: the marker wins over a count. */
  lemma CommentExamples()
    ensures ParseLine("#4 Bolt") == Comment("#4 Bolt")
    ensures ParseLine("// 2 x") == Comment("// 2 x")
  {
  }

  /** A digit at the start of the line followed by a space gives the card. */
  lemma CardExampleLeading(s: string, name: string, count: nat)
    requires !IsCommentLine(s) && |s| >= 2 && IsDigit(s[0]) && s[1] == ' '
    requires NoLineTerminator(s[2..]) && name == s[2..] && count == DigitValue(s[0])
    ensures ParseLine(s) == Card(name, count)
  {
    LineTextWhole(s[2..]);
    CardAtLineStart(s, count);
  }

  lemma CardAtLineStart(s: string, count: nat)
    requires !IsCommentLine(s) && |s| >= 2 && IsDigit(s[0]) && s[1] == ' ' && count == DigitValue(s[0])
    ensures ParseLine(s) == Card(LineText(s[2..]), count)
  {
    FirstDigitLeftmost(s, 0, 1);
    ParseLineCard(s, 0, 1);
    assert s[0..1] == [s[0]];
  }

  /** A line whose first character is neither `#` nor `/` is not a comment. */
  lemma NotCommentByFirst(s: string)
    requires |s| > 0 && s[0] != '#' && s[0] != '/'
    ensures !IsCommentLine(s)
  {
    assert s[..1][0] == s[0];
  }

  /** A plain card line. */
  lemma CardExamplePlain()
    ensures ParseLine("4 Lightning Bolt") == Card("Lightning Bolt", 4)
  {
    var s := "4 Lightning Bolt";
    NotCommentByFirst(s);
    assert NoLineTerminator(s[2..]);
    CardExampleLeading(s, "Lightning Bolt", 4);
  }

  /** A zero count is accepted. */
  lemma CardExampleZero()
    ensures ParseLine("0 x") == Card("x", 0)
  {
    NotCommentByFirst("0 x");
    CardExampleLeading("0 x", "x", 0);
  }

  /** The name may be empty. */
  lemma CardExampleEmptyName()
    ensures ParseLine("4 ") == Card("", 4)
  {
    NotCommentByFirst("4 ");
    CardExampleLeading("4 ", "", 4);
  }

  /** Text before the count is skipped. */
  lemma CardExampleSkipsPrefix()
    ensures ParseLine("abc 4 Bolt") == Card("Bolt", 4)
  {
    var s := "abc 4 Bolt";
    NotCommentByFirst(s);
    FirstDigitLeftmost(s, 4, 5);
    ParseLineCard(s, 4, 5);
    LineTextWhole(s[6..]);
    assert s[4..5] == "4" && s[6..] == "Bolt";
  }

  /** Leading zeros are accepted. */
  lemma CardExampleLeadingZero()
    ensures ParseLine("04 x") == Card("x", 4)
  {
    var s := "04 x";
    NotCommentByFirst(s);
    FirstDigitLeftmost(s, 0, 2);
    ParseLineCard(s, 0, 2);
    LineTextWhole(s[3..]);
    assert s[0..2] == "04" && "04"[..1] == "0";
  }

  /** The name stops at a carriage return. */
  lemma CardExampleStopsAtReturn()
    ensures ParseLine("4 Bolt\r") == Card("Bolt", 4)
  {
    var s := "4 Bolt\r";
    NotCommentByFirst(s);
    FirstDigitLeftmost(s, 0, 1);
    assert s[2..] == "Bolt" + ['\r'] + "";
    LineTextStops("Bolt", '\r', "");
    CardAtLineStart(s, 4);
  }

  /** A line with leading whitespace before `#`, and the empty line, are uncertain. */
  lemma UncertainExamples()
    ensures ParseLine(" # x") == Uncertain(" # x")
    ensures ParseLine("") == Uncertain("")
  {
    NotCommentByFirst(" # x");
    NoDigitNoCount(" # x");
    NoDigitNoCount("");
  }

  /** A bare card name without a count is uncertain. */
  lemma UncertainExampleNoCount()
    ensures ParseLine("Lightning Bolt") == Uncertain("Lightning Bolt")
  {
    var s := "Lightning Bolt";
    NotCommentByFirst(s);
    assert forall k :: 0 <= k < |s| ==> !IsDigit(s[k]);
    NoDigitNoCount(s);
  }

  /** A count not followed by a space is not a count. */
  lemma UncertainExampleNoSpace()
    ensures ParseLine("4Bolt") == Uncertain("4Bolt")
  {
    var s := "4Bolt";
    NotCommentByFirst(s);
    forall i: nat, j: nat | i < j < |s|
      ensures !IsCountAt(s, i, j)
    {
      if i == 0 && j == 1 {
        assert s[1] != ' ';
      } else if i == 0 {
        assert !IsDigit(s[1]);
      } else {
        assert !IsDigit(s[i]);
      }
    }
    assert !HasCount(s);
  }
}
