/** Text as the program prints and reads it: decimal numbers, lines, words, splits. */
module Text {
  import opened Words

  const DIGITS: string := "0123456789"

  function Digit(d: nat): char
    requires d < 10
  {
    DIGITS[d]
  }

  function Decimal(n: nat): (r: string)
    ensures |r| > 0
  {
    if n < 10 then [Digit(n)] else Decimal(n / 10) + [Digit(n % 10)]
  }

  // ------------------------------------------------------------- numbers

  predicate IsDigit(c: char) {
    '0' <= c <= '9'
  }

  function ValueOf(c: char): nat
    requires IsDigit(c)
  {
    c as int - '0' as int
  }

  /** The number a run of digits denotes. */
  function Digits(s: string): Option<nat>
    decreases |s|
  {
    if s == [] then None
    else if !IsDigit(s[|s| - 1]) then None
    else if |s| == 1 then Some(ValueOf(s[0]))
    else match Digits(s[..|s| - 1])
    case None => None
    case Some(high) => Some(high * 10 + ValueOf(s[|s| - 1]))
  }

  /** An unsigned number below `bound`: digits, with an optional plus sign. */
  function ParseBelow(s: string, bound: nat): (r: Option<nat>)
    ensures r.Some? ==> r.value < bound
  {
    match Digits(if |s| > 0 && s[0] == '+' then s[1..] else s)
    case None => None
    case Some(n) => if n < bound then Some(n) else None
  }

  lemma DigitsAreDigits(d: nat)
    requires d < 10
    ensures IsDigit(Digit(d)) && ValueOf(Digit(d)) == d
  {
    assert DIGITS[0] == '0' && DIGITS[1] == '1' && DIGITS[2] == '2' && DIGITS[3] == '3' && DIGITS[4] == '4';
    assert DIGITS[5] == '5' && DIGITS[6] == '6' && DIGITS[7] == '7' && DIGITS[8] == '8' && DIGITS[9] == '9';
  }

  /** What is printed is read back, and is one word of digits. */
  lemma {:induction false} DecimalReadsBack(n: nat)
    ensures Digits(Decimal(n)) == Some(n)
    ensures forall i :: 0 <= i < |Decimal(n)| ==> IsDigit(Decimal(n)[i])
  {
    DigitsAreDigits(n % 10);
    if n >= 10 {
      DecimalReadsBack(n / 10);
      assert Decimal(n)[..|Decimal(n)| - 1] == Decimal(n / 10);
    }
  }

  lemma ParsesDecimal(n: nat, bound: nat)
    requires n < bound
    ensures ParseBelow(Decimal(n), bound) == Some(n)
  {
    DecimalReadsBack(n);
  }

  // ---------------------------------------------------------- whitespace

  /** Unicode white space. */
  predicate IsWhite(c: char) {
    || '\t' <= c <= '\r' || c == ' ' || c == '\U{0085}' || c == '\U{00A0}' || c == '\U{1680}'
    || '\U{2000}' <= c <= '\U{200A}' || c == '\U{2028}' || c == '\U{2029}' || c == '\U{202F}' || c == '\U{205F}' || c == '\U{3000}'
  }

  function TrimStart(s: string): string
    decreases |s|
  {
    if s != [] && IsWhite(s[0]) then TrimStart(s[1..]) else s
  }

  function TrimEnd(s: string): string
    decreases |s|
  {
    if s != [] && IsWhite(s[|s| - 1]) then TrimEnd(s[..|s| - 1]) else s
  }

  function Trim(s: string): string {
    TrimEnd(TrimStart(s))
  }

  function WordLength(s: string): (n: nat)
    ensures n <= |s|
    decreases |s|
  {
    if s == [] || IsWhite(s[0]) then 0 else 1 + WordLength(s[1..])
  }

  /** The words between white space. */
  function SplitWords(s: string): seq<string>
    decreases |s|
  {
    if s == [] then []
    else if IsWhite(s[0]) then SplitWords(s[1..])
    else [s[..WordLength(s)]] + SplitWords(s[WordLength(s)..])
  }

  predicate IsWord(s: string) {
    s != [] && forall i :: 0 <= i < |s| ==> !IsWhite(s[i])
  }

  predicate AllWords(words: seq<string>) {
    forall i :: 0 <= i < |words| ==> IsWord(words[i])
  }

  /** The words with one space between them. */
  function Join(words: seq<string>): string
    decreases |words|
  {
    if words == [] then [] else if |words| == 1 then words[0] else words[0] + " " + Join(words[1..])
  }

  lemma {:induction false} WordLengthStops(word: string, rest: string)
    requires forall i :: 0 <= i < |word| ==> !IsWhite(word[i])
    requires rest != [] ==> IsWhite(rest[0])
    ensures WordLength(word + rest) == |word|
    decreases |word|
  {
    if word == [] {
      assert word + rest == rest;
    } else {
      assert (word + rest)[1..] == word[1..] + rest;
      WordLengthStops(word[1..], rest);
    }
  }

  lemma {:induction false} WordLengthIsClean(s: string)
    ensures forall i :: 0 <= i < WordLength(s) ==> !IsWhite(s[i])
    ensures s != [] && !IsWhite(s[0]) ==> WordLength(s) > 0
    decreases |s|
  {
    if s != [] && !IsWhite(s[0]) {
      WordLengthIsClean(s[1..]);
      assert forall i :: 1 <= i < WordLength(s) ==> s[i] == s[1..][i - 1];
    }
  }

  lemma {:induction false} SplitsIntoWords(s: string)
    ensures AllWords(SplitWords(s))
    decreases |s|
  {
    if s != [] {
      if IsWhite(s[0]) {
        SplitsIntoWords(s[1..]);
      } else {
        WordLengthIsClean(s);
        SplitsIntoWords(s[WordLength(s)..]);
      }
    }
  }

  /** Joined words are split back, in order. */
  lemma {:induction false} JoinSplits(words: seq<string>)
    requires AllWords(words)
    ensures SplitWords(Join(words)) == words
    decreases |words|
  {
    if words == [] {
    } else if |words| == 1 {
      assert words[0] + [] == words[0];
      WordLengthStops(words[0], []);
      assert SplitWords(words[0]) == [words[0]] + SplitWords([]);
    } else {
      var rest := Join(words[1..]);
      var all := words[0] + (" " + rest);
      assert Join(words) == all;
      WordLengthStops(words[0], " " + rest);
      assert all[..|words[0]|] == words[0] && all[|words[0]|..] == " " + rest;
      assert (" " + rest)[1..] == rest;
      JoinSplits(words[1..]);
      assert SplitWords(" " + rest) == words[1..];
    }
  }

  // ------------------------------------------------------ lines and splits

  /** Where `c` first occurs, or the length. */
  function Find(s: string, c: char): (i: nat)
    ensures i <= |s|
    decreases |s|
  {
    if s == [] || s[0] == c then 0 else 1 + Find(s[1..], c)
  }

  function SplitOnce(s: string, c: char): Option<(string, string)> {
    var i := Find(s, c);
    if i == |s| then None else Some((s[..i], s[i + 1..]))
  }

  predicate Lacks(s: string, c: char) {
    forall i :: 0 <= i < |s| ==> s[i] != c
  }

  lemma {:induction false} FindsFirst(before: string, c: char, after: string)
    requires Lacks(before, c)
    ensures Find(before + [c] + after, c) == |before|
    decreases |before|
  {
    var s := before + [c] + after;
    if before != [] {
      assert s[1..] == before[1..] + [c] + after;
      FindsFirst(before[1..], c, after);
    }
  }

  lemma SplitsAt(before: string, c: char, after: string)
    requires Lacks(before, c)
    ensures SplitOnce(before + [c] + after, c) == Some((before, after))
  {
    FindsFirst(before, c, after);
    var s := before + [c] + after;
    assert s[..|before|] == before && s[|before| + 1..] == after;
  }

  function WithoutReturn(s: string): string {
    if s != [] && s[|s| - 1] == '\r' then s[..|s| - 1] else s
  }

  /** Lines end with a line feed, or a carriage return and a line feed; the last need not. */
  function Lines(s: string): seq<string>
    decreases |s|
  {
    if s == [] then []
    else
      var i := Find(s, '\n');
      if i == |s| then [s] else [WithoutReturn(s[..i])] + Lines(s[i + 1..])
  }

  function Unlines(lines: seq<string>): string
    decreases |lines|
  {
    if lines == [] then [] else lines[0] + "\r\n" + Unlines(lines[1..])
  }

  predicate AllLines(lines: seq<string>) {
    forall i :: 0 <= i < |lines| ==> Lacks(lines[i], '\n')
  }

  /** Printed lines are read back, one for one. */
  lemma {:induction false} UnlinesReadsBack(lines: seq<string>)
    requires AllLines(lines)
    ensures Lines(Unlines(lines)) == lines
    decreases |lines|
  {
    if lines != [] {
      var first, rest := lines[0] + "\r", Unlines(lines[1..]);
      assert Unlines(lines) == first + ['\n'] + rest;
      FindsFirst(first, '\n', rest);
      var s := Unlines(lines);
      assert s[..|first|] == first && s[|first| + 1..] == rest;
      assert WithoutReturn(first) == lines[0];
      UnlinesReadsBack(lines[1..]);
    }
  }

  lemma {:induction false} UnlinesJoins(a: seq<string>, b: seq<string>)
    ensures Unlines(a + b) == Unlines(a) + Unlines(b)
    decreases |a|
  {
    if a == [] {
      assert a + b == b;
    } else {
      assert (a + b)[1..] == a[1..] + b;
      UnlinesJoins(a[1..], b);
    }
  }

  lemma Untrimmed(s: string)
    requires s != [] && !IsWhite(s[0]) && !IsWhite(s[|s| - 1])
    ensures Trim(s) == s
  {
  }

  // ---------------------------------------------------------- ASCII case

  function Lower(c: char): char {
    if 'A' <= c <= 'Z' then (c as int + 32) as char else c
  }

  function LowerCase(s: string): (r: string)
    ensures |r| == |s| && forall i :: 0 <= i < |s| ==> r[i] == Lower(s[i])
  {
    seq(|s|, i requires 0 <= i < |s| => Lower(s[i]))
  }

  predicate SameLetters(a: string, b: string) {
    |a| == |b| && forall i :: 0 <= i < |a| ==> Lower(a[i]) == Lower(b[i])
  }
}
