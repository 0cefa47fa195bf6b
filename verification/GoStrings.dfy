/** The string operations that bot/catalog/caption.go and meta.go take from Go's standard library. */
module GoStrings {

  /** White space as unicode.IsSpace defines it. */
  predicate IsSpace(c: char) {
    || '\U{0009}' <= c <= '\U{000D}' || c == ' ' || c == '\U{0085}' || c == '\U{00A0}'
    || c == '\U{1680}' || '\U{2000}' <= c <= '\U{200A}' || c == '\U{2028}' || c == '\U{2029}'
    || c == '\U{202F}' || c == '\U{205F}' || c == '\U{3000}'
  }

  predicate NoSpace(s: string) {
    forall i :: 0 <= i < |s| ==> !IsSpace(s[i])
  }

  predicate Trimmed(s: string) {
    s == "" || (!IsSpace(s[0]) && !IsSpace(s[|s| - 1]))
  }

  function TrimLeft(s: string): string {
    if s != "" && IsSpace(s[0]) then TrimLeft(s[1..]) else s
  }

  function TrimRight(s: string): string {
    if s != "" && IsSpace(s[|s| - 1]) then TrimRight(s[..|s| - 1]) else s
  }

  function TrimSpace(s: string): string {
    TrimRight(TrimLeft(s))
  }

  lemma TrimOfTrimmed(s: string)
    requires Trimmed(s)
    ensures TrimSpace(s) == s && TrimSpace(" " + s) == s
  {
    assert (" " + s)[1..] == s;
  }

  lemma {:induction false} TrimRightIsPrefix(s: string)
    ensures TrimRight(s) <= s && (TrimRight(s) == "" || !IsSpace(TrimRight(s)[|TrimRight(s)| - 1]))
  {
    if s != "" && IsSpace(s[|s| - 1]) {
      TrimRightIsPrefix(s[..|s| - 1]);
    }
  }

  // ---- searching ----------------------------------------------------------

  predicate At(s: string, sep: string, i: int) {
    0 <= i && i + |sep| <= |s| && s[i..i + |sep|] == sep
  }

  function IndexFrom(s: string, sep: string, i: nat): (r: int)
    requires i <= |s| + 1
    ensures r >= 0 ==> i <= r && At(s, sep, r)
    ensures forall j :: i <= j < (if r < 0 then |s| + 1 else r) ==> !At(s, sep, j)
    decreases |s| + 1 - i
  {
    if At(s, sep, i) then i else if i > |s| then -1 else IndexFrom(s, sep, i + 1)
  }

  /** The first occurrence of sep, or a negative number. */
  function Index(s: string, sep: string): int {
    IndexFrom(s, sep, 0)
  }

  function LastIndexTo(s: string, sep: string, i: int): (r: int)
    requires -1 <= i <= |s|
    ensures r >= 0 ==> r <= i && At(s, sep, r)
    ensures forall j :: (if r < 0 then 0 else r + 1) <= j <= i ==> !At(s, sep, j)
    decreases i + 1
  {
    if i < 0 then -1 else if At(s, sep, i) then i else LastIndexTo(s, sep, i - 1)
  }

  /** The last occurrence of sep, or a negative number. */
  function LastIndex(s: string, sep: string): int {
    LastIndexTo(s, sep, |s|)
  }

  // ---- splitting ----------------------------------------------------------

  /** strings.Split(s, "\n"). */
  function SplitLines(s: string): (lines: seq<string>)
    ensures |lines| >= 1
  {
    if s == "" then [""]
    else
      var rest := SplitLines(s[1..]);
      if s[0] == '\n' then [""] + rest else [[s[0]] + rest[0]] + rest[1..]
  }

  lemma {:induction false} SplitFirstLine(line: string, rest: string)
    requires '\n' !in line
    ensures SplitLines(line + "\n" + rest) == [line] + SplitLines(rest)
    ensures SplitLines(line) == [line]
  {
    if line == "" {
      assert (line + "\n" + rest)[1..] == rest;
    } else {
      SplitFirstLine(line[1..], rest);
      assert (line + "\n" + rest)[1..] == line[1..] + "\n" + rest;
      assert line[0] in line && line == [line[0]] + line[1..];
    }
  }

  /** The leading word of s. */
  function Word(s: string): string {
    if s == "" || IsSpace(s[0]) then "" else [s[0]] + Word(s[1..])
  }

  lemma WordLength(s: string)
    ensures |Word(s)| <= |s|
  {
  }

  /** strings.Fields(s): the maximal runs without white space. */
  function Fields(s: string): seq<string>
    decreases |s|
  {
    if s == "" then []
    else if IsSpace(s[0]) then Fields(s[1..])
    else
      WordLength(s);
      [Word(s)] + Fields(s[|Word(s)|..])
  }

  lemma {:induction false} WordThenSpace(word: string, rest: string)
    requires NoSpace(word) && (rest == "" || IsSpace(rest[0]))
    ensures Word(word + rest) == word
  {
    if word == "" {
      assert word + rest == rest;
    } else {
      assert (word + rest)[1..] == word[1..] + rest;
      WordThenSpace(word[1..], rest);
    }
  }

  /** Words, each after one space. */
  function Spaced(words: seq<string>): string {
    if words == [] then "" else " " + words[0] + Spaced(words[1..])
  }

  predicate IsWord(s: string) {
    s != "" && NoSpace(s)
  }

  lemma {:induction false} FieldsOfSpaced(words: seq<string>)
    requires forall i :: 0 <= i < |words| ==> IsWord(words[i])
    ensures Fields(Spaced(words)) == words
    ensures Spaced(words) == "" || IsSpace(Spaced(words)[0])
  {
    if words != [] {
      var rest := Spaced(words[1..]);
      FieldsOfSpaced(words[1..]);
      WordThenSpace(words[0], rest);
      assert Spaced(words)[1..] == words[0] + rest;
      assert (words[0] + rest)[|words[0]|..] == rest;
    }
  }

  lemma FieldsFirst(word: string, words: seq<string>)
    requires IsWord(word) && forall i :: 0 <= i < |words| ==> IsWord(words[i])
    ensures Fields(word + Spaced(words)) == [word] + words
  {
    FieldsOfSpaced(words);
    WordThenSpace(word, Spaced(words));
    assert (word + Spaced(words))[|word|..] == Spaced(words);
  }

  lemma {:induction false} SpacedEnds(words: seq<string>)
    requires words != [] && forall i :: 0 <= i < |words| ==> IsWord(words[i])
    ensures Spaced(words) != "" && !IsSpace(Spaced(words)[|Spaced(words)| - 1])
    ensures '\n' !in Spaced(words)
  {
    var w := words[0];
    forall i | 0 <= i < |w| ensures w[i] != '\n' {}
    if words[1..] != [] {
      SpacedEnds(words[1..]);
    }
  }

  /** strings.Cut(s, "="), where ok tells whether there is a separator. */
  function Cut(s: string): (string, string, bool) {
    if s == "" then ("", "", false)
    else if s[0] == '=' then ("", s[1..], true)
    else
      var (k, v, ok) := Cut(s[1..]);
      ([s[0]] + k, v, ok)
  }

  /** The cut is at the first separator, whatever the value contains. */
  lemma {:induction false} CutPair(key: string, value: string)
    requires '=' !in key
    ensures Cut(key + "=" + value) == (key, value, true)
  {
    if key == "" {
      assert (key + "=" + value)[1..] == value;
    } else {
      CutPair(key[1..], value);
      assert (key + "=" + value)[1..] == key[1..] + "=" + value;
      assert key[0] in key && key == [key[0]] + key[1..];
    }
  }

  // ---- numbers ------------------------------------------------------------

  const DIGITS := "0123456789"
  const MAX_INT64: int := 0x7FFF_FFFF_FFFF_FFFF

  predicate IsDigit(c: char) {
    '0' <= c <= '9'
  }

  function Digits(n: nat): string {
    if n < 10 then [DIGITS[n]] else Digits(n / 10) + [DIGITS[n % 10]]
  }

  function Itoa(n: int): string {
    if n < 0 then "-" + Digits(-n) else Digits(n)
  }

  function DigitOf(c: char): nat {
    if IsDigit(c) then c as int - '0' as int else 0
  }

  function DigitsValue(s: string): nat {
    if s == "" then 0 else 10 * DigitsValue(s[..|s| - 1]) + DigitOf(s[|s| - 1])
  }

  predicate IsNumber(s: string) {
    var body := if s != "" && (s[0] == '-' || s[0] == '+') then s[1..] else s;
    body != "" && forall i :: 0 <= i < |body| ==> IsDigit(body[i])
  }

  /** strconv.ParseInt(s, 10, 64) with the error dropped: 0 on bad syntax, clamped out of range. */
  function Atoi(s: string): int {
    if !IsNumber(s) then 0
    else if s[0] == '-' then
      var v: int := DigitsValue(s[1..]);
      if v > MAX_INT64 + 1 then -MAX_INT64 - 1 else -v
    else
      var v: int := DigitsValue(if s[0] == '+' then s[1..] else s);
      if v > MAX_INT64 then MAX_INT64 else v
  }

  lemma {:induction false} DigitsRoundTrip(n: nat)
    ensures Digits(n) != "" && forall i :: 0 <= i < |Digits(n)| ==> IsDigit(Digits(n)[i])
    ensures DigitsValue(Digits(n)) == n
  {
    if n < 10 {
      DigitValue(n);
      assert Digits(n)[..0] == "";
    } else {
      DigitsRoundTrip(n / 10);
      DigitValue(n % 10);
      assert Digits(n)[..|Digits(n)| - 1] == Digits(n / 10);
    }
  }

  lemma DigitValue(d: nat)
    requires d < 10
    ensures IsDigit(DIGITS[d]) && DigitOf(DIGITS[d]) == d
  {
  }

  lemma DigitsAreWord(s: string)
    requires s != "" && forall i :: 0 <= i < |s| ==> IsDigit(s[i])
    ensures IsWord(s) && IsWord("-" + s) && s[0] != '-' && s[0] != '+'
  {
    assert IsDigit(s[0]);
  }

  lemma ItoaRoundTrip(n: int)
    requires -MAX_INT64 - 1 <= n <= MAX_INT64
    ensures Atoi(Itoa(n)) == n && IsWord(Itoa(n))
  {
    var d := Digits(if n < 0 then -n else n);
    DigitsRoundTrip(if n < 0 then -n else n);
    DigitsAreWord(d);
    if n < 0 {
      assert Itoa(n) == "-" + d && ("-" + d)[1..] == d;
    }
  }
}
