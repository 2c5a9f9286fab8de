/**
  Words of a line: the whitespace split that `std::istringstream >> token`
  performs, the shallow numeric test `isNumber`, the digit-prefix parse of
  `std::stoi`, and the decimal text that `.` writes.
 */
module Lexer {

  /** The characters `std::isspace` accepts in the "C" locale. */
  predicate IsSpace(c: char) {
    c == ' ' || c == '\t' || c == '\n' || c == '\r' || c == '\U{000B}' || c == '\U{000C}'
  }

  /** `std::isdigit` in the "C" locale. */
  predicate IsDigit(c: char) {
    '0' <= c <= '9'
  }

  /** A token `>>` can produce: non-empty and free of whitespace. */
  predicate IsWord(t: string) {
    |t| > 0 && forall i :: 0 <= i < |t| ==> !IsSpace(t[i])
  }

  predicate AllWords(ts: seq<string>) {
    forall i :: 0 <= i < |ts| ==> IsWord(ts[i])
  }

  /** Length of the run of non-space characters at the start of `s`. */
  function WordLength(s: string): (n: nat)
    ensures n <= |s|
    ensures forall i :: 0 <= i < n ==> !IsSpace(s[i])
    ensures n < |s| ==> IsSpace(s[n])
  {
    if s == [] || IsSpace(s[0]) then 0 else 1 + WordLength(s[1..])
  }

  /** The tokens successive `stream >> token` extractions yield from a line. */
  function Tokens(line: string): (r: seq<string>)
    ensures AllWords(r)
    decreases |line|
  {
    if line == [] then []
    else if IsSpace(line[0]) then Tokens(line[1..])
    else
      var n := WordLength(line);
      [line[..n]] + Tokens(line[n..])
  }

  /** The words separated by single blanks: the line a user would type. */
  function Join(ws: seq<string>): string {
    if ws == [] then ""
    else if |ws| == 1 then ws[0]
    else ws[0] + " " + Join(ws[1..])
  }

  lemma {:induction false} WordLengthOfWord(w: string, rest: string)
    requires IsWord(w)
    requires rest == [] || IsSpace(rest[0])
    ensures WordLength(w + rest) == |w|
    decreases |w|
  {
    if |w| == 1 {
      assert (w + rest)[1..] == rest;
    } else {
      assert (w + rest)[1..] == w[1..] + rest;
      WordLengthOfWord(w[1..], rest);
    }
  }

  /** A word followed by a blank or by nothing splits off as one token. */
  lemma {:induction false} TokensOfWordThen(w: string, rest: string)
    requires IsWord(w)
    requires rest == [] || IsSpace(rest[0])
    ensures Tokens(w + rest) == [w] + Tokens(rest)
  {
    WordLengthOfWord(w, rest);
    var line := w + rest;
    assert line[..|w|] == w;
    assert line[|w|..] == rest;
  }

  /** Re-reading a single token as a line gives back that token (`run(cmd)` in `runDefinition`). */
  lemma {:induction false} TokensOfWord(w: string)
    requires IsWord(w)
    ensures Tokens(w) == [w]
  {
    TokensOfWordThen(w, []);
    assert w + [] == w;
  }

  /** Splitting the blank-separated rendering of words gives back the words. */
  lemma {:induction false} TokensOfJoin(ws: seq<string>)
    requires AllWords(ws)
    ensures Tokens(Join(ws)) == ws
  {
    if ws == [] {
    } else if |ws| == 1 {
      TokensOfWord(ws[0]);
    } else {
      var rest := " " + Join(ws[1..]);
      assert Join(ws) == ws[0] + rest;
      TokensOfWordThen(ws[0], rest);
      assert rest[1..] == Join(ws[1..]);
      TokensOfJoin(ws[1..]);
      assert ws == [ws[0]] + ws[1..];
    }
  }

  /**
    The numeric test of `isNumber`: the first character is a digit, or it is
    `-` followed by a digit. Nothing after the second character is looked at,
    but a token that passes always gives `std::stoi` at least one digit to
    read after the optional sign.
   */
  predicate IsNumber(t: string)
    ensures IsNumber(t) ==> |t| > 0 && |LeadingDigits(if t[0] == '-' then t[1..] else t)| > 0
  {
    |t| > 0 && (IsDigit(t[0]) || (t[0] == '-' && |t| > 1 && IsDigit(t[1])))
  }

  /** Only the first two characters decide the numeric test. */
  lemma IsNumberLooksAtTwoCharacters(t: string, u: string)
    requires |t| >= 2
    ensures IsNumber(t + u) == IsNumber(t)
  {
    assert (t + u)[0] == t[0] && (t + u)[1] == t[1];
  }

  predicate AllDigits(s: string) {
    forall i :: 0 <= i < |s| ==> IsDigit(s[i])
  }

  /** The longest prefix of `s` made of digits. */
  function LeadingDigits(s: string): (d: string)
    ensures d <= s && AllDigits(d)
    ensures |d| < |s| ==> !IsDigit(s[|d|])
    ensures AllDigits(s) ==> d == s
  {
    if s == [] || !IsDigit(s[0]) then ""
    else
      assert AllDigits(s) ==> AllDigits(s[1..]);
      assert s == [s[0]] + s[1..];
      [s[0]] + LeadingDigits(s[1..])
  }

  function DigitValue(c: char): nat
    requires IsDigit(c)
  {
    c as int - '0' as int
  }

  /** The value of a string of decimal digits, most significant first. */
  function DecimalValue(ds: string): nat
    requires AllDigits(ds)
  {
    if ds == [] then 0 else DecimalValue(ds[..|ds| - 1]) * 10 + DigitValue(ds[|ds| - 1])
  }

  /**
    `std::stoi` on a token that passed the numeric test: an optional minus
    sign and the longest run of digits after it; anything later is ignored.
    Whether the value fits an `int` is decided by the caller. The sign follows
    the leading `-`, and a token of digits alone reads as its decimal value.
   */
  function ParseNumber(t: string): (v: int)
    requires IsNumber(t)
    ensures t[0] == '-' ==> v <= 0
    ensures t[0] != '-' ==> v >= 0
    ensures AllDigits(t) ==> v == DecimalValue(t)
  {
    if t[0] == '-' then -(DecimalValue(LeadingDigits(t[1..])) as int)
    else DecimalValue(LeadingDigits(t))
  }

  function DigitChar(d: nat): (c: char)
    requires d < 10
    ensures IsDigit(c) && DigitValue(c) == d
  {
    ('0' as int + d) as char
  }

  /** Decimal digits of a natural number, without leading zeros. */
  function ShowNat(n: nat): (s: string)
    ensures |s| > 0 && AllDigits(s)
  {
    if n < 10 then [DigitChar(n)] else ShowNat(n / 10) + [DigitChar(n % 10)]
  }

  /** What `std::cout << n` writes for an `int`. */
  function Show(n: int): string {
    if n < 0 then "-" + ShowNat(-n) else ShowNat(n)
  }

  lemma {:induction false} DecimalValueOfShowNat(n: nat)
    ensures DecimalValue(ShowNat(n)) == n
  {
    if n >= 10 {
      var s := ShowNat(n);
      assert s[..|s| - 1] == ShowNat(n / 10);
      DecimalValueOfShowNat(n / 10);
    }
  }

  /** A value printed by `.` reads back, as a token, as a number with the same value. */
  lemma ShowThenParse(n: int)
    ensures IsNumber(Show(n)) && ParseNumber(Show(n)) == n
  {
    if n < 0 {
      var digits := ShowNat(-n);
      assert Show(n)[1..] == digits;
      DecimalValueOfShowNat(-n);
    } else {
      DecimalValueOfShowNat(n);
    }
  }

  /** `12x` passes the numeric test and parses as 12; `-` alone is not numeric. */
  lemma ShallowNumericTest()
    ensures IsNumber("12x") && ParseNumber("12x") == 12
    ensures IsNumber("-3") && ParseNumber("-3") == -3
    ensures !IsNumber("-") && !IsNumber("DUP") && !IsNumber("")
  {
    assert LeadingDigits("x") == "";
    assert LeadingDigits("2x") == "2";
    assert LeadingDigits("12x") == "12";
    assert "12"[..1] == "1" && "1"[..0] == "";
    assert DecimalValue("1") == 1;
    assert DecimalValue("12") == 12;
    assert LeadingDigits("3") == "3";
    assert "-3"[1..] == "3";
  }
}
