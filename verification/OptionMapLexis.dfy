/** How literals are written: the escapes of strings, and the shape of numerals. */
module OptionMapLexis {
  import opened OptionMapSyntax
  import opened OptionMapLexer

  // Strings

  /** The text is read as one string literal. */
  ghost predicate IsLiteral(u: CodeUnits, text: string, value: string) {
    Tokenize(u, text, 0) == Tokens([Token(Quoted, value, 0, |text|), Token(Eof, "", |text|, |text|)])
  }

  lemma ClosedIsLiteral(u: CodeUnits, text: string, value: string)
    requires text != "" && (text[0] == '\'' || text[0] == '"')
    requires ReadString(u, text, 0, text[0], 1, "") == Closed(value, |text|)
    ensures IsLiteral(u, text, value)
  {
    hide ReadString;
    assert Tokenize(u, text, |text|) == Tokens([Token(Eof, "", |text|, |text|)]);
  }

  /** A backslash and one of these characters stand for one character; any other but `u` is refused, as is a line break. */
  lemma EscapesMean(u: CodeUnits, quote: char, c: char)
    requires quote == '\'' || quote == '"'
    ensures var text := [quote, '\\', c, quote];
      if c == 'n' then IsLiteral(u, text, "\n")
      else if c == 'r' then IsLiteral(u, text, "\r")
      else if c == 't' then IsLiteral(u, text, "\t")
      else if c == 'b' then IsLiteral(u, text, "\U{8}")
      else if c == 'f' then IsLiteral(u, text, "\U{C}")
      else if c == '\\' || c == '\'' || c == '"' then IsLiteral(u, text, [c])
      else if c == 'u' then Tokenize(u, text, 0) == LexFailed(InvalidUnicodeEscape(1))
      else Tokenize(u, text, 0) == LexFailed(UnsupportedEscape(c, 1))
  {
    var text := [quote, '\\', c, quote];
    if HasSimpleEscape(c) {
      assert ReadString(u, text, 0, quote, 3, [SimpleEscape(c)]) == Closed([SimpleEscape(c)], 4);
      assert ReadString(u, text, 0, quote, 1, "") == Closed("" + [SimpleEscape(c)], 4);
      ClosedIsLiteral(u, text, [SimpleEscape(c)]);
    }
  }

  const LOWER := "0123456789abcdef"
  const UPPER := "0123456789ABCDEF"

  lemma HexadecimalDigits(d: nat)
    requires d < 16
    ensures Hexadecimal(LOWER[d]) && HexValue(LOWER[d]) == d && Hexadecimal(UPPER[d]) && HexValue(UPPER[d]) == d
  {
  }

  /** Four hexadecimal digits in either case stand for the code unit that they spell in base 16. */
  lemma UnicodeEscapesMean(u: CodeUnits, quote: char, a: nat, b: nat, c: nat, d: nat)
    requires (quote == '\'' || quote == '"') && a < 16 && b < 16 && c < 16 && d < 16
    ensures var unit := [u(4096 * a + 256 * b + 16 * c + d)];
      && IsLiteral(u, [quote, '\\', 'u', LOWER[a], LOWER[b], LOWER[c], LOWER[d], quote], unit)
      && IsLiteral(u, [quote, '\\', 'u', UPPER[a], UPPER[b], UPPER[c], UPPER[d], quote], unit)
  {
    hide HexValue, Hexadecimal, IsLiteral;
    HexadecimalDigits(a);
    HexadecimalDigits(b);
    HexadecimalDigits(c);
    HexadecimalDigits(d);
    ReadsUnit(u, [quote, '\\', 'u', LOWER[a], LOWER[b], LOWER[c], LOWER[d], quote]);
    ReadsUnit(u, [quote, '\\', 'u', UPPER[a], UPPER[b], UPPER[c], UPPER[d], quote]);
  }

  lemma ReadsUnit(u: CodeUnits, text: string)
    requires |text| == 8 && (text[0] == '\'' || text[0] == '"') && text[1] == '\\' && text[2] == 'u' && text[7] == text[0]
    requires FourHex(text, 3)
    ensures IsLiteral(u, text, [u(CodeUnit(text, 3))])
  {
    hide CodeUnit, IsLiteral;
    var unit := [u(CodeUnit(text, 3))];
    assert ReadString(u, text, 0, text[0], 7, "" + unit) == Closed("" + unit, 8);
    assert ReadString(u, text, 0, text[0], 1, "") == Closed("" + unit, 8);
    ClosedIsLiteral(u, text, "" + unit);
    assert "" + unit == unit;
  }

  // Numerals

  predicate AllDigits(s: string) {
    forall k :: 0 <= k < |s| ==> '0' <= s[k] <= '9'
  }

  /** Zero, or digits that do not start with zero. */
  predicate Whole(s: string) {
    s == "0" || (s != "" && AllDigits(s) && s[0] != '0')
  }

  /** Nothing, or a point and digits. */
  predicate Fraction(s: string) {
    s == "" || (|s| > 1 && s[0] == '.' && AllDigits(s[1..]))
  }

  /** Nothing, or an `e`, a sign if any, and digits. */
  predicate Exponent(s: string) {
    || s == ""
    || (|s| > 1 && (s[0] == 'e' || s[0] == 'E') && AllDigits(s[1..]))
    || (|s| > 2 && (s[0] == 'e' || s[0] == 'E') && (s[1] == '+' || s[1] == '-') && AllDigits(s[2..]))
  }

  ghost predicate IsNumeral(s: string) {
    exists i: nat, j: nat :: i <= j <= |s| && Whole(s[..i]) && Fraction(s[i..j]) && Exponent(s[j..])
  }

  lemma {:induction false} ReadsDigits(source: string, offset: nat)
    requires offset <= |source|
    ensures AllDigits(source[offset..Digits(source, offset)])
    ensures Digits(source, offset) < |source| ==> !('0' <= source[Digits(source, offset)] <= '9')
    decreases |source| - offset
  {
    if offset < |source| && Digit(source[offset]) {
      ReadsDigits(source, offset + 1);
      var end := Digits(source, offset);
      assert end == Digits(source, offset + 1);
      forall k | 0 <= k < end - offset ensures '0' <= source[offset..end][k] <= '9' {
        if k > 0 { assert source[offset + 1..end][k - 1] == source[offset..end][k]; }
      }
    }
  }

  lemma WholeRead(source: string, offset: nat)
    requires offset < |source| && Digit(source[offset])
    ensures Whole(source[offset..if source[offset] == '0' then offset + 1 else Digits(source, offset + 1)])
  {
    if source[offset] != '0' {
      var i := Digits(source, offset + 1);
      ReadsDigits(source, offset + 1);
      forall k | 0 <= k < i - offset ensures '0' <= source[offset..i][k] <= '9' {
        if k > 0 { assert source[offset + 1..i][k - 1] == source[offset..i][k]; }
      }
    }
  }

  /** What the tokenizer takes for a number is a numeral. */
  lemma NumbersAreNumerals(source: string, offset: nat)
    requires offset < |source| && Digit(source[offset])
    ensures IsNumeral(source[offset..NumberEnd(source, offset)])
  {
    hide IsNumeral, Whole, Fraction, Exponent, Digits, FractionEnd, ExponentEnd;
    var i := if source[offset] == '0' then offset + 1 else Digits(source, offset + 1);
    var j := FractionEnd(source, i);
    var end := ExponentEnd(source, j);
    var s := source[offset..end];
    WholeRead(source, offset);
    FractionRead(source, i);
    ExponentRead(source, j);
    Within(source, offset, offset, i, end);
    Within(source, offset, i, j, end);
    Within(source, offset, j, end, end);
    Shaped(s, i - offset, j - offset);
  }

  lemma Within(source: string, a: nat, b: nat, c: nat, d: nat)
    requires a <= b <= c <= d <= |source|
    ensures source[a..d][b - a..c - a] == source[b..c]
  {
    forall k | 0 <= k < c - b ensures source[a..d][b - a..c - a][k] == source[b..c][k] {
      assert source[a..d][b - a + k] == source[b + k];
    }
  }

  lemma Shaped(s: string, i: nat, j: nat)
    requires i <= j <= |s| && Whole(s[0..i]) && Fraction(s[i..j]) && Exponent(s[j..|s|])
    ensures IsNumeral(s)
  {
    assert s[0..i] == s[..i] && s[j..|s|] == s[j..];
  }

  lemma FractionRead(source: string, i: nat)
    requires i <= |source|
    ensures Fraction(source[i..FractionEnd(source, i)])
  {
    var end := FractionEnd(source, i);
    if i < end {
      ReadsDigits(source, i + 2);
      var s := source[i..end];
      forall k | 0 <= k < |s[1..]| ensures '0' <= s[1..][k] <= '9' {
        if k > 0 { assert source[i + 2..end][k - 1] == s[1..][k]; }
      }
    }
  }

  lemma ExponentRead(source: string, j: nat)
    requires j <= |source|
    ensures Exponent(source[j..ExponentEnd(source, j)])
  {
    var end := ExponentEnd(source, j);
    if j < end {
      var first := if source[j + 1] == '+' || source[j + 1] == '-' then j + 2 else j + 1;
      ReadsDigits(source, first + 1);
      var s := source[j..end];
      forall k | 0 <= k < end - first ensures '0' <= source[first..end][k] <= '9' {
        if k > 0 { assert source[first + 1..end][k - 1] == source[first..end][k]; }
      }
      assert s[first - j..] == source[first..end];
    }
  }

  /** Digits up to `end`, where no digit follows, are read to `end`. */
  lemma {:induction false} DigitsEnd(source: string, offset: nat, end: nat)
    requires offset <= end <= |source| && AllDigits(source[offset..end])
    requires end < |source| ==> !('0' <= source[end] <= '9')
    ensures Digits(source, offset) == end
    decreases end - offset
  {
    if offset < end {
      assert source[offset..end][0] == source[offset];
      assert source[offset..end][1..] == source[offset + 1..end];
      DigitsEnd(source, offset + 1, end);
    }
  }

  /** A whole numeral is taken as one number. */
  lemma NumeralsAreNumbers(s: string)
    requires IsNumeral(s)
    ensures s != "" && Digit(s[0]) && NumberEnd(s, 0) == |s|
  {
    hide Digits, ReadWhile;
    var i: nat, j: nat :| i <= j <= |s| && Whole(s[..i]) && Fraction(s[i..j]) && Exponent(s[j..]);
    assert s[..i][0] == s[0];
    assert i < |s| ==> !('0' <= s[i] <= '9') by {
      if i < j { assert s[i..j][0] == s[i]; } else if i < |s| { assert s[j..][0] == s[i]; }
    }
    if s[0] != '0' {
      assert s[..i][1..] == s[1..i];
      DigitsEnd(s, 1, i);
    }
    assert j < |s| ==> s[j] == 'e' || s[j] == 'E' by { if j < |s| { assert s[j..][0] == s[j]; } }
    FractionTaken(s, i, j);
    ExponentTaken(s, j);
  }

  lemma FractionTaken(s: string, i: nat, j: nat)
    requires i <= j <= |s| && Fraction(s[i..j]) && (j < |s| ==> s[j] == 'e' || s[j] == 'E')
    ensures FractionEnd(s, i) == j
  {
    hide Digits, ReadWhile;
    if i < j {
      var f := s[i..j];
      assert f[0] == s[i] && f[1..][0] == s[i + 1];
      assert f[1..][1..] == s[i + 2..j];
      DigitsEnd(s, i + 2, j);
    }
  }

  lemma ExponentTaken(s: string, j: nat)
    requires j <= |s| && Exponent(s[j..])
    ensures ExponentEnd(s, j) == |s|
  {
    hide Digits, ReadWhile;
    if j < |s| {
      var e := s[j..];
      assert e[0] == s[j] && e[1] == s[j + 1];
      var k := if s[j + 1] == '+' || s[j + 1] == '-' then 2 else 1;
      assert e[k..][0] == s[j + k] && e[k..][1..] == s[j + k + 1..|s|];
      DigitsEnd(s, j + k + 1, |s|);
    }
  }

  // Characters

  predicate IsLetter(c: char) {
    'A' <= c <= 'Z' || 'a' <= c <= 'z' || c == '_'
  }

  predicate IsDigit(c: char) {
    '0' <= c <= '9'
  }

  const SPACES := " \t\n\r\U{B}\U{C}\U{A0}\U{1680}\U{2000}\U{2001}\U{2002}\U{2003}\U{2004}\U{2005}\U{2006}\U{2007}"
                  + "\U{2008}\U{2009}\U{200A}\U{2028}\U{2029}\U{202F}\U{205F}\U{3000}\U{FEFF}"

  lemma SpacesListed(c: char)
    ensures Space(c) <==> c in SPACES
  {
  }

  /** What a character alone is: space, a word, a number, an operator, punctuation, or nothing that is allowed. */
  lemma CharactersMean(u: CodeUnits, c: char)
    ensures var r, end := Tokenize(u, [c], 0), Token(Eof, "", 1, 1);
      if c in SPACES then r == Tokens([end])
      else if IsLetter(c) then r == Tokens([Token(Identifier, [c], 0, 1), end])
      else if IsDigit(c) then r == Tokens([Token(Numeral, [c], 0, 1), end])
      else if c in "+-*/%!<>" then r == Tokens([Token(Operator, [c], 0, 1), end])
      else if c in "{}[](),:?." then r == Tokens([Token(Punctuation, [c], 0, 1), end])
      else if c == '\'' || c == '"' then r == LexFailed(UnterminatedString(0))
      else r == LexFailed(UnsupportedToken(c, 0))
  {
    hide Space, SPACES;
    SpacesListed(c);
    assert Tokenize(u, [c], 1) == Tokens([Token(Eof, "", 1, 1)]);
    assert [c][0..1] == [c];
    assert ReadWhile([c], 1, WordCharacter) == 1 && Digits([c], 1) == 1;
  }

  /** These pairs are one operator, and no others. */
  lemma PairsMean(s: string)
    ensures DoubleOperator(s) <==> s in {"&&", "||", "==", "!=", "<=", ">="}
  {
  }

  /** A word goes on as long as letters and digits follow. */
  lemma {:induction false} WordsEnd(source: string, offset: nat)
    requires offset <= |source|
    ensures var end := ReadWhile(source, offset, WordCharacter);
      && (forall k :: offset <= k < end ==> IsLetter(source[k]) || IsDigit(source[k]))
      && (end < |source| ==> !IsLetter(source[end]) && !IsDigit(source[end]))
    decreases |source| - offset
  {
    if offset < |source| {
      if WordCharacter(source[offset]) { WordsEnd(source, offset + 1); }
    }
  }
}
