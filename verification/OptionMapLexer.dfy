/** The tokenizer of the option-map language. */
module OptionMapLexer {
  import opened OptionMapSyntax
  import opened OptionMapGrammar

  datatype LexProblem =
    | UnsupportedToken(value: char, offset: nat)
    | UnterminatedString(offset: nat)
    | UnterminatedEscape(offset: nat)
    | InvalidUnicodeEscape(offset: nat)
    | UnsupportedEscape(value: char, offset: nat)

  datatype Lexing = Tokens(tokens: seq<Token>) | LexFailed(problem: LexProblem)

  /** The body of a string literal: its value, and the offset behind the closing quote. */
  datatype Quoting = Closed(value: string, end: nat) | Broken(problem: LexProblem)

  /** The character that a code unit stands for. */
  type CodeUnits = nat -> char

  predicate Digit(c: char) {
    '0' <= c <= '9'
  }

  predicate Letter(c: char) {
    'A' <= c <= 'Z' || 'a' <= c <= 'z' || c == '_'
  }

  predicate WordCharacter(c: char) {
    Letter(c) || Digit(c)
  }

  predicate Hexadecimal(c: char) {
    Digit(c) || 'A' <= c <= 'F' || 'a' <= c <= 'f'
  }

  /** White space and line terminators of the host language. */
  predicate Space(c: char) {
    || c == ' ' || '\U{9}' <= c <= '\U{D}' || c == '\U{A0}' || c == '\U{1680}' || '\U{2000}' <= c <= '\U{200A}'
    || c == '\U{2028}' || c == '\U{2029}' || c == '\U{202F}' || c == '\U{205F}' || c == '\U{3000}' || c == '\U{FEFF}'
  }

  predicate DoubleOperator(s: string) {
    s == "&&" || s == "||" || s == "==" || s == "!=" || s == "<=" || s == ">="
  }

  predicate SingleOperator(c: char) {
    c == '+' || c == '-' || c == '*' || c == '/' || c == '%' || c == '!' || c == '<' || c == '>'
  }

  predicate PunctuationMark(c: char) {
    || c == '{' || c == '}' || c == '[' || c == ']' || c == '(' || c == ')' || c == ',' || c == ':' || c == '?'
    || c == '.'
  }

  /** The end of the run of characters that satisfy `test`. */
  function ReadWhile(source: string, offset: nat, test: char -> bool): (end: nat)
    requires offset <= |source|
    ensures offset <= end <= |source|
    decreases |source| - offset
  {
    if offset < |source| && test(source[offset]) then ReadWhile(source, offset + 1, test) else offset
  }

  function Digits(source: string, offset: nat): (end: nat)
    requires offset <= |source|
    ensures offset <= end <= |source|
  {
    ReadWhile(source, offset, Digit)
  }

  function FractionEnd(source: string, i: nat): (end: nat)
    requires i <= |source|
    ensures i <= end <= |source|
  {
    if i + 1 < |source| && source[i] == '.' && Digit(source[i + 1]) then Digits(source, i + 2) else i
  }

  function ExponentEnd(source: string, i: nat): (end: nat)
    requires i <= |source|
    ensures i <= end <= |source|
  {
    if i < |source| && (source[i] == 'e' || source[i] == 'E') then
      var k := if i + 1 < |source| && (source[i + 1] == '+' || source[i + 1] == '-') then i + 2 else i + 1;
      if k < |source| && Digit(source[k]) then Digits(source, k + 1) else i
    else i
  }

  function NumberEnd(source: string, offset: nat): (end: nat)
    requires offset < |source| && Digit(source[offset])
    ensures offset < end <= |source|
  {
    ExponentEnd(source, FractionEnd(source, if source[offset] == '0' then offset + 1 else Digits(source, offset + 1)))
  }

  /** The character that a one-character escape stands for, or the escaped character itself. */
  function SimpleEscape(c: char): char {
    if c == 'b' then '\U{8}' else if c == 'f' then '\U{C}' else if c == 'n' then '\n'
    else if c == 'r' then '\r' else if c == 't' then '\t' else c
  }

  predicate HasSimpleEscape(c: char) {
    c == '\'' || c == '"' || c == '\\' || c == 'b' || c == 'f' || c == 'n' || c == 'r' || c == 't'
  }

  function HexValue(c: char): nat
    requires Hexadecimal(c)
  {
    if Digit(c) then (c - '0') as nat else if 'A' <= c <= 'F' then 10 + (c - 'A') as nat else 10 + (c - 'a') as nat
  }

  predicate FourHex(source: string, i: nat) {
    i + 4 <= |source| && forall k :: i <= k < i + 4 ==> Hexadecimal(source[k])
  }

  function CodeUnit(source: string, i: nat): nat
    requires FourHex(source, i)
  {
    ((HexValue(source[i]) * 16 + HexValue(source[i + 1])) * 16 + HexValue(source[i + 2])) * 16 + HexValue(source[i + 3])
  }

  /** `start` is the offset of the opening quote, `value` what was read so far. */
  function ReadString(u: CodeUnits, source: string, start: nat, quote: char, cursor: nat, value: string): (q: Quoting)
    requires cursor <= |source|
    ensures q.Closed? ==> cursor < q.end <= |source|
    decreases |source| - cursor
  {
    if cursor == |source| then Broken(UnterminatedString(start))
    else if source[cursor] == quote then Closed(value, cursor + 1)
    else if source[cursor] == '\n' || source[cursor] == '\r' then Broken(UnterminatedString(start))
    else if source[cursor] != '\\' then ReadString(u, source, start, quote, cursor + 1, value + [source[cursor]])
    else if cursor + 1 == |source| then Broken(UnterminatedEscape(cursor))
    else
      var escaped := source[cursor + 1];
      if HasSimpleEscape(escaped) then
        ReadString(u, source, start, quote, cursor + 2, value + [SimpleEscape(escaped)])
      else if escaped != 'u' then Broken(UnsupportedEscape(escaped, cursor))
      else if !FourHex(source, cursor + 2) then Broken(InvalidUnicodeEscape(cursor))
      else ReadString(u, source, start, quote, cursor + 6, value + [u(CodeUnit(source, cursor + 2))])
  }

  function Prepend(token: Token, rest: Lexing): Lexing {
    if rest.Tokens? then Tokens([token] + rest.tokens) else rest
  }

  /** The token that starts at `offset`, where no white space stands. */
  function ReadToken(u: CodeUnits, source: string, offset: nat): (r: (Lexing, nat))
    requires offset < |source| && !Space(source[offset])
    ensures r.0.Tokens? ==>
      |r.0.tokens| == 1 && offset < r.1 <= |source| && !r.0.tokens[0].kind.Eof?
  {
    var c := source[offset];
    if c == '\'' || c == '"' then
      match ReadString(u, source, offset, c, offset + 1, "")
      case Closed(value, end) => (Tokens([Token(Quoted, value, offset, end)]), end)
      case Broken(p) => (LexFailed(p), 0)
    else if Digit(c) then
      var end := NumberEnd(source, offset);
      (Tokens([Token(Numeral, source[offset..end], offset, end)]), end)
    else if Letter(c) then
      var end := ReadWhile(source, offset + 1, WordCharacter);
      (Tokens([Token(Identifier, source[offset..end], offset, end)]), end)
    else if offset + 2 <= |source| && DoubleOperator(source[offset..offset + 2]) then
      (Tokens([Token(Operator, source[offset..offset + 2], offset, offset + 2)]), offset + 2)
    else if SingleOperator(c) then (Tokens([Token(Operator, [c], offset, offset + 1)]), offset + 1)
    else if PunctuationMark(c) then (Tokens([Token(Punctuation, [c], offset, offset + 1)]), offset + 1)
    else (LexFailed(UnsupportedToken(c, offset)), 0)
  }

  /** The tokens from `offset` on, with the end marker. */
  function Tokenize(u: CodeUnits, source: string, offset: nat): (r: Lexing)
    requires offset <= |source|
    ensures r.Tokens? ==> Lexed(r.tokens)
    decreases |source| - offset
  {
    if offset == |source| then Tokens([Token(Eof, "", offset, offset)])
    else if Space(source[offset]) then Tokenize(u, source, offset + 1)
    else
      var (first, next) := ReadToken(u, source, offset);
      if first.LexFailed? then first else Prepend(first.tokens[0], Tokenize(u, source, next))
  }

  /** Texts that the tokenizer takes as one token of this kind. */
  predicate Spelled(l: Lexeme) {
    match l.kind
    case Quoted => true
    case Identifier => l.value != "" && Letter(l.value[0]) && forall k :: 0 < k < |l.value| ==> WordCharacter(l.value[k])
    case Numeral => l.value != "" && Digit(l.value[0]) && NumberEnd(l.value, 0) == |l.value|
    case Operator => DoubleOperator(l.value) || (|l.value| == 1 && SingleOperator(l.value[0]))
    case Punctuation => |l.value| == 1 && PunctuationMark(l.value[0])
    case Eof => false
  }

  // The loops of the tokenizer

  method ScanWhile(source: string, offset: nat, test: char -> bool) returns (cursor: nat)
    requires offset <= |source|
    ensures cursor == ReadWhile(source, offset, test)
  {
    cursor := offset;
    while cursor < |source| && test(source[cursor])
      invariant offset <= cursor <= |source| && ReadWhile(source, offset, test) == ReadWhile(source, cursor, test)
    {
      cursor := cursor + 1;
    }
  }

  method ScanString(u: CodeUnits, source: string, offset: nat, quote: char) returns (q: Quoting)
    requires offset < |source|
    ensures q == ReadString(u, source, offset, quote, offset + 1, "")
  {
    var cursor := offset + 1;
    var value := "";
    while cursor < |source|
      invariant offset < cursor <= |source|
      invariant ReadString(u, source, offset, quote, cursor, value)
             == ReadString(u, source, offset, quote, offset + 1, "")
    {
      var character := source[cursor];
      if character == quote {
        return Closed(value, cursor + 1);
      }
      if character == '\n' || character == '\r' {
        return Broken(UnterminatedString(offset));
      }
      if character != '\\' {
        value := value + [character];
        cursor := cursor + 1;
        continue;
      }
      var escapeOffset := cursor;
      cursor := cursor + 1;
      if cursor == |source| {
        return Broken(UnterminatedEscape(escapeOffset));
      }
      var escaped := source[cursor];
      if HasSimpleEscape(escaped) {
        value := value + [SimpleEscape(escaped)];
        cursor := cursor + 1;
        continue;
      }
      if escaped == 'u' {
        if !FourHex(source, cursor + 1) {
          return Broken(InvalidUnicodeEscape(escapeOffset));
        }
        value := value + [u(CodeUnit(source, cursor + 1))];
        cursor := cursor + 5;
        continue;
      }
      return Broken(UnsupportedEscape(escaped, escapeOffset));
    }
    return Broken(UnterminatedString(offset));
  }

  method TokenizeRestrictedCel(u: CodeUnits, source: string) returns (r: Lexing)
    ensures r == Tokenize(u, source, 0)
  {
    hide ReadString, ReadWhile, NumberEnd, Lexed, Space, Digit, Letter, DoubleOperator, SingleOperator, PunctuationMark,
      WordCharacter;
    var tokens: seq<Token> := [];
    var offset := 0;
    while offset < |source|
      invariant offset <= |source|
      invariant Tokenize(u, source, 0) == Joined(tokens, Tokenize(u, source, offset))
    {
      var character := source[offset];
      if Space(character) {
        offset := offset + 1;
        continue;
      }
      ghost var rest := ReadToken(u, source, offset);
      var token: Token;
      if character == '\'' || character == '"' {
        var q := ScanString(u, source, offset, character);
        if q.Broken? {
          return LexFailed(q.problem);
        }
        token := Token(Quoted, q.value, offset, q.end);
      } else if Digit(character) {
        var end := NumberEnd(source, offset);
        token := Token(Numeral, source[offset..end], offset, end);
      } else if Letter(character) {
        var end := ScanWhile(source, offset + 1, WordCharacter);
        token := Token(Identifier, source[offset..end], offset, end);
      } else if offset + 2 <= |source| && DoubleOperator(source[offset..offset + 2]) {
        token := Token(Operator, source[offset..offset + 2], offset, offset + 2);
      } else if SingleOperator(character) {
        token := Token(Operator, [character], offset, offset + 1);
      } else if PunctuationMark(character) {
        token := Token(Punctuation, [character], offset, offset + 1);
      } else {
        return LexFailed(UnsupportedToken(character, offset));
      }
      assert rest == (Tokens([token]), token.end);
      JoinedNext(tokens, token, Tokenize(u, source, token.end));
      tokens := tokens + [token];
      offset := token.end;
    }
    tokens := tokens + [Token(Eof, "", |source|, |source|)];
    return Tokens(tokens);
  }

  function Joined(tokens: seq<Token>, rest: Lexing): Lexing {
    if rest.Tokens? then Tokens(tokens + rest.tokens) else rest
  }

  lemma JoinedNext(tokens: seq<Token>, token: Token, rest: Lexing)
    ensures Joined(tokens, Prepend(token, rest)) == Joined(tokens + [token], rest)
  {
    if rest.Tokens? {
      assert tokens + ([token] + rest.tokens) == tokens + [token] + rest.tokens;
    }
  }
}
