/** From a tree to program text and back: what is written is tokenized and parsed as it was meant. */
module OptionMapText {
  import opened OptionMapSyntax
  import opened OptionMapGrammar
  import opened OptionMapLexer
  import opened OptionMapRoundTrip

  function EscapeCharacter(c: char): string {
    if c == '"' then "\\\"" else if c == '\\' then "\\\\" else if c == '\n' then "\\n" else if c == '\r' then "\\r"
    else [c]
  }

  function Escape(value: string): string {
    if value == "" then "" else EscapeCharacter(value[0]) + Escape(value[1..])
  }

  function Write(l: Lexeme): string {
    if l.kind.Quoted? then "\"" + Escape(l.value) + "\"" else l.value
  }

  /** The tokens one after the other, with a space behind each. */
  function Render(q: seq<Lexeme>): string {
    if q == [] then "" else Write(q[0]) + " " + Render(q[1..])
  }

  /** `text` stands at `offset`, and the source goes on behind it. */
  ghost predicate Has(source: string, offset: nat, text: string) {
    offset + |text| < |source| && forall k {:trigger text[k]} :: 0 <= k < |text| ==> source[offset + k] == text[k]
  }

  /** `text` stands at `offset`, followed by a space. */
  ghost predicate Stands(source: string, offset: nat, text: string) {
    Has(source, offset, text) && source[offset + |text|] == ' '
  }

  lemma HasSplit(source: string, offset: nat, a: string, b: string)
    requires Has(source, offset, a + b)
    ensures Has(source, offset, a) && Has(source, offset + |a|, b)
  {
    var text := a + b;
    forall k | 0 <= k < |a| ensures source[offset + k] == a[k] {
      assert text[k] == a[k];
    }
    forall k | 0 <= k < |b| ensures source[offset + |a| + k] == b[k] {
      assert text[|a| + k] == b[k];
    }
  }

  lemma {:induction false} ReadsRun(source: string, offset: nat, end: nat, test: char -> bool)
    requires offset <= end < |source| && !test(source[end])
    requires forall k :: offset <= k < end ==> test(source[k])
    ensures ReadWhile(source, offset, test) == end
    decreases end - offset
  {
    if offset < end { ReadsRun(source, offset + 1, end, test); }
  }

  /** A run of digits ends in the same place when a space follows the text. */
  lemma {:induction false} SameDigits(source: string, offset: nat, text: string, i: nat)
    requires Stands(source, offset, text) && i <= |text|
    ensures Digits(source, offset + i) == offset + Digits(text, i)
    decreases |text| - i
  {
    if i < |text| {
      assert source[offset + i] == text[i];
      if Digit(text[i]) { SameDigits(source, offset, text, i + 1); }
    }
  }

  lemma SameFraction(source: string, offset: nat, text: string, i: nat)
    requires Stands(source, offset, text) && i <= |text|
    ensures FractionEnd(source, offset + i) == offset + FractionEnd(text, i)
  {
    assert i < |text| ==> source[offset + i] == text[i];
    assert i + 1 < |text| ==> source[offset + (i + 1)] == text[i + 1];
    if i + 2 <= |text| { SameDigits(source, offset, text, i + 2); }
  }

  lemma SameExponent(source: string, offset: nat, text: string, i: nat)
    requires Stands(source, offset, text) && i <= |text|
    ensures ExponentEnd(source, offset + i) == offset + ExponentEnd(text, i)
  {
    assert i < |text| ==> source[offset + i] == text[i];
    assert i + 1 < |text| ==> source[offset + (i + 1)] == text[i + 1];
    assert i + 2 < |text| ==> source[offset + (i + 2)] == text[i + 2];
    if i + 2 <= |text| { SameDigits(source, offset, text, i + 2); }
    if i + 3 <= |text| { SameDigits(source, offset, text, i + 3); }
  }

  lemma SameNumber(source: string, offset: nat, text: string)
    requires Stands(source, offset, text) && text != "" && Digit(text[0])
    ensures Digit(source[offset]) && NumberEnd(source, offset) == offset + NumberEnd(text, 0)
  {
    assert source[offset + 0] == text[0];
    SameDigits(source, offset, text, 1);
    var i := if text[0] == '0' then 1 else Digits(text, 1);
    SameFraction(source, offset, text, i);
    SameExponent(source, offset, text, FractionEnd(text, i));
  }

  lemma ReadsCharacter(u: CodeUnits, source: string, start: nat, cursor: nat, c: char, done: string)
    requires Has(source, cursor, EscapeCharacter(c))
    ensures ReadString(u, source, start, '"', cursor, done)
         == ReadString(u, source, start, '"', cursor + |EscapeCharacter(c)|, done + [c])
  {
    var text := EscapeCharacter(c);
    assert source[cursor + 0] == text[0];
    if |text| == 2 { assert source[cursor + 1] == text[1]; }
  }

  /** The string reader undoes the escapes. */
  lemma {:induction false} ReadsEscaped(u: CodeUnits, source: string, start: nat, cursor: nat, value: string, done: string)
    requires Has(source, cursor, Escape(value)) && source[cursor + |Escape(value)|] == '"'
    ensures ReadString(u, source, start, '"', cursor, done) == Closed(done + value, cursor + |Escape(value)| + 1)
    decreases |value|
  {
    hide EscapeCharacter;
    if value == "" {
      assert done + value == done;
      ReadsEnd(u, source, start, cursor, done);
    } else {
      var first := EscapeCharacter(value[0]);
      assert Escape(value) == first + Escape(value[1..]);
      HasSplit(source, cursor, first, Escape(value[1..]));
      ReadsCharacter(u, source, start, cursor, value[0], done);
      ReadsEscaped(u, source, start, cursor + |first|, value[1..], done + [value[0]]);
      assert done + [value[0]] + value[1..] == done + value;
    }
  }

  lemma ReadsEnd(u: CodeUnits, source: string, start: nat, cursor: nat, done: string)
    requires cursor < |source| && source[cursor] == '"'
    ensures ReadString(u, source, start, '"', cursor, done) == Closed(done, cursor + 1)
  {
  }

  lemma ReadsQuoted(u: CodeUnits, source: string, offset: nat, value: string)
    requires Has(source, offset, "\"" + Escape(value) + "\"")
    ensures source[offset] == '"'
    ensures ReadString(u, source, offset, '"', offset + 1, "") == Closed(value, offset + |Escape(value)| + 2)
  {
    hide Escape, ReadString;
    HasSplit(source, offset, "\"" + Escape(value), "\"");
    HasSplit(source, offset, "\"", Escape(value));
    assert source[offset + 0] == "\""[0];
    assert source[offset + 1 + |Escape(value)| + 0] == "\""[0];
    ReadsEscaped(u, source, offset, offset + 1, value, "");
    assert "" + value == value;
  }

  ghost predicate ReadAs(u: CodeUnits, source: string, offset: nat, l: Lexeme) {
    && offset < |source| && !Space(source[offset])
    && var (r, next) := ReadToken(u, source, offset);
       && next == offset + |Write(l)| && r.Tokens? && |r.tokens| == 1
       && r.tokens[0].kind == l.kind && r.tokens[0].value == l.value
  }

  lemma Sliced(source: string, offset: nat, text: string)
    requires Has(source, offset, text)
    ensures source[offset..offset + |text|] == text
  {
    forall k | 0 <= k < |text| ensures source[offset..offset + |text|][k] == text[k] {
      assert source[offset + k] == text[k];
    }
  }

  lemma ReadsWord(u: CodeUnits, source: string, offset: nat, l: Lexeme)
    requires Spelled(l) && Stands(source, offset, l.value) && l.kind.Identifier?
    ensures ReadAs(u, source, offset, l)
  {
    var text := l.value;
    assert source[offset + 0] == text[0];
    forall k | offset + 1 <= k < offset + |text| ensures WordCharacter(source[k]) {
      assert source[offset + (k - offset)] == text[k - offset];
    }
    ReadsRun(source, offset + 1, offset + |text|, WordCharacter);
    Sliced(source, offset, text);
  }

  lemma ReadsNumeral(u: CodeUnits, source: string, offset: nat, l: Lexeme)
    requires Spelled(l) && Stands(source, offset, l.value) && l.kind.Numeral?
    ensures ReadAs(u, source, offset, l)
  {
    hide NumberEnd;
    SameNumber(source, offset, l.value);
    Sliced(source, offset, l.value);
  }

  /** The first character of an operator or a punctuation mark starts no other token. */
  predicate Marks(c: char) {
    !Space(c) && c != '\'' && c != '"' && !Digit(c) && !Letter(c)
  }

  lemma OperatorMarks(l: Lexeme)
    requires Spelled(l) && (l.kind.Operator? || l.kind.Punctuation?)
    ensures l.value != "" && Marks(l.value[0])
  {
  }

  lemma ReadsPair(u: CodeUnits, source: string, offset: nat, l: Lexeme)
    requires Stands(source, offset, l.value) && l.kind.Operator? && DoubleOperator(l.value) && Marks(source[offset])
    ensures ReadAs(u, source, offset, l)
  {
    assert |l.value| == 2;
    hide NumberEnd, ReadString, Space, Digit, Letter, DoubleOperator;
    Sliced(source, offset, l.value);
  }

  lemma ReadsSingle(u: CodeUnits, source: string, offset: nat, l: Lexeme)
    requires Stands(source, offset, l.value) && Spelled(l) && |l.value| == 1 && Marks(source[offset])
    requires l.kind.Operator? || l.kind.Punctuation?
    ensures ReadAs(u, source, offset, l)
  {
    hide NumberEnd, ReadString, Space, Digit, Letter;
    assert source[offset + 0] == l.value[0];
    assert source[offset..offset + 2][1] == ' ';
    assert !DoubleOperator(source[offset..offset + 2]);
  }

  lemma ReadsMark(u: CodeUnits, source: string, offset: nat, l: Lexeme)
    requires Spelled(l) && Stands(source, offset, l.value) && (l.kind.Operator? || l.kind.Punctuation?)
    ensures ReadAs(u, source, offset, l)
  {
    hide ReadToken, Marks;
    OperatorMarks(l);
    assert source[offset + 0] == l.value[0];
    if |l.value| == 1 {
      ReadsSingle(u, source, offset, l);
    } else {
      ReadsPair(u, source, offset, l);
    }
  }

  /** One written token is read as it was written. */
  lemma ReadsToken(u: CodeUnits, source: string, offset: nat, l: Lexeme)
    requires Spelled(l) && Stands(source, offset, Write(l))
    ensures ReadAs(u, source, offset, l)
  {
    hide Spelled, Escape, ReadString, Has;
    match l.kind
    case Quoted => ReadsQuoted(u, source, offset, l.value);
    case Numeral => ReadsNumeral(u, source, offset, l);
    case Identifier => ReadsWord(u, source, offset, l);
    case Operator => ReadsMark(u, source, offset, l);
    case Punctuation => ReadsMark(u, source, offset, l);
    case Eof => NoEnd(l);
  }

  lemma NoEnd(l: Lexeme)
    requires Spelled(l)
    ensures !l.kind.Eof?
  {
  }

  ghost predicate AllSpelled(q: seq<Lexeme>) {
    forall k :: 0 <= k < |q| ==> Spelled(q[k])
  }

  ghost predicate Lexes(r: Lexing, q: seq<Lexeme>) {
    r.Tokens? && |r.tokens| == |q| + 1 && (forall k :: 0 <= k < |q| ==> Is(r.tokens[k], q[k])) && Is(r.tokens[|q|], END)
  }

  lemma LexesNext(token: Token, rest: Lexing, q: seq<Lexeme>)
    requires q != [] && Is(token, q[0]) && Lexes(rest, q[1..])
    ensures Lexes(Prepend(token, rest), q)
  {
    var all := Prepend(token, rest).tokens;
    forall k | 0 <= k < |q| ensures Is(all[k], q[k]) {
      if k > 0 { assert Is(rest.tokens[k - 1], q[1..][k - 1]); }
    }
  }

  lemma TokenizesOne(u: CodeUnits, source: string, offset: nat, q: seq<Lexeme>)
    requires q != [] && ReadAs(u, source, offset, q[0]) && offset + |Write(q[0])| < |source|
    requires source[offset + |Write(q[0])|] == ' '
    requires Lexes(Tokenize(u, source, offset + |Write(q[0])| + 1), q[1..])
    ensures Lexes(Tokenize(u, source, offset), q)
  {
    hide Write, ReadToken, Lexes, Spelled;
    var next := offset + |Write(q[0])|;
    SkipsSpace(u, source, next);
    LexesNext(ReadToken(u, source, offset).0.tokens[0], Tokenize(u, source, next), q);
  }

  /** Written tokens are tokenized as they were written. */
  lemma {:induction false} Tokenizes(u: CodeUnits, source: string, offset: nat, q: seq<Lexeme>)
    requires AllSpelled(q) && offset <= |source| && source[offset..] == Render(q)
    ensures Lexes(Tokenize(u, source, offset), q)
    decreases |q|, 1
  {
    if q != [] {
      TokenizesNext(u, source, offset, q);
    }
  }

  lemma {:induction false} TokenizesNext(u: CodeUnits, source: string, offset: nat, q: seq<Lexeme>)
    requires q != [] && AllSpelled(q) && offset <= |source| && source[offset..] == Render(q)
    ensures Lexes(Tokenize(u, source, offset), q)
    decreases |q|, 0
  {
    hide Spelled, Write, ReadToken, Render, Tokenize, Lexes, ReadAs;
    RendersFirst(source, offset, q);
    ReadsToken(u, source, offset, q[0]);
    Tokenizes(u, source, offset + |Write(q[0])| + 1, q[1..]);
    TokenizesOne(u, source, offset, q);
  }

  lemma RendersFirst(source: string, offset: nat, q: seq<Lexeme>)
    requires q != [] && offset <= |source| && source[offset..] == Render(q)
    ensures Stands(source, offset, Write(q[0])) && source[offset + |Write(q[0])| + 1..] == Render(q[1..])
  {
    hide Write;
    var text := Write(q[0]);
    var all := Render(q);
    assert all == text + " " + Render(q[1..]);
    forall k | 0 <= k < |text| ensures source[offset + k] == text[k] {
      assert source[offset..][k] == all[k];
    }
    assert source[offset..][|text|] == all[|text|] == ' ';
    assert source[offset..][|text| + 1..] == all[|text| + 1..] == Render(q[1..]);
  }

  lemma SkipsSpace(u: CodeUnits, source: string, offset: nat)
    requires offset < |source| && source[offset] == ' '
    ensures Tokenize(u, source, offset) == Tokenize(u, source, offset + 1)
  {
  }

  // Everything that is printed is spelled

  lemma SpelledJoined(p: seq<Lexeme>, q: seq<Lexeme>)
    requires AllSpelled(p) && AllSpelled(q)
    ensures AllSpelled(p + q)
  {
  }

  lemma SpelledAround(p: seq<Lexeme>, m: Lexeme, q: seq<Lexeme>)
    requires AllSpelled(p) && Spelled(m) && AllSpelled(q)
    ensures AllSpelled(p + [m] + q)
  {
  }

  lemma SpelledMarks()
    ensures Spelled(Mark("(")) && Spelled(Mark(")")) && Spelled(Mark("[")) && Spelled(Mark("]"))
    ensures Spelled(Mark("{")) && Spelled(Mark("}")) && Spelled(Mark("?")) && Spelled(Mark(":")) && Spelled(Mark(","))
  {
  }

  lemma OperatorSpelled(op: string)
    requires Rank(op) > 0 || Prefix(op)
    ensures Spelled(Lexeme(Operator, op))
  {
  }

  lemma WordsSpelled(x: Language, e: Expr)
    requires Consistent(x) && WellFormed(x, e) && (e.Null? || e.Truth? || e.Num? || e.Text? || e.Input?)
    ensures AllSpelled(Body(x.w, e))
  {
  }

  lemma {:induction false} PrintSpells(x: Language, e: Expr, level: nat)
    requires Consistent(x) && WellFormed(x, e)
    ensures AllSpelled(Print(x.w, e, level))
    decreases e, 2, 0
  {
    hide WellFormed, Consistent, Spelled, Body, Rank, AllSpelled;
    BodySpells(x, e);
    SpelledMarks();
    SpelledBetween(Mark("("), Body(x.w, e), Mark(")"));
  }

  lemma SpelledBetween(m: Lexeme, q: seq<Lexeme>, n: Lexeme)
    requires Spelled(m) && AllSpelled(q) && Spelled(n)
    ensures AllSpelled([m] + q + [n])
  {
  }

  lemma {:induction false} BodySpells(x: Language, e: Expr)
    requires Consistent(x) && WellFormed(x, e)
    ensures AllSpelled(Body(x.w, e))
    decreases e, 1, 0
  {
    hide Consistent, Spelled, Print, Rank, AllSpelled, PrintElements, PrintEntries, Prefix, Writable, DistinctKeys;
    SpelledMarks();
    match e
    case Unary(op, y) =>
      OperatorSpelled(op);
      PrintSpells(x, y, UNARY);
      SpelledPrefix(Lexeme(Operator, op), Print(x.w, y, UNARY));
    case Binary(op, l, r) =>
      OperatorSpelled(op);
      PrintSpells(x, l, Rank(op));
      PrintSpells(x, r, Rank(op) + 1);
      SpelledAround(Print(x.w, l, Rank(op)), Lexeme(Operator, op), Print(x.w, r, Rank(op) + 1));
    case Conditional(c, t, f) =>
      PrintSpells(x, c, 1);
      PrintSpells(x, t, 0);
      PrintSpells(x, f, 0);
      SpelledAround(Print(x.w, c, 1), Mark("?"), Print(x.w, t, 0));
      SpelledAround(Print(x.w, c, 1) + [Mark("?")] + Print(x.w, t, 0), Mark(":"), Print(x.w, f, 0));
    case Array(_) =>
      ElementsSpell(x, e, 0);
      SpelledBetween(Mark("["), PrintElements(x.w, e, 0), Mark("]"));
    case Object(_) =>
      EntriesSpell(x, e, 0);
      SpelledBetween(Mark("{"), PrintEntries(x.w, e, 0), Mark("}"));
    case _ => WordsSpelled(x, e);
  }

  lemma SpelledPrefix(m: Lexeme, q: seq<Lexeme>)
    requires Spelled(m) && AllSpelled(q)
    ensures AllSpelled([m] + q)
  {
  }

  lemma {:induction false} ElementsSpell(x: Language, e: Expr, k: nat)
    requires Consistent(x) && WellFormed(x, e) && e.Array? && k <= |e.elements|
    ensures AllSpelled(PrintElements(x.w, e, k))
    decreases e, 0, |e.elements| - k
  {
    hide Consistent, Spelled, Print, AllSpelled, Writable, DistinctKeys;
    NothingSpelled();
    if k < |e.elements| {
      SpelledMarks();
      PrintSpells(x, e.elements[k], 0);
      ElementsSpell(x, e, k + 1);
      var first := Print(x.w, e.elements[k], 0);
      if k + 1 < |e.elements| {
        assert PrintElements(x.w, e, k) == first + [Mark(",")] + PrintElements(x.w, e, k + 1);
        SpelledAround(first, Mark(","), PrintElements(x.w, e, k + 1));
      } else {
        assert PrintElements(x.w, e, k) == first;
      }
    }
  }

  lemma NothingSpelled()
    ensures AllSpelled([])
  {
  }

  lemma {:induction false} EntriesSpell(x: Language, e: Expr, k: nat)
    requires Consistent(x) && WellFormed(x, e) && e.Object? && k <= |e.entries|
    ensures AllSpelled(PrintEntries(x.w, e, k))
    decreases e, 0, |e.entries| - k
  {
    hide Consistent, Spelled, Print, AllSpelled, Writable, DistinctKeys, PrintEntry;
    NothingSpelled();
    if k < |e.entries| {
      assert e.entries[k].value < e.entries[k] < e;
      SpelledMarks();
      PrintSpells(x, e.entries[k].value, 0);
      EntrySpelled(x.w, e.entries[k]);
      EntriesSpell(x, e, k + 1);
      var first := PrintEntry(x.w, e.entries[k]);
      if k + 1 < |e.entries| {
        assert PrintEntries(x.w, e, k) == first + [Mark(",")] + PrintEntries(x.w, e, k + 1);
        SpelledAround(first, Mark(","), PrintEntries(x.w, e, k + 1));
      } else {
        assert PrintEntries(x.w, e, k) == first;
      }
    }
  }

  lemma EntrySpelled(w: Notation, entry: Entry)
    requires AllSpelled(Print(w, entry.value, 0))
    ensures AllSpelled(PrintEntry(w, entry))
  {
    hide Print;
    SpelledMarks();
    SpelledJoined([Lexeme(Quoted, entry.key), Mark(":")], Print(w, entry.value, 0));
  }

  // Whole programs

  /**
   Writing a tree out as text and reading the text again gives the tree back exactly when no part of it is a trap.
   */
  lemma {:induction false} TextRoundTrip(u: CodeUnits, x: Language, e: Expr)
    requires Consistent(x) && WellFormed(x, e)
    ensures var r := Tokenize(u, Render(Print(x.w, e, 0)), 0);
      && r.Tokens?
      && (ParseAll(x.d, r.tokens) == Parsed(e, |r.tokens| - 1) <==> TrapFree(x.w, e))
  {
    hide Print, Render, Tokenize, WellFormed, TrapFree, Consistent, Spelled, Lexed, Parse, ParseAll, Program;
    var source := Render(Print(x.w, e, 0));
    assert source[0..] == source;
    PrintSpells(x, e, 0);
    Tokenizes(u, source, 0, Print(x.w, e, 0));
    LexesProgram(x, Tokenize(u, source, 0), e);
    RoundTrip(x, Tokenize(u, source, 0).tokens, e);
  }

  lemma LexesProgram(x: Language, r: Lexing, e: Expr)
    requires Lexes(r, Print(x.w, e, 0))
    ensures Program(x, r.tokens, e)
  {
    hide Print;
    var q := Print(x.w, e, 0);
    forall k | 0 <= k < |q + [END]| ensures Is(r.tokens[k], (q + [END])[k]) {
      if k < |q| { assert (q + [END])[k] == q[k]; }
    }
  }
}
