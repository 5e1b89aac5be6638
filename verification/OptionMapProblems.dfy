/** What is wrong with a rejected text: every problem that is reported is there, at the place that is named. */
module OptionMapProblems {
  import opened OptionMapSyntax
  import opened OptionMapGrammar
  import opened OptionMapLexer

  // The tokenizer

  predicate Hexed(source: string, i: nat) {
    i + 4 <= |source| && forall k :: i <= k < i + 4 ==> Hexadecimal(source[k])
  }

  /** The problem is in the source; strings are told by the quote that opens them. */
  ghost predicate InSource(source: string, problem: LexProblem) {
    match problem
    case UnsupportedToken(c, k) =>
      && k < |source| && source[k] == c && !Space(c) && !WordCharacter(c)
      && c !in {'\'', '"', '+', '-', '*', '/', '%', '!', '<', '>', '{', '}', '[', ']', '(', ')', ',', ':', '?', '.'}
    case UnterminatedString(k) => k < |source| && source[k] in {'\'', '"'}
    case UnterminatedEscape(k) => k + 1 == |source| && source[k] == '\\'
    case InvalidUnicodeEscape(k) => k + 1 < |source| && source[k] == '\\' && source[k + 1] == 'u' && !Hexed(source, k + 2)
    case UnsupportedEscape(c, k) =>
      && k + 1 < |source| && source[k] == '\\' && source[k + 1] == c
      && c !in {'\'', '"', '\\', 'b', 'f', 'n', 'r', 't', 'u'}
  }

  lemma {:induction false} StringProblems(
      u: CodeUnits, source: string, start: nat, quote: char, cursor: nat, value: string)
    requires start < cursor <= |source| && source[start] == quote && (quote == '\'' || quote == '"')
    ensures var q := ReadString(u, source, start, quote, cursor, value); q.Broken? ==> InSource(source, q.problem)
    decreases |source| - cursor
  {
    if cursor < |source| && source[cursor] != quote && source[cursor] != '\n' && source[cursor] != '\r' {
      if source[cursor] != '\\' {
        StringProblems(u, source, start, quote, cursor + 1, value + [source[cursor]]);
      } else if cursor + 1 < |source| {
        var escaped := source[cursor + 1];
        if HasSimpleEscape(escaped) {
          StringProblems(u, source, start, quote, cursor + 2, value + [SimpleEscape(escaped)]);
        } else if escaped == 'u' && FourHex(source, cursor + 2) {
          StringProblems(u, source, start, quote, cursor + 6, value + [u(CodeUnit(source, cursor + 2))]);
        }
      }
    }
  }

  lemma {:induction false} LexicalProblems(u: CodeUnits, source: string, offset: nat)
    requires offset <= |source|
    ensures var r := Tokenize(u, source, offset); r.LexFailed? ==> InSource(source, r.problem)
    decreases |source| - offset
  {
    if offset < |source| {
      if Space(source[offset]) {
        LexicalProblems(u, source, offset + 1);
      } else {
        hide ReadString, NumberEnd, ReadWhile;
        var (first, next) := ReadToken(u, source, offset);
        if first.Tokens? {
          LexicalProblems(u, source, next);
        } else if source[offset] == '\'' || source[offset] == '"' {
          StringProblems(u, source, offset, source[offset], offset + 1, "");
        }
      }
    }
  }

  // The parser

  /** The problem is at token `k`. */
  ghost predicate AtToken(d: Dialect, tokens: seq<Token>, k: nat, problem: Problem)
    requires k < |tokens|
  {
    var token := tokens[k];
    match problem
    case MemberAccess(offset) => token.offset == offset && token.value == "."
    case FunctionCall(offset) => token.offset == offset && token.value == "("
    case Unexpected(value, offset) => token.offset == offset && token.value == value
    case Expected(value, offset) => token.offset == offset && token.value != value && value in {":", ")", "]", "}"}
    case UnsafeNumber(offset) => token.offset == offset && token.kind.Numeral? && !d.safe(d.read(token.value))
    case UnknownIdentifier(value, offset) =>
      && token.offset == offset && token.kind.Identifier? && token.value == value
      && value !in {d.variable, "true", "false", "null"}
    case KeyNotString(offset) => token.offset == offset && !token.kind.Quoted?
    case DuplicateKey(value, offset) =>
      && token.offset == offset && token.kind.Quoted? && token.value == value
      && exists j :: 0 <= j < k && tokens[j].kind.Quoted? && tokens[j].value == value
  }

  ghost predicate InTokens(d: Dialect, tokens: seq<Token>, problem: Problem) {
    exists k :: 0 <= k < |tokens| && AtToken(d, tokens, k, problem)
  }

  ghost predicate Told(d: Dialect, tokens: seq<Token>, r: Outcome) {
    r.Failed? ==> InTokens(d, tokens, r.problem)
  }

  lemma Tells(d: Dialect, tokens: seq<Token>, k: nat, problem: Problem)
    requires k < |tokens| && AtToken(d, tokens, k, problem)
    ensures InTokens(d, tokens, problem)
  {
  }

  lemma {:induction false} ParseProblems(d: Dialect, tokens: seq<Token>, level: nat, i: nat)
    requires Lexed(tokens) && i < |tokens| && level <= PRIMARY
    ensures Told(d, tokens, Parse(d, tokens, level, i))
    decreases |tokens| - i, 1, 2 * (PRIMARY - level)
  {
    hide InTokens, Sensible, Texts, Quotes;
    if level == CONDITIONAL {
      ConditionalProblems(d, tokens, i);
    } else if level < UNARY {
      ParseProblems(d, tokens, level + 1, i);
      var left := Parse(d, tokens, level + 1, i);
      if left.Parsed? { OpsProblems(d, tokens, level, left.value, left.next); }
    } else if level == UNARY {
      if tokens[i].kind.Operator? && Prefix(tokens[i].value) {
        ParseProblems(d, tokens, UNARY, i + 1);
      } else {
        ParseProblems(d, tokens, PRIMARY, i);
      }
    } else {
      PrimaryProblems(d, tokens, i);
    }
  }

  lemma {:induction false} ConditionalProblems(d: Dialect, tokens: seq<Token>, i: nat)
    requires Lexed(tokens) && i < |tokens|
    ensures Told(d, tokens, ParseConditional(d, tokens, i))
    decreases |tokens| - i, 1, 15
  {
    hide InTokens, Sensible, Texts, Quotes;
    ParseProblems(d, tokens, 1, i);
    var c := Parse(d, tokens, 1, i);
    if c.Parsed? && tokens[c.next].value == "?" {
      ParseProblems(d, tokens, CONDITIONAL, c.next + 1);
      var t := Parse(d, tokens, CONDITIONAL, c.next + 1);
      if t.Parsed? {
        if tokens[t.next].value == ":" {
          ParseProblems(d, tokens, CONDITIONAL, t.next + 1);
        } else {
          Tells(d, tokens, t.next, Expected(":", tokens[t.next].offset));
        }
      }
    }
  }

  lemma {:induction false} OpsProblems(d: Dialect, tokens: seq<Token>, level: nat, left: Expr, i: nat)
    requires Lexed(tokens) && i < |tokens| && 0 < level < UNARY
    ensures Told(d, tokens, ParseOps(d, tokens, level, left, i))
    decreases |tokens| - i, 0
  {
    hide InTokens, Sensible, Texts, Quotes;
    if tokens[i].kind.Operator? && Rank(tokens[i].value) == level {
      ParseProblems(d, tokens, level + 1, i + 1);
      var right := Parse(d, tokens, level + 1, i + 1);
      if right.Parsed? { OpsProblems(d, tokens, level, Binary(tokens[i].value, left, right.value), right.next); }
    }
  }

  lemma WordProblems(d: Dialect, tokens: seq<Token>, i: nat)
    requires i + 1 < |tokens| && tokens[i].kind.Identifier?
    ensures Told(d, tokens, ParseWord(d, tokens[i], tokens[i + 1], i + 1))
  {
    hide InTokens;
    var r := ParseWord(d, tokens[i], tokens[i + 1], i + 1);
    if r.Failed? { Tells(d, tokens, if r.problem.FunctionCall? then i + 1 else i, r.problem); }
  }

  lemma {:induction false} PrimaryProblems(d: Dialect, tokens: seq<Token>, i: nat)
    requires Lexed(tokens) && i < |tokens|
    ensures Told(d, tokens, ParsePrimary(d, tokens, i))
    decreases |tokens| - i, 0
  {
    hide InTokens, Sensible, Texts, Quotes, ParseWord;
    var token := tokens[i];
    if token.kind.Numeral? {
      if !d.safe(d.read(token.value)) { Tells(d, tokens, i, UnsafeNumber(token.offset)); }
    } else if token.kind.Quoted? {
    } else if token.kind.Identifier? {
      WordProblems(d, tokens, i);
    } else if token.value == "(" {
      ParseProblems(d, tokens, CONDITIONAL, i + 1);
      var e := Parse(d, tokens, CONDITIONAL, i + 1);
      if e.Parsed? && tokens[e.next].value != ")" { Tells(d, tokens, e.next, Expected(")", tokens[e.next].offset)); }
    } else if token.value == "[" {
      if tokens[i + 1].value != "]" { ElementsProblems(d, tokens, [], i + 1); }
    } else if token.value == "{" {
      if tokens[i + 1].value != "}" { EntriesProblems(d, tokens, [], i + 1); }
    } else {
      Tells(d, tokens, i, Unexpected(token.value, token.offset));
    }
  }

  lemma {:induction false} ElementsProblems(d: Dialect, tokens: seq<Token>, done: seq<Expr>, i: nat)
    requires Lexed(tokens) && i < |tokens|
    ensures Told(d, tokens, ParseElements(d, tokens, done, i))
    decreases |tokens| - i, 2
  {
    hide InTokens, Sensible, Texts, Quotes;
    ParseProblems(d, tokens, CONDITIONAL, i);
    var r := Parse(d, tokens, CONDITIONAL, i);
    if r.Parsed? {
      if tokens[r.next].value == "," {
        ElementsProblems(d, tokens, done + [r.value], r.next + 1);
      } else if tokens[r.next].value != "]" {
        Tells(d, tokens, r.next, Expected("]", tokens[r.next].offset));
      }
    }
  }

  /** The keys so far are earlier strings. */
  ghost predicate KeysRead(tokens: seq<Token>, done: seq<Entry>, i: nat)
    requires i <= |tokens|
  {
    forall k :: 0 <= k < |done| ==> exists j :: 0 <= j < i && tokens[j].kind.Quoted? && tokens[j].value == done[k].key
  }

  lemma ReadsKey(tokens: seq<Token>, done: seq<Entry>, i: nat, entry: Entry, j: nat)
    requires i < j <= |tokens| && KeysRead(tokens, done, i) && tokens[i].kind.Quoted? && tokens[i].value == entry.key
    ensures KeysRead(tokens, done + [entry], j)
  {
    forall k | 0 <= k < |done + [entry]|
      ensures exists m :: 0 <= m < j && tokens[m].kind.Quoted? && tokens[m].value == (done + [entry])[k].key {
      if k < |done| {
        var m :| 0 <= m < i && tokens[m].kind.Quoted? && tokens[m].value == done[k].key;
        assert tokens[m].value == (done + [entry])[k].key;
      } else {
        assert tokens[i].value == (done + [entry])[k].key;
      }
    }
  }

  lemma RepeatsKey(d: Dialect, tokens: seq<Token>, done: seq<Entry>, i: nat)
    requires i < |tokens| && KeysRead(tokens, done, i) && tokens[i].kind.Quoted? && HasKey(done, tokens[i].value)
    ensures InTokens(d, tokens, DuplicateKey(tokens[i].value, tokens[i].offset))
  {
    var k :| 0 <= k < |done| && done[k].key == tokens[i].value;
    Tells(d, tokens, i, DuplicateKey(tokens[i].value, tokens[i].offset));
  }

  lemma {:induction false} EntriesProblems(d: Dialect, tokens: seq<Token>, done: seq<Entry>, i: nat)
    requires Lexed(tokens) && i < |tokens| && KeysRead(tokens, done, i)
    ensures Told(d, tokens, ParseEntries(d, tokens, done, i))
    decreases |tokens| - i, 2
  {
    hide InTokens, Sensible, Texts, Quotes, HasKey, KeysRead;
    if !tokens[i].kind.Quoted? {
      Tells(d, tokens, i, KeyNotString(tokens[i].offset));
    } else if HasKey(done, tokens[i].value) {
      RepeatsKey(d, tokens, done, i);
    } else if tokens[i + 1].value != ":" {
      Tells(d, tokens, i + 1, Expected(":", tokens[i + 1].offset));
    } else {
      ParseProblems(d, tokens, CONDITIONAL, i + 2);
      var r := Parse(d, tokens, CONDITIONAL, i + 2);
      if r.Parsed? {
        var entry := Entry(tokens[i].value, r.value);
        if tokens[r.next].value == "," {
          ReadsKey(tokens, done, i, entry, r.next + 1);
          EntriesProblems(d, tokens, done + [entry], r.next + 1);
        } else if tokens[r.next].value != "}" {
          Tells(d, tokens, r.next, Expected("}", tokens[r.next].offset));
        }
      }
    }
  }

  /** What a rejected program is told is true of its tokens. */
  lemma ProgramProblems(d: Dialect, tokens: seq<Token>)
    requires Lexed(tokens)
    ensures Told(d, tokens, ParseAll(d, tokens))
  {
    hide InTokens, Sensible, Texts, Quotes;
    ParseProblems(d, tokens, CONDITIONAL, 0);
    var r := ParseAll(d, tokens);
    var e := Parse(d, tokens, CONDITIONAL, 0);
    if e.Parsed? && r.Failed? { Tells(d, tokens, e.next, r.problem); }
  }

  /** A word before a parenthesis is refused as a call wherever an expression may start. */
  lemma {:induction false} CallsAreRefused(d: Dialect, tokens: seq<Token>, level: nat, i: nat)
    requires Lexed(tokens) && i + 1 < |tokens| && level <= PRIMARY
    requires tokens[i].kind.Identifier? && tokens[i + 1].value == "("
    ensures Parse(d, tokens, level, i) == Failed(FunctionCall(tokens[i + 1].offset))
    decreases PRIMARY - level
  {
    hide Sensible, Texts, Quotes;
    if level < PRIMARY { CallsAreRefused(d, tokens, level + 1, i); }
  }
}
