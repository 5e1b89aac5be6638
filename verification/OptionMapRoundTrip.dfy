/** Parsing the printed form of a tree gives the tree back, unless a string token passes for a closing bracket. */
module OptionMapRoundTrip {
  import opened OptionMapSyntax
  import opened OptionMapGrammar
  import opened OptionMapLexer

  /** How the parser reads what the notation writes. */
  datatype Language = Language(d: Dialect, w: Notation)

  /** The variable is one of the two model options. */
  predicate Consistent(x: Language) {
    x.w.variable == x.d.variable && (x.d.variable == "reasoningLevel" || x.d.variable == "maxOutputTokens")
  }

  /** The number is JSON-safe and has a numeral of the language: it is not negative. */
  predicate Writable(x: Language, n: Number) {
    x.d.read(x.w.show(n)) == n && x.d.safe(n) && Spelled(Lexeme(Numeral, x.w.show(n)))
  }

  /** Trees that a program can denote: known operators, writable numbers, distinct keys. */
  ghost predicate WellFormed(x: Language, e: Expr)
    decreases e
  {
    match e
    case Num(n) => Writable(x, n)
    case Array(es) => forall k :: 0 <= k < |es| ==> WellFormed(x, es[k])
    case Object(entries) => DistinctKeys(entries) && forall k :: 0 <= k < |entries| ==> WellFormed(x, entries[k].value)
    case Unary(op, y) => Prefix(op) && WellFormed(x, y)
    case Binary(op, l, r) => Rank(op) > 0 && WellFormed(x, l) && WellFormed(x, r)
    case Conditional(c, t, f) => WellFormed(x, c) && WellFormed(x, t) && WellFormed(x, f)
    case _ => true
  }

  /** The array starts with the string token "]", or the object with the key "}". */
  predicate Trap(w: Notation, e: Expr) {
    || (e.Array? && e.elements != [] && Print(w, e.elements[0], 0)[0] == Lexeme(Quoted, "]"))
    || (e.Object? && e.entries != [] && e.entries[0].key == "}")
  }

  /** No part of the tree is a trap. */
  ghost predicate TrapFree(w: Notation, e: Expr)
    decreases e
  {
    !Trap(w, e) &&
    match e
    case Array(es) => forall k :: 0 <= k < |es| ==> TrapFree(w, es[k])
    case Object(entries) => forall k :: 0 <= k < |entries| ==> TrapFree(w, entries[k].value)
    case Unary(_, y) => TrapFree(w, y)
    case Binary(_, l, r) => TrapFree(w, l) && TrapFree(w, r)
    case Conditional(c, t, f) => TrapFree(w, c) && TrapFree(w, t) && TrapFree(w, f)
    case _ => true
  }

  /** The tokens at `i` are `q`, and there are more. */
  ghost predicate At(tokens: seq<Token>, i: nat, q: seq<Lexeme>) {
    i + |q| < |tokens| && forall k :: 0 <= k < |q| ==> tokens[i + k].kind == q[k].kind && tokens[i + k].value == q[k].value
  }

  lemma AtSplit(tokens: seq<Token>, i: nat, p: seq<Lexeme>, q: seq<Lexeme>)
    ensures At(tokens, i, p + q) <==> At(tokens, i, p) && At(tokens, i + |p|, q)
  {
    var r := p + q;
    if At(tokens, i, p) && At(tokens, i + |p|, q) {
      forall k | 0 <= k < |r| ensures tokens[i + k].kind == r[k].kind && tokens[i + k].value == r[k].value {
        if k >= |p| {
          assert tokens[i + |p| + (k - |p|)].kind == q[k - |p|].kind;
        }
      }
    }
    if At(tokens, i, r) {
      forall k | 0 <= k < |q| ensures tokens[i + |p| + k].kind == q[k].kind && tokens[i + |p| + k].value == q[k].value {
        assert r[|p| + k] == q[k];
      }
      forall k | 0 <= k < |p| ensures tokens[i + k].kind == p[k].kind && tokens[i + k].value == p[k].value {
        assert r[k] == p[k];
      }
    }
  }

  /** The token can follow an expression of this precedence without being taken as part of it. */
  predicate Stops(token: Token, level: nat) {
    && token.value != "(" && (level == 0 ==> token.value != "?")
    && (token.kind.Operator? ==> Rank(token.value) < level || Rank(token.value) == 0)
  }

  lemma Starts(x: Language, e: Expr, level: nat)
    requires Consistent(x) && WellFormed(x, e)
    ensures var first := Print(x.w, e, level)[0];
      && (first.value == "]" || first.value == "}" ==> first.kind.Quoted?)
      && (level == PRIMARY ==> !first.kind.Operator?) && !first.kind.Eof?
    decreases e
  {
    match e
    case Binary(op, l, r) => Starts(x, l, Rank(op));
    case Conditional(c, t, f) => Starts(x, c, 1);
    case _ =>
  }

  ghost predicate Printed(x: Language, tokens: seq<Token>, e: Expr, level: nat, i: nat) {
    && Lexed(tokens) && Consistent(x) && level <= PRIMARY
    && At(tokens, i, Print(x.w, e, level))
  }

  function End(x: Language, e: Expr, level: nat, i: nat): nat {
    i + |Print(x.w, e, level)|
  }

  // The parts of a printed tree

  ghost predicate Is(token: Token, lexeme: Lexeme) {
    token.kind == lexeme.kind && token.value == lexeme.value
  }

  lemma SplitThree(tokens: seq<Token>, i: nat, p: seq<Lexeme>, m: Lexeme, q: seq<Lexeme>)
    requires At(tokens, i, p + [m] + q)
    ensures At(tokens, i, p) && At(tokens, i + |p| + 1, q) && Is(tokens[i + |p|], m)
  {
    AtSplit(tokens, i, p + [m], q);
    AtSplit(tokens, i, p, [m]);
    assert tokens[i + |p| + 0].kind == [m][0].kind;
  }

  lemma SplitFive(
      tokens: seq<Token>, i: nat, p: seq<Lexeme>, m: Lexeme, q: seq<Lexeme>, n: Lexeme, r: seq<Lexeme>)
    requires At(tokens, i, p + [m] + q + [n] + r)
    ensures At(tokens, i, p) && At(tokens, i + |p| + 1, q) && At(tokens, i + |p| + 1 + |q| + 1, r)
    ensures Is(tokens[i + |p|], m) && Is(tokens[i + |p| + 1 + |q|], n)
  {
    SplitThree(tokens, i, p + [m] + q, n, r);
    SplitThree(tokens, i, p, m, q);
  }

  /** Something between brackets. */
  lemma SplitBrackets(tokens: seq<Token>, i: nat, m: Lexeme, q: seq<Lexeme>, n: Lexeme)
    requires At(tokens, i, [m] + q + [n])
    ensures Is(tokens[i], m) && At(tokens, i + 1, q) && Is(tokens[i + 1 + |q|], n)
  {
    assert [m] + q + [n] == [] + [m] + q + [n] + [];
    SplitFive(tokens, i, [], m, q, n, []);
  }

  lemma ConditionalPrint(w: Notation, e: Expr)
    requires e.Conditional?
    ensures Print(w, e, 0) == Print(w, e.condition, 1) + [Mark("?")] + Print(w, e.whenTrue, 0) + [Mark(":")]
                              + Print(w, e.whenFalse, 0)
  {
    hide Rank;
  }

  lemma ConditionalParts(x: Language, tokens: seq<Token>, e: Expr, i: nat)
    requires e.Conditional? && At(tokens, i, Print(x.w, e, 0))
    ensures var j := End(x, e.condition, 1, i); var k := End(x, e.whenTrue, 0, j + 1);
      && At(tokens, i, Print(x.w, e.condition, 1)) && Is(tokens[j], Mark("?"))
      && At(tokens, j + 1, Print(x.w, e.whenTrue, 0)) && Is(tokens[k], Mark(":"))
      && At(tokens, k + 1, Print(x.w, e.whenFalse, 0))
      && End(x, e, 0, i) == End(x, e.whenFalse, 0, k + 1)
  {
    hide Print;
    ConditionalPrint(x.w, e);
    SplitFive(tokens, i, Print(x.w, e.condition, 1), Mark("?"), Print(x.w, e.whenTrue, 0), Mark(":"),
              Print(x.w, e.whenFalse, 0));
  }

  lemma BinaryPrint(w: Notation, e: Expr)
    requires e.Binary?
    ensures Print(w, e, Rank(e.op))
         == Print(w, e.left, Rank(e.op)) + [Lexeme(Operator, e.op)] + Print(w, e.right, Rank(e.op) + 1)
  {
    hide Rank;
  }

  lemma BinaryParts(x: Language, tokens: seq<Token>, e: Expr, i: nat)
    requires e.Binary? && At(tokens, i, Print(x.w, e, Rank(e.op)))
    ensures var level := Rank(e.op); var j := End(x, e.left, level, i);
      && At(tokens, i, Print(x.w, e.left, level)) && Is(tokens[j], Lexeme(Operator, e.op))
      && At(tokens, j + 1, Print(x.w, e.right, level + 1))
      && End(x, e, level, i) == End(x, e.right, level + 1, j + 1)
    ensures End(x, e, Rank(e.op), i) < |tokens| && (Rank(e.op) > 0 ==> e.op != "(")
  {
    hide Print;
    BinaryPrint(x.w, e);
    SplitThree(tokens, i, Print(x.w, e.left, Rank(e.op)), Lexeme(Operator, e.op), Print(x.w, e.right, Rank(e.op) + 1));
  }

  lemma UnaryPrint(w: Notation, e: Expr)
    requires e.Unary?
    ensures Print(w, e, UNARY) == [] + [Lexeme(Operator, e.op)] + Print(w, e.operand, UNARY)
  {
    hide Rank;
  }

  lemma UnaryParts(x: Language, tokens: seq<Token>, e: Expr, i: nat)
    requires e.Unary? && At(tokens, i, Print(x.w, e, UNARY))
    ensures Is(tokens[i], Lexeme(Operator, e.op)) && At(tokens, i + 1, Print(x.w, e.operand, UNARY))
    ensures End(x, e, UNARY, i) == End(x, e.operand, UNARY, i + 1)
  {
    hide Print;
    UnaryPrint(x.w, e);
    SplitThree(tokens, i, [], Lexeme(Operator, e.op), Print(x.w, e.operand, UNARY));
  }

  /** What stands between the brackets of a primary expression. */
  function Inner(w: Notation, e: Expr): seq<Lexeme>
    requires Level(e) < PRIMARY || e.Array? || e.Object?
  {
    if e.Array? then PrintElements(w, e, 0) else if e.Object? then PrintEntries(w, e, 0) else Print(w, e, 0)
  }

  function Opening(e: Expr): string {
    if e.Array? then "[" else if e.Object? then "{" else "("
  }

  function Closing(e: Expr): string {
    if e.Array? then "]" else if e.Object? then "}" else ")"
  }

  lemma PrimaryPrint(w: Notation, e: Expr)
    requires Level(e) < PRIMARY || e.Array? || e.Object?
    ensures Print(w, e, PRIMARY) == [Mark(Opening(e))] + Inner(w, e) + [Mark(Closing(e))]
    ensures (e.Array? && e.elements == []) || (e.Object? && e.entries == []) ==> Inner(w, e) == []
  {
    hide Rank;
  }

  lemma PrimaryParts(x: Language, tokens: seq<Token>, e: Expr, i: nat)
    requires (Level(e) < PRIMARY || e.Array? || e.Object?) && At(tokens, i, Print(x.w, e, PRIMARY))
    ensures Is(tokens[i], Mark(Opening(e))) && At(tokens, i + 1, Inner(x.w, e))
    ensures End(x, e, PRIMARY, i) == i + |Inner(x.w, e)| + 2 < |tokens|
    ensures Is(tokens[i + 1 + |Inner(x.w, e)|], Mark(Closing(e)))
    ensures (e.Array? && e.elements == []) || (e.Object? && e.entries == []) ==> Inner(x.w, e) == []
  {
    hide Print, Rank, Inner, Opening, Closing;
    PrimaryPrint(x.w, e);
    SplitBrackets(tokens, i, Mark(Opening(e)), Inner(x.w, e), Mark(Closing(e)));
  }

  lemma ElementParts(x: Language, tokens: seq<Token>, e: Expr, k: nat, i: nat)
    requires e.Array? && k < |e.elements| && At(tokens, i, PrintElements(x.w, e, k))
    ensures At(tokens, i, Print(x.w, e.elements[k], 0))
    ensures var j := End(x, e.elements[k], 0, i);
      if k + 1 == |e.elements| then |PrintElements(x.w, e, k)| == j - i
      else && Is(tokens[j], Mark(",")) && At(tokens, j + 1, PrintElements(x.w, e, k + 1))
           && |PrintElements(x.w, e, k)| == j + 1 + |PrintElements(x.w, e, k + 1)| - i
  {
    hide Print;
    var first := Print(x.w, e.elements[k], 0);
    if k + 1 == |e.elements| {
      assert PrintElements(x.w, e, k) == first;
    } else {
      var rest := PrintElements(x.w, e, k + 1);
      assert PrintElements(x.w, e, k) == first + [Mark(",")] + rest;
      SplitThree(tokens, i, first, Mark(","), rest);
    }
  }

  lemma EntryParts(x: Language, tokens: seq<Token>, e: Expr, k: nat, i: nat)
    requires e.Object? && k < |e.entries| && At(tokens, i, PrintEntries(x.w, e, k))
    ensures i + 2 < |tokens| && At(tokens, i + 2, Print(x.w, e.entries[k].value, 0))
    ensures Is(tokens[i], Lexeme(Quoted, e.entries[k].key)) && Is(tokens[i + 1], Mark(":"))
    ensures var j := End(x, e.entries[k].value, 0, i + 2);
      if k + 1 == |e.entries| then |PrintEntries(x.w, e, k)| == j - i
      else && Is(tokens[j], Mark(",")) && At(tokens, j + 1, PrintEntries(x.w, e, k + 1))
           && |PrintEntries(x.w, e, k)| == j + 1 + |PrintEntries(x.w, e, k + 1)| - i
  {
    hide Body, Print;
    var first := PrintEntry(x.w, e.entries[k]);
    if k + 1 == |e.entries| {
      assert PrintEntries(x.w, e, k) == first;
    } else {
      var rest := PrintEntries(x.w, e, k + 1);
      assert PrintEntries(x.w, e, k) == first + [Mark(",")] + rest;
      SplitThree(tokens, i, first, Mark(","), rest);
    }
    EntryTokens(x.w, tokens, e.entries[k], i);
  }

  lemma EntryTokens(w: Notation, tokens: seq<Token>, entry: Entry, i: nat)
    requires At(tokens, i, PrintEntry(w, entry))
    ensures At(tokens, i + 2, Print(w, entry.value, 0))
    ensures Is(tokens[i], Lexeme(Quoted, entry.key)) && Is(tokens[i + 1], Mark(":"))
  {
    hide Body, Print;
    var m, value := Lexeme(Quoted, entry.key), Print(w, entry.value, 0);
    assert PrintEntry(w, entry) == [] + [m] + [] + [Mark(":")] + value;
    SplitFive(tokens, i, [], m, [], Mark(":"), value);
  }

  // The parser restores trees without traps

  /** A tree that the parser restores. */
  ghost predicate Clean(x: Language, e: Expr) {
    WellFormed(x, e) && TrapFree(x.w, e)
  }

  lemma CleanParts(x: Language, e: Expr)
    requires Clean(x, e)
    ensures e.Unary? ==> Prefix(e.op) && Clean(x, e.operand)
    ensures e.Binary? ==> Rank(e.op) > 0 && Clean(x, e.left) && Clean(x, e.right)
    ensures e.Conditional? ==> Clean(x, e.condition) && Clean(x, e.whenTrue) && Clean(x, e.whenFalse)
    ensures !Trap(x.w, e) && WellFormed(x, e)
  {
  }

  lemma CleanElement(x: Language, e: Expr, k: nat)
    requires Clean(x, e) && e.Array? && k < |e.elements|
    ensures Clean(x, e.elements[k])
  {
  }

  lemma CleanEntry(x: Language, e: Expr, k: nat)
    requires Clean(x, e) && e.Object? && k < |e.entries|
    ensures Clean(x, e.entries[k].value) && !HasKey(e.entries[..k], e.entries[k].key)
  {
  }

  lemma {:induction false} Restores(x: Language, tokens: seq<Token>, e: Expr, level: nat, i: nat)
    requires Printed(x, tokens, e, level, i) && Clean(x, e) && Stops(tokens[End(x, e, level, i)], level)
    ensures Parse(x.d, tokens, level, i) == Parsed(e, End(x, e, level, i))
    decreases e, if level > Level(e) then 1 else 0, 2 * (PRIMARY - level) + 1, 0
  {
    if level == CONDITIONAL {
      if e.Conditional? {
        RestoresConditional(x, tokens, e, i);
      } else {
        RestoresUnconditional(x, tokens, e, i);
      }
    } else if level < UNARY {
      RestoresOps(x, tokens, e, level, i);
    } else if level == UNARY {
      RestoresUnary(x, tokens, e, i);
    } else {
      RestoresPrimary(x, tokens, e, i);
    }
  }

  /** A tree that is no operation of this level is printed as on the next level. */
  lemma SamePrint(w: Notation, e: Expr, level: nat)
    requires Level(e) != level
    ensures Print(w, e, level) == Print(w, e, level + 1)
  {
  }

  lemma ParsesConditional(d: Dialect, tokens: seq<Token>, i: nat, c: Outcome, t: Outcome, f: Outcome)
    requires Lexed(tokens) && i < |tokens| && Parse(d, tokens, 1, i) == c && c.Parsed?
    requires tokens[c.next].value == "?" && Parse(d, tokens, 0, c.next + 1) == t && t.Parsed?
    requires tokens[t.next].value == ":" && Parse(d, tokens, 0, t.next + 1) == f && f.Parsed?
    ensures Parse(d, tokens, 0, i) == Parsed(Conditional(c.value, t.value, f.value), f.next)
  {
  }

  lemma {:induction false} RestoresConditional(x: Language, tokens: seq<Token>, e: Expr, i: nat)
    requires e.Conditional?
    requires Printed(x, tokens, e, 0, i) && Clean(x, e) && Stops(tokens[End(x, e, 0, i)], 0)
    ensures Parse(x.d, tokens, 0, i) == Parsed(e, End(x, e, 0, i))
    decreases e, 0, 2 * PRIMARY, 0
  {
    hide Sensible, Rank, At, Print, Level, Texts, Quotes, Consistent, Clean, Parse, ParseConditional;
    ConditionalParts(x, tokens, e, i);
    CleanParts(x, e);
    var j := End(x, e.condition, 1, i);
    var k := End(x, e.whenTrue, 0, j + 1);
    Restores(x, tokens, e.condition, 1, i);
    Restores(x, tokens, e.whenTrue, 0, j + 1);
    Restores(x, tokens, e.whenFalse, 0, k + 1);
    ParsesConditional(x.d, tokens, i, Parsed(e.condition, j), Parsed(e.whenTrue, k),
                      Parsed(e.whenFalse, End(x, e, 0, i)));
  }

  lemma {:induction false} RestoresUnconditional(x: Language, tokens: seq<Token>, e: Expr, i: nat)
    requires !e.Conditional?
    requires Printed(x, tokens, e, 0, i) && Clean(x, e) && Stops(tokens[End(x, e, 0, i)], 0)
    ensures Parse(x.d, tokens, 0, i) == Parsed(e, End(x, e, 0, i))
    decreases e, 0, 2 * PRIMARY, 0
  {
    hide Sensible, Rank, At, Print, Texts, Quotes, Clean;
    CleanParts(x, e);
    assert Level(e) != 0;
    SamePrint(x.w, e, 0);
    Restores(x, tokens, e, 1, i);
  }

  lemma OperandFirst(d: Dialect, tokens: seq<Token>, level: nat, i: nat, e: Outcome)
    requires Lexed(tokens) && i < |tokens| && 0 < level < UNARY && Parse(d, tokens, level + 1, i) == e && e.Parsed?
    ensures Parse(d, tokens, level, i) == ParseOps(d, tokens, level, e.value, e.next)
  {
  }

  lemma TakesOperator(d: Dialect, tokens: seq<Token>, level: nat, left: Expr, j: nat, right: Outcome)
    requires Lexed(tokens) && j + 1 < |tokens| && 0 < level < UNARY
    requires tokens[j].kind.Operator? && Rank(tokens[j].value) == level
    requires Parse(d, tokens, level + 1, j + 1) == right && right.Parsed?
    ensures ParseOps(d, tokens, level, left, j)
         == ParseOps(d, tokens, level, Binary(tokens[j].value, left, right.value), right.next)
  {
  }

  /** Parsing at a binary level reads the tree, and goes on with the operators of that level behind it. */
  lemma {:induction false} RestoresOps(x: Language, tokens: seq<Token>, e: Expr, level: nat, i: nat)
    requires Printed(x, tokens, e, level, i) && Clean(x, e) && 0 < level < UNARY
    requires Stops(tokens[End(x, e, level, i)], level + 1)
    ensures Parse(x.d, tokens, level, i) == ParseOps(x.d, tokens, level, e, End(x, e, level, i))
    ensures Texts(e) + Quotes(tokens, i) <= Quotes(tokens, End(x, e, level, i))
    decreases e, if level > Level(e) then 1 else 0, 2 * (PRIMARY - level), 0
  {
    hide Sensible, Rank, At, Print, Clean, Parse, ParseOps;
    CleanParts(x, e);
    if e.Binary? && Rank(e.op) == level {
      BinaryParts(x, tokens, e, i);
      var j := End(x, e.left, level, i);
      RestoresOps(x, tokens, e.left, level, i);
      Restores(x, tokens, e.right, level + 1, j + 1);
      TakesOperator(x.d, tokens, level, e.left, j, Parsed(e.right, End(x, e, level, i)));
    } else {
      SamePrint(x.w, e, level);
      Restores(x, tokens, e, level + 1, i);
      OperandFirst(x.d, tokens, level, i, Parsed(e, End(x, e, level, i)));
    }
  }

  lemma NoPrefix(x: Language, tokens: seq<Token>, e: Expr, i: nat)
    requires Printed(x, tokens, e, UNARY, i) && WellFormed(x, e) && !e.Unary?
    ensures !tokens[i].kind.Operator? && Print(x.w, e, UNARY) == Print(x.w, e, PRIMARY)
  {
    assert tokens[i + 0].kind == Print(x.w, e, UNARY)[0].kind;
    SamePrint(x.w, e, UNARY);
    Starts(x, e, PRIMARY);
  }

  lemma {:induction false} RestoresUnary(x: Language, tokens: seq<Token>, e: Expr, i: nat)
    requires Printed(x, tokens, e, UNARY, i) && Clean(x, e) && Stops(tokens[End(x, e, UNARY, i)], UNARY)
    ensures Parse(x.d, tokens, UNARY, i) == Parsed(e, End(x, e, UNARY, i))
    decreases e, if UNARY > Level(e) then 1 else 0, 2, 0
  {
    hide Sensible, Rank, At, Print, Texts, Quotes, Clean;
    if e.Unary? {
      UnaryParts(x, tokens, e, i);
      CleanParts(x, e);
      Restores(x, tokens, e.operand, UNARY, i + 1);
    } else {
      CleanParts(x, e);
      NoPrefix(x, tokens, e, i);
      Restores(x, tokens, e, PRIMARY, i);
    }
  }

  lemma RestoresAtom(x: Language, tokens: seq<Token>, e: Expr, i: nat)
    requires Printed(x, tokens, e, PRIMARY, i) && Clean(x, e) && Stops(tokens[End(x, e, PRIMARY, i)], PRIMARY)
    requires e.Null? || e.Truth? || e.Num? || e.Text? || e.Input?
    ensures ParsePrimary(x.d, tokens, i) == Parsed(e, End(x, e, PRIMARY, i))
  {
    var q := Print(x.w, e, PRIMARY);
    assert Level(e) == PRIMARY && q == Body(x.w, e);
    assert |Body(x.w, e)| == 1;
    assert tokens[i + 0].kind == q[0].kind && tokens[i + 0].value == q[0].value;
  }

  lemma {:induction false} RestoresPrimary(x: Language, tokens: seq<Token>, e: Expr, i: nat)
    requires Printed(x, tokens, e, PRIMARY, i) && Clean(x, e) && Stops(tokens[End(x, e, PRIMARY, i)], PRIMARY)
    ensures ParsePrimary(x.d, tokens, i) == Parsed(e, End(x, e, PRIMARY, i))
    decreases e, if PRIMARY > Level(e) then 1 else 0, 0
  {
    hide Sensible, Rank, At, Print, Texts, Quotes, Clean;
    if Level(e) < PRIMARY {
      PrimaryParts(x, tokens, e, i);
      Restores(x, tokens, e, 0, i + 1);
    } else if e.Array? {
      RestoresArray(x, tokens, e, i);
    } else if e.Object? {
      RestoresObject(x, tokens, e, i);
    } else {
      RestoresAtom(x, tokens, e, i);
    }
  }

  lemma {:induction false} RestoresArray(x: Language, tokens: seq<Token>, e: Expr, i: nat)
    requires Printed(x, tokens, e, PRIMARY, i) && Clean(x, e) && e.Array?
    ensures ParsePrimary(x.d, tokens, i) == Parsed(e, End(x, e, PRIMARY, i))
    decreases e, 0, 0, 1
  {
    hide Sensible, Rank, At, Print, PrintElements, Texts, Quotes, Clean, Trap, WellFormed;
    PrimaryParts(x, tokens, e, i);
    if e.elements != [] {
      CleanParts(x, e);
      FirstElement(x, tokens, e, i + 1);
      RestoresElements(x, tokens, e, 0, i + 1);
    }
  }

  lemma {:induction false} RestoresObject(x: Language, tokens: seq<Token>, e: Expr, i: nat)
    requires Printed(x, tokens, e, PRIMARY, i) && Clean(x, e) && e.Object?
    ensures ParsePrimary(x.d, tokens, i) == Parsed(e, End(x, e, PRIMARY, i))
    decreases e, 0, 0, 1
  {
    hide Sensible, Rank, At, Print, PrintEntries, Texts, Quotes, Clean;
    PrimaryParts(x, tokens, e, i);
    if e.entries != [] {
      EntryParts(x, tokens, e, 0, i + 1);
      CleanParts(x, e);
      RestoresEntries(x, tokens, e, 0, i + 1);
    }
  }

  /** The first token of the first element is no bracket unless it is a string. */
  lemma FirstElement(x: Language, tokens: seq<Token>, e: Expr, i: nat)
    requires e.Array? && e.elements != [] && WellFormed(x, e) && Consistent(x)
    requires At(tokens, i, PrintElements(x.w, e, 0))
    ensures tokens[i].value == "]" <==> Trap(x.w, e)
  {
    ElementParts(x, tokens, e, 0, i);
    Starts(x, e.elements[0], 0);
    var q := Print(x.w, e.elements[0], 0);
    assert tokens[i + 0].kind == q[0].kind && tokens[i + 0].value == q[0].value;
  }

  lemma {:induction false} RestoresElements(x: Language, tokens: seq<Token>, e: Expr, k: nat, i: nat)
    requires Lexed(tokens) && Consistent(x) && Clean(x, e)
    requires e.Array? && k < |e.elements| && At(tokens, i, PrintElements(x.w, e, k))
    requires Is(tokens[i + |PrintElements(x.w, e, k)|], Mark("]"))
    ensures ParseElements(x.d, tokens, e.elements[..k], i) == Parsed(e, i + |PrintElements(x.w, e, k)| + 1)
    decreases e, 0, 0, 0, |e.elements| - k
  {
    hide Sensible, Rank, At, Print, PrintElements, Texts, Quotes, Clean;
    ElementParts(x, tokens, e, k, i);
    CleanElement(x, e, k);
    Restores(x, tokens, e.elements[k], 0, i);
    assert e.elements[..k] + [e.elements[k]] == e.elements[..k + 1];
    if k + 1 < |e.elements| {
      RestoresElements(x, tokens, e, k + 1, End(x, e.elements[k], 0, i) + 1);
    } else {
      assert e.elements[..k + 1] == e.elements;
    }
  }

  lemma {:induction false} RestoresEntries(x: Language, tokens: seq<Token>, e: Expr, k: nat, i: nat)
    requires Lexed(tokens) && Consistent(x) && Clean(x, e)
    requires e.Object? && k < |e.entries| && At(tokens, i, PrintEntries(x.w, e, k))
    requires Is(tokens[i + |PrintEntries(x.w, e, k)|], Mark("}"))
    ensures ParseEntries(x.d, tokens, e.entries[..k], i) == Parsed(e, i + |PrintEntries(x.w, e, k)| + 1)
    decreases e, 0, 0, 0, |e.entries| - k
  {
    hide Sensible, Rank, At, Print, PrintEntries, Texts, Quotes, Clean, HasKey;
    var entry := e.entries[k];
    EntryParts(x, tokens, e, k, i);
    CleanEntry(x, e, k);
    assert entry.value < entry < e;
    Restores(x, tokens, entry.value, 0, i + 2);
    assert e.entries[..k] + [entry] == e.entries[..k + 1];
    if k + 1 < |e.entries| {
      RestoresEntries(x, tokens, e, k + 1, End(x, entry.value, 0, i + 2) + 1);
    } else {
      assert e.entries[..k + 1] == e.entries;
    }
  }

  // A trap loses a string

  /** If the parse succeeds, a string token that it took became neither a literal nor a key. */
  ghost predicate Loses(tokens: seq<Token>, i: nat, texts: nat, r: Outcome)
    requires i < |tokens|
  {
    r.Parsed? ==> r.next < |tokens| && Texts(r.value) + Quotes(tokens, i) < texts + Quotes(tokens, r.next)
  }

  ghost predicate Trapped(x: Language, e: Expr) {
    WellFormed(x, e) && !TrapFree(x.w, e)
  }

  lemma TrappedParts(x: Language, e: Expr)
    requires Trapped(x, e)
    ensures WellFormed(x, e) && (e.Unary? || e.Binary? || e.Conditional? || e.Array? || e.Object?)
    ensures e.Unary? ==> Prefix(e.op) && Trapped(x, e.operand)
    ensures e.Binary? ==>
      Rank(e.op) > 0 && (Trapped(x, e.left) || (Clean(x, e.left) && Trapped(x, e.right)))
    ensures e.Conditional? ==>
      || Trapped(x, e.condition)
      || (Clean(x, e.condition) && (Trapped(x, e.whenTrue) || (Clean(x, e.whenTrue) && Trapped(x, e.whenFalse))))
  {
  }

  lemma {:induction false} LosesText(x: Language, tokens: seq<Token>, e: Expr, level: nat, i: nat)
    requires Printed(x, tokens, e, level, i) && Trapped(x, e)
    ensures Loses(tokens, i, 0, Parse(x.d, tokens, level, i))
    decreases e, if level > Level(e) then 1 else 0, 2 * (PRIMARY - level) + 1, 0
  {
    hide Sensible, Rank, Print, At, Texts, Quotes, Trapped, Sound, Loses, Lexed, ParsePrimary, Consistent, ParseConditional;
    if level == CONDITIONAL {
      LosesInConditional(x, tokens, e, i);
    } else if level < UNARY {
      LosesInOps(x, tokens, e, level, i);
    } else if level == UNARY {
      LosesInUnary(x, tokens, e, i);
    } else {
      LosesInPrimary(x, tokens, e, i);
    }
  }

  lemma ConditionLoses(d: Dialect, tokens: seq<Token>, i: nat)
    requires Lexed(tokens) && i < |tokens| && Loses(tokens, i, 0, Parse(d, tokens, 1, i))
    ensures Loses(tokens, i, 0, ParseConditional(d, tokens, i))
  {
    hide Sensible, Parse;
  }

  lemma ThenLoses(d: Dialect, tokens: seq<Token>, i: nat, c: Outcome)
    requires Lexed(tokens) && i < |tokens| && Parse(d, tokens, 1, i) == c && c.Parsed?
    requires Is(tokens[c.next], Mark("?")) && Loses(tokens, c.next + 1, 0, Parse(d, tokens, 0, c.next + 1))
    ensures Loses(tokens, i, 0, ParseConditional(d, tokens, i))
  {
    hide Sensible, Parse;
  }

  lemma ElseLoses(d: Dialect, tokens: seq<Token>, i: nat, c: Outcome, t: Outcome)
    requires Lexed(tokens) && i < |tokens| && Parse(d, tokens, 1, i) == c && c.Parsed?
    requires Is(tokens[c.next], Mark("?")) && Parse(d, tokens, 0, c.next + 1) == t && t.Parsed?
    requires Is(tokens[t.next], Mark(":")) && Loses(tokens, t.next + 1, 0, Parse(d, tokens, 0, t.next + 1))
    ensures Loses(tokens, i, 0, ParseConditional(d, tokens, i))
  {
    hide Sensible, Parse;
  }

  lemma {:induction false} LosesInConditional(x: Language, tokens: seq<Token>, e: Expr, i: nat)
    requires Printed(x, tokens, e, 0, i) && Trapped(x, e)
    ensures Loses(tokens, i, 0, ParseConditional(x.d, tokens, i))
    decreases e, 0, 2 * PRIMARY, 0
  {
    hide Sensible, Rank, Print, At, Trapped, Clean, WellFormed, Parse, ParseConditional, Loses, Texts, Quotes;
    TrappedParts(x, e);
    PrintedInside(x, tokens, e, 0, i);
    if e.Conditional? {
      ConditionalParts(x, tokens, e, i);
      var j := End(x, e.condition, 1, i);
      if Trapped(x, e.condition) {
        LosesText(x, tokens, e.condition, 1, i);
        ConditionLoses(x.d, tokens, i);
      } else {
        Restores(x, tokens, e.condition, 1, i);
        if Trapped(x, e.whenTrue) {
          LosesText(x, tokens, e.whenTrue, 0, j + 1);
          ThenLoses(x.d, tokens, i, Parsed(e.condition, j));
        } else {
          var k := End(x, e.whenTrue, 0, j + 1);
          Restores(x, tokens, e.whenTrue, 0, j + 1);
          LosesText(x, tokens, e.whenFalse, 0, k + 1);
          ElseLoses(x.d, tokens, i, Parsed(e.condition, j), Parsed(e.whenTrue, k));
        }
      }
    } else {
      SamePrint(x.w, e, 0);
      LosesText(x, tokens, e, 1, i);
      ConditionLoses(x.d, tokens, i);
    }
  }

  lemma PrintedInside(x: Language, tokens: seq<Token>, e: Expr, level: nat, i: nat)
    requires Printed(x, tokens, e, level, i)
    ensures i < |tokens|
  {
  }

  lemma OperandLoses(d: Dialect, tokens: seq<Token>, level: nat, i: nat)
    requires Lexed(tokens) && i < |tokens| && 0 < level < UNARY && Loses(tokens, i, 0, Parse(d, tokens, level + 1, i))
    ensures Loses(tokens, i, 0, Parse(d, tokens, level, i))
  {
  }

  lemma RightLoses(d: Dialect, tokens: seq<Token>, level: nat, left: Expr, j: nat)
    requires Lexed(tokens) && j + 1 < |tokens| && 0 < level < UNARY
    requires tokens[j].kind.Operator? && Rank(tokens[j].value) == level
    requires Loses(tokens, j + 1, 0, Parse(d, tokens, level + 1, j + 1))
    ensures Loses(tokens, j, Texts(left), ParseOps(d, tokens, level, left, j))
  {
  }

  lemma {:induction false} LosesInOps(x: Language, tokens: seq<Token>, e: Expr, level: nat, i: nat)
    requires Printed(x, tokens, e, level, i) && Trapped(x, e) && 0 < level < UNARY
    ensures Loses(tokens, i, 0, Parse(x.d, tokens, level, i))
    decreases e, if level > Level(e) then 1 else 0, 2 * (PRIMARY - level), 0
  {
    hide Sensible, Rank, Print, At, Trapped, Clean, WellFormed, Parse, ParseOps;
    TrappedParts(x, e);
    if e.Binary? && Rank(e.op) == level {
      var j := End(x, e.left, level, i);
      BinaryParts(x, tokens, e, i);
      if Trapped(x, e.left) {
        LosesText(x, tokens, e.left, level, i);
      } else {
        RestoresOps(x, tokens, e.left, level, i);
        LosesText(x, tokens, e.right, level + 1, j + 1);
        RightLoses(x.d, tokens, level, e.left, j);
      }
    } else {
      SamePrint(x.w, e, level);
      PrintedInside(x, tokens, e, level, i);
      LosesText(x, tokens, e, level + 1, i);
      OperandLoses(x.d, tokens, level, i);
    }
  }

  lemma {:induction false} LosesInUnary(x: Language, tokens: seq<Token>, e: Expr, i: nat)
    requires Printed(x, tokens, e, UNARY, i) && Trapped(x, e)
    ensures Loses(tokens, i, 0, Parse(x.d, tokens, UNARY, i))
    decreases e, if UNARY > Level(e) then 1 else 0, 2, 0
  {
    hide Sensible, Rank, Print, At, Trapped, WellFormed;
    TrappedParts(x, e);
    if e.Unary? {
      UnaryParts(x, tokens, e, i);
      LosesText(x, tokens, e.operand, UNARY, i + 1);
    } else {
      NoPrefix(x, tokens, e, i);
      LosesText(x, tokens, e, PRIMARY, i);
    }
  }

  lemma {:induction false} LosesInPrimary(x: Language, tokens: seq<Token>, e: Expr, i: nat)
    requires Printed(x, tokens, e, PRIMARY, i) && Trapped(x, e)
    ensures Loses(tokens, i, 0, ParsePrimary(x.d, tokens, i))
    decreases e, if PRIMARY > Level(e) then 1 else 0, 0
  {
    hide Sensible, Rank, Print, At, Trapped, WellFormed;
    TrappedParts(x, e);
    if Level(e) < PRIMARY {
      PrimaryParts(x, tokens, e, i);
      LosesText(x, tokens, e, 0, i + 1);
    } else if e.Array? {
      LosesInArray(x, tokens, e, i);
    } else {
      LosesInObject(x, tokens, e, i);
    }
  }

  lemma {:induction false} LosesInArray(x: Language, tokens: seq<Token>, e: Expr, i: nat)
    requires Printed(x, tokens, e, PRIMARY, i) && Trapped(x, e) && e.Array?
    ensures Loses(tokens, i, 0, ParsePrimary(x.d, tokens, i))
    decreases e, 0, 0, 1
  {
    hide Sensible, Rank, Print, At, Trapped, WellFormed, PrintElements, Trap;
    TrappedParts(x, e);
    PrimaryParts(x, tokens, e, i);
    TrappedElements(x, e);
    FirstElement(x, tokens, e, i + 1);
    assert Quotes(tokens, i + 1) == Quotes(tokens, i);
    if Trap(x.w, e) {
      FirstString(x, tokens, e, i + 1);
    } else {
      LosesInElements(x, tokens, e, 0, i + 1);
    }
  }

  /** A trapped array is a trap, or has a trapped element. */
  lemma TrappedElements(x: Language, e: Expr)
    requires Trapped(x, e) && e.Array?
    ensures e.elements != [] && (!Trap(x.w, e) ==> TrappedFrom(x, e, 0))
  {
    if !Trap(x.w, e) {
      var k :| 0 <= k < |e.elements| && !TrapFree(x.w, e.elements[k]);
      assert Trapped(x, e.elements[k]);
    }
  }

  ghost predicate TrappedFrom(x: Language, e: Expr, k: nat)
    requires e.Array?
  {
    WellFormed(x, e) && exists n :: k <= n < |e.elements| && Trapped(x, e.elements[n])
  }

  lemma FirstString(x: Language, tokens: seq<Token>, e: Expr, i: nat)
    requires e.Array? && Trap(x.w, e) && At(tokens, i, PrintElements(x.w, e, 0))
    ensures tokens[i].kind.Quoted?
  {
    ElementParts(x, tokens, e, 0, i);
    assert tokens[i + 0].kind == Print(x.w, e.elements[0], 0)[0].kind;
  }

  lemma ElementLoses(d: Dialect, tokens: seq<Token>, done: seq<Expr>, i: nat)
    requires Lexed(tokens) && i < |tokens| && Loses(tokens, i, 0, Parse(d, tokens, 0, i))
    ensures Loses(tokens, i, Texts(Array(done)), ParseElements(d, tokens, done, i))
  {
    hide Sensible, Parse;
    var r := Parse(d, tokens, 0, i);
    if r.Parsed? {
      TextsAppended(done, r.value);
    }
  }

  lemma TakesElement(d: Dialect, tokens: seq<Token>, done: seq<Expr>, i: nat, x: Outcome)
    requires Lexed(tokens) && i < |tokens| && Parse(d, tokens, 0, i) == x && x.Parsed? && Is(tokens[x.next], Mark(","))
    ensures ParseElements(d, tokens, done, i) == ParseElements(d, tokens, done + [x.value], x.next + 1)
    ensures Texts(Array(done + [x.value])) + Quotes(tokens, i) <= Texts(Array(done)) + Quotes(tokens, x.next + 1)
  {
    hide Sensible, Parse;
    TextsAppended(done, x.value);
  }

  lemma {:induction false} LosesInElements(x: Language, tokens: seq<Token>, e: Expr, k: nat, i: nat)
    requires Lexed(tokens) && Consistent(x) && e.Array? && TrappedFrom(x, e, k)
    requires At(tokens, i, PrintElements(x.w, e, k)) && i < |tokens|
    ensures Loses(tokens, i, Texts(Array(e.elements[..k])), ParseElements(x.d, tokens, e.elements[..k], i))
    decreases e, 0, 0, 0, |e.elements| - k
  {
    hide Sensible, Rank, Print, At, Trapped, TrappedFrom, Clean, PrintElements, WellFormed, Parse, ParseElements, Texts, Quotes;
    ElementCases(x, e, k);
    ElementParts(x, tokens, e, k, i);
    if Trapped(x, e.elements[k]) {
      LosesText(x, tokens, e.elements[k], 0, i);
      ElementLoses(x.d, tokens, e.elements[..k], i);
    } else {
      var j := End(x, e.elements[k], 0, i);
      Restores(x, tokens, e.elements[k], 0, i);
      TakesElement(x.d, tokens, e.elements[..k], i, Parsed(e.elements[k], j));
      assert e.elements[..k] + [e.elements[k]] == e.elements[..k + 1];
      LosesInElements(x, tokens, e, k + 1, j + 1);
    }
  }

  lemma ElementCases(x: Language, e: Expr, k: nat)
    requires e.Array? && TrappedFrom(x, e, k)
    ensures k < |e.elements|
    ensures Trapped(x, e.elements[k])
            || (Clean(x, e.elements[k]) && k + 1 < |e.elements| && TrappedFrom(x, e, k + 1))
  {
  }

  lemma {:induction false} LosesInObject(x: Language, tokens: seq<Token>, e: Expr, i: nat)
    requires Printed(x, tokens, e, PRIMARY, i) && Trapped(x, e) && e.Object?
    ensures Loses(tokens, i, 0, ParsePrimary(x.d, tokens, i))
    decreases e, 0, 0, 1
  {
    hide Sensible, Rank, Print, At, Trapped, WellFormed, PrintEntries;
    TrappedEntries(x, e);
    PrimaryParts(x, tokens, e, i);
    EntryParts(x, tokens, e, 0, i + 1);
    assert Quotes(tokens, i + 1) == Quotes(tokens, i);
    if e.entries[0].key != "}" {
      LosesInEntries(x, tokens, e, 0, i + 1);
    }
  }

  ghost predicate EntryTrappedFrom(x: Language, e: Expr, k: nat)
    requires e.Object?
  {
    WellFormed(x, e) && exists n :: k <= n < |e.entries| && Trapped(x, e.entries[n].value)
  }

  /** A trapped object is a trap, or has a trapped value. */
  lemma TrappedEntries(x: Language, e: Expr)
    requires Trapped(x, e) && e.Object?
    ensures e.entries != [] && (e.entries[0].key != "}" ==> EntryTrappedFrom(x, e, 0))
  {
    if !Trap(x.w, e) {
      var k :| 0 <= k < |e.entries| && !TrapFree(x.w, e.entries[k].value);
      assert Trapped(x, e.entries[k].value);
    }
  }

  lemma EntryCases(x: Language, e: Expr, k: nat)
    requires e.Object? && EntryTrappedFrom(x, e, k)
    ensures k < |e.entries| && !HasKey(e.entries[..k], e.entries[k].key) && e.entries[k].value < e
    ensures Trapped(x, e.entries[k].value)
            || (Clean(x, e.entries[k].value) && k + 1 < |e.entries| && EntryTrappedFrom(x, e, k + 1))
  {
    assert e.entries[k].value < e.entries[k] < e;
  }

  lemma ValueLoses(d: Dialect, tokens: seq<Token>, done: seq<Entry>, i: nat)
    requires Lexed(tokens) && i + 2 < |tokens| && tokens[i].kind.Quoted? && !HasKey(done, tokens[i].value)
    requires Is(tokens[i + 1], Mark(":")) && Loses(tokens, i + 2, 0, Parse(d, tokens, 0, i + 2))
    ensures Loses(tokens, i, Texts(Object(done)), ParseEntries(d, tokens, done, i))
  {
    hide Sensible, HasKey, Parse;
    assert Quotes(tokens, i + 1) == Quotes(tokens, i) + 1;
    var r := Parse(d, tokens, 0, i + 2);
    if r.Parsed? {
      EntryTextsAppended(done, Entry(tokens[i].value, r.value));
    }
  }

  lemma {:induction false} LosesInEntries(x: Language, tokens: seq<Token>, e: Expr, k: nat, i: nat)
    requires Lexed(tokens) && Consistent(x) && e.Object? && EntryTrappedFrom(x, e, k)
    requires At(tokens, i, PrintEntries(x.w, e, k))
    ensures Loses(tokens, i, Texts(Object(e.entries[..k])), ParseEntries(x.d, tokens, e.entries[..k], i))
    decreases e, 0, 0, 0, |e.entries| - k
  {
    hide Sensible, Rank, Print, At, Trapped, PrintEntries, WellFormed, HasKey;
    EntryCases(x, e, k);
    EntryParts(x, tokens, e, k, i);
    var entry := e.entries[k];
    if Trapped(x, entry.value) {
      LosesText(x, tokens, entry.value, 0, i + 2);
      ValueLoses(x.d, tokens, e.entries[..k], i);
    } else {
      assert Quotes(tokens, i + 1) == Quotes(tokens, i) + 1;
      Restores(x, tokens, entry.value, 0, i + 2);
      EntryTextsAppended(e.entries[..k], entry);
      assert e.entries[..k] + [entry] == e.entries[..k + 1];
      LosesInEntries(x, tokens, e, k + 1, End(x, entry.value, 0, i + 2) + 1);
    }
  }

  // The round trip

  const END := Lexeme(Eof, "")

  /** The tokens of a whole program that is printed from `e`. */
  ghost predicate Program(x: Language, tokens: seq<Token>, e: Expr) {
    var q := Print(x.w, e, 0) + [END];
    |tokens| == |q| && forall k :: 0 <= k < |q| ==> Is(tokens[k], q[k])
  }

  lemma ProgramPrinted(x: Language, tokens: seq<Token>, e: Expr)
    requires Lexed(tokens) && Consistent(x) && Program(x, tokens, e)
    ensures Printed(x, tokens, e, 0, 0) && Is(tokens[|tokens| - 1], END) && End(x, e, 0, 0) == |tokens| - 1
  {
    var q := Print(x.w, e, 0);
    var program := q + [END];
    assert program[|q|] == END;
    forall k | 0 <= k < |q| ensures Is(tokens[k], q[k]) {
      assert program[k] == q[k];
    }
  }

  // A tree has as many string literals and keys as its printed form has string tokens

  function QuotesIn(q: seq<Lexeme>): nat {
    if q == [] then 0 else QuotesIn(q[..|q| - 1]) + if q[|q| - 1].kind.Quoted? then 1 else 0
  }

  lemma {:induction false} QuotesJoined(p: seq<Lexeme>, q: seq<Lexeme>)
    ensures QuotesIn(p + q) == QuotesIn(p) + QuotesIn(q)
  {
    if q == [] {
      assert p + q == p;
    } else {
      assert (p + q)[..|p + q| - 1] == p + q[..|q| - 1];
      QuotesJoined(p, q[..|q| - 1]);
    }
  }

  lemma QuotesOfThree(p: seq<Lexeme>, m: Lexeme, q: seq<Lexeme>)
    ensures QuotesIn(p + [m] + q) == QuotesIn(p) + QuotesIn(q) + if m.kind.Quoted? then 1 else 0
  {
    QuotesJoined(p + [m], q);
    assert (p + [m])[..|p|] == p;
  }

  lemma {:induction false} QuotesOfTokens(tokens: seq<Token>, q: seq<Lexeme>)
    requires |q| <= |tokens| && forall k :: 0 <= k < |q| ==> Is(tokens[k], q[k])
    ensures Quotes(tokens, |q|) == QuotesIn(q)
  {
    if q != [] { QuotesOfTokens(tokens, q[..|q| - 1]); }
  }

  lemma QuotesBetween(m: string, q: seq<Lexeme>, n: string)
    ensures QuotesIn([Mark(m)] + q + [Mark(n)]) == QuotesIn(q)
  {
    QuotesOfThree([], Mark(m), q);
    assert [] + [Mark(m)] + q == [Mark(m)] + q;
    assert ([Mark(m)] + q + [Mark(n)])[..|q| + 1] == [Mark(m)] + q;
  }

  lemma {:induction false} PrintedTexts(w: Notation, e: Expr, level: nat)
    ensures QuotesIn(Print(w, e, level)) == Texts(e)
    decreases e, 2, 0
  {
    hide Sensible, Rank, QuotesIn, Body, Texts;
    BodyTexts(w, e);
    QuotesBetween("(", Body(w, e), ")");
  }

  lemma QuotesOfPrefixed(m: Lexeme, q: seq<Lexeme>)
    ensures QuotesIn([m] + q) == QuotesIn(q) + if m.kind.Quoted? then 1 else 0
  {
    QuotesOfThree([], m, q);
    assert [] + [m] + q == [m] + q;
  }

  lemma AtomTexts(w: Notation, e: Expr)
    requires e.Null? || e.Truth? || e.Num? || e.Text? || e.Input?
    ensures QuotesIn(Body(w, e)) == Texts(e)
  {
    assert Body(w, e)[..0] == [];
  }

  lemma {:induction false} BodyTexts(w: Notation, e: Expr)
    ensures QuotesIn(Body(w, e)) == Texts(e)
    decreases e, 1, 0
  {
    hide Sensible, Rank, Print, QuotesIn;
    if e.Array? || e.Object? || e.Conditional? {
      ComposedTexts(w, e);
    } else if e.Unary? {
      PrintedTexts(w, e.operand, UNARY);
      QuotesOfPrefixed(Lexeme(Operator, e.op), Print(w, e.operand, UNARY));
    } else if e.Binary? {
      PrintedTexts(w, e.left, Rank(e.op));
      PrintedTexts(w, e.right, Rank(e.op) + 1);
      QuotesOfThree(Print(w, e.left, Rank(e.op)), Lexeme(Operator, e.op), Print(w, e.right, Rank(e.op) + 1));
    } else {
      AtomTexts(w, e);
    }
  }

  lemma {:induction false} ComposedTexts(w: Notation, e: Expr)
    requires e.Array? || e.Object? || e.Conditional?
    ensures QuotesIn(Body(w, e)) == Texts(e)
    decreases e, 0, |if e.Array? then e.elements else []| + |if e.Object? then e.entries else []| + 1
  {
    hide Sensible, Rank, Print, PrintElements, PrintEntries, QuotesIn;
    match e
    case Conditional(c, t, f) =>
      PrintedTexts(w, c, 1);
      PrintedTexts(w, t, 0);
      PrintedTexts(w, f, 0);
      QuotesOfThree(Print(w, c, 1), Mark("?"), Print(w, t, 0));
      QuotesOfThree(Print(w, c, 1) + [Mark("?")] + Print(w, t, 0), Mark(":"), Print(w, f, 0));
    case Array(es) =>
      ElementsTexts(w, e, 0);
      QuotesBetween("[", PrintElements(w, e, 0), "]");
    case Object(entries) =>
      EntriesTexts(w, e, 0);
      QuotesBetween("{", PrintEntries(w, e, 0), "}");
  }

  lemma NoQuotes()
    ensures QuotesIn([]) == 0
  {
  }

  lemma {:induction false} ElementsTexts(w: Notation, e: Expr, k: nat)
    requires e.Array? && k <= |e.elements|
    ensures QuotesIn(PrintElements(w, e, k)) == TextsOfElements(e, |e.elements|) - TextsOfElements(e, k)
    decreases e, 0, |e.elements| - k
  {
    hide Print, Body, Rank, QuotesIn, Texts;
    if k < |e.elements| {
      PrintedTexts(w, e.elements[k], 0);
      ElementsTexts(w, e, k + 1);
      if k + 1 < |e.elements| {
        QuotesOfThree(Print(w, e.elements[k], 0), Mark(","), PrintElements(w, e, k + 1));
        assert PrintElements(w, e, k)
            == Print(w, e.elements[k], 0) + [Mark(",")] + PrintElements(w, e, k + 1);
      } else {
        assert PrintElements(w, e, k) == Print(w, e.elements[k], 0);
      }
    } else {
      NoQuotes();
    }
  }

  lemma EntryTexts(w: Notation, entry: Entry)
    requires QuotesIn(Print(w, entry.value, 0)) == Texts(entry.value)
    ensures QuotesIn(PrintEntry(w, entry)) == 1 + Texts(entry.value)
  {
    hide Print, Body, Rank, QuotesIn, Texts;
    var m := Lexeme(Quoted, entry.key);
    QuotesOfPrefixed(Mark(":"), Print(w, entry.value, 0));
    QuotesOfPrefixed(m, [Mark(":")] + Print(w, entry.value, 0));
    assert PrintEntry(w, entry) == [m] + ([Mark(":")] + Print(w, entry.value, 0));
  }

  lemma {:induction false} EntriesTexts(w: Notation, e: Expr, k: nat)
    requires e.Object? && k <= |e.entries|
    ensures QuotesIn(PrintEntries(w, e, k)) == TextsOfEntries(e, |e.entries|) - TextsOfEntries(e, k)
    decreases e, 0, |e.entries| - k
  {
    hide Print, Body, Rank, PrintEntry, QuotesIn, Texts;
    if k < |e.entries| {
      assert e.entries[k].value < e.entries[k] < e;
      PrintedTexts(w, e.entries[k].value, 0);
      EntryTexts(w, e.entries[k]);
      EntriesTexts(w, e, k + 1);
      if k + 1 < |e.entries| {
        QuotesOfThree(PrintEntry(w, e.entries[k]), Mark(","), PrintEntries(w, e, k + 1));
        assert PrintEntries(w, e, k) == PrintEntry(w, e.entries[k]) + [Mark(",")] + PrintEntries(w, e, k + 1);
      } else {
        assert PrintEntries(w, e, k) == PrintEntry(w, e.entries[k]);
      }
    } else {
      NoQuotes();
    }
  }

  /** Nothing but the end is left of the printed strings when a parse has made all of them. */
  lemma ProgramTexts(x: Language, tokens: seq<Token>, e: Expr)
    requires Program(x, tokens, e)
    ensures Quotes(tokens, 0) == 0 && Quotes(tokens, |tokens| - 1) == Texts(e)
  {
    var q := Print(x.w, e, 0);
    forall k | 0 <= k < |q| ensures Is(tokens[k], q[k]) {
      assert (q + [END])[k] == q[k];
    }
    hide Sensible, Rank, Print;
    QuotesOfTokens(tokens, q);
    PrintedTexts(x.w, e, 0);
  }

  /** The parser gives a printed tree back exactly when no part of the tree is a trap. */
  lemma {:induction false} RoundTrip(x: Language, tokens: seq<Token>, e: Expr)
    requires Lexed(tokens) && Consistent(x) && WellFormed(x, e) && Program(x, tokens, e)
    ensures ParseAll(x.d, tokens) == Parsed(e, |tokens| - 1) <==> TrapFree(x.w, e)
  {
    hide WellFormed, TrapFree, Print, Parse, At, Consistent, Program;
    ProgramPrinted(x, tokens, e);
    if TrapFree(x.w, e) {
      Restores(x, tokens, e, 0, 0);
    } else {
      LosesText(x, tokens, e, 0, 0);
      ProgramTexts(x, tokens, e);
    }
  }

  /** Printing is unambiguous for the trees that the parser restores. */
  lemma PrintsApart(x: Language, tokens: seq<Token>, e: Expr, f: Expr)
    requires Lexed(tokens) && Consistent(x) && Clean(x, e) && Clean(x, f)
    requires Program(x, tokens, e) && Program(x, tokens, f)
    ensures e == f
  {
    hide WellFormed, TrapFree, Parse, Program;
    RoundTrip(x, tokens, e);
    RoundTrip(x, tokens, f);
  }

  /** The array that holds the string "]": the parser closes the array at the string and stumbles over the bracket. */
  lemma BracketString(x: Language, tokens: seq<Token>)
    requires tokens == [Token(Punctuation, "[", 0, 1), Token(Quoted, "]", 1, 4), Token(Punctuation, "]", 4, 5),
                        Token(Eof, "", 5, 5)]
    ensures Program(x, tokens, Array([Text("]")]))
    ensures Lexed(tokens) && ParseAll(x.d, tokens) == Failed(Unexpected("]", 4))
  {
    var e := Array([Text("]")]);
    assert Print(x.w, e.elements[0], 0) == [Lexeme(Quoted, "]")];
    assert PrintElements(x.w, e, 0) == [Lexeme(Quoted, "]")];
    assert Print(x.w, e, 0) + [END] == [Mark("["), Lexeme(Quoted, "]"), Mark("]"), END];
    assert ParsePrimary(x.d, tokens, 0) == Parsed(Array([]), 2);
    assert Parse(x.d, tokens, PRIMARY, 0) == Parsed(Array([]), 2);
    Climbs(x.d, tokens, Array([]));
  }

  /** A primary expression that no operator follows is an expression of every lower level. */
  lemma {:induction false} Climbs(d: Dialect, tokens: seq<Token>, e: Expr)
    requires Lexed(tokens) && |tokens| > 2 && Parse(d, tokens, PRIMARY, 0) == Parsed(e, 2)
    requires tokens[0].kind.Punctuation? && tokens[2] == Token(Punctuation, "]", 4, 5)
    ensures Parse(d, tokens, 0, 0) == Parsed(e, 2)
  {
    assert Parse(d, tokens, UNARY, 0) == Parsed(e, 2);
    assert Parse(d, tokens, 6, 0) == Parsed(e, 2);
    assert Parse(d, tokens, 5, 0) == Parsed(e, 2);
    assert Parse(d, tokens, 4, 0) == Parsed(e, 2);
    assert Parse(d, tokens, 3, 0) == Parsed(e, 2);
    assert Parse(d, tokens, 2, 0) == Parsed(e, 2);
    assert Parse(d, tokens, 1, 0) == Parsed(e, 2);
  }
}
