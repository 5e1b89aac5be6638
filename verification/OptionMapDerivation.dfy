/**
 The grammar of the option-map language, category by category as the methods of the parser are named, and written apart
 from the parser: what a parse gives is derived by it.
 */
module OptionMapDerivation {
  import opened OptionMapSyntax
  import opened OptionMapGrammar

  datatype Category = Ternary | LogicalOr | LogicalAnd | Equality | Relational | Additive | Multiplicative | Prefixed | Primary

  /** The operators of a category of binary expressions. */
  predicate OperatorOf(c: Category, op: string) {
    match c
    case LogicalOr => op == "||"
    case LogicalAnd => op == "&&"
    case Equality => op == "==" || op == "!="
    case Relational => op == "<" || op == "<=" || op == ">" || op == ">="
    case Additive => op == "+" || op == "-"
    case Multiplicative => op == "*" || op == "/" || op == "%"
    case _ => false
  }

  /** The operands of a category: the next one, which binds tighter. */
  function Operands(c: Category): Category {
    match c
    case Ternary => LogicalOr
    case LogicalOr => LogicalAnd
    case LogicalAnd => Equality
    case Equality => Relational
    case Relational => Additive
    case Additive => Multiplicative
    case Multiplicative => Prefixed
    case Prefixed => Primary
    case Primary => Primary
  }

  function Depth(c: Category): nat {
    match c
    case Ternary => 0
    case LogicalOr => 1
    case LogicalAnd => 2
    case Equality => 3
    case Relational => 4
    case Additive => 5
    case Multiplicative => 6
    case Prefixed => 7
    case Primary => 8
  }

  /** The tokens from `i` to `j` are an expression of a category that stands for `e`. Punctuation is told by its value. */
  ghost predicate Derives(d: Dialect, tokens: seq<Token>, c: Category, i: nat, j: nat, e: Expr)
    decreases e, if i <= j then j - i else 0, 8 - Depth(c)
  {
    && i < j < |tokens|
    && match c
       case Ternary =>
         || Derives(d, tokens, LogicalOr, i, j, e)
         || (e.Conditional? && (exists k, n ::
               && i < k < n < j && tokens[k].value == "?" && tokens[n].value == ":"
               && Derives(d, tokens, LogicalOr, i, k, e.condition)
               && Derives(d, tokens, Ternary, k + 1, n, e.whenTrue)
               && Derives(d, tokens, Ternary, n + 1, j, e.whenFalse)))
       case Prefixed =>
         || Derives(d, tokens, Primary, i, j, e)
         || (e.Unary? && tokens[i].kind.Operator? && tokens[i].value == e.op
             && (e.op == "!" || e.op == "-" || e.op == "+") && Derives(d, tokens, Prefixed, i + 1, j, e.operand))
       case Primary =>
         || (j == i + 1 && Denotes(d, tokens[i], e))
         || (tokens[i].value == "(" && tokens[j - 1].value == ")" && Derives(d, tokens, Ternary, i + 1, j - 1, e))
         || (e.Array? && tokens[i].value == "[" && tokens[j - 1].value == "]"
             && Listed(d, tokens, i + 1, j - 1, e, |e.elements|))
         || (e.Object? && tokens[i].value == "{" && tokens[j - 1].value == "}"
             && Keyed(d, tokens, i + 1, j - 1, e, |e.entries|))
       case _ =>
         || Derives(d, tokens, Operands(c), i, j, e)
         || (e.Binary? && OperatorOf(c, e.op) && (exists k ::
               && i < k < j && tokens[k].kind.Operator? && tokens[k].value == e.op
               && Derives(d, tokens, c, i, k, e.left) && Derives(d, tokens, Operands(c), k + 1, j, e.right)))
  }

  /** One token that stands for a literal or for the variable. */
  predicate Denotes(d: Dialect, token: Token, e: Expr) {
    match token.kind
    case Numeral => e == Num(d.read(token.value)) && d.safe(d.read(token.value))
    case Quoted => e == Text(token.value)
    case Identifier =>
      if token.value == d.variable then e == Input
      else
        || (token.value == "true" && e == Truth(true)) || (token.value == "false" && e == Truth(false))
        || (token.value == "null" && e == Null)
    case _ => false
  }

  /** The tokens from `i` to `j` are the first `n` elements, with commas between them. */
  ghost predicate Listed(d: Dialect, tokens: seq<Token>, i: nat, j: nat, e: Expr, n: nat)
    requires e.Array? && n <= |e.elements|
    decreases e, 0, n
  {
    if n == 0 then i == j
    else if n == 1 then Derives(d, tokens, Ternary, i, j, e.elements[0])
    else exists k :: i < k < j && k < |tokens| && tokens[k].value == ","
           && Listed(d, tokens, i, k, e, n - 1) && Derives(d, tokens, Ternary, k + 1, j, e.elements[n - 1])
  }

  /** One entry: a string, a colon, and an expression. */
  ghost predicate Pair(d: Dialect, tokens: seq<Token>, i: nat, j: nat, entry: Entry)
    decreases entry, 0, 0
  {
    && i + 2 < j < |tokens| && tokens[i].kind.Quoted? && tokens[i].value == entry.key && tokens[i + 1].value == ":"
    && Derives(d, tokens, Ternary, i + 2, j, entry.value)
  }

  /** The tokens from `i` to `j` are the first `n` entries, with commas between them. */
  ghost predicate Keyed(d: Dialect, tokens: seq<Token>, i: nat, j: nat, e: Expr, n: nat)
    requires e.Object? && n <= |e.entries|
    decreases e, 0, n
  {
    if n == 0 then i == j
    else if n == 1 then Pair(d, tokens, i, j, e.entries[0])
    else exists k :: i < k < j && k < |tokens| && tokens[k].value == ","
           && Keyed(d, tokens, i, k, e, n - 1) && Pair(d, tokens, k + 1, j, e.entries[n - 1])
  }

  function CategoryOf(level: nat): (c: Category)
    requires level <= PRIMARY
    ensures Depth(c) == level
  {
    if level == 0 then Ternary else if level == 1 then LogicalOr else if level == 2 then LogicalAnd
    else if level == 3 then Equality else if level == 4 then Relational else if level == 5 then Additive
    else if level == 6 then Multiplicative else if level == 7 then Prefixed else Primary
  }

  lemma RankIsCategory(op: string, level: nat)
    requires 0 < level < UNARY
    ensures Rank(op) == level <==> OperatorOf(CategoryOf(level), op)
    ensures Operands(CategoryOf(level)) == CategoryOf(level + 1)
  {
  }

  // What the parser gives is derived

  lemma {:induction false} SameList(d: Dialect, tokens: seq<Token>, i: nat, j: nat, e: Expr, f: Expr, n: nat)
    requires e.Array? && f.Array? && n <= |e.elements| && n <= |f.elements| && e.elements[..n] == f.elements[..n]
    requires Listed(d, tokens, i, j, e, n)
    ensures Listed(d, tokens, i, j, f, n)
    decreases n
  {
    if n > 0 {
      assert e.elements[n - 1] == e.elements[..n][n - 1] == f.elements[..n][n - 1] == f.elements[n - 1];
    }
    if n > 1 {
      var k :| i < k < j && k < |tokens| && tokens[k].value == "," && Listed(d, tokens, i, k, e, n - 1)
               && Derives(d, tokens, Ternary, k + 1, j, e.elements[n - 1]);
      assert e.elements[..n - 1] == e.elements[..n][..n - 1] && f.elements[..n - 1] == f.elements[..n][..n - 1];
      SameList(d, tokens, i, k, e, f, n - 1);
    }
  }

  lemma {:induction false} SameKeyed(d: Dialect, tokens: seq<Token>, i: nat, j: nat, e: Expr, f: Expr, n: nat)
    requires e.Object? && f.Object? && n <= |e.entries| && n <= |f.entries| && e.entries[..n] == f.entries[..n]
    requires Keyed(d, tokens, i, j, e, n)
    ensures Keyed(d, tokens, i, j, f, n)
    decreases n
  {
    if n > 0 {
      assert e.entries[n - 1] == e.entries[..n][n - 1] == f.entries[..n][n - 1] == f.entries[n - 1];
    }
    if n > 1 {
      var k :| i < k < j && k < |tokens| && tokens[k].value == "," && Keyed(d, tokens, i, k, e, n - 1)
               && Pair(d, tokens, k + 1, j, e.entries[n - 1]);
      assert e.entries[..n - 1] == e.entries[..n][..n - 1] && f.entries[..n - 1] == f.entries[..n][..n - 1];
      SameKeyed(d, tokens, i, k, e, f, n - 1);
    }
  }

  /** A parse at a level gives an expression of the category of that level. */
  lemma {:induction false} ParseDerives(d: Dialect, tokens: seq<Token>, level: nat, i: nat)
    requires Lexed(tokens) && i < |tokens| && level <= PRIMARY
    ensures var r := Parse(d, tokens, level, i);
      r.Parsed? ==> Derives(d, tokens, CategoryOf(level), i, r.next, r.value)
    decreases |tokens| - i, 1, 2 * (PRIMARY - level)
  {
    hide Sensible, Rank, Texts, Quotes;
    if level == CONDITIONAL {
      ConditionalDerives(d, tokens, i);
    } else if level < UNARY {
      ParseDerives(d, tokens, level + 1, i);
      var r := Parse(d, tokens, level + 1, i);
      if r.Parsed? {
        RankIsCategory("", level);
        assert Derives(d, tokens, CategoryOf(level), i, r.next, r.value);
        OpsDerive(d, tokens, level, r.value, i, r.next);
      }
    } else if level == UNARY {
      if tokens[i].kind.Operator? && Prefix(tokens[i].value) {
        ParseDerives(d, tokens, UNARY, i + 1);
      } else {
        ParseDerives(d, tokens, PRIMARY, i);
      }
    } else {
      PrimaryDerives(d, tokens, i);
    }
  }

  lemma WidensDisjunction(d: Dialect, tokens: seq<Token>, i: nat, j: nat, e: Expr)
    requires Derives(d, tokens, LogicalOr, i, j, e)
    ensures Derives(d, tokens, Ternary, i, j, e)
  {
  }

  lemma JoinsConditional(
      d: Dialect, tokens: seq<Token>, i: nat, k: nat, n: nat, j: nat, condition: Expr, whenTrue: Expr, whenFalse: Expr)
    requires i < k < n < j < |tokens| && tokens[k].value == "?" && tokens[n].value == ":"
    requires Derives(d, tokens, LogicalOr, i, k, condition) && Derives(d, tokens, Ternary, k + 1, n, whenTrue)
    requires Derives(d, tokens, Ternary, n + 1, j, whenFalse)
    ensures Derives(d, tokens, Ternary, i, j, Conditional(condition, whenTrue, whenFalse))
  {
  }

  lemma {:induction false} ConditionalDerives(d: Dialect, tokens: seq<Token>, i: nat)
    requires Lexed(tokens) && i < |tokens|
    ensures var r := ParseConditional(d, tokens, i); r.Parsed? ==> Derives(d, tokens, Ternary, i, r.next, r.value)
    decreases |tokens| - i, 1, 15
  {
    hide Sensible, Derives, Texts, Quotes;
    ParseDerives(d, tokens, 1, i);
    var c := Parse(d, tokens, 1, i);
    if c.Parsed? { WidensDisjunction(d, tokens, i, c.next, c.value); }
    if c.Parsed? && tokens[c.next].value == "?" && c.next + 1 < |tokens| {
      ParseDerives(d, tokens, CONDITIONAL, c.next + 1);
      var t := Parse(d, tokens, CONDITIONAL, c.next + 1);
      if t.Parsed? && tokens[t.next].value == ":" && t.next + 1 < |tokens| {
        ParseDerives(d, tokens, CONDITIONAL, t.next + 1);
        var f := Parse(d, tokens, CONDITIONAL, t.next + 1);
        if f.Parsed? {
          JoinsConditional(d, tokens, i, c.next, t.next, f.next, c.value, t.value, f.value);
        }
      }
    }
  }

  lemma JoinsBinary(
      d: Dialect, tokens: seq<Token>, level: nat, i: nat, k: nat, j: nat, left: Expr, right: Expr)
    requires 0 < level < UNARY && i < k < j < |tokens| && tokens[k].kind.Operator? && Rank(tokens[k].value) == level
    requires Derives(d, tokens, CategoryOf(level), i, k, left)
    requires Derives(d, tokens, CategoryOf(level + 1), k + 1, j, right)
    ensures Derives(d, tokens, CategoryOf(level), i, j, Binary(tokens[k].value, left, right))
  {
    hide Rank;
    RankIsCategory(tokens[k].value, level);
  }

  lemma {:induction false} OpsDerive(d: Dialect, tokens: seq<Token>, level: nat, left: Expr, from: nat, i: nat)
    requires Lexed(tokens) && i < |tokens| && 0 < level < UNARY
    requires from < i && Derives(d, tokens, CategoryOf(level), from, i, left)
    ensures var r := ParseOps(d, tokens, level, left, i);
      r.Parsed? ==> Derives(d, tokens, CategoryOf(level), from, r.next, r.value)
    decreases |tokens| - i, 0
  {
    hide Rank, Sensible, Derives, Texts, Quotes, CategoryOf;
    if tokens[i].kind.Operator? && Rank(tokens[i].value) == level {
      var op := tokens[i].value;
      ParseDerives(d, tokens, level + 1, i + 1);
      var r := Parse(d, tokens, level + 1, i + 1);
      if r.Parsed? {
        JoinsBinary(d, tokens, level, from, i, r.next, left, r.value);
        OpsDerive(d, tokens, level, Binary(op, left, r.value), from, r.next);
      }
    }
  }

  lemma {:induction false} PrimaryDerives(d: Dialect, tokens: seq<Token>, i: nat)
    requires Lexed(tokens) && i < |tokens|
    ensures var r := ParsePrimary(d, tokens, i); r.Parsed? ==> Derives(d, tokens, Primary, i, r.next, r.value)
    decreases |tokens| - i, 0
  {
    hide Sensible, Texts, Quotes;
    var token := tokens[i];
    if token.kind.Numeral? || token.kind.Quoted? || token.kind.Identifier? {
    } else if token.value == "(" {
      ParseDerives(d, tokens, CONDITIONAL, i + 1);
    } else if token.value == "[" {
      if tokens[i + 1].value != "]" { ElementsDerive(d, tokens, [], i + 1, i + 1); }
    } else if token.value == "{" {
      if tokens[i + 1].value != "}" { EntriesDerive(d, tokens, [], i + 1, i + 1); }
    }
  }

  lemma JoinsElement(d: Dialect, tokens: seq<Token>, done: seq<Expr>, from: nat, i: nat, j: nat, x: Expr)
    requires i < j < |tokens| && Derives(d, tokens, Ternary, i, j, x)
    requires if done == [] then i == from
             else from < i - 1 && tokens[i - 1].value == "," && Listed(d, tokens, from, i - 1, Array(done), |done|)
    ensures Listed(d, tokens, from, j, Array(done + [x]), |done| + 1)
  {
    hide Derives;
    var more := Array(done + [x]);
    assert more.elements[|done|] == x;
    if done != [] {
      assert more.elements[..|done|] == done == done[..|done|];
      SameList(d, tokens, from, i - 1, Array(done), more, |done|);
    }
  }

  /** `done` was read from `from` to the comma before `i`. */
  lemma {:induction false} ElementsDerive(d: Dialect, tokens: seq<Token>, done: seq<Expr>, from: nat, i: nat)
    requires Lexed(tokens) && i < |tokens|
    requires if done == [] then i == from
             else from < i - 1 && tokens[i - 1].value == "," && Listed(d, tokens, from, i - 1, Array(done), |done|)
    ensures var r := ParseElements(d, tokens, done, i);
      r.Parsed? ==> r.value.Array? && i < r.next < |tokens| && tokens[r.next - 1].value == "]"
                    && Listed(d, tokens, from, r.next - 1, r.value, |r.value.elements|)
    decreases |tokens| - i, 2
  {
    hide Sensible, Listed, Derives, Texts, Quotes;
    ParseDerives(d, tokens, CONDITIONAL, i);
    var r := Parse(d, tokens, CONDITIONAL, i);
    if r.Parsed? {
      JoinsElement(d, tokens, done, from, i, r.next, r.value);
      if tokens[r.next].value == "," { ElementsDerive(d, tokens, done + [r.value], from, r.next + 1); }
    }
  }

  lemma MakesPair(d: Dialect, tokens: seq<Token>, i: nat, j: nat, entry: Entry)
    requires i + 2 < j < |tokens| && tokens[i].kind.Quoted? && tokens[i].value == entry.key && tokens[i + 1].value == ":"
    requires Derives(d, tokens, Ternary, i + 2, j, entry.value)
    ensures Pair(d, tokens, i, j, entry)
  {
  }

  lemma JoinsEntry(d: Dialect, tokens: seq<Token>, done: seq<Entry>, from: nat, i: nat, j: nat, entry: Entry)
    requires i < j < |tokens| && Pair(d, tokens, i, j, entry)
    requires if done == [] then i == from
             else from < i - 1 && tokens[i - 1].value == "," && Keyed(d, tokens, from, i - 1, Object(done), |done|)
    ensures Keyed(d, tokens, from, j, Object(done + [entry]), |done| + 1)
  {
    hide Derives, Pair;
    var more := Object(done + [entry]);
    assert more.entries[|done|] == entry;
    if done != [] {
      assert more.entries[..|done|] == done == done[..|done|];
      SameKeyed(d, tokens, from, i - 1, Object(done), more, |done|);
    }
  }

  lemma {:induction false} EntriesDerive(d: Dialect, tokens: seq<Token>, done: seq<Entry>, from: nat, i: nat)
    requires Lexed(tokens) && i < |tokens|
    requires if done == [] then i == from
             else from < i - 1 && tokens[i - 1].value == "," && Keyed(d, tokens, from, i - 1, Object(done), |done|)
    ensures var r := ParseEntries(d, tokens, done, i);
      r.Parsed? ==> r.value.Object? && i < r.next < |tokens| && tokens[r.next - 1].value == "}"
                    && Keyed(d, tokens, from, r.next - 1, r.value, |r.value.entries|)
    decreases |tokens| - i, 2
  {
    hide Sensible, Keyed, Derives, Texts, Quotes, Pair, HasKey, DistinctKeys;
    if tokens[i].kind.Quoted? && !HasKey(done, tokens[i].value) && tokens[i + 1].value == ":" {
      ParseDerives(d, tokens, CONDITIONAL, i + 2);
      var r := Parse(d, tokens, CONDITIONAL, i + 2);
      if r.Parsed? {
        var entry := Entry(tokens[i].value, r.value);
        MakesPair(d, tokens, i, r.next, entry);
        JoinsEntry(d, tokens, done, from, i, r.next, entry);
        if tokens[r.next].value == "," { EntriesDerive(d, tokens, done + [entry], from, r.next + 1); }
      }
    }
  }

  /** A program that is parsed is derived from the whole token list. */
  lemma ProgramDerives(d: Dialect, tokens: seq<Token>)
    requires Lexed(tokens)
    ensures var r := ParseAll(d, tokens);
      r.Parsed? ==> Derives(d, tokens, Ternary, 0, r.next, r.value) && tokens[r.next].kind.Eof?
  {
    ParseDerives(d, tokens, CONDITIONAL, 0);
  }
}
