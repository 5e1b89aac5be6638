/** Which operator takes the operand between two: the table of the source, spelled out. */
module OptionMapPrecedence {
  import opened OptionMapSyntax
  import opened OptionMapGrammar
  import opened OptionMapRoundTrip

  predicate EqualityOperator(op: string) {
    op == "==" || op == "!="
  }

  predicate RelationOperator(op: string) {
    op == "<" || op == "<=" || op == ">" || op == ">="
  }

  predicate SumOperator(op: string) {
    op == "+" || op == "-"
  }

  predicate ProductOperator(op: string) {
    op == "*" || op == "/" || op == "%"
  }

  predicate BinaryOperator(op: string) {
    op == "||" || op == "&&" || EqualityOperator(op) || RelationOperator(op) || SumOperator(op) || ProductOperator(op)
  }

  predicate Tighter(tight: string, loose: string) {
    || (ProductOperator(tight) && (SumOperator(loose) || RelationOperator(loose) || EqualityOperator(loose)
                                   || loose == "&&" || loose == "||"))
    || (SumOperator(tight) && (RelationOperator(loose) || EqualityOperator(loose) || loose == "&&" || loose == "||"))
    || (RelationOperator(tight) && (EqualityOperator(loose) || loose == "&&" || loose == "||"))
    || (EqualityOperator(tight) && (loose == "&&" || loose == "||"))
    || (tight == "&&" && loose == "||")
  }

  lemma TighterRanks(op: string, other: string)
    requires BinaryOperator(op) && BinaryOperator(other)
    ensures Rank(op) > 0 && Rank(other) > 0
    ensures Tighter(op, other) <==> Rank(op) > Rank(other)
  {
  }

  /** An operand that is a literal, the variable, an array or an object, and holds no trap. */
  ghost predicate Operand(x: Language, e: Expr) {
    Clean(x, e) && Level(e) == PRIMARY
  }

  ghost predicate Spells(tokens: seq<Token>, q: seq<Lexeme>) {
    |tokens| == |q| + 1 && (forall k :: 0 <= k < |q| ==> Is(tokens[k], q[k])) && Is(tokens[|q|], END)
  }

  lemma SpelledProgram(x: Language, tokens: seq<Token>, e: Expr)
    requires Lexed(tokens) && Consistent(x) && Clean(x, e) && Spells(tokens, Print(x.w, e, 0))
    ensures ParseAll(x.d, tokens) == Parsed(e, |tokens| - 1)
  {
    hide WellFormed, TrapFree, Print, ParseAll, Consistent;
    var q := Print(x.w, e, 0) + [END];
    forall k | 0 <= k < |q| ensures Is(tokens[k], q[k]) {
      if k < |q| - 1 { assert q[k] == Print(x.w, e, 0)[k]; }
    }
    RoundTrip(x, tokens, e);
  }

  /** Of two operators the tighter one takes the operand between them; between equally tight ones the left one does. */
  lemma OperatorsNest(x: Language, tokens: seq<Token>, op: string, other: string, l: Expr, m: Expr, r: Expr)
    requires Lexed(tokens) && Consistent(x) && BinaryOperator(op) && BinaryOperator(other)
    requires Operand(x, l) && Operand(x, m) && Operand(x, r)
    requires Spells(tokens, Body(x.w, l) + [Lexeme(Operator, op)] + Body(x.w, m) + [Lexeme(Operator, other)] + Body(x.w, r))
    ensures ParseAll(x.d, tokens)
         == Parsed(if Tighter(other, op) then Binary(op, l, Binary(other, m, r)) else Binary(other, Binary(op, l, m), r),
                   |tokens| - 1)
  {
    hide WellFormed, TrapFree, Body, Print, Spells, Lexed, ParseAll, Consistent, Rank, Tighter;
    TighterRanks(other, op);
    if Tighter(other, op) {
      PrintsRightNested(x, op, other, l, m, r);
      assert Body(x.w, l) + [Lexeme(Operator, op)] + Body(x.w, m) + [Lexeme(Operator, other)] + Body(x.w, r)
          == Body(x.w, l) + [Lexeme(Operator, op)] + (Body(x.w, m) + [Lexeme(Operator, other)] + Body(x.w, r));
      CleanBinary(x, other, m, r);
      CleanBinary(x, op, l, Binary(other, m, r));
      SpelledProgram(x, tokens, Binary(op, l, Binary(other, m, r)));
    } else {
      PrintsLeftNested(x, op, other, l, m, r);
      CleanBinary(x, op, l, m);
      CleanBinary(x, other, Binary(op, l, m), r);
      SpelledProgram(x, tokens, Binary(other, Binary(op, l, m), r));
    }
  }

  lemma CleanBinary(x: Language, op: string, l: Expr, r: Expr)
    requires Clean(x, l) && Clean(x, r) && Rank(op) > 0
    ensures Clean(x, Binary(op, l, r))
  {
  }

  lemma PrintsRightNested(x: Language, op: string, other: string, l: Expr, m: Expr, r: Expr)
    requires Level(l) == PRIMARY && Level(m) == PRIMARY && Level(r) == PRIMARY && 0 < Rank(op) < Rank(other)
    ensures Print(x.w, Binary(op, l, Binary(other, m, r)), 0)
         == Body(x.w, l) + [Lexeme(Operator, op)] + (Body(x.w, m) + [Lexeme(Operator, other)] + Body(x.w, r))
  {
    hide Rank;
    BinaryPrint(x.w, Binary(other, m, r));
    BinaryPrint(x.w, Binary(op, l, Binary(other, m, r)));
  }

  lemma PrintsLeftNested(x: Language, op: string, other: string, l: Expr, m: Expr, r: Expr)
    requires Level(l) == PRIMARY && Level(m) == PRIMARY && Level(r) == PRIMARY && 0 < Rank(other) <= Rank(op)
    ensures Print(x.w, Binary(other, Binary(op, l, m), r), 0)
         == Body(x.w, l) + [Lexeme(Operator, op)] + Body(x.w, m) + [Lexeme(Operator, other)] + Body(x.w, r)
  {
    hide Rank;
    BinaryPrint(x.w, Binary(op, l, m));
    BinaryPrint(x.w, Binary(other, Binary(op, l, m), r));
  }
}
