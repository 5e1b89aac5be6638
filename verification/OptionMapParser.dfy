/** The recursive-descent parser, with the token index that its methods advance. */
module OptionMapParser {
  import opened OptionMapSyntax
  import opened OptionMapGrammar

  datatype Result = Ok(value: Expr) | Thrown(problem: Problem)

  class Parser {
    const tokens: seq<Token>
    const d: Dialect
    var index: nat

    constructor (tokens: seq<Token>, d: Dialect)
      requires Lexed(tokens)
      ensures Valid() && this.tokens == tokens && this.d == d && index == 0
    {
      this.tokens, this.d, index := tokens, d, 0;
    }

    ghost predicate Valid()
      reads this
    {
      Lexed(tokens) && index < |tokens|
    }

    /** A method call gives what the grammar says, and leaves the index behind what it took. */
    ghost predicate Gives(r: Result, o: Outcome)
      reads this
    {
      match o
      case Parsed(value, next) => r == Ok(value) && index == next
      case Failed(problem) => r == Thrown(problem)
    }

    function Current(): Token
      requires Valid()
      reads this
    {
      tokens[index]
    }

    method Advance() returns (token: Token)
      requires Valid()
      modifies this
      ensures Valid() && token == tokens[old(index)]
      ensures index == if token.kind.Eof? then old(index) else old(index) + 1
    {
      token := Current();
      if !token.kind.Eof? {
        index := index + 1;
      }
    }

    method Consume(value: string) returns (taken: bool)
      requires Valid() && value != ""
      modifies this
      ensures Valid() && taken == (tokens[old(index)].value == value)
      ensures index == if taken then old(index) + 1 else old(index)
    {
      if Current().value != value {
        return false;
      }
      index := index + 1;
      return true;
    }

    /** Like Consume, and a failed expectation is thrown by the caller. */
    method Expect(value: string) returns (taken: bool, problem: Problem)
      requires Valid() && value != ""
      modifies this
      ensures Valid() && taken == (tokens[old(index)].value == value)
      ensures index == if taken then old(index) + 1 else old(index)
      ensures problem == Expected(value, tokens[old(index)].offset)
    {
      problem := Expected(value, Current().offset);
      taken := Current().value == value;
      if taken {
        index := index + 1;
      }
    }

    method ParseProgram() returns (r: Result)
      requires Valid() && index == 0
      modifies this
      ensures Valid() && Gives(r, ParseAll(d, tokens))
    {
      r := ParseConditional();
      if r.Thrown? {
        return;
      }
      var trailing := Current();
      if !trailing.kind.Eof? {
        if trailing.value == "." {
          return Thrown(MemberAccess(trailing.offset));
        }
        if trailing.value == "(" {
          return Thrown(FunctionCall(trailing.offset));
        }
        return Thrown(Unexpected(trailing.value, trailing.offset));
      }
    }

    method ParseConditional() returns (r: Result)
      requires Valid()
      modifies this
      ensures Valid() && Gives(r, Parse(d, tokens, CONDITIONAL, old(index)))
      decreases |tokens| - index, 3, 0
    {
      hide Sensible, Texts, Quotes;
      r := ParseBinary(1);
      if r.Thrown? {
        return;
      }
      var condition := r.value;
      var conditional := Consume("?");
      if !conditional {
        return;
      }
      r := ParseConditional();
      if r.Thrown? {
        return;
      }
      var whenTrue := r.value;
      var colon, problem := Expect(":");
      if !colon {
        return Thrown(problem);
      }
      r := ParseConditional();
      if r.Thrown? {
        return;
      }
      r := Ok(Conditional(condition, whenTrue, r.value));
    }

    /** One method per binary level in the source, each handing the next one to `parseBinary`. */
    method ParseBinary(level: nat) returns (r: Result)
      requires Valid() && 0 < level < UNARY
      modifies this
      ensures Valid() && Gives(r, Parse(d, tokens, level, old(index)))
      decreases |tokens| - index, 2, UNARY - level, 0
    {
      hide Sensible, Texts, Quotes;
      r := ParseOperand(level + 1);
      if r.Thrown? {
        return;
      }
      var expression := r.value;
      ghost var outcome := ParseOps(d, tokens, level, expression, index);
      while Current().kind.Operator? && Rank(Current().value) == level
        invariant Valid() && old(index) < index
        invariant ParseOps(d, tokens, level, expression, index) == outcome
        decreases |tokens| - index
      {
        var operator := Advance();
        r := ParseOperand(level + 1);
        if r.Thrown? {
          return;
        }
        expression := Binary(operator.value, expression, r.value);
      }
      r := Ok(expression);
    }

    method ParseOperand(level: nat) returns (r: Result)
      requires Valid() && 1 < level <= UNARY
      modifies this
      ensures Valid() && Gives(r, Parse(d, tokens, level, old(index)))
      decreases |tokens| - index, 2, UNARY - level, 1
    {
      if level < UNARY {
        r := ParseBinary(level);
      } else {
        r := ParseUnary();
      }
    }

    method ParseUnary() returns (r: Result)
      requires Valid()
      modifies this
      ensures Valid() && Gives(r, Parse(d, tokens, UNARY, old(index)))
      decreases |tokens| - index, 1
    {
      var token := Current();
      if token.kind.Operator? && Prefix(token.value) {
        var _ := Advance();
        r := ParseUnary();
        if r.Ok? {
          r := Ok(Unary(token.value, r.value));
        }
        return;
      }
      r := ParsePrimary();
    }

    method ParsePrimary() returns (r: Result)
      requires Valid()
      modifies this
      ensures Valid() && Gives(r, OptionMapGrammar.ParsePrimary(d, tokens, old(index)))
      decreases |tokens| - index, 0
    {
      hide Sensible, Texts, Quotes;
      var token := Advance();
      if token.kind.Numeral? {
        var value := d.read(token.value);
        return if d.safe(value) then Ok(Num(value)) else Thrown(UnsafeNumber(token.offset));
      }
      if token.kind.Quoted? {
        return Ok(Text(token.value));
      }
      if token.kind.Identifier? {
        if Current().value == "(" {
          return Thrown(FunctionCall(Current().offset));
        }
        if token.value == d.variable {
          return Ok(Input);
        }
        if token.value == "true" || token.value == "false" {
          return Ok(Truth(token.value == "true"));
        }
        if token.value == "null" {
          return Ok(Null);
        }
        return Thrown(UnknownIdentifier(token.value, token.offset));
      }
      if token.value == "(" {
        r := ParseConditional();
        if r.Thrown? {
          return;
        }
        var closed, problem := Expect(")");
        return if closed then r else Thrown(problem);
      }
      if token.value == "[" {
        r := ParseArray();
        return;
      }
      if token.value == "{" {
        r := ParseObject();
        return;
      }
      return Thrown(Unexpected(token.value, token.offset));
    }

    method ParseArray() returns (r: Result)
      requires Valid()
      modifies this
      ensures Valid()
      ensures Gives(r, if tokens[old(index)].value == "]" then Parsed(Array([]), old(index) + 1)
                       else ParseElements(d, tokens, [], old(index)))
      decreases |tokens| - index, 4
    {
      hide Sensible, Texts, Quotes;
      var elements: seq<Expr> := [];
      var empty := Consume("]");
      if empty {
        return Ok(Array([]));
      }
      ghost var outcome := ParseElements(d, tokens, [], index);
      var more := true;
      while more
        invariant Valid() && old(index) <= index
        invariant more ==> ParseElements(d, tokens, elements, index) == outcome
        invariant !more ==> tokens[index].value != ","
        invariant !more ==> outcome == if tokens[index].value == "]" then Parsed(Array(elements), index + 1)
                                       else Failed(Expected("]", tokens[index].offset))
        decreases |tokens| - index, more
      {
        r := ParseConditional();
        if r.Thrown? {
          return;
        }
        elements := elements + [r.value];
        more := Consume(",");
      }
      var closed, problem := Expect("]");
      return if closed then Ok(Array(elements)) else Thrown(problem);
    }

    method ParseObject() returns (r: Result)
      requires Valid()
      modifies this
      ensures Valid()
      ensures Gives(r, if tokens[old(index)].value == "}" then Parsed(Object([]), old(index) + 1)
                       else ParseEntries(d, tokens, [], old(index)))
      decreases |tokens| - index, 4
    {
      hide Sensible, Texts, Quotes;
      var entries: seq<Entry> := [];
      var keys: set<string> := {};
      var empty := Consume("}");
      if empty {
        return Ok(Object([]));
      }
      ghost var outcome := ParseEntries(d, tokens, [], index);
      var more := true;
      while more
        invariant Valid() && old(index) <= index
        invariant forall key :: key in keys <==> HasKey(entries, key)
        invariant more ==> ParseEntries(d, tokens, entries, index) == outcome
        invariant !more ==> tokens[index].value != ","
        invariant !more ==> outcome == if tokens[index].value == "}" then Parsed(Object(entries), index + 1)
                                       else Failed(Expected("}", tokens[index].offset))
        decreases |tokens| - index, more
      {
        var key := Advance();
        if !key.kind.Quoted? {
          return Thrown(KeyNotString(key.offset));
        }
        if key.value in keys {
          return Thrown(DuplicateKey(key.value, key.offset));
        }
        keys := keys + {key.value};
        var colon, problem := Expect(":");
        if !colon {
          return Thrown(problem);
        }
        r := ParseConditional();
        if r.Thrown? {
          return;
        }
        KeysAppended(entries, Entry(key.value, r.value));
        entries := entries + [Entry(key.value, r.value)];
        more := Consume(",");
      }
      var closed, problem := Expect("}");
      return if closed then Ok(Object(entries)) else Thrown(problem);
    }
  }

  lemma KeysAppended(entries: seq<Entry>, entry: Entry)
    ensures forall key :: HasKey(entries + [entry], key) <==> HasKey(entries, key) || key == entry.key
  {
    var more := entries + [entry];
    forall key ensures HasKey(more, key) <==> HasKey(entries, key) || key == entry.key {
      if HasKey(entries, key) {
        var k :| 0 <= k < |entries| && entries[k].key == key;
        assert more[k].key == key;
      }
      assert more[|entries|] == entry;
    }
  }
}
