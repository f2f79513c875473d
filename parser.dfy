/** The recursive-descent parser as an object: the token list it was built
    with, the cursor it moves, and the diagnostics it hands to the error
    sink. `Expression`, the four tier methods, `Unary` and `Primary` are
    proved equal to their `Grammar` functions: the same tree or the same
    error, the cursor left at the same place, and one diagnostic per raised
    error. `Match`, `Advance` and `Synchronize` are tied to `Matches`,
    `Advanced` and `SyncTarget`; `Consume` and `Error` state their result
    and new state themselves. */
module Parsing {
  import opened Tokens
  import Ast
  import opened Grammar
  import opened Wrappers

  class Parser {
    const tokens: seq<Token>
    var current: nat
    /** What `error` has passed to the error sink so far, oldest first. */
    var reported: seq<SyntaxError>

    ghost predicate Valid()
      reads this
    {
      Cursor(tokens, current)
    }

    constructor(tokens: seq<Token>)
      requires WellTerminated(tokens)
      ensures Valid()
      ensures this.tokens == tokens && current == 0 && reported == []
    {
      this.tokens := tokens;
      current := 0;
      reported := [];
    }

    /** The state after a routine whose pure outcome is `o`: on success the
        tree, on failure the raised error, reported once; the cursor where
        the routine left it. */
    ghost predicate Reflects(o: Outcome, r: Result<Ast.Expr, SyntaxError>, before: seq<SyntaxError>)
      reads this
    {
      match o
      case Parsed(e, next) =>
        r == Success(e) && current == next && reported == before
      case Failed(at, message) =>
        at < |tokens| && current == at &&
        r == Failure(SyntaxError(tokens[at], message)) &&
        reported == before + [SyntaxError(tokens[at], message)]
    }

    /** The whole expression; a raised error becomes `None`. */
    method Parse() returns (r: Option<Ast.Expr>)
      requires Valid()
      modifies this
      ensures Valid()
      ensures var o := ParseExpression(tokens, old(current));
              && r == (if o.Parsed? then Some(o.expr) else None)
              && current == (if o.Parsed? then o.next else o.at)
              && reported == old(reported) + Diagnostic(tokens, o)
      ensures r.None? <==> |reported| == |old(reported)| + 1
      ensures old(current) == 0 ==> r == Grammar.Parse(tokens)
    {
      var e := Expression();
      if e.Success? {
        return Some(e.value);
      }
      return None;
    }

    method Expression() returns (r: Result<Ast.Expr, SyntaxError>)
      requires Valid()
      modifies this
      ensures Valid() && Reflects(ParseExpression(tokens, old(current)), r, old(reported))
      decreases |tokens| - current, 6
    {
      r := Equality();
    }

    method Equality() returns (r: Result<Ast.Expr, SyntaxError>)
      requires Valid()
      modifies this
      ensures Valid() && Reflects(ParseTier(EqualityTier, tokens, old(current)), r, old(reported))
      decreases |tokens| - current, 5
    {
      var expr :- Comparison();
      ghost var mark := current;
      ghost var goal := ParseTierTail(EqualityTier, tokens, mark, expr);
      var matched := Match([BangEqual, EqualEqual]);
      while matched
        invariant Valid() && old(current) < mark < |tokens| && reported == old(reported)
        invariant goal == ParseTierTail(EqualityTier, tokens, mark, expr)
        invariant matched == Matches(tokens, mark, Operators(EqualityTier))
        invariant current == if matched then mark + 1 else mark
        decreases |tokens| - current
      {
        var operator := Previous(tokens, current);
        TailTurn(EqualityTier, tokens, mark, expr);
        var right :- Comparison();
        expr := Ast.Binary(expr, operator, right);
        mark := current;
        matched := Match([BangEqual, EqualEqual]);
      }
      return Success(expr);
    }

    method Comparison() returns (r: Result<Ast.Expr, SyntaxError>)
      requires Valid()
      modifies this
      ensures Valid() && Reflects(ParseTier(ComparisonTier, tokens, old(current)), r, old(reported))
      decreases |tokens| - current, 4
    {
      var expr :- Addition();
      ghost var mark := current;
      ghost var goal := ParseTierTail(ComparisonTier, tokens, mark, expr);
      var matched := Match([Greater, GreaterEqual, Less, LessEqual]);
      while matched
        invariant Valid() && old(current) < mark < |tokens| && reported == old(reported)
        invariant goal == ParseTierTail(ComparisonTier, tokens, mark, expr)
        invariant matched == Matches(tokens, mark, Operators(ComparisonTier))
        invariant current == if matched then mark + 1 else mark
        decreases |tokens| - current
      {
        var operator := Previous(tokens, current);
        TailTurn(ComparisonTier, tokens, mark, expr);
        var right :- Addition();
        expr := Ast.Binary(expr, operator, right);
        mark := current;
        matched := Match([Greater, GreaterEqual, Less, LessEqual]);
      }
      return Success(expr);
    }

    method Addition() returns (r: Result<Ast.Expr, SyntaxError>)
      requires Valid()
      modifies this
      ensures Valid() && Reflects(ParseTier(AdditionTier, tokens, old(current)), r, old(reported))
      decreases |tokens| - current, 3
    {
      var expr :- Multiplication();
      ghost var mark := current;
      ghost var goal := ParseTierTail(AdditionTier, tokens, mark, expr);
      var matched := Match([Minus, Plus]);
      while matched
        invariant Valid() && old(current) < mark < |tokens| && reported == old(reported)
        invariant goal == ParseTierTail(AdditionTier, tokens, mark, expr)
        invariant matched == Matches(tokens, mark, Operators(AdditionTier))
        invariant current == if matched then mark + 1 else mark
        decreases |tokens| - current
      {
        var operator := Previous(tokens, current);
        TailTurn(AdditionTier, tokens, mark, expr);
        var right :- Multiplication();
        expr := Ast.Binary(expr, operator, right);
        mark := current;
        matched := Match([Minus, Plus]);
      }
      return Success(expr);
    }

    method Multiplication() returns (r: Result<Ast.Expr, SyntaxError>)
      requires Valid()
      modifies this
      ensures Valid() && Reflects(ParseTier(MultiplicationTier, tokens, old(current)), r, old(reported))
      decreases |tokens| - current, 2
    {
      var expr :- Unary();
      ghost var mark := current;
      ghost var goal := ParseTierTail(MultiplicationTier, tokens, mark, expr);
      var matched := Match([Slash, Star]);
      while matched
        invariant Valid() && old(current) < mark < |tokens| && reported == old(reported)
        invariant goal == ParseTierTail(MultiplicationTier, tokens, mark, expr)
        invariant matched == Matches(tokens, mark, Operators(MultiplicationTier))
        invariant current == if matched then mark + 1 else mark
        decreases |tokens| - current
      {
        var operator := Previous(tokens, current);
        TailTurn(MultiplicationTier, tokens, mark, expr);
        var right :- Unary();
        expr := Ast.Binary(expr, operator, right);
        mark := current;
        matched := Match([Slash, Star]);
      }
      return Success(expr);
    }

    method Unary() returns (r: Result<Ast.Expr, SyntaxError>)
      requires Valid()
      modifies this
      ensures Valid() && Reflects(ParseUnary(tokens, old(current)), r, old(reported))
      decreases |tokens| - current, 1
    {
      var matched := Match([Bang, Minus]);
      if matched {
        var operator := Previous(tokens, current);
        var right :- Unary();
        return Success(Ast.Unary(operator, right));
      }
      r := Primary();
    }

    method Primary() returns (r: Result<Ast.Expr, SyntaxError>)
      requires Valid()
      modifies this
      ensures Valid() && Reflects(ParsePrimary(tokens, old(current)), r, old(reported))
      decreases |tokens| - current, 0
    {
      var matched := Match([False]);
      if matched {
        return Success(Ast.Literal(Boolean(false)));
      }
      matched := Match([True]);
      if matched {
        return Success(Ast.Literal(Boolean(true)));
      }
      matched := Match([Nil]);
      if matched {
        return Success(Ast.Literal(Null));
      }
      matched := Match([Number, String]);
      if matched {
        return Success(Ast.Literal(Previous(tokens, current).literal));
      }
      matched := Match([LeftParen]);
      if matched {
        var expr :- Expression();
        var closing :- Consume(RightParen, ExpectRightParen);
        return Success(Ast.Grouping(expr));
      }
      var error := Error(Peek(tokens, current), ExpectExpression);
      return Failure(error);
    }

    /** Tries the kinds in order; on the first that checks, advances. */
    method Match(types: seq<TokenType>) returns (matched: bool)
      requires Valid()
      modifies this`current
      ensures Valid() && matched == Matches(tokens, old(current), types)
      ensures current == if matched then old(current) + 1 else old(current)
    {
      for i := 0 to |types|
        invariant current == old(current)
        invariant forall j :: 0 <= j < i ==> !Check(tokens, current, types[j])
      {
        if Check(tokens, current, types[i]) {
          var token := Advance();
          return true;
        }
      }
      return false;
    }

    /** The expected token is consumed and returned; anything else is
        reported and raised, the cursor staying on it. */
    method Consume(kind: TokenType, message: string) returns (r: Result<Token, SyntaxError>)
      requires Valid()
      modifies this
      ensures Valid()
      ensures Check(tokens, old(current), kind) ==>
                r == Success(tokens[old(current)]) && current == old(current) + 1 && reported == old(reported)
      ensures !Check(tokens, old(current), kind) ==>
                && r == Failure(SyntaxError(tokens[old(current)], message))
                && current == old(current)
                && reported == old(reported) + [SyntaxError(tokens[old(current)], message)]
    {
      if Check(tokens, current, kind) {
        var token := Advance();
        return Success(token);
      }
      var error := Error(Peek(tokens, current), message);
      return Failure(error);
    }

    /** Moves past the current token unless it is the end of input, and
        returns the token now behind the cursor. */
    method Advance() returns (token: Token)
      requires Valid() && (0 < current || !IsAtEnd(tokens, current))
      modifies this`current
      ensures Valid() && current == Advanced(tokens, old(current))
      ensures token == Previous(tokens, current)
      ensures !IsAtEnd(tokens, old(current)) ==> token == tokens[old(current)]
    {
      if !IsAtEnd(tokens, current) {
        current := current + 1;
      }
      token := Previous(tokens, current);
    }

    /** Hands the diagnostic to the error sink and returns it to be raised. */
    method Error(token: Token, message: string) returns (error: SyntaxError)
      modifies this`reported
      ensures error == SyntaxError(token, message)
      ensures reported == old(reported) + [error]
    {
      error := SyntaxError(token, message);
      reported := reported + [error];
    }

    /** Error recovery: skips past the offending token, then on to the next
        statement boundary. */
    method Synchronize()
      requires Valid() && (0 < current || !IsAtEnd(tokens, current))
      modifies this`current
      ensures Valid() && current == SyncTarget(tokens, old(current))
    {
      var token := Advance();
      while !IsAtEnd(tokens, current)
        invariant Valid() && 0 < current
        invariant SyncTarget(tokens, old(current)) == SyncLoop(tokens, current)
        decreases |tokens| - current
      {
        if Previous(tokens, current).kind == Semicolon {
          return;
        }
        if Peek(tokens, current).kind in StatementStarts {
          return;
        }
        token := Advance();
      }
    }
  }
}
