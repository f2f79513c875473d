/** Worked inputs: the trees and the errors `parse` yields for a few
    concrete token lists, derived from the general theorems. */
module Examples {
  import opened Tokens
  import opened Ast
  import opened Grammar
  import opened Shapes
  import opened Unparse
  import opened Wrappers
  import Congruence
  import Parsing

  function NumberLit(n: real): Expr { Literal(Num(n)) }

  const MinusToken := Token(Minus, "-", Null, 1)
  const PlusToken := Token(Plus, "+", Null, 1)
  const StarToken := Token(Star, "*", Null, 1)

  /** `1 - 2 - 3` groups to the left. */
  lemma {:induction false} SubtractionGroupsLeft()
    ensures Parse([LiteralToken(Num(1.0)), MinusToken, LiteralToken(Num(2.0)), MinusToken,
                   LiteralToken(Num(3.0)), EofToken])
         == Some(Binary(Binary(NumberLit(1.0), MinusToken, NumberLit(2.0)), MinusToken, NumberLit(3.0)))
  {
    var e := Binary(Binary(NumberLit(1.0), MinusToken, NumberLit(2.0)), MinusToken, NumberLit(3.0));
    assert TierForm(AdditionTier, e.left);
    ParseRoundTrip(e);
    assert Flatten(e) + [EofToken] == [LiteralToken(Num(1.0)), MinusToken, LiteralToken(Num(2.0)), MinusToken,
                                       LiteralToken(Num(3.0)), EofToken];
  }

  /** A number token as the scanner makes it: its source text and line. */
  function Scanned(n: real, lexeme: string): Token { Token(Number, lexeme, Num(n), 1) }

  /** `1 - 2 - 3` as the scanner hands it over, with real lexemes and lines. */
  const ScannedSubtractionTokens :=
    [Scanned(1.0, "1"), MinusToken, Scanned(2.0, "2"), MinusToken, Scanned(3.0, "3"), Token(Eof, "", Null, 1)]

  /** The scanned list differs from the flattened one only in lexemes and lines. */
  lemma {:induction false} ScannedSubtractionAlike()
    ensures Congruence.Alike([LiteralToken(Num(1.0)), MinusToken, LiteralToken(Num(2.0)), MinusToken,
                   LiteralToken(Num(3.0)), EofToken], ScannedSubtractionTokens)
  {
    var ts := [LiteralToken(Num(1.0)), MinusToken, LiteralToken(Num(2.0)), MinusToken, LiteralToken(Num(3.0)), EofToken];
    var us := ScannedSubtractionTokens;
    forall i | 0 <= i < |ts|
      ensures ts[i].kind == us[i].kind && ts[i].literal == us[i].literal
      ensures Congruence.Stored(ts[i].kind) ==> ts[i] == us[i]
    {
      assert i == 1 || i == 3 || !Congruence.Stored(ts[i].kind);
    }
  }

  /** The scanned `1 - 2 - 3` groups to the left as well. */
  lemma {:induction false} ScannedSubtraction()
    ensures Parse(ScannedSubtractionTokens)
         == Some(Binary(Binary(NumberLit(1.0), MinusToken, NumberLit(2.0)), MinusToken, NumberLit(3.0)))
  {
    SubtractionGroupsLeft();
    ScannedSubtractionAlike();
    Congruence.ParseAlike([LiteralToken(Num(1.0)), MinusToken, LiteralToken(Num(2.0)), MinusToken,
                LiteralToken(Num(3.0)), EofToken], ScannedSubtractionTokens);
  }

  /** `true` as a scanner gives it, with no payload: the parser reads only
      its kind, so it is still the literal `true`. */
  lemma {:induction false} ScannedTrue()
    ensures Parse([Token(True, "true", Null, 1), Token(Eof, "", Null, 1)]) == Some(Literal(Boolean(true)))
  {
    var us := [Token(True, "true", Null, 1), Token(Eof, "", Null, 1)];
    assert PrimaryForm(Literal(Boolean(true)));
    assert Flatten(Literal(Boolean(true))) + [EofToken] == [Token(True, "true", Boolean(true), 0), EofToken];
    assert Congruence.Alike(Flatten(Literal(Boolean(true))) + [EofToken], us);
    Congruence.ScannedRoundTrip(Literal(Boolean(true)), us);
  }

  /** `1 + 2 * 3`: multiplication binds tighter than addition. */
  lemma {:induction false} ProductBindsTighter()
    ensures Parse([LiteralToken(Num(1.0)), PlusToken, LiteralToken(Num(2.0)), StarToken,
                   LiteralToken(Num(3.0)), EofToken])
         == Some(Binary(NumberLit(1.0), PlusToken, Binary(NumberLit(2.0), StarToken, NumberLit(3.0))))
  {
    var e := Binary(NumberLit(1.0), PlusToken, Binary(NumberLit(2.0), StarToken, NumberLit(3.0)));
    assert TierForm(MultiplicationTier, e.right);
    ParseRoundTrip(e);
    assert Flatten(e) + [EofToken] == [LiteralToken(Num(1.0)), PlusToken, LiteralToken(Num(2.0)), StarToken,
                                       LiteralToken(Num(3.0)), EofToken];
  }

  /** `(1 + 2) * 3`: parentheses override precedence. */
  lemma {:induction false} GroupingOverrides()
    ensures Parse([LeftParenToken, LiteralToken(Num(1.0)), PlusToken, LiteralToken(Num(2.0)), RightParenToken,
                   StarToken, LiteralToken(Num(3.0)), EofToken])
         == Some(Binary(Grouping(Binary(NumberLit(1.0), PlusToken, NumberLit(2.0))), StarToken, NumberLit(3.0)))
  {
    var g := Grouping(Binary(NumberLit(1.0), PlusToken, NumberLit(2.0)));
    var e := Binary(g, StarToken, NumberLit(3.0));
    assert TierForm(AdditionTier, g.expression);
    assert PrimaryForm(g);
    ParseRoundTrip(e);
    assert Flatten(e) + [EofToken] == [LeftParenToken, LiteralToken(Num(1.0)), PlusToken, LiteralToken(Num(2.0)),
                                       RightParenToken, StarToken, LiteralToken(Num(3.0)), EofToken];
  }

  /** `- - 5`: prefix operators nest to the right. */
  lemma {:induction false} NegationsNest()
    ensures Parse([MinusToken, MinusToken, LiteralToken(Num(5.0)), EofToken])
         == Some(Unary(MinusToken, Unary(MinusToken, NumberLit(5.0))))
  {
    var e := Unary(MinusToken, Unary(MinusToken, NumberLit(5.0)));
    assert UnaryForm(e);
    ParseRoundTrip(e);
    assert Flatten(e) + [EofToken] == [MinusToken, MinusToken, LiteralToken(Num(5.0)), EofToken];
  }

  /** `1 )`: the parser stops after one expression and leaves the rest. */
  lemma {:induction false} TrailingTokensIgnored()
    ensures Parse([LiteralToken(Num(1.0)), RightParenToken, EofToken]) == Some(NumberLit(1.0))
  {
    assert PrimaryForm(NumberLit(1.0));
    ClosesEquality(RightParen);
    ParsePrefix(NumberLit(1.0), [RightParenToken, EofToken]);
    assert Flatten(NumberLit(1.0)) + [RightParenToken, EofToken] == [LiteralToken(Num(1.0)), RightParenToken, EofToken];
  }

  /** `(1 + 2` at the end of input. */
  const UnclosedSumTokens := [LeftParenToken, LiteralToken(Num(1.0)), PlusToken, LiteralToken(Num(2.0)), EofToken]

  /** Inside the parenthesis, `1 + 2` parses and stops at the `EOF`. */
  lemma {:induction false} UnclosedSumInner()
    ensures ParseExpression(UnclosedSumTokens, 1) == Parsed(Binary(NumberLit(1.0), PlusToken, NumberLit(2.0)), 4)
  {
    var ts := UnclosedSumTokens;
    var inner := Binary(NumberLit(1.0), PlusToken, NumberLit(2.0));
    assert TierForm(AdditionTier, inner);
    assert ts[1..4] == Flatten(inner);
    ClosesEquality(Eof);
    TierRoundTrip(EqualityTier, inner, ts, 1, 4);
  }

  /** `(1 + 2` at the end of input: the missing `)` is reported at the end. */
  lemma {:induction false} MissingRightParen()
    ensures ParseExpression(UnclosedSumTokens, 0) == Failed(4, ExpectRightParen)
  {
    var ts := UnclosedSumTokens;
    UnclosedSumInner();
    UnclosedGrouping(ts, 0, 4, Binary(NumberLit(1.0), PlusToken, NumberLit(2.0)));
    assert !Matches(ts, 0, UnaryOperators);
    FailurePropagates(EqualityTier, ts, 0);
  }

  /** A lone `+`: no operand, so the error names the `+` itself. */
  lemma {:induction false} MissingOperand()
    ensures ParseExpression([PlusToken, EofToken], 0) == Failed(0, ExpectExpression)
  {
    var ts := [PlusToken, EofToken];
    assert ParseUnary(ts, 0) == Failed(0, ExpectExpression);
    FailurePropagates(EqualityTier, ts, 0);
  }

  /** A parser object on `1 + 2 * 3` returns the tree and reports nothing. */
  method ParsesPrecedence() returns (r: Option<Expr>, log: seq<SyntaxError>)
    ensures r == Some(Binary(NumberLit(1.0), PlusToken, Binary(NumberLit(2.0), StarToken, NumberLit(3.0))))
    ensures log == []
  {
    var ts := [LiteralToken(Num(1.0)), PlusToken, LiteralToken(Num(2.0)), StarToken, LiteralToken(Num(3.0)), EofToken];
    var parser := new Parsing.Parser(ts);
    ProductBindsTighter();
    r := parser.Parse();
    log := parser.reported;
  }

  /** A parser object on `(1 + 2` returns nothing and reports the missing
      parenthesis once, at the end of input. */
  method ReportsUnclosedGrouping() returns (r: Option<Expr>, log: seq<SyntaxError>)
    ensures r == None
    ensures log == [SyntaxError(EofToken, ExpectRightParen)]
  {
    var ts := UnclosedSumTokens;
    var parser := new Parsing.Parser(ts);
    MissingRightParen();
    r := parser.Parse();
    log := parser.reported;
  }
}
