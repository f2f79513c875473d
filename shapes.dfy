/** The shapes of the trees the parser builds, and the proof that every
    routine builds a tree of its own shape and raises only errors that name
    a token that really does not fit. Together with the round trip in
    `Unparse` this is the grammar's precedence and associativity. */
module Shapes {
  import opened Tokens
  import opened Ast
  import opened Grammar

  /** The trees tier `t` builds: an operand of the tier, or a `Binary` node
      whose operator is one of the tier's, whose left child is again a tree
      of the tier and whose right child is an operand (left-associativity). */
  predicate TierForm(t: Tier, e: Expr)
    decreases e, Rank(t), 1
  {
    || OperandForm(t, e)
    || (e.Binary? && e.operator.kind in Operators(t) && TierForm(t, e.left) && OperandForm(t, e.right))
  }

  /** The trees parsed as the operands of tier `t`: trees of the next
      tighter tier, or unary trees below multiplication. */
  predicate OperandForm(t: Tier, e: Expr)
    decreases e, Rank(t), 0
  {
    if t == MultiplicationTier then UnaryForm(e) else TierForm(Tighter(t), e)
  }

  /** The trees `unary` builds: right-nested prefix operators over a primary. */
  predicate UnaryForm(e: Expr)
    decreases e, 1, 0
  {
    match e
    case Unary(op, right) => op.kind in UnaryOperators && UnaryForm(right)
    case _ => PrimaryForm(e)
  }

  /** The trees `primary` builds: a literal, or a grouped full expression. */
  predicate PrimaryForm(e: Expr)
    decreases e, 0, 0
  {
    match e
    case Literal(_) => true
    case Grouping(inner) => TierForm(EqualityTier, inner)
    case _ => false
  }

  /** `expression` returns a tree of the loosest tier, or a justified error. */
  lemma {:induction false} ExpressionShape(ts: seq<Token>, pos: nat)
    requires Cursor(ts, pos)
    ensures Justified(ts, ParseExpression(ts, pos))
    ensures ParseExpression(ts, pos).Parsed? ==> TierForm(EqualityTier, ParseExpression(ts, pos).expr)
    decreases |ts| - pos, 6, 0
  {
    TierShape(EqualityTier, ts, pos);
  }

  lemma {:induction false} TierShape(t: Tier, ts: seq<Token>, pos: nat)
    requires Cursor(ts, pos)
    ensures Justified(ts, ParseTier(t, ts, pos))
    ensures ParseTier(t, ts, pos).Parsed? ==> TierForm(t, ParseTier(t, ts, pos).expr)
    decreases |ts| - pos, Rank(t), 1
  {
    OperandShape(t, ts, pos);
    match ParseOperand(t, ts, pos)
    case Failed(_, _) =>
    case Parsed(left, next) =>
      TailShape(t, ts, next, left);
  }

  /** The loop of a tier keeps the accumulated tree of the tier's shape. */
  lemma {:induction false} TailShape(t: Tier, ts: seq<Token>, pos: nat, acc: Expr)
    requires Cursor(ts, pos) && TierForm(t, acc)
    ensures Justified(ts, ParseTierTail(t, ts, pos, acc))
    ensures ParseTierTail(t, ts, pos, acc).Parsed? ==> TierForm(t, ParseTierTail(t, ts, pos, acc).expr)
    decreases |ts| - pos, Rank(t), 0
  {
    if Matches(ts, pos, Operators(t)) {
      OperandShape(t, ts, pos + 1);
      match ParseOperand(t, ts, pos + 1)
      case Failed(_, _) =>
      case Parsed(right, next) =>
        TailShape(t, ts, next, Binary(acc, ts[pos], right));
    }
  }

  lemma {:induction false} OperandShape(t: Tier, ts: seq<Token>, pos: nat)
    requires Cursor(ts, pos)
    ensures Justified(ts, ParseOperand(t, ts, pos))
    ensures ParseOperand(t, ts, pos).Parsed? ==> OperandForm(t, ParseOperand(t, ts, pos).expr)
    decreases |ts| - pos, Rank(t), 0
  {
    if t == MultiplicationTier {
      UnaryShape(ts, pos);
    } else {
      TierShape(Tighter(t), ts, pos);
    }
  }

  /** `unary` fails at its own first token exactly when that token cannot
      start an expression. */
  lemma {:induction false} UnaryShape(ts: seq<Token>, pos: nat)
    requires Cursor(ts, pos)
    ensures Justified(ts, ParseUnary(ts, pos))
    ensures ParseUnary(ts, pos).Parsed? ==> UnaryForm(ParseUnary(ts, pos).expr)
    ensures ParseUnary(ts, pos) == Failed(pos, ExpectExpression) <==> !Matches(ts, pos, ExpressionStarts)
    decreases |ts| - pos, 1, 0
  {
    if Matches(ts, pos, UnaryOperators) {
      UnaryShape(ts, pos + 1);
      assert Matches(ts, pos, ExpressionStarts);
    } else {
      PrimaryShape(ts, pos);
      if !IsAtEnd(ts, pos) {
        assert Matches(ts, pos, ExpressionStarts) <==> Matches(ts, pos, PrimaryStarts);
      }
    }
  }

  /** `primary` fails at its own first token exactly when that token starts
      no operand; any other error comes from inside a parenthesis. */
  lemma {:induction false} PrimaryShape(ts: seq<Token>, pos: nat)
    requires Cursor(ts, pos)
    ensures ParsePrimary(ts, pos).Parsed? ==> PrimaryForm(ParsePrimary(ts, pos).expr)
    ensures ParsePrimary(ts, pos) == Failed(pos, ExpectExpression) <==> !Matches(ts, pos, PrimaryStarts)
    ensures ParsePrimary(ts, pos).Failed? && ParsePrimary(ts, pos).at != pos ==> Justified(ts, ParsePrimary(ts, pos))
    decreases |ts| - pos, 0, 0
  {
    if Matches(ts, pos, [LeftParen]) {
      ExpressionShape(ts, pos + 1);
    }
  }

  /** Case by case, what `primary` builds from the token in front of it:
      the three keyword literals, the scanned payload of a number or a
      string, and a parenthesised expression that needs its `)`. */
  lemma PrimaryCases(ts: seq<Token>, pos: nat)
    requires Cursor(ts, pos)
    ensures ts[pos].kind == False ==> ParsePrimary(ts, pos) == Parsed(Literal(Boolean(false)), pos + 1)
    ensures ts[pos].kind == True ==> ParsePrimary(ts, pos) == Parsed(Literal(Boolean(true)), pos + 1)
    ensures ts[pos].kind == Nil ==> ParsePrimary(ts, pos) == Parsed(Literal(Null), pos + 1)
    ensures ts[pos].kind in {Number, String} ==> ParsePrimary(ts, pos) == Parsed(Literal(ts[pos].literal), pos + 1)
    ensures ts[pos].kind == LeftParen && ParseExpression(ts, pos + 1).Failed? ==>
              ParsePrimary(ts, pos) == ParseExpression(ts, pos + 1)
    ensures ts[pos].kind == LeftParen && ParseExpression(ts, pos + 1).Parsed? ==>
              var inner := ParseExpression(ts, pos + 1);
              ParsePrimary(ts, pos) ==
                if ts[inner.next].kind == RightParen then Parsed(Grouping(inner.expr), inner.next + 1)
                else Failed(inner.next, ExpectRightParen)
  {
  }

  /** What `parse` returns is a tree of expression shape. */
  lemma {:induction false} ParseShape(ts: seq<Token>)
    requires WellTerminated(ts)
    ensures Parse(ts).Some? ==> TierForm(EqualityTier, Parse(ts).value)
  {
    ExpressionShape(ts, 0);
  }

  /** An error raised by the innermost operand is raised unchanged by every
      tier around it: no tier catches, and none starts its loop. */
  lemma {:induction false} FailurePropagates(t: Tier, ts: seq<Token>, pos: nat)
    requires Cursor(ts, pos) && ParseUnary(ts, pos).Failed?
    ensures ParseTier(t, ts, pos) == ParseUnary(ts, pos)
    decreases Rank(t)
  {
    if t != MultiplicationTier {
      FailurePropagates(Tighter(t), ts, pos);
    }
  }
}
