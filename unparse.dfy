/** Flattening a tree back into tokens, and the round trip: parsing the
    flattening of any tree the grammar can build gives that tree back. This
    pins down precedence and associativity from the other side: the shapes
    of `Grammar` are exactly the trees `parse` returns. */
module Unparse {
  import opened Tokens
  import opened Ast
  import opened Grammar
  import opened Shapes
  import opened Wrappers

  const EofToken := Token(Eof, "", Null, 0)
  const LeftParenToken := Token(LeftParen, "(", Null, 0)
  const RightParenToken := Token(RightParen, ")", Null, 0)

  /** The token that denotes a literal value. Lexemes and lines are
      placeholders: the parser never looks at them. */
  function LiteralToken(v: Value): Token {
    match v
    case Null => Token(Nil, "nil", v, 0)
    case Boolean(b) => if b then Token(True, "true", v, 0) else Token(False, "false", v, 0)
    case Num(_) => Token(Number, "", v, 0)
    case Text(s) => Token(String, s, v, 0)
  }

  /** The tokens of a tree, in source order, with its operator tokens as stored. */
  function Flatten(e: Expr): seq<Token> {
    match e
    case Binary(l, op, r) => Flatten(l) + [op] + Flatten(r)
    case Grouping(inner) => [LeftParenToken] + Flatten(inner) + [RightParenToken]
    case Literal(v) => [LiteralToken(v)]
    case Unary(op, r) => [op] + Flatten(r)
  }

  /** `s` occupies `ts[pos..end]`, and at least one token follows it. */
  predicate Span(ts: seq<Token>, pos: nat, s: seq<Token>, end: nat) {
    pos + |s| == end < |ts| && ts[pos..end] == s
  }

  lemma SpanSplit(ts: seq<Token>, pos: nat, a: seq<Token>, b: seq<Token>, end: nat)
    requires Span(ts, pos, a + b, end)
    ensures Span(ts, pos, a, pos + |a|) && Span(ts, pos + |a|, b, end)
  {
    assert ts[pos..pos + |a|] == ts[pos..end][..|a|];
    assert ts[pos + |a|..end] == ts[pos..end][|a|..];
  }

  lemma SpanFirst(ts: seq<Token>, pos: nat, s: seq<Token>, end: nat)
    requires Span(ts, pos, s, end) && |s| > 0
    ensures ts[pos] == s[0]
  {
  }

  /** Where the parts of a binary node lie when the node spans `pos..end`. */
  lemma {:induction false} BinarySpan(ts: seq<Token>, pos: nat, e: Expr, end: nat)
    requires e.Binary? && Span(ts, pos, Flatten(e), end)
    ensures Span(ts, pos, Flatten(e.left), pos + |Flatten(e.left)|)
    ensures ts[pos + |Flatten(e.left)|] == e.operator
    ensures Span(ts, pos + |Flatten(e.left)| + 1, Flatten(e.right), end)
  {
    assert Flatten(e) == Flatten(e.left) + [e.operator] + Flatten(e.right);
    SpanSplit(ts, pos, Flatten(e.left) + [e.operator], Flatten(e.right), end);
    SpanSplit(ts, pos, Flatten(e.left), [e.operator], pos + |Flatten(e.left)| + 1);
    SpanFirst(ts, pos + |Flatten(e.left)|, [e.operator], pos + |Flatten(e.left)| + 1);
  }

  /** Where the parts of a grouping lie when the grouping spans `pos..end`. */
  lemma {:induction false} GroupingSpan(ts: seq<Token>, pos: nat, e: Expr, end: nat)
    requires e.Grouping? && Span(ts, pos, Flatten(e), end)
    ensures ts[pos] == LeftParenToken
    ensures Span(ts, pos + 1, Flatten(e.expression), end - 1)
    ensures ts[end - 1] == RightParenToken
  {
    var inner := e.expression;
    assert Flatten(e) == [LeftParenToken] + Flatten(inner) + [RightParenToken];
    SpanSplit(ts, pos, [LeftParenToken] + Flatten(inner), [RightParenToken], end);
    SpanSplit(ts, pos, [LeftParenToken], Flatten(inner), end - 1);
    SpanFirst(ts, pos, [LeftParenToken], pos + 1);
    SpanFirst(ts, end - 1, [RightParenToken], end);
  }

  /** Token kind `k` ends a tree of tier `t`: no loop from `t` inwards
      would continue past it. */
  predicate Closes(t: Tier, k: TokenType)
    decreases Rank(t)
  {
    k !in Operators(t) && (t != MultiplicationTier ==> Closes(Tighter(t), k))
  }

  /** The operator sets are disjoint: a tier's operator closes every tighter tier. */
  lemma OperatorClosesTighter(t: Tier, k: TokenType)
    requires k in Operators(t) && t != MultiplicationTier
    ensures Closes(Tighter(t), k)
  {
  }

  /** Everything but the four operator sets closes the loosest tier; among
      others the end of input and the closing parenthesis. */
  lemma ClosesEquality(k: TokenType)
    requires k !in Operators(EqualityTier) + Operators(ComparisonTier)
                 + Operators(AdditionTier) + Operators(MultiplicationTier)
    ensures Closes(EqualityTier, k)
  {
  }

  /** One turn of a tier's loop: an operator of the tier followed by an
      operand extends the accumulated tree by one left-nested node. */
  lemma TailStep(t: Tier, ts: seq<Token>, mid: nat, end: nat, l: Expr, r: Expr, e: Expr)
    requires Cursor(ts, mid) && ts[mid].kind in Operators(t)
    requires ParseOperand(t, ts, mid + 1) == Parsed(r, end)
    requires e == Binary(l, ts[mid], r)
    ensures ParseTierTail(t, ts, mid, l) == ParseTierTail(t, ts, end, e)
  {
  }

  /** Parsing tier `t` from the start of a tree of that tier reaches the
      loop with the whole tree as the accumulated result. */
  lemma {:induction false} TierPrefix(t: Tier, e: Expr, ts: seq<Token>, pos: nat, end: nat)
    requires WellTerminated(ts) && TierForm(t, e) && Span(ts, pos, Flatten(e), end)
    requires t == MultiplicationTier || Closes(Tighter(t), ts[end].kind)
    ensures ParseTier(t, ts, pos) == ParseTierTail(t, ts, end, e)
    decreases e, Rank(t), 2
  {
    if e.Binary? && e.operator.kind in Operators(t) && TierForm(t, e.left) && OperandForm(t, e.right) {
      BinaryPrefix(t, e, ts, pos, end);
    } else {
      OperandRoundTrip(t, e, ts, pos, end);
    }
  }

  /** The inductive step of `TierPrefix`: the left operand is parsed by
      the tier itself, then one turn of the loop adds the right operand. */
  lemma {:induction false} BinaryPrefix(t: Tier, e: Expr, ts: seq<Token>, pos: nat, end: nat)
    requires WellTerminated(ts) && Span(ts, pos, Flatten(e), end)
    requires e.Binary? && e.operator.kind in Operators(t) && TierForm(t, e.left) && OperandForm(t, e.right)
    requires t == MultiplicationTier || Closes(Tighter(t), ts[end].kind)
    ensures ParseTier(t, ts, pos) == ParseTierTail(t, ts, end, e)
    decreases e, Rank(t), 1
  {
    var mid := pos + |Flatten(e.left)|;
    BinarySpan(ts, pos, e, end);
    if t != MultiplicationTier {
      OperatorClosesTighter(t, e.operator.kind);
    }
    OperandRoundTrip(t, e.right, ts, mid + 1, end);
    TailStep(t, ts, mid, end, e.left, e.right, e);
    TierPrefix(t, e.left, ts, pos, mid);
  }

  /** A tree of tier `t` followed by a token that closes the tier parses
      back to itself, consuming exactly its own tokens. */
  lemma {:induction false} TierRoundTrip(t: Tier, e: Expr, ts: seq<Token>, pos: nat, end: nat)
    requires WellTerminated(ts) && TierForm(t, e) && Span(ts, pos, Flatten(e), end)
    requires Closes(t, ts[end].kind)
    ensures ParseTier(t, ts, pos) == Parsed(e, end)
    decreases e, Rank(t), 3
  {
    TierPrefix(t, e, ts, pos, end);
  }

  lemma {:induction false} OperandRoundTrip(t: Tier, e: Expr, ts: seq<Token>, pos: nat, end: nat)
    requires WellTerminated(ts) && OperandForm(t, e) && Span(ts, pos, Flatten(e), end)
    requires t == MultiplicationTier || Closes(Tighter(t), ts[end].kind)
    ensures ParseOperand(t, ts, pos) == Parsed(e, end)
    decreases e, Rank(t), 0
  {
    if t == MultiplicationTier {
      UnaryRoundTrip(e, ts, pos, end);
    } else {
      TierRoundTrip(Tighter(t), e, ts, pos, end);
    }
  }

  lemma {:induction false} UnaryRoundTrip(e: Expr, ts: seq<Token>, pos: nat, end: nat)
    requires WellTerminated(ts) && UnaryForm(e) && Span(ts, pos, Flatten(e), end)
    ensures ParseUnary(ts, pos) == Parsed(e, end)
    decreases e, 1, 0
  {
    if e.Unary? {
      SpanSplit(ts, pos, [e.operator], Flatten(e.right), end);
      SpanFirst(ts, pos, [e.operator], pos + 1);
      UnaryRoundTrip(e.right, ts, pos + 1, end);
    } else {
      SpanFirst(ts, pos, Flatten(e), end);
      PrimaryRoundTrip(e, ts, pos, end);
    }
  }

  lemma {:induction false} LiteralRoundTrip(v: Value, ts: seq<Token>, pos: nat)
    requires Cursor(ts, pos) && ts[pos] == LiteralToken(v)
    ensures ParsePrimary(ts, pos) == Parsed(Literal(v), pos + 1)
  {
  }

  lemma {:induction false} PrimaryRoundTrip(e: Expr, ts: seq<Token>, pos: nat, end: nat)
    requires WellTerminated(ts) && PrimaryForm(e) && Span(ts, pos, Flatten(e), end)
    ensures ParsePrimary(ts, pos) == Parsed(e, end)
    decreases e, 0, 0
  {
    SpanFirst(ts, pos, Flatten(e), end);
    if e.Literal? {
      LiteralRoundTrip(e.value, ts, pos);
    } else {
      GroupingSpan(ts, pos, e, end);
      ClosesEquality(RightParen);
      TierRoundTrip(EqualityTier, e.expression, ts, pos + 1, end - 1);
      GroupingStep(ts, pos, end - 1, e);
    }
  }

  /** `primary` on an opening parenthesis, an expression and a closing one. */
  lemma {:induction false} GroupingStep(ts: seq<Token>, pos: nat, close: nat, e: Expr)
    requires Cursor(ts, pos) && ts[pos].kind == LeftParen && e.Grouping?
    requires ParseExpression(ts, pos + 1) == Parsed(e.expression, close)
    requires ts[close].kind == RightParen
    ensures ParsePrimary(ts, pos) == Parsed(e, close + 1)
  {
  }

  /** `primary` on an opening parenthesis and an expression not followed by
      the closing one: the error names the token after the expression. */
  lemma {:induction false} UnclosedGrouping(ts: seq<Token>, pos: nat, close: nat, inner: Expr)
    requires Cursor(ts, pos) && ts[pos].kind == LeftParen
    requires ParseExpression(ts, pos + 1) == Parsed(inner, close)
    requires ts[close].kind != RightParen
    ensures ParsePrimary(ts, pos) == Failed(close, ExpectRightParen)
  {
  }

  /** `parse` stops after the first complete expression: any well-terminated
      rest that does not start with a binary operator is left unread. */
  lemma {:induction false} ParsePrefix(e: Expr, rest: seq<Token>)
    requires TierForm(EqualityTier, e) && WellTerminated(rest)
    requires Closes(EqualityTier, rest[0].kind)
    ensures Parse(Flatten(e) + rest) == Some(e)
  {
    var ts := Flatten(e) + rest;
    assert ts[..|Flatten(e)|] == Flatten(e);
    assert ts[|Flatten(e)|] == rest[0];
    TierRoundTrip(EqualityTier, e, ts, 0, |Flatten(e)|);
  }

  /** The round trip: every tree of expression shape is what `parse` makes
      of its own tokens. */
  lemma {:induction false} ParseRoundTrip(e: Expr)
    requires TierForm(EqualityTier, e)
    ensures Parse(Flatten(e) + [EofToken]) == Some(e)
  {
    ClosesEquality(Eof);
    ParsePrefix(e, [EofToken]);
  }

  /** The trees `parse` can return are exactly those of expression shape. */
  lemma {:induction false} ParseResults(e: Expr)
    ensures TierForm(EqualityTier, e) <==> exists ts :: WellTerminated(ts) && Parse(ts) == Some(e)
  {
    if TierForm(EqualityTier, e) {
      ParseRoundTrip(e);
      assert WellTerminated(Flatten(e) + [EofToken]);
    } else {
      forall ts | WellTerminated(ts) ensures Parse(ts) != Some(e) {
        ParseShape(ts);
      }
    }
  }

  /** The operator sets of two different tiers have nothing in common. */
  lemma OperatorsDisjoint(u: Tier, v: Tier, k: TokenType)
    requires u != v && k in Operators(v)
    ensures k !in Operators(u)
  {
  }

  /** Precedence: the operator at the top of an operand of tier `t` is
      never of tier `t` or of a looser tier, so it binds tighter. */
  lemma {:induction false} OperandBindsTighter(t: Tier, e: Expr)
    requires OperandForm(t, e)
    ensures e.Binary? ==> forall u :: Rank(t) <= Rank(u) ==> e.operator.kind !in Operators(u)
    decreases Rank(t)
  {
    if e.Binary? {
      if t == MultiplicationTier {
        assert !UnaryForm(e);
      } else {
        var v := Tighter(t);
        if e.operator.kind in Operators(v) && TierForm(v, e.left) && OperandForm(v, e.right) {
          forall u | Rank(t) <= Rank(u) ensures e.operator.kind !in Operators(u) {
            OperatorsDisjoint(u, v, e.operator.kind);
          }
        } else {
          OperandBindsTighter(v, e);
        }
      }
    }
  }
}
