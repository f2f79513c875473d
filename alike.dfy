/** The parser reads of a token only its kind, the literal payload of a
    number or string, and copies operator tokens into the tree whole. Two
    token lists that agree on these therefore parse alike, whatever their
    lexemes, lines and other payloads: the round trip then covers every
    list a scanner could produce for a tree. */
module Congruence {
  import opened Tokens
  import opened Ast
  import opened Grammar
  import opened Shapes
  import opened Unparse
  import opened Wrappers

  /** The token kinds the parser stores in the tree as whole tokens. */
  predicate Stored(k: TokenType) {
    k in Operators(EqualityTier) + Operators(ComparisonTier) + Operators(AdditionTier)
       + Operators(MultiplicationTier) + UnaryOperators
  }

  /** `us` is `ts` with possibly other lexemes, lines and unread payloads:
      the same kinds everywhere, the same payloads on numbers and strings,
      and the very same token wherever it is an operator. */
  predicate Alike(ts: seq<Token>, us: seq<Token>) {
    && |ts| == |us|
    && forall i :: 0 <= i < |ts| ==>
         && ts[i].kind == us[i].kind
         && (ts[i].kind in {Number, String} ==> ts[i].literal == us[i].literal)
         && (Stored(ts[i].kind) ==> ts[i] == us[i])
  }

  lemma {:induction false} AlikeCursor(ts: seq<Token>, us: seq<Token>, pos: nat)
    requires Cursor(ts, pos) && Alike(ts, us)
    ensures Cursor(us, pos)
  {
    assert ts[|ts| - 1].kind == us[|us| - 1].kind;
  }

  /** What alike lists share at one position. */
  lemma {:induction false} AlikeAt(ts: seq<Token>, us: seq<Token>, i: nat)
    requires Alike(ts, us) && i < |ts|
    ensures i < |us| && ts[i].kind == us[i].kind
    ensures ts[i].kind in {Number, String} ==> ts[i].literal == us[i].literal
    ensures Stored(ts[i].kind) ==> ts[i] == us[i]
  {
  }

  lemma {:induction false} ExpressionAlike(ts: seq<Token>, us: seq<Token>, pos: nat)
    requires Cursor(ts, pos) && Alike(ts, us)
    ensures Cursor(us, pos) && ParseExpression(ts, pos) == ParseExpression(us, pos)
    decreases |ts| - pos, 6, 0
  {
    TierAlike(EqualityTier, ts, us, pos);
  }

  lemma {:induction false} TierAlike(t: Tier, ts: seq<Token>, us: seq<Token>, pos: nat)
    requires Cursor(ts, pos) && Alike(ts, us)
    ensures Cursor(us, pos) && ParseTier(t, ts, pos) == ParseTier(t, us, pos)
    decreases |ts| - pos, Rank(t), 1
  {
    OperandAlike(t, ts, us, pos);
    match ParseOperand(t, ts, pos)
    case Failed(_, _) =>
    case Parsed(left, next) =>
      TailAlike(t, ts, us, next, left);
  }

  lemma {:induction false} TailAlike(t: Tier, ts: seq<Token>, us: seq<Token>, pos: nat, acc: Expr)
    requires Cursor(ts, pos) && Alike(ts, us)
    ensures Cursor(us, pos) && ParseTierTail(t, ts, pos, acc) == ParseTierTail(t, us, pos, acc)
    decreases |ts| - pos, Rank(t), 0
  {
    AlikeCursor(ts, us, pos);
    AlikeAt(ts, us, pos);
    if Matches(ts, pos, Operators(t)) {
      assert Stored(ts[pos].kind);
      OperandAlike(t, ts, us, pos + 1);
      match ParseOperand(t, ts, pos + 1)
      case Failed(_, _) =>
      case Parsed(right, next) =>
        TailAlike(t, ts, us, next, Binary(acc, ts[pos], right));
    }
  }

  lemma {:induction false} OperandAlike(t: Tier, ts: seq<Token>, us: seq<Token>, pos: nat)
    requires Cursor(ts, pos) && Alike(ts, us)
    ensures Cursor(us, pos) && ParseOperand(t, ts, pos) == ParseOperand(t, us, pos)
    decreases |ts| - pos, Rank(t), 0
  {
    if t == MultiplicationTier {
      UnaryAlike(ts, us, pos);
    } else {
      TierAlike(Tighter(t), ts, us, pos);
    }
  }

  lemma {:induction false} UnaryAlike(ts: seq<Token>, us: seq<Token>, pos: nat)
    requires Cursor(ts, pos) && Alike(ts, us)
    ensures Cursor(us, pos) && ParseUnary(ts, pos) == ParseUnary(us, pos)
    decreases |ts| - pos, 1, 0
  {
    AlikeCursor(ts, us, pos);
    AlikeAt(ts, us, pos);
    if Matches(ts, pos, UnaryOperators) {
      assert Stored(ts[pos].kind);
      UnaryAlike(ts, us, pos + 1);
    } else {
      PrimaryAlike(ts, us, pos);
    }
  }

  lemma {:induction false} PrimaryAlike(ts: seq<Token>, us: seq<Token>, pos: nat)
    requires Cursor(ts, pos) && Alike(ts, us)
    ensures Cursor(us, pos) && ParsePrimary(ts, pos) == ParsePrimary(us, pos)
    decreases |ts| - pos, 0, 0
  {
    AlikeCursor(ts, us, pos);
    AlikeAt(ts, us, pos);
    if Matches(ts, pos, [LeftParen]) {
      ExpressionAlike(ts, us, pos + 1);
      match ParseExpression(ts, pos + 1)
      case Failed(_, _) =>
      case Parsed(_, next) =>
        AlikeAt(ts, us, next);
    }
  }

  /** `parse` gives the same result on token lists that differ only in
      lexemes, lines and the payloads of tokens other than numbers and
      strings. */
  lemma {:induction false} ParseAlike(ts: seq<Token>, us: seq<Token>)
    requires WellTerminated(ts) && Alike(ts, us)
    ensures WellTerminated(us) && Parse(ts) == Parse(us)
  {
    ExpressionAlike(ts, us, 0);
  }

  /** The round trip for any scanning of a tree: every list that agrees
      with the tree's tokens on kinds, number and string payloads and
      operator tokens parses
      to that tree. */
  lemma {:induction false} ScannedRoundTrip(e: Expr, us: seq<Token>)
    requires TierForm(EqualityTier, e) && Alike(Flatten(e) + [EofToken], us)
    ensures WellTerminated(us) && Parse(us) == Some(e)
  {
    ParseRoundTrip(e);
    ParseAlike(Flatten(e) + [EofToken], us);
  }
}
