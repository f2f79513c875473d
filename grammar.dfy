/** The parser as pure functions of a token list and a cursor position.
    Each function models one routine of the recursive-descent parser: it
    takes the position the routine starts at and returns what the routine
    returns together with the position it leaves the cursor at, or the
    syntax error it raises and the position of the offending token. */
module Grammar {
  import opened Tokens
  import opened Ast
  import opened Wrappers

  const ExpectExpression: string := "Expect expression."
  const ExpectRightParen: string := "Expect ')' after expression."

  /** A diagnostic handed to the error sink: the offending token and a message. */
  datatype SyntaxError = SyntaxError(token: Token, message: string)

  // ---------------------------------------------------------------- cursor

  /** A valid cursor: a position inside a well-terminated token list. */
  predicate Cursor(ts: seq<Token>, pos: nat) {
    WellTerminated(ts) && pos < |ts|
  }

  /** The token under the cursor. */
  function Peek(ts: seq<Token>, pos: nat): Token
    requires pos < |ts|
  {
    ts[pos]
  }

  /** The token just behind the cursor. */
  function Previous(ts: seq<Token>, pos: nat): Token
    requires 0 < pos <= |ts|
  {
    ts[pos - 1]
  }

  /** Whether the token under the cursor is the end-of-input marker. */
  predicate IsAtEnd(ts: seq<Token>, pos: nat)
    requires pos < |ts|
  {
    Peek(ts, pos).kind == Eof
  }

  /** Whether the token under the cursor has the given kind, never at the
      end of input. */
  predicate Check(ts: seq<Token>, pos: nat, kind: TokenType)
    requires pos < |ts|
  {
    if IsAtEnd(ts, pos) then false else Peek(ts, pos).kind == kind
  }

  /** `peek` and `previous` read the same list one position apart: what
      `previous` gives after a step is what `peek` gave before it, and on a
      well-terminated list `peek` at the last position is the `EOF`. */
  lemma PeekAndPrevious(ts: seq<Token>, pos: nat)
    requires Cursor(ts, pos)
    ensures Previous(ts, pos + 1) == Peek(ts, pos)
    ensures pos == |ts| - 1 ==> Peek(ts, pos).kind == Eof
  {
  }

  /** The end of input is the last token of a well-terminated list, and
      any other position has a token after it, so stepping stays in bounds. */
  lemma EndOfInput(ts: seq<Token>, pos: nat)
    requires Cursor(ts, pos)
    ensures pos == |ts| - 1 ==> IsAtEnd(ts, pos)
    ensures !IsAtEnd(ts, pos) ==> pos + 1 < |ts|
  {
  }

  /** `check` of the end-of-input kind never succeeds; for every other
      kind it is exactly a comparison with `peek`, and a token that checks
      is never the last one. */
  lemma CheckKind(ts: seq<Token>, pos: nat, kind: TokenType)
    requires Cursor(ts, pos)
    ensures !Check(ts, pos, Eof)
    ensures kind != Eof ==> (Check(ts, pos, kind) <==> Peek(ts, pos).kind == kind)
    ensures Check(ts, pos, kind) ==> pos + 1 < |ts|
  {
  }

  /** Whether `match(kinds)` succeeds at `pos`: the token there is not the
      end of input and its kind is in the list (`MatchesSome` relates this
      to `check`). */
  predicate Matches(ts: seq<Token>, pos: nat, kinds: seq<TokenType>)
    requires pos < |ts|
  {
    Peek(ts, pos).kind != Eof && Peek(ts, pos).kind in kinds
  }

  /** `match` tries the kinds one by one with `check`: it succeeds exactly
      when one of them checks. */
  lemma MatchesSome(ts: seq<Token>, pos: nat, kinds: seq<TokenType>)
    requires pos < |ts|
    ensures Matches(ts, pos, kinds) <==> exists i :: 0 <= i < |kinds| && Check(ts, pos, kinds[i])
  {
  }

  /** The position `advance` leaves the cursor at. */
  function Advanced(ts: seq<Token>, pos: nat): (p: nat)
    requires Cursor(ts, pos)
    ensures p < |ts|
    ensures p == pos <==> IsAtEnd(ts, pos)
    ensures p != pos ==> p == pos + 1
  {
    if !IsAtEnd(ts, pos) then pos + 1 else pos
  }

  /** After a successful `match`, the token behind the cursor is the one
      matched, and its kind is one of those asked for. */
  lemma MatchedPrevious(ts: seq<Token>, pos: nat, kinds: seq<TokenType>)
    requires Cursor(ts, pos) && Matches(ts, pos, kinds)
    ensures Advanced(ts, pos) == pos + 1
    ensures Previous(ts, Advanced(ts, pos)) == ts[pos] && ts[pos].kind in kinds
  {
  }

  // ------------------------------------------------------------- the tiers

  /** The four left-associative binary precedence tiers, loosest first. */
  datatype Tier = EqualityTier | ComparisonTier | AdditionTier | MultiplicationTier

  /** The operators each tier's loop matches, in the order it tries them. */
  function Operators(t: Tier): seq<TokenType> {
    match t
    case EqualityTier => [BangEqual, EqualEqual]
    case ComparisonTier => [Greater, GreaterEqual, Less, LessEqual]
    case AdditionTier => [Minus, Plus]
    case MultiplicationTier => [Slash, Star]
  }

  const UnaryOperators: seq<TokenType> := [Bang, Minus]

  /** The token kinds `primary` accepts as the start of an operand. */
  const PrimaryStarts: seq<TokenType> := [False, True, Nil, Number, String, LeftParen]

  /** The token kinds that can start an expression at all. */
  const ExpressionStarts: seq<TokenType> := UnaryOperators + PrimaryStarts

  /** Binding looseness: the whole expression is 6, `primary` 0. */
  function Rank(t: Tier): nat {
    match t
    case EqualityTier => 5
    case ComparisonTier => 4
    case AdditionTier => 3
    case MultiplicationTier => 2
  }

  /** The tier a tier's operands are parsed at. */
  function Tighter(t: Tier): (u: Tier)
    requires t != MultiplicationTier
    ensures Rank(u) == Rank(t) - 1
  {
    if t == EqualityTier then ComparisonTier
    else if t == ComparisonTier then AdditionTier
    else MultiplicationTier
  }

  // ------------------------------------------------------ parse outcomes

  /** What a parsing routine ends with: a tree and the position after it,
      or a raised syntax error at the offending token's position. */
  datatype Outcome = Parsed(expr: Expr, next: nat) | Failed(at: nat, message: string)

  /** A routine that succeeds consumes at least one token; none moves back
      or past the end. */
  predicate Progress(ts: seq<Token>, pos: nat, o: Outcome) {
    match o
    case Parsed(_, next) => pos < next < |ts|
    case Failed(at, _) => pos <= at < |ts|
  }

  /** Like `Progress`, for the loop of a tier, which may consume nothing. */
  predicate Within(ts: seq<Token>, pos: nat, o: Outcome) {
    match o
    case Parsed(_, next) => pos <= next < |ts|
    case Failed(at, _) => pos <= at < |ts|
  }

  /** A raised error names a token that really does not fit: either it
      cannot start an expression, or it is not the closing parenthesis. */
  predicate Justified(ts: seq<Token>, o: Outcome) {
    match o
    case Parsed(_, _) => true
    case Failed(at, message) =>
      at < |ts| &&
      ((message == ExpectExpression && ts[at].kind !in ExpressionStarts) ||
       (message == ExpectRightParen && ts[at].kind != RightParen))
  }

  /** The diagnostics a routine with outcome `o` reports: one per error. */
  function Diagnostic(ts: seq<Token>, o: Outcome): (d: seq<SyntaxError>)
    requires Within(ts, 0, o)
    ensures |d| == if o.Failed? then 1 else 0
    ensures o.Failed? ==> d[0].token == ts[o.at] && d[0].message == o.message
  {
    match o
    case Parsed(_, _) => []
    case Failed(at, message) => [SyntaxError(ts[at], message)]
  }

  // ------------------------------------------------------------- routines

  /** expression := equality */
  function ParseExpression(ts: seq<Token>, pos: nat): (o: Outcome)
    requires Cursor(ts, pos)
    ensures Progress(ts, pos, o)
    decreases |ts| - pos, 6, 0
  {
    ParseTier(EqualityTier, ts, pos)
  }

  /** One binary tier: an operand, then the loop that folds further
      operator/operand pairs into left-nested `Binary` nodes. */
  function ParseTier(t: Tier, ts: seq<Token>, pos: nat): (o: Outcome)
    requires Cursor(ts, pos)
    ensures Progress(ts, pos, o)
    decreases |ts| - pos, Rank(t), 1
  {
    match ParseOperand(t, ts, pos)
    case Failed(at, message) => Failed(at, message)
    case Parsed(left, next) => ParseTierTail(t, ts, next, left)
  }

  /** The `while (match(...))` loop of a tier, with the tree built so far. */
  function ParseTierTail(t: Tier, ts: seq<Token>, pos: nat, acc: Expr): (o: Outcome)
    requires Cursor(ts, pos)
    ensures Within(ts, pos, o)
    decreases |ts| - pos, Rank(t), 0
  {
    if Matches(ts, pos, Operators(t)) then
      match ParseOperand(t, ts, pos + 1)
      case Failed(at, message) => Failed(at, message)
      case Parsed(right, next) => ParseTierTail(t, ts, next, Binary(acc, ts[pos], right))
    else
      Parsed(acc, pos)
  }

  /** A tier parses its first operand, then runs its loop from there. */
  lemma TierStart(t: Tier, ts: seq<Token>, pos: nat)
    requires Cursor(ts, pos)
    ensures var o := ParseOperand(t, ts, pos);
            ParseTier(t, ts, pos) == if o.Failed? then o else ParseTierTail(t, ts, o.next, o.expr)
  {
  }

  /** The loop of a tier stops, consuming nothing, on any other token. */
  lemma TailStop(t: Tier, ts: seq<Token>, pos: nat, acc: Expr)
    requires Cursor(ts, pos) && !Matches(ts, pos, Operators(t))
    ensures ParseTierTail(t, ts, pos, acc) == Parsed(acc, pos)
  {
  }

  /** One turn of a tier's loop on a matched operator: an error in the
      operand ends the loop with that error; otherwise the loop goes on
      after the operand with one more left-nested node. */
  lemma TailTurn(t: Tier, ts: seq<Token>, pos: nat, acc: Expr)
    requires Cursor(ts, pos) && Matches(ts, pos, Operators(t))
    ensures var o := ParseOperand(t, ts, pos + 1);
            ParseTierTail(t, ts, pos, acc) ==
              if o.Failed? then o else ParseTierTail(t, ts, o.next, Binary(acc, ts[pos], o.expr))
  {
  }

  /** An operand of tier `t`: the next tighter tier, or `unary`. */
  function ParseOperand(t: Tier, ts: seq<Token>, pos: nat): (o: Outcome)
    requires Cursor(ts, pos)
    ensures Progress(ts, pos, o)
    decreases |ts| - pos, Rank(t), 0
  {
    if t == MultiplicationTier then ParseUnary(ts, pos) else ParseTier(Tighter(t), ts, pos)
  }

  /** unary := ("!" | "-") unary | primary */
  function ParseUnary(ts: seq<Token>, pos: nat): (o: Outcome)
    requires Cursor(ts, pos)
    ensures Progress(ts, pos, o)
    decreases |ts| - pos, 1, 0
  {
    if Matches(ts, pos, UnaryOperators) then
      match ParseUnary(ts, pos + 1)
      case Failed(at, message) => Failed(at, message)
      case Parsed(right, next) => Parsed(Unary(ts[pos], right), next)
    else
      ParsePrimary(ts, pos)
  }

  /** primary := "false" | "true" | "nil" | NUMBER | STRING | "(" expression ")" */
  function ParsePrimary(ts: seq<Token>, pos: nat): (o: Outcome)
    requires Cursor(ts, pos)
    ensures Progress(ts, pos, o)
    decreases |ts| - pos, 0, 0
  {
    if Matches(ts, pos, [False]) then Parsed(Literal(Boolean(false)), pos + 1)
    else if Matches(ts, pos, [True]) then Parsed(Literal(Boolean(true)), pos + 1)
    else if Matches(ts, pos, [Nil]) then Parsed(Literal(Null), pos + 1)
    else if Matches(ts, pos, [Number, String]) then Parsed(Literal(ts[pos].literal), pos + 1)
    else if Matches(ts, pos, [LeftParen]) then
      match ParseExpression(ts, pos + 1)
      case Failed(at, message) => Failed(at, message)
      case Parsed(inner, next) =>
        if Check(ts, next, RightParen) then Parsed(Grouping(inner), next + 1)
        else Failed(next, ExpectRightParen)
    else
      Failed(pos, ExpectExpression)
  }

  /** parse: the whole expression from the start, the error caught. */
  function Parse(ts: seq<Token>): (r: Option<Expr>)
    requires WellTerminated(ts)
    ensures r.Some? <==> ParseExpression(ts, 0).Parsed?
  {
    match ParseExpression(ts, 0)
    case Parsed(e, _) => Some(e)
    case Failed(_, _) => None
  }

  // ------------------------------------------------------------ recovery

  const StatementStarts: seq<TokenType> := [Class, Fun, Var, For, If, While, Print, Return]

  /** A position where the loop of `synchronize` stops: the end of input,
      just after a `;`, or just before a statement keyword. */
  predicate SyncPoint(ts: seq<Token>, p: nat)
    requires 0 < p < |ts|
  {
    IsAtEnd(ts, p) || Previous(ts, p).kind == Semicolon || Peek(ts, p).kind in StatementStarts
  }

  /** The loop of `synchronize`, from position `p`. */
  function SyncLoop(ts: seq<Token>, p: nat): (r: nat)
    requires Cursor(ts, p) && 0 < p
    ensures p <= r < |ts| && SyncPoint(ts, r)
    ensures forall k :: p <= k < r ==> !SyncPoint(ts, k)
    decreases |ts| - p
  {
    if IsAtEnd(ts, p) then p
    else if Previous(ts, p).kind == Semicolon then p
    else if Peek(ts, p).kind in StatementStarts then p
    else SyncLoop(ts, p + 1)
  }

  /** Where `synchronize` leaves the cursor: past the offending token, at
      the first stop point after it, never beyond the end of input. */
  function SyncTarget(ts: seq<Token>, pos: nat): (r: nat)
    requires Cursor(ts, pos) && (0 < pos || !IsAtEnd(ts, pos))
    ensures 0 < r < |ts| && SyncPoint(ts, r)
    ensures pos < r || IsAtEnd(ts, pos)
    ensures forall k :: Advanced(ts, pos) <= k < r ==> !SyncPoint(ts, k)
  {
    SyncLoop(ts, Advanced(ts, pos))
  }
}
