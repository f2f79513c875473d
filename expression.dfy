/** The expression tree: a closed set of four immutable node variants and
    the visitor dispatch over them. */
module Ast {
  import opened Tokens

  datatype Expr =
    | Binary(left: Expr, operator: Token, right: Expr)
    | Grouping(expression: Expr)
    | Literal(value: Value)
    | Unary(operator: Token, right: Expr)

  type BinaryExpr = e: Expr | e.Binary?
    witness Binary(Literal(Null), Token(Plus, "+", Null, 0), Literal(Null))
  type GroupingExpr = e: Expr | e.Grouping? witness Grouping(Literal(Null))
  type LiteralExpr = e: Expr | e.Literal? witness Literal(Null)
  type UnaryExpr = e: Expr | e.Unary? witness Unary(Token(Minus, "-", Null, 0), Literal(Null))

  /** A visitor: one handler per variant, each returning a caller-chosen `R`. */
  datatype Visitor<R> = Visitor(
    visitBinary: BinaryExpr -> R,
    visitGrouping: GroupingExpr -> R,
    visitLiteral: LiteralExpr -> R,
    visitUnary: UnaryExpr -> R)

  /** Double dispatch: hand the node itself to the handler for its variant. */
  function Accept<R>(e: Expr, v: Visitor<R>): R {
    match e
    case Binary(_, _, _) => v.visitBinary(e)
    case Grouping(_) => v.visitGrouping(e)
    case Literal(_) => v.visitLiteral(e)
    case Unary(_, _) => v.visitUnary(e)
  }

  /** A `Binary` node is given to `visitBinary` and to no other handler. */
  lemma AcceptBinary<R>(e: BinaryExpr, v: Visitor<R>, w: Visitor<R>)
    ensures Accept(e, v) == v.visitBinary(e)
    ensures w.visitBinary(e) == v.visitBinary(e) ==> Accept(e, w) == Accept(e, v)
  {
  }

  /** A `Grouping` node is given to `visitGrouping` and to no other handler. */
  lemma AcceptGrouping<R>(e: GroupingExpr, v: Visitor<R>, w: Visitor<R>)
    ensures Accept(e, v) == v.visitGrouping(e)
    ensures w.visitGrouping(e) == v.visitGrouping(e) ==> Accept(e, w) == Accept(e, v)
  {
  }

  /** A `Literal` node is given to `visitLiteral` and to no other handler. */
  lemma AcceptLiteral<R>(e: LiteralExpr, v: Visitor<R>, w: Visitor<R>)
    ensures Accept(e, v) == v.visitLiteral(e)
    ensures w.visitLiteral(e) == v.visitLiteral(e) ==> Accept(e, w) == Accept(e, v)
  {
  }

  /** A `Unary` node is given to `visitUnary` and to no other handler. */
  lemma AcceptUnary<R>(e: UnaryExpr, v: Visitor<R>, w: Visitor<R>)
    ensures Accept(e, v) == v.visitUnary(e)
    ensures w.visitUnary(e) == v.visitUnary(e) ==> Accept(e, w) == Accept(e, v)
  {
  }
}
