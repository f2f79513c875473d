# jlox expression front end, modelled in Dafny

This project models the expression parser of jlox, a tree-walking
interpreter for the Lox language. The model covers two pieces:

- **The expression tree** (`Expression.java`). It has four immutable node
  variants: `Binary`, `Grouping`, `Literal` and `Unary`. Each node hands
  itself to the matching handler of a visitor.
- **The recursive-descent parser** (`Parser.java`). It keeps a forward-only
  cursor `current` into a token list that ends in `EOF`. It has one routine
  per precedence tier: `expression`, `equality`, `comparison`, `addition`,
  `multiplication`, `unary` and `primary`. The cursor helpers are `match`,
  `consume`, `check`, `advance`, `isAtEnd`, `peek` and `previous`. `parse`
  turns a raised syntax error into `null`. `synchronize` is the error-recovery
  routine, and nothing calls it.

The model is arranged in these modules:

| module | file | contents |
|---|---|---|
| `Tokens` | `tokens.dfy` | token kinds, literal payloads, tokens, and the parser's input contract: the list ends in `EOF` |
| `Ast` | `expression.dfy` | `Expr` as a datatype; `Visitor` holds one handler per variant; `Accept` dispatches by `match` |
| `Grammar` | `grammar.dfy` | each parser routine as a pure function, from a token list and a start position to an `Outcome`; see below |
| `Shapes` | `shapes.dfy` | the tree shape each tier builds, and the proof that every routine builds trees of its shape and raises only justified errors |
| `Unparse` | `unparse.dfy` | `Flatten` writes a tree back as tokens; the round trip says `parse` of those tokens gives the tree back |
| `Congruence` | `alike.dfy` | the parser reads only the kinds and payloads of tokens and keeps operator tokens whole, so lists that differ only in lexemes and lines parse alike; with the round trip, every scanning of a tree parses to it |
| `Parsing` | `parser.dfy` | class `Parser` with `tokens`, the mutable `current` and the `reported` diagnostics; one method per Java routine that moves the cursor, reports or builds a tree, with the Java loops. The read-only helpers `check`, `isAtEnd`, `peek` and `previous` are the `Grammar` functions of those names, which the methods call |
| `Examples` | `examples.dfy` | worked inputs such as `1 - 2 - 3`, `1 + 2 * 3`, `(1 + 2) * 3`, `- - 5`, `(1 + 2` and a lone `+` |

An `Outcome` is either the tree plus the position after it, or the raised
error plus the position of the offending token.

The methods of `Parsing.Parser` are tied to the model in three ways:

- `Expression`, the four tier methods, `Unary` and `Primary` are proved
  equal to their `Grammar` functions. They give the same tree, or the same
  error as a `Failure`. They leave the cursor at the same position. They
  add exactly one entry to `reported` per raised error.
- `Match`, `Advance` and `Synchronize` leave the cursor where
  `Grammar.Matches`, `Grammar.Advanced` and `Grammar.SyncTarget` say.
- `Consume` and `Error` state their result and their new state directly
  in their own contracts.

The properties are proved about the `Grammar` functions:

- termination, measured by the position and the tier;
- every routine either consumes input or raises an error;
- associativity, precedence and nesting, stated through the `Shapes`
  predicates and the round trip;
- an `if and only if` describing exactly which trees `parse` can return.

The Java code throws `ParseException`. The model threads a `Result` through
the methods and an `Outcome` through the functions instead.

`Main.error` sends diagnostics to an output sink. The model records each
diagnostic it would have sent in the `reported` sequence.

`advance` returns `previous()`, the token behind the cursor after the move.
Normally that is the token it just passed. At `EOF` the cursor does not move,
so it is the token before `EOF` (`Parsing.Parser.Advance`).

## Model

| member | source | states |
|---|---|---|
| `Parsing.Parser.Parse` | src/main/java/com/shepherdjerred/jlox/Parser.java:16-22 | Gives `None` exactly when `expression` raised an error, which is then the one new diagnostic. Otherwise it gives the tree and leaves the cursor after it, with nothing reported. From a fresh parser this equals `Grammar.Parse` |
| `Grammar.Parse` | src/main/java/com/shepherdjerred/jlox/Parser.java:16-22 | Gives a tree exactly when `expression` from position 0 succeeds; the error never escapes |
| `Parsing.Parser.constructor` | src/main/java/com/shepherdjerred/jlox/Parser.java:9-14 | Stores the token list, with the cursor at 0 and nothing reported |
| `Parsing.Parser.Expression` | src/main/java/com/shepherdjerred/jlox/Parser.java:24-26 | Returns the same tree or error, and leaves the same cursor and diagnostics, as `Grammar.ParseExpression` |
| `Grammar.ParseExpression` | src/main/java/com/shepherdjerred/jlox/Parser.java:24-26 | A success consumes at least one token and stops before the end; an error names a position at or after the start |
| `Parsing.Parser.Equality` | src/main/java/com/shepherdjerred/jlox/Parser.java:28-38 | The `while (match(!=, ==))` loop builds the tree, cursor and diagnostics of `Grammar.ParseTier` for the equality tier. The loop invariant ties each turn to `Grammar.ParseTierTail` |
| `Parsing.Parser.Comparison` | src/main/java/com/shepherdjerred/jlox/Parser.java:40-50 | The same as `Equality`, for the operators `>`, `>=`, `<` and `<=` |
| `Parsing.Parser.Addition` | src/main/java/com/shepherdjerred/jlox/Parser.java:52-62 | The same as `Equality`, for the operators `-` and `+` |
| `Parsing.Parser.Multiplication` | src/main/java/com/shepherdjerred/jlox/Parser.java:64-74 | The same as `Equality`, for the operators `/` and `*`, with `unary` as the operand |
| `Grammar.ParseTier` | src/main/java/com/shepherdjerred/jlox/Parser.java:28-74 | One binary tier. It consumes at least one token on success, and never moves back or past the end |
| `Grammar.ParseTierTail` | src/main/java/com/shepherdjerred/jlox/Parser.java:31-35 | The tier loop stays within the token list; it may consume nothing |
| `Grammar.TierStart` | src/main/java/com/shepherdjerred/jlox/Parser.java:29-37 | A tier is its operand followed by its loop. A failed operand is the tier's error |
| `Grammar.TailStop` | src/main/java/com/shepherdjerred/jlox/Parser.java:31 | When no operator of the tier matches, the loop ends at once with the tree built so far |
| `Grammar.TailTurn` | src/main/java/com/shepherdjerred/jlox/Parser.java:31-35 | One turn of the loop: the operator, then the operand; the tree so far becomes the left child of a new `Binary` |
| `Grammar.ParseOperand` | src/main/java/com/shepherdjerred/jlox/Parser.java:41-45 | The operand of a tier, which is the next tighter tier or `unary`, consumes input on success |
| `Parsing.Parser.Unary` | src/main/java/com/shepherdjerred/jlox/Parser.java:76-84 | Returns the tree or error, cursor and diagnostics of `Grammar.ParseUnary` |
| `Grammar.ParseUnary` | src/main/java/com/shepherdjerred/jlox/Parser.java:76-84 | On `!` or `-` it recurses into itself, otherwise it delegates to `primary`. It consumes input on success |
| `Parsing.Parser.Primary` | src/main/java/com/shepherdjerred/jlox/Parser.java:86-108 | Returns the tree or error, cursor and diagnostics of `Grammar.ParsePrimary` |
| `Grammar.ParsePrimary` | src/main/java/com/shepherdjerred/jlox/Parser.java:86-108 | Handles literals, the parenthesised expression and "Expect expression."; it consumes input on success |
| `Shapes.PrimaryCases` | src/main/java/com/shepherdjerred/jlox/Parser.java:86-105 | `false`, `true` and `nil` give their literals. `NUMBER` and `STRING` give a literal carrying the token's own payload. `(` gives the inner error, or a `Grouping` if `)` follows, or "Expect ')' after expression." at the token after the expression |
| `Shapes.PrimaryShape` | src/main/java/com/shepherdjerred/jlox/Parser.java:86-108 | `primary` fails with "Expect expression." at its own position exactly when the token there cannot start a primary. Every tree it builds is a literal or a grouped full expression |
| `Shapes.UnaryShape` | src/main/java/com/shepherdjerred/jlox/Parser.java:76-84 | `unary` builds right-nested prefix chains over a primary. It fails at its own position exactly when the token there cannot start an expression |
| `Shapes.ExpressionShape` | src/main/java/com/shepherdjerred/jlox/Parser.java:24-26 | `expression` returns a tree of the loosest tier, or an error naming a token that really does not fit |
| `Shapes.TierShape` | src/main/java/com/shepherdjerred/jlox/Parser.java:28-74 | Each binary tier folds left. Every node's operator belongs to that tier's set, its left child is again of the tier, and its right child is an operand |
| `Shapes.TailShape` | src/main/java/com/shepherdjerred/jlox/Parser.java:31-35 | The loop keeps the tier's shape: a tree of the tier stays one after each turn |
| `Shapes.OperandShape` | src/main/java/com/shepherdjerred/jlox/Parser.java:29 | An operand parses to a tree of the next tighter tier, or to a unary tree |
| `Shapes.ParseShape` | src/main/java/com/shepherdjerred/jlox/Parser.java:16-22 | What `parse` returns has the shape of a full expression |
| `Shapes.FailurePropagates` | src/main/java/com/shepherdjerred/jlox/Parser.java:28-84 | An error raised by `unary` is raised unchanged by every tier around it. No tier catches it |
| `Unparse.TierRoundTrip` | src/main/java/com/shepherdjerred/jlox/Parser.java:28-74 | A tree of a tier, written as tokens and followed by a token that ends the tier, parses back to the same tree and stops right after it |
| `Unparse.OperandRoundTrip` | src/main/java/com/shepherdjerred/jlox/Parser.java:41-45 | The same round trip for the operand of a tier |
| `Unparse.UnaryRoundTrip` | src/main/java/com/shepherdjerred/jlox/Parser.java:76-84 | The same round trip for unary trees |
| `Unparse.PrimaryRoundTrip` | src/main/java/com/shepherdjerred/jlox/Parser.java:86-105 | The same round trip for literals and groupings |
| `Unparse.TierPrefix` | src/main/java/com/shepherdjerred/jlox/Parser.java:28-74 | Parsing a tier from the start of a tree of that tier reaches the tier loop at the tree's end, with the whole tree built |
| `Unparse.TailStep` | src/main/java/com/shepherdjerred/jlox/Parser.java:31-35 | One turn of the loop over an operator and a parsed operand equals the loop resumed after them, with the grown tree |
| `Unparse.UnclosedGrouping` | src/main/java/com/shepherdjerred/jlox/Parser.java:101-104 | `(` and an expression not followed by `)` fail with "Expect ')' after expression." at the token after the expression |
| `Unparse.GroupingStep` | src/main/java/com/shepherdjerred/jlox/Parser.java:101-105 | `(` and an expression followed by `)` give the `Grouping` and stop after the `)` |
| `Unparse.ParseRoundTrip` | src/main/java/com/shepherdjerred/jlox/Parser.java:16-26 | Every tree of full-expression shape is what `parse` returns for its own tokens followed by `EOF`; `Congruence.ScannedRoundTrip` extends this to any lexemes and lines |
| `Unparse.ParsePrefix` | src/main/java/com/shepherdjerred/jlox/Parser.java:16-26 | `parse` stops after the first full expression. A rest that does not begin with a binary operator is left unread, so the parse does not have to reach `EOF` |
| `Unparse.ParseResults` | src/main/java/com/shepherdjerred/jlox/Parser.java:16-108 | A tree is returned for some token list exactly when it has full-expression shape (both directions) |
| `Congruence.ParseAlike` | src/main/java/com/shepherdjerred/jlox/Parser.java:16-22 | On two well-terminated lists that agree on every token's kind, on the payload of every number and string token, and on every operator token whole, `parse` gives the same result |
| `Congruence.ScannedRoundTrip` | src/main/java/com/shepherdjerred/jlox/Parser.java:16-26 | Every token list for a full-expression tree parses to that tree, whatever lexemes and lines its tokens carry and whatever payloads its non-number, non-string tokens carry |
| `Congruence.ExpressionAlike` | src/main/java/com/shepherdjerred/jlox/Parser.java:24-26 | `expression` gives the same outcome on alike lists |
| `Congruence.TierAlike` | src/main/java/com/shepherdjerred/jlox/Parser.java:28-74 | Each binary tier gives the same outcome on alike lists |
| `Congruence.TailAlike` | src/main/java/com/shepherdjerred/jlox/Parser.java:31-35 | The tier loop gives the same outcome on alike lists; the operator token it stores is the same in both |
| `Congruence.OperandAlike` | src/main/java/com/shepherdjerred/jlox/Parser.java:29 | A tier's operand gives the same outcome on alike lists |
| `Congruence.UnaryAlike` | src/main/java/com/shepherdjerred/jlox/Parser.java:76-84 | `unary` gives the same outcome on alike lists; the prefix operator it stores is the same in both |
| `Congruence.PrimaryAlike` | src/main/java/com/shepherdjerred/jlox/Parser.java:86-108 | `primary` gives the same outcome on alike lists. It reads only the kind and, for `NUMBER` and `STRING`, the payload |
| `Unparse.OperandBindsTighter` | src/main/java/com/shepherdjerred/jlox/Parser.java:28-84 | Precedence: the top operator of a tier's operand belongs to a strictly tighter tier |
| `Unparse.OperatorsDisjoint` | src/main/java/com/shepherdjerred/jlox/Parser.java:31-67 | No operator token belongs to two tiers |
| `Parsing.Parser.Match` | src/main/java/com/shepherdjerred/jlox/Parser.java:110-119 | Succeeds exactly when one of the kinds checks, and then moves one position. Otherwise the cursor is unchanged |
| `Grammar.MatchesSome` | src/main/java/com/shepherdjerred/jlox/Parser.java:110-119 | The `for` loop over the kinds succeeds exactly when some kind in the list checks |
| `Grammar.MatchedPrevious` | src/main/java/com/shepherdjerred/jlox/Parser.java:112-114 | After a successful `match`, `previous()` is the matched token and its kind is in the list |
| `Parsing.Parser.Consume` | src/main/java/com/shepherdjerred/jlox/Parser.java:121-127 | When the kind checks, it returns the current token and moves one position. Otherwise it reports and raises the message at `peek()` without moving |
| `Grammar.CheckKind` | src/main/java/com/shepherdjerred/jlox/Parser.java:129-134 | `check(EOF)` is always false. For any other kind, `check` is true exactly when `peek()` has that kind. A token that checks is never the last one, so `advance` after it stays in bounds |
| `Grammar.EndOfInput` | src/main/java/com/shepherdjerred/jlox/Parser.java:143-145 | On a list ending in `EOF`, the last position is at the end. Any position not at the end has a token after it |
| `Grammar.PeekAndPrevious` | src/main/java/com/shepherdjerred/jlox/Parser.java:147-153 | `previous()` one step on is the token `peek()` gave before. `peek()` at the last position is the `EOF` |
| `Parsing.Parser.Advance` | src/main/java/com/shepherdjerred/jlox/Parser.java:136-141 | Moves one position unless at `EOF` and returns `previous()`. Away from `EOF` it is the token just passed; at `EOF` it is the token before it |
| `Grammar.Advanced` | src/main/java/com/shepherdjerred/jlox/Parser.java:136-141 | The position never passes `EOF`. It stays put exactly at end of input, so repeated advances at `EOF` change nothing; otherwise it moves by one |
| `Parsing.Parser.Error` | src/main/java/com/shepherdjerred/jlox/Parser.java:155-158 | Appends the token and message to the reported diagnostics and returns them as the error to raise |
| `Grammar.Diagnostic` | src/main/java/com/shepherdjerred/jlox/Parser.java:155-158 | An outcome gives one diagnostic if it is an error, with the offending token and message, and none otherwise |
| `Parsing.Parser.Synchronize` | src/main/java/com/shepherdjerred/jlox/Parser.java:160-182 | Leaves the cursor at `Grammar.SyncTarget` of the start |
| `Grammar.SyncTarget` | src/main/java/com/shepherdjerred/jlox/Parser.java:160-182 | Skips past the offending token, then stops at the first stop point: just after a `;`, just before a statement keyword, or at `EOF`. It never passes `EOF`, and no earlier position is a stop point |
| `Grammar.SyncLoop` | src/main/java/com/shepherdjerred/jlox/Parser.java:163-181 | The `while` loop terminates at the first stop point at or after its start, within the token list |
| `Ast.AcceptBinary` | src/main/java/com/shepherdjerred/jlox/Expression.java:30-32 | A `Binary` node is passed, as itself, to `visitBinary`, and the other handlers do not affect the result |
| `Ast.AcceptGrouping` | src/main/java/com/shepherdjerred/jlox/Expression.java:43-45 | A `Grouping` node is passed to `visitGrouping` only |
| `Ast.AcceptLiteral` | src/main/java/com/shepherdjerred/jlox/Expression.java:56-58 | A `Literal` node is passed to `visitLiteral` only |
| `Ast.AcceptUnary` | src/main/java/com/shepherdjerred/jlox/Expression.java:71-73 | A `Unary` node is passed to `visitUnary` only |
| `Examples.SubtractionGroupsLeft` | src/main/java/com/shepherdjerred/jlox/Parser.java:52-62 | `1 - 2 - 3` parses to `Binary(Binary(1, -, 2), -, 3)` |
| `Examples.ScannedSubtraction` | src/main/java/com/shepherdjerred/jlox/Parser.java:52-62 | `1 - 2 - 3` with the lexemes `"1"`, `"2"`, `"3"` on line 1 also parses to `Binary(Binary(1, -, 2), -, 3)` |
| `Examples.ScannedTrue` | src/main/java/com/shepherdjerred/jlox/Parser.java:90-92 | A `true` token that carries no payload still parses to the literal `true` |
| `Examples.ProductBindsTighter` | src/main/java/com/shepherdjerred/jlox/Parser.java:52-74 | `1 + 2 * 3` parses to `Binary(1, +, Binary(2, *, 3))` |
| `Examples.GroupingOverrides` | src/main/java/com/shepherdjerred/jlox/Parser.java:101-105 | `(1 + 2) * 3` parses to `Binary(Grouping(Binary(1, +, 2)), *, 3)` |
| `Examples.NegationsNest` | src/main/java/com/shepherdjerred/jlox/Parser.java:76-84 | `- - 5` parses to `Unary(-, Unary(-, 5))` |
| `Examples.TrailingTokensIgnored` | src/main/java/com/shepherdjerred/jlox/Parser.java:16-22 | `1 )` parses to `1`; the `)` is left unread |
| `Examples.MissingRightParen` | src/main/java/com/shepherdjerred/jlox/Parser.java:101-104 | `(1 + 2` fails with "Expect ')' after expression." at the `EOF` |
| `Examples.MissingOperand` | src/main/java/com/shepherdjerred/jlox/Parser.java:107 | A lone `+` fails with "Expect expression." at the `+` |
| `Examples.ParsesPrecedence` | src/main/java/com/shepherdjerred/jlox/Parser.java:16-22 | A `Parser` object on `1 + 2 * 3` returns the tree and reports nothing |
| `Examples.ReportsUnclosedGrouping` | src/main/java/com/shepherdjerred/jlox/Parser.java:16-22 | A `Parser` object on `(1 + 2` returns `None` and reports the missing `)` once, at `EOF` |

## Left out

- The lexer, and the `Token` and `TokenType` classes. Neither is part of the
  core. `Tokens` declares the standard jlox token kinds and a token record.
  The parser's input is any list whose last token is `EOF`, which is the
  guarantee the scanner gives.
- `Main.error` writes to an output sink, which is I/O. The model records each
  diagnostic in the `reported` sequence instead of printing it.
- `ParseException` and the Java exception mechanism are replaced by
  `Result.Failure` and `Outcome.Failed`. The model does not distinguish the
  identity of exception objects; it only shows that the error reaches
  `parse` and is turned into `null` there.
- `NUMBER` literals are Java `Double` values in the source. The model treats
  them as opaque payloads (`real`) and does no arithmetic on them.
- `Parsing.Parser.Advance`: it requires that the cursor is not at position 0
  on an `EOF`. In that state Java's `previous()` would throw an
  index-out-of-range exception. No routine reachable from `parse` gets there,
  because `match` and `consume` advance only after a successful `check`.
- `Parsing.Parser.Synchronize`: it carries the same requirement as
  `Advance`, since it starts with `advance()`. Nothing calls
  `synchronize`; the model keeps it as a runnable routine with its own
  contract.
- `Parsing.Parser.Match`: its postcondition relates the result to
  `Grammar.Matches` but does not itself name `previous()`. That fact is
  `Grammar.MatchedPrevious`, which follows from the moved cursor.
- `Unparse.Flatten` writes literal tokens with placeholder lexemes and lines.
  `Congruence.ParseAlike` proves that the parser's result does not depend
  on them, nor on the payloads of tokens other than numbers and strings. So
  `Congruence.ScannedRoundTrip` covers any token list that agrees with
  `Flatten` on kinds, on payloads of number and string tokens, and on
  operator tokens. The scanner itself,
  which decides the lexemes, is not part of this model.
- The generic result type `R` of the visitor matters only for dispatch.
  Immutability of the nodes and "constructors store their arguments" hold
  because Dafny datatypes are immutable values. Closedness of the variant
  set is the closedness of the `Expr` datatype, whose `match` in `Accept`
  covers all four constructors.
- `parse` catches only `ParseException`. Very deep nesting, such as thousands
  of `(`, makes the JVM throw `StackOverflowError`, which escapes `parse`. The
  model's functions and methods are total, so they cannot show this stack
  limit.
- Several parsers sharing state, and concurrent use of one parser, are not
  modelled. Each `Parser` object owns its cursor.
