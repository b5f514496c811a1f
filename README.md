# A verified model of JITxpr's expression front end

JITxpr (`eval.cpp`) reads an arithmetic expression and turns it into reverse
Polish notation, which a small JIT then compiles and runs. This project models
the front end only:

- the `Lexer` class. Its constructor scans the input once, left to right. A
  run of digits becomes one `Atom`, and so does a single letter. Whitespace is
  skipped. Any other character becomes a one-character `Op`. The constructor
  then appends `Eof` and reverses the buffer, so `next` and `peek` work from
  the back of the vector.
- the three binding-power tables: infix, prefix and postfix.
- the Pratt parser `expr_bp` and its entry point `expr`.
- `S::to_string`, which prints a tree in post-order.

The modules follow the program:

- `Tokens`: the character classes and the `Token` type.
- `Lexing`: the lexer, as a pure specification `Lex` and as the `Lexer`
  class. The class keeps the source's reversed buffer in a `seq` field.
- `BindingPower`: the three tables.
- `Syntax`: the tree `S`, `to_string`, and its post-order reading.
- `Pratt`: the parser as pure functions `Parse` and `ParseLoop` over a token
  stream. `ExprBp` and `ExprLoop` are the imperative procedure over a `Lexer`,
  proved equal to those functions.
- `PrattFacts`: properties of every parse, including the shape of trees,
  where the parse stops, and the order of the leaves.
- `Precedence`: precedence, associativity and parenthesis behaviour, for any
  operands and for whole families of operators.
- `Scenarios` and `LexedInputs`: the token stream and the lexing of each test
  input. The numbers are left open: any numerals in their places give the
  same result.
- `SourceTests`: every assertion of the source's test functions, stated on
  the input string.

A failed parse is a value, not an exception. `Parse` returns one of three
steps:

- `Parsed(tree, rest)`;
- `Unexpected(at)`, where the source throws "Unexpected token";
- `Spins(at)`, where the source's `while (true)` loop never ends.

`Spins` happens when the lookahead is an `Atom`: the loop has no case for it
and re-reads it forever. `Observed` maps each step to what a caller of
`expr` sees. Nothing here runs the JIT.

Several of the source's test assertions do not hold for the code as written,
and `SourceTests` proves what the code actually gives:

- A `(` parses its contents at power 0 but never consumes the matching `)`.
  The `)` is then read as a postfix operator with power 12. So
  `(3 + 4) * 5` gives `3 4 ) 5 * +`, and `(((3)))` gives `3 ) ) )`.
- `(3 + 4` does not throw: it gives `3 4 +`.
- `)3 + 4(` and `456 789` never return.

In each such case the lemma also proves that the asserted string is not
produced.

An operator with no prefix power is not rejected: the code recurses with
binding power -1, and the model follows the code. At power -1 every operator is taken as postfix (`-1 >= -1`). See
`Precedence.UnknownPrefix` and `EveryOperatorIsPostfixBelowZero`.

## Model

| member | source | states |
|---|---|---|
| Lexing.Lex | eval.cpp:44-68 | the scan yields at most one token per input character |
| Lexing.DigitRun | eval.cpp:52-55 | the inner loop's stop index: every character before it is a digit, and it stops at a non-digit or at the end of the input |
| Lexing.DigitRunUnique | eval.cpp:52-55 | any digit run that cannot be extended is the one the inner loop measures |
| Lexing.LexYieldsLexemes | eval.cpp:44-68 | every token emitted is either an `Atom` (a digit run or one letter) or an `Op` whose character is neither whitespace nor alphanumeric |
| Lexing.LexKeepsText | eval.cpp:44-68 | the token texts, concatenated, give the input with its whitespace removed: only whitespace is dropped, and nothing is reordered |
| Lexing.LexEmptyIffBlank | eval.cpp:44-68 | the scan emits no token if and only if the input is all whitespace |
| Lexing.LexAppend | eval.cpp:44-68 | lexing two texts one after the other gives the two token lists in order, unless a digit run would straddle the seam |
| Lexing.DigitRunIsOneAtom | eval.cpp:52-57 | maximal munch: a digit run followed by a non-digit becomes exactly one `Atom` |
| Lexing.SpaceSeparates | eval.cpp:47-50 | whitespace between two texts produces no token of its own and keeps them apart |
| Lexing.Reversed | eval.cpp:70 | `std::reverse`: the same length, with element k taken from position n-1-k |
| Lexing.ReversedTwice | eval.cpp:70-79 | reversing twice restores the order, so popping from the back of the reversed buffer delivers tokens in input order |
| Lexing.Lexer.constructor | eval.cpp:44-71 | after construction, the pending tokens in delivery order are `Lex(input)` followed by one `Eof` |
| Lexing.Lexer.Next | eval.cpp:73-79 | returns the first pending token, or `Eof` when none is left, and removes it; an empty buffer stays empty |
| Lexing.Lexer.Peek | eval.cpp:81-85 | returns the first pending token, or `Eof` when none is left, and changes nothing |
| Tokens.IsSpace | eval.cpp:47 | C-locale whitespace: the space and the code points 9 to 13 |
| Tokens.IsDigit | eval.cpp:52 | a digit is a character less than ten above `0`, and never whitespace |
| Tokens.IsAlnum | eval.cpp:60 | an alphanumeric character is never whitespace |
| BindingPower.InfixBindingPower | eval.cpp:98-115 | (-1, -1) exactly for characters outside `= ? + - * / .`; otherwise both powers are positive, with `= ? .` right-associative (left > right) and `+ - * /` left-associative (left < right) |
| BindingPower.PrefixBindingPower | eval.cpp:117-127 | -1 exactly for characters other than `+ - (`; otherwise positive |
| BindingPower.PostfixBindingPower | eval.cpp:129-139 | -1 exactly for characters other than `! [ )`; otherwise positive |
| Syntax.ToStringEndsWithLabel | eval.cpp:23-30 | `to_string` ends with the node's own label; it is at least one character per child longer than the label, holds at least one space per child, and a node with children has a space right before its label |
| Syntax.Rpn | eval.cpp:23-30 | the post-order listing of a tree ends with its root and the root's arity |
| Syntax.ToStringIsPostOrder | eval.cpp:23-30 | `to_string` is the post-order listing of the node labels, separated by single spaces |
| Syntax.RpnRoundTrip | eval.cpp:23-30 | reading the post-order listing, with arities, back through a stack rebuilds exactly the tree |
| Pratt.Parse | eval.cpp:141-189 | a call that returns a tree has consumed at least one token |
| Pratt.ParseLoop | eval.cpp:157-188 | the operator loop never grows the stream |
| Pratt.ParseStopsWithin | eval.cpp:141-189 | every call stops inside its stream. "Unexpected token" is thrown only on reading `Eof` as an operand, and the loop spins only on an `Atom` lookahead |
| Pratt.ParseInput | eval.cpp:93-96 | parsing the lexed input stops within the lexed stream; it throws only at an `Eof` operand and spins only at an `Atom` lookahead |
| Pratt.ExprBp | eval.cpp:141-156 | the procedure returns what `Parse` gives on the lexer's pending tokens, and leaves the lexer holding `Remaining(Parse(…))`: the stream `Parse` stops at, or one token past it when the call throws |
| Pratt.ExprLoop | eval.cpp:157-188 | the loop returns what `ParseLoop` gives, and leaves the lexer where `ParseLoop` stops |
| Pratt.Expr | eval.cpp:93-96 | `expr(input)` is `Parse` at power 0 of the lexed input followed by `Eof` |
| PrattFacts.ParseFringe | eval.cpp:141-189 | the leaves of a returned tree, left to right, are the `Atom` tokens the call consumed, in order |
| PrattFacts.LoopFringe | eval.cpp:157-188 | the same for the operator loop, starting from the tree built so far |
| PrattFacts.TernaryFringe | eval.cpp:176-180 | the same for the `?` branch |
| PrattFacts.LeafIffAtom | eval.cpp:145-184 | in a tree the parser builds, a node is a leaf exactly when its label is an operand, and no node has more than three children |
| PrattFacts.ParseShape | eval.cpp:141-189 | every tree returned is well shaped, and the rest of the stream is still a token stream |
| PrattFacts.LoopShape | eval.cpp:157-188 | the operator loop keeps a well-shaped tree well shaped |
| PrattFacts.TernaryShape | eval.cpp:176-180 | the `?` branch keeps a well-shaped tree well shaped |
| PrattFacts.ParseStopsAt | eval.cpp:157-172 | a returned tree is followed by `Eof` or by an operator too weak for the minimum power, so a returned tree leaves the final `Eof` unread |
| PrattFacts.LoopStopsAt | eval.cpp:157-188 | the same for the operator loop |
| PrattFacts.TernaryStopsAt | eval.cpp:176-180 | the same for the `?` branch |
| PrattFacts.LexedInput | eval.cpp:44-71 | the lexer's buffer holds lexemes followed by exactly one `Eof`, at the end: every token before the last is a lexeme, and no lexeme is `Eof` |
| PrattFacts.ExprOutcomes | eval.cpp:93-96 | `expr` throws only after reading the final `Eof`, and hangs only on an `Atom`. A returned tree is well shaped, stops before `Eof` or a weak operator, and its leaves followed by the unread operands are all the operands of the input |
| Precedence.BinaryPowers | eval.cpp:98-139 | a two-operand infix operator has no postfix power and has positive infix powers |
| Precedence.OperandThenEof | eval.cpp:145-160 | an operand right before `Eof` parses to a leaf, at any power |
| Precedence.SingleInfix | eval.cpp:157-184 | `a o b` with any binary operator o builds the binary node over `a` and `b` and stops at `Eof` |
| Precedence.InfixGrouping | eval.cpp:170-184 | `a o1 b o2 c` groups to the right exactly when o2's left power is at least o1's right power, and to the left otherwise |
| Precedence.PrefixGrouping | eval.cpp:149-184 | `-x o y` applies the sign to `x o y` exactly when o's left power is at least the prefix power 9, and to `x` alone otherwise |
| Precedence.PostfixGrouping | eval.cpp:162-184 | `a o b q` applies the postfix q to `b` alone exactly when q's power is at least o's right power, and to `a o b` otherwise |
| Precedence.TernaryGrouping | eval.cpp:149-180 | `c ? t : e` builds `?` over `c`, `t` and a unary `:` node over `e`, because `:` is read as an unknown prefix operator |
| Precedence.EveryOperatorIsPostfixBelowZero | eval.cpp:162-168 | at a minimum power of -1 or below, every operator is consumed as postfix |
| Precedence.UnknownPrefix | eval.cpp:149-152 | an operator outside the prefix table still parses its operand, at power -1, and wraps it in a unary node |
| Precedence.UnknownPrefixSpins | eval.cpp:149-168 | after an unknown prefix operator, a following binary operator is taken as postfix, so the next operand makes the call hang |
| Precedence.ClosesAreAbsorbed | eval.cpp:162-168 | a run of `)` after a tree wraps it once per `)`, at any power up to 12 |
| Precedence.Parenthesised | eval.cpp:147-168 | k opening and n closing parentheses around an operand give the operand wrapped in n `)` nodes, whatever k is |
| Scenarios.TernaryConditional | eval.cpp:176-180 | `a ? b : c` renders as `a b c : ?` |
| Scenarios.AssignmentGroupsRight | eval.cpp:98-115 | `a = b = c` groups to the right: `a b c = =` |
| Scenarios.MemberAccessGroupsRight | eval.cpp:98-115 | `a.b.c` groups to the right: `a b c . .` |
| Scenarios.TrailingTokensIgnored | eval.cpp:170-172 | in `3 (` the `(` stops the loop, and `expr` returns `3` without reading further |
| Scenarios.UnknownPrefixThenInfix | eval.cpp:149-168 | `*3+4` never returns |
| Scenarios.LoneOperator | eval.cpp:149-155 | `+` throws "Unexpected token" |
| Scenarios.EmptyInput | eval.cpp:153-155 | the empty input throws "Unexpected token" |
| LexedInputs.LexNumeral | eval.cpp:52-57 | a numeral on its own lexes to one `Atom` |
| LexedInputs.LexJoin | eval.cpp:44-68 | an input made of numerals and operator pieces, with no two numerals adjacent, lexes piece by piece to one token per piece |
| SourceTests.ExprLoneOperand | eval.cpp:263-264 | `3`, `42`, `1` and `123`, and any numeral, render as themselves |
| SourceTests.ExprAddition | eval.cpp:268 | `3 + 4` (and `123 + 456`) renders as `3 4 +` |
| SourceTests.ExprSubtraction | eval.cpp:269 | `10 - 5` (and `1234567890 - 987654321`) renders as `10 5 -` |
| SourceTests.ExprMultiplication | eval.cpp:270 | `6 * 7` (and `99999 * 88888`) renders as `6 7 *` |
| SourceTests.ExprDivision | eval.cpp:271 | `8 / 2` renders as `8 2 /` |
| SourceTests.ExprProductBindsTighter | eval.cpp:275 | `3 + 4 * 5` renders as `3 4 5 * +` |
| SourceTests.ExprQuotientBindsTighter | eval.cpp:276 | `10 - 5 / 5` renders as `10 5 5 / -` |
| SourceTests.ExprMixedPrecedence | eval.cpp:277 | `1 + 2 * 3 - 4 / 5` renders as `1 2 3 * + 4 5 / -` |
| SourceTests.ExprParenthesisedSum | eval.cpp:281 | `(3 + 4) * 5` renders as `3 4 ) 5 * +`, not as the asserted `3 4 + 5 *` |
| SourceTests.ExprTwoParenthesisedGroups | eval.cpp:282 | `(1 + 2) * (3 - 4)` renders as `1 2 ) 3 4 ) - * +`, not as the asserted `1 2 + 3 4 - *` |
| SourceTests.ExprNestedGroups | eval.cpp:286 | `((3 + 4) * 5) / 2` renders as `3 4 ) 5 ) * 2 / +`, not as the asserted string |
| SourceTests.ExprNestedGroupsBothSides | eval.cpp:287-288 | `(1 + (2 * 3)) - (4 / (5 + 6))` renders with `)` nodes, not as the asserted `1 2 3 * + 4 5 6 + / -` |
| SourceTests.ExprGroupInChain | eval.cpp:292-293 | `3 + 4 * 2 / (1 - 5) + 6` renders with a `)` node, not as the asserted `3 4 2 * 1 5 - / + 6 +` |
| SourceTests.ExprGroupsInChain | eval.cpp:294-295 | `42 * (35 + 12) / (7 - 3) + 8` renders with `)` nodes, not as the asserted `42 35 12 + * 7 3 - / 8 +` |
| SourceTests.ExprNegation | eval.cpp:299 | `-3` renders as `3 -` |
| SourceTests.ExprUnaryPlus | eval.cpp:300 | `+42` renders as `42 +` |
| SourceTests.ExprNegationThenSum | eval.cpp:301 | `-3 + 4` renders as `3 - 4 +` |
| SourceTests.ExprNegationTimesGroup | eval.cpp:302 | `-3 * (4 + 2)` renders as `3 - 4 2 ) + *`, not as the asserted `3 - 4 2 + *` |
| SourceTests.ExprSpacedAddition | eval.cpp:310 | `  3   + 4   ` renders as `3 4 +` |
| SourceTests.ExprRedundantParentheses | eval.cpp:313 | `(((3)))` renders as `3 ) ) )`, not as the asserted `3` |
| SourceTests.ExprNestedRightGroups | eval.cpp:314 | `(3 + (4 * (5)))` renders with `)` nodes, not as the asserted `3 4 5 * +` |
| SourceTests.ExprSumsGroupLeft | eval.cpp:317 | `3 + 4 - 5` renders as `3 4 + 5 -` |
| SourceTests.ExprProductsGroupLeft | eval.cpp:318 | `6 * 7 / 2` renders as `6 7 * 2 /` |
| SourceTests.ExprLoneOperator | eval.cpp:320-321 | `+` throws, as the commented-out test expects |
| SourceTests.ExprUnclosedGroup | eval.cpp:321-322 | `(3 + 4` returns `3 4 +` and does not throw, although the commented-out test expects it to throw |
| SourceTests.ExprMisplacedParentheses | eval.cpp:322-323 | `)3 + 4(` never returns and does not throw, although the commented-out test expects it to throw |
| SourceTests.ExprOperandsWithoutOperator | eval.cpp:336 | `456 789` never returns, so it cannot render as the asserted `456 789` |
| SourceTests.ExprFactorial | eval.cpp:340 | `3!` renders as `3 !` |
| SourceTests.ExprFactorialOfGroup | eval.cpp:341 | `(4 + 5)!` renders as `4 5 ) ! +`, not as the asserted `4 5 + !` |

## Left out

- The JIT is not modelled: `stack_push`, `stack_pop`, `compile_rpn` and `eval` (eval.cpp:191-257). They call into GNU lightning, which is not part of this model. `Syntax.Rebuild` is an arity-aware reader of the post-order listing; it is not a model of `compile_rpn`. The reader in `compile_rpn` (eval.cpp:205-244) ignores arity: each of `+ - * /` pops one value, `(`, `)` and space are skipped, and any other label aborts. That reader is not modelled.
- `main` (eval.cpp:360-375) is not modelled: it is console I/O. Neither is the printing in `tests` (eval.cpp:344-358).
- `shared_ptr` ownership is not modelled. Trees are values (`datatype S`), because the parser never shares or mutates a node after building it.
- Exceptions are not modelled as control flow. The thrown `runtime_error` is the value `UnexpectedToken`, and the model does not say where it is caught.
- Non-termination: the infinite loop on an `Atom` lookahead is the value `Hangs`. `ExprLoop` returns `Hangs` at the point where the source would start spinning, rather than looping.
- Character classes cover ASCII only, in the "C" locale: `isspace`, `isdigit` and `isalnum` as the standard defines them there. Other locales and non-ASCII `char` values are not modelled.
- `Token::value` for an operator is a one-character string in the source. The model stores the character itself. `Tokens.Value` gives the source's string.
- Pratt.Parse: the inline `ensures` only bounds what a parse consumes. The parse's meaning is stated by the lemmas about it in `Pratt`, `PrattFacts` and `Precedence`.
- Pratt.ParseLoop: the same as for `Parse`.
- The commented-out checks at eval.cpp:320-323 are modelled as stated in their comments (throws or not), since they never run in the source.
