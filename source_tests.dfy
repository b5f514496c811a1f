/** The assertions of eval.cpp's test functions, stated on their input
    strings with the numbers left open: each input is written as the `Join`
    of its pieces (numerals and the text between them), any numerals may
    stand in the numbers' places, and the claim is about what
    `expr(input)->to_string()` gives for them. Each lemma lexes the input
    (`LexedInputs`) and parses the stream by the matching derivation in
    `Scenarios`. Where the code does not give what the test asserts, the
    lemma proves the code's actual result and also that the asserted one is
    not produced. */
module SourceTests {
  import opened Tokens
  import opened Lexing
  import opened Syntax
  import opened Pratt
  import opened Scenarios
  import opened LexedInputs

  /** `expr(input)` returns a tree whose `to_string` is `out`. */
  predicate RendersAs(input: string, out: string) {
    var r := Observed(ParseInput(input));
    r.Built? && ToString(r.tree) == out
  }

  /** `expr(input)` throws "Unexpected token". */
  predicate ExprThrows(input: string) {
    Observed(ParseInput(input)) == UnexpectedToken
  }

  /** `expr(input)` never returns. */
  predicate ExprHangs(input: string) {
    Observed(ParseInput(input)) == Hangs
  }

  /** `3` (eval.cpp:263), `42` (eval.cpp:264), `1` (eval.cpp:307), `123` (eval.cpp:335). */
  lemma ExprLoneOperand(a: string)
    requires IsNumeral(a)
    ensures RendersAs(a, a)
  {
    LexNumeral(a);
    LoneOperand(a);
  }

  /** `3 + 4` (eval.cpp:268), `123 + 456` (eval.cpp:328). */
  lemma ExprAddition(a: string, b: string)
    requires IsNumeral(a) && IsNumeral(b)
    ensures RendersAs(Join([a, " + ", b]), a + " " + b + " " + "+")
  {
    LexAddition(a, b);
    Addition(a, b);
  }

  /** `10 - 5` (eval.cpp:269), `1234567890 - 987654321` (eval.cpp:330-331). */
  lemma ExprSubtraction(a: string, b: string)
    requires IsNumeral(a) && IsNumeral(b)
    ensures RendersAs(Join([a, " - ", b]), a + " " + b + " " + "-")
  {
    LexSubtraction(a, b);
    Subtraction(a, b);
  }

  /** `6 * 7` (eval.cpp:270), `99999 * 88888` (eval.cpp:329). */
  lemma ExprMultiplication(a: string, b: string)
    requires IsNumeral(a) && IsNumeral(b)
    ensures RendersAs(Join([a, " * ", b]), a + " " + b + " " + "*")
  {
    LexMultiplication(a, b);
    Multiplication(a, b);
  }

  /** `8 / 2` (eval.cpp:271). */
  lemma ExprDivision(a: string, b: string)
    requires IsNumeral(a) && IsNumeral(b)
    ensures RendersAs(Join([a, " / ", b]), a + " " + b + " " + "/")
  {
    LexDivision(a, b);
    Division(a, b);
  }

  /** `3 + 4 * 5` (eval.cpp:275). */
  lemma ExprProductBindsTighter(a: string, b: string, c: string)
    requires IsNumeral(a) && IsNumeral(b) && IsNumeral(c)
    ensures RendersAs(Join([a, " + ", b, " * ", c]), a + " " + (b + " " + c + " " + "*") + " " + "+")
  {
    LexProductBindsTighter(a, b, c);
    ProductBindsTighter(a, b, c);
  }

  /** `10 - 5 / 5` (eval.cpp:276). */
  lemma ExprQuotientBindsTighter(a: string, b: string, c: string)
    requires IsNumeral(a) && IsNumeral(b) && IsNumeral(c)
    ensures RendersAs(Join([a, " - ", b, " / ", c]), a + " " + (b + " " + c + " " + "/") + " " + "-")
  {
    LexQuotientBindsTighter(a, b, c);
    QuotientBindsTighter(a, b, c);
  }

  /** `1 + 2 * 3 - 4 / 5` (eval.cpp:277). */
  lemma ExprMixedPrecedence(a: string, b: string, c: string, d: string, e: string)
    requires IsNumeral(a) && IsNumeral(b) && IsNumeral(c) && IsNumeral(d) && IsNumeral(e)
    ensures RendersAs(Join([a, " + ", b, " * ", c, " - ", d, " / ", e]), (a + " " + (b + " " + c + " " + "*") + " " + "+") + " " + (d + " " + e + " " + "/") + " " + "-")
  {
    LexMixedPrecedence(a, b, c, d, e);
    MixedPrecedence(a, b, c, d, e);
  }

  /** `(3 + 4) * 5` (eval.cpp:281). */
  lemma ExprParenthesisedSum(a: string, b: string, c: string)
    requires IsNumeral(a) && IsNumeral(b) && IsNumeral(c)
    ensures RendersAs(Join(["(", a, " + ", b, ")", " * ", c]), a + " " + ((b + " " + ")") + " " + c + " " + "*") + " " + "+")
    ensures !RendersAs(Join(["(", a, " + ", b, ")", " * ", c]), a + " " + b + " + " + c + " *")
  {
    LexParenthesisedSum(a, b, c);
    ParenthesisedSum(a, b, c);
  }

  /** `(1 + 2) * (3 - 4)` (eval.cpp:282). */
  lemma ExprTwoParenthesisedGroups(a: string, b: string, c: string, d: string)
    requires IsNumeral(a) && IsNumeral(b) && IsNumeral(c) && IsNumeral(d)
    ensures RendersAs(Join(["(", a, " + ", b, ")", " * ", "(", c, " - ", d, ")"]), a + " " + ((b + " " + ")") + " " + (c + " " + (d + " " + ")") + " " + "-") + " " + "*") + " " + "+")
    ensures !RendersAs(Join(["(", a, " + ", b, ")", " * ", "(", c, " - ", d, ")"]), a + " " + b + " + " + c + " " + d + " - *")
  {
    LexTwoParenthesisedGroups(a, b, c, d);
    TwoParenthesisedGroups(a, b, c, d);
  }

  /** `((3 + 4) * 5) / 2` (eval.cpp:286). */
  lemma ExprNestedGroups(a: string, b: string, c: string, d: string)
    requires IsNumeral(a) && IsNumeral(b) && IsNumeral(c) && IsNumeral(d)
    ensures RendersAs(Join(["(", "(", a, " + ", b, ")", " * ", c, ")", " / ", d]), a + " " + (((b + " " + ")") + " " + (c + " " + ")") + " " + "*") + " " + d + " " + "/") + " " + "+")
    ensures !RendersAs(Join(["(", "(", a, " + ", b, ")", " * ", c, ")", " / ", d]), a + " " + b + " + " + c + " * " + d + " /")
  {
    LexNestedGroups(a, b, c, d);
    NestedGroups(a, b, c, d);
  }

  /** `(1 + (2 * 3)) - (4 / (5 + 6))` (eval.cpp:287-288). */
  lemma ExprNestedGroupsBothSides(a: string, b: string, c: string, d: string, e: string, f: string)
    requires IsNumeral(a) && IsNumeral(b) && IsNumeral(c) && IsNumeral(d) && IsNumeral(e) && IsNumeral(f)
    ensures RendersAs(Join(["(", a, " + ", "(", b, " * ", c, ")", ")", " - ", "(", d, " / ", "(", e, " + ", f, ")", ")"]), a + " " + ((b + " " + ((c + " " + ")") + " " + ")") + " " + "*") + " " + (d + " " + (e + " " + ((f + " " + ")") + " " + ")") + " " + "+") + " " + "/") + " " + "-") + " " + "+")
    ensures !RendersAs(Join(["(", a, " + ", "(", b, " * ", c, ")", ")", " - ", "(", d, " / ", "(", e, " + ", f, ")", ")"]), a + " " + b + " " + c + " * + " + d + " " + e + " " + f + " + / -")
  {
    LexNestedGroupsBothSides(a, b, c, d, e, f);
    NestedGroupsBothSides(a, b, c, d, e, f);
  }

  /** `3 + 4 * 2 / (1 - 5) + 6` (eval.cpp:292-293). */
  lemma ExprGroupInChain(a: string, b: string, c: string, d: string, e: string, f: string)
    requires IsNumeral(a) && IsNumeral(b) && IsNumeral(c) && IsNumeral(d) && IsNumeral(e) && IsNumeral(f)
    ensures RendersAs(Join([a, " + ", b, " * ", c, " / ", "(", d, " - ", e, ")", " + ", f]), a + " " + ((b + " " + c + " " + "*") + " " + ((d + " " + (e + " " + ")") + " " + "-") + " " + f + " " + "+") + " " + "/") + " " + "+")
    ensures !RendersAs(Join([a, " + ", b, " * ", c, " / ", "(", d, " - ", e, ")", " + ", f]), a + " " + b + " " + c + " * " + d + " " + e + " - / + " + f + " +")
  {
    LexGroupInChain(a, b, c, d, e, f);
    GroupInChain(a, b, c, d, e, f);
  }

  /** `42 * (35 + 12) / (7 - 3) + 8` (eval.cpp:294-295). */
  lemma ExprGroupsInChain(a: string, b: string, c: string, d: string, e: string, f: string)
    requires IsNumeral(a) && IsNumeral(b) && IsNumeral(c) && IsNumeral(d) && IsNumeral(e) && IsNumeral(f)
    ensures RendersAs(Join([a, " * ", "(", b, " + ", c, ")", " / ", "(", d, " - ", e, ")", " + ", f]), a + " " + (b + " " + ((c + " " + ")") + " " + ((d + " " + (e + " " + ")") + " " + "-") + " " + f + " " + "+") + " " + "/") + " " + "+") + " " + "*")
    ensures !RendersAs(Join([a, " * ", "(", b, " + ", c, ")", " / ", "(", d, " - ", e, ")", " + ", f]), a + " " + b + " " + c + " + * " + d + " " + e + " - / " + f + " +")
  {
    LexGroupsInChain(a, b, c, d, e, f);
    GroupsInChain(a, b, c, d, e, f);
  }

  /** `-3` (eval.cpp:299). */
  lemma ExprNegation(a: string)
    requires IsNumeral(a)
    ensures RendersAs(Join(["-", a]), a + " " + "-")
  {
    LexNegation(a);
    Negation(a);
  }

  /** `+42` (eval.cpp:300). */
  lemma ExprUnaryPlus(a: string)
    requires IsNumeral(a)
    ensures RendersAs(Join(["+", a]), a + " " + "+")
  {
    LexUnaryPlus(a);
    UnaryPlus(a);
  }

  /** `-3 + 4` (eval.cpp:301). */
  lemma ExprNegationThenSum(a: string, b: string)
    requires IsNumeral(a) && IsNumeral(b)
    ensures RendersAs(Join(["-", a, " + ", b]), (a + " " + "-") + " " + b + " " + "+")
  {
    LexNegationThenSum(a, b);
    NegationThenSum(a, b);
  }

  /** `-3 * (4 + 2)` (eval.cpp:302). */
  lemma ExprNegationTimesGroup(a: string, b: string, c: string)
    requires IsNumeral(a) && IsNumeral(b) && IsNumeral(c)
    ensures RendersAs(Join(["-", a, " * ", "(", b, " + ", c, ")"]), (a + " " + "-") + " " + (b + " " + (c + " " + ")") + " " + "+") + " " + "*")
    ensures !RendersAs(Join(["-", a, " * ", "(", b, " + ", c, ")"]), a + " - " + b + " " + c + " + *")
  {
    LexNegationTimesGroup(a, b, c);
    NegationTimesGroup(a, b, c);
  }

  /** `  3   + 4   ` (eval.cpp:310). */
  lemma ExprSpacedAddition(a: string, b: string)
    requires IsNumeral(a) && IsNumeral(b)
    ensures RendersAs("  " + Join([a, "   + ", b]) + "   ", a + " " + b + " " + "+")
  {
    LexSpacedAddition(a, b);
    Addition(a, b);
  }

  /** `(((3)))` (eval.cpp:313). */
  lemma ExprRedundantParentheses(a: string)
    requires IsNumeral(a)
    ensures RendersAs(Join(["(", "(", "(", a, ")", ")", ")"]), ((a + " " + ")") + " " + ")") + " " + ")")
    ensures !RendersAs(Join(["(", "(", "(", a, ")", ")", ")"]), a)
  {
    LexRedundantParentheses(a);
    RedundantParentheses(a);
  }

  /** `(3 + (4 * (5)))` (eval.cpp:314). */
  lemma ExprNestedRightGroups(a: string, b: string, c: string)
    requires IsNumeral(a) && IsNumeral(b) && IsNumeral(c)
    ensures RendersAs(Join(["(", a, " + ", "(", b, " * ", "(", c, ")", ")", ")"]), a + " " + (b + " " + (((c + " " + ")") + " " + ")") + " " + ")") + " " + "*") + " " + "+")
    ensures !RendersAs(Join(["(", a, " + ", "(", b, " * ", "(", c, ")", ")", ")"]), a + " " + b + " " + c + " * +")
  {
    LexNestedRightGroups(a, b, c);
    NestedRightGroups(a, b, c);
  }

  /** `3 + 4 - 5` (eval.cpp:317). */
  lemma ExprSumsGroupLeft(a: string, b: string, c: string)
    requires IsNumeral(a) && IsNumeral(b) && IsNumeral(c)
    ensures RendersAs(Join([a, " + ", b, " - ", c]), (a + " " + b + " " + "+") + " " + c + " " + "-")
  {
    LexSumsGroupLeft(a, b, c);
    SumsGroupLeft(a, b, c);
  }

  /** `6 * 7 / 2` (eval.cpp:318). */
  lemma ExprProductsGroupLeft(a: string, b: string, c: string)
    requires IsNumeral(a) && IsNumeral(b) && IsNumeral(c)
    ensures RendersAs(Join([a, " * ", b, " / ", c]), (a + " " + b + " " + "*") + " " + c + " " + "/")
  {
    LexProductsGroupLeft(a, b, c);
    ProductsGroupLeft(a, b, c);
  }

  /** `+` (eval.cpp:321). */
  lemma ExprLoneOperator()
    ensures ExprThrows("+")
  {
    LexPlus();
    LoneOperator();
  }

  /** `(3 + 4` (eval.cpp:322). */
  lemma ExprUnclosedGroup(a: string, b: string)
    requires IsNumeral(a) && IsNumeral(b)
    ensures RendersAs(Join(["(", a, " + ", b]), a + " " + b + " " + "+")
    ensures !ExprThrows(Join(["(", a, " + ", b]))
  {
    LexUnclosedGroup(a, b);
    UnclosedGroup(a, b);
  }

  /** `)3 + 4(` (eval.cpp:323). */
  lemma ExprMisplacedParentheses(a: string, b: string)
    requires IsNumeral(a) && IsNumeral(b)
    ensures ExprHangs(Join([")", a, " + ", b, "("]))
    ensures !ExprThrows(Join([")", a, " + ", b, "("]))
  {
    LexMisplacedParentheses(a, b);
    MisplacedParentheses(a, b);
  }

  /** `456 789` (eval.cpp:336). */
  lemma ExprOperandsWithoutOperator(a: string, b: string)
    requires IsNumeral(a) && IsNumeral(b)
    ensures ExprHangs(a + " " + b)
    ensures !RendersAs(a + " " + b, a + " " + b)
  {
    LexOperandsWithoutOperator(a, b);
    OperandsWithoutOperator(a, b);
  }

  /** `3!` (eval.cpp:340). */
  lemma ExprFactorial(a: string)
    requires IsNumeral(a)
    ensures RendersAs(Join([a, "!"]), a + " " + "!")
  {
    LexFactorial(a);
    Factorial(a);
  }

  /** `(4 + 5)!` (eval.cpp:341). */
  lemma ExprFactorialOfGroup(a: string, b: string)
    requires IsNumeral(a) && IsNumeral(b)
    ensures RendersAs(Join(["(", a, " + ", b, ")", "!"]), a + " " + ((b + " " + ")") + " " + "!") + " " + "+")
    ensures !RendersAs(Join(["(", a, " + ", b, ")", "!"]), a + " " + b + " + !")
  {
    LexFactorialOfGroup(a, b);
    FactorialOfGroup(a, b);
  }
}
