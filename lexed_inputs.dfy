/** The token streams eval.cpp's lexer makes of the input strings of its
    test functions. Each string is taken with its numbers left open: it is
    written as the list of its pieces, numerals and the separators between
    them, and any numerals in their places give the same stream with those
    numerals as the operands. */
module LexedInputs {
  import opened Tokens
  import opened Lexing

  /** A non-empty run of decimal digits: one operand of the test inputs. */
  predicate IsNumeral(d: string) {
    |d| > 0 && AllDigits(d)
  }

  /** A numeral on its own is a single `Atom`. */
  lemma LexNumeral(d: string)
    requires IsNumeral(d)
    ensures Lex(d) == [Atom(d)]
  {
    DigitRunIsOneAtom(d, []);
    assert d + [] == d;
  }

  /** Text between operands: it neither starts nor ends with a digit, so no
      digit run can reach across it. */
  predicate IsSeparator(s: string) {
    s != [] && !IsDigit(s[0]) && !IsDigit(s[|s| - 1])
  }

  /** The pieces `ps`, written one after the other. */
  function Join(ps: seq<string>): string
    decreases |ps|
  {
    if |ps| == 0 then "" else if |ps| == 1 then ps[0] else Join(ps[..|ps| - 1]) + ps[|ps| - 1]
  }

  /** `p` is the text of the token `t`: a numeral for an `Atom`, a separator
      that lexes to exactly `t` for an `Op`. */
  predicate Piece(p: string, t: Token) {
    match t
    case Atom(x) => p == x && IsNumeral(p)
    case Op(_) => IsSeparator(p) && Lex(p) == [t]
    case Eof => false
  }

  /** `ps` is an input cut into pieces of one token each, `ts` those tokens. */
  predicate Pieces(ps: seq<string>, ts: seq<Token>) {
    |ps| == |ts| && forall k :: 0 <= k < |ps| ==> Piece(ps[k], ts[k])
  }

  /** No two operands of `ts` are adjacent. */
  predicate Separated(ts: seq<Token>) {
    forall k :: 0 < k < |ts| ==> !ts[k - 1].Atom? || !ts[k].Atom?
  }

  /** `ps` is an input cut into pieces of the tokens `ts`, no two of them
      adjacent operands. */
  predicate Woven(ps: seq<string>, ts: seq<Token>) {
    Pieces(ps, ts) && Separated(ts)
  }

  /** A join of pieces ends where its last piece ends. */
  lemma JoinEnd(ps: seq<string>)
    requires |ps| > 0 && ps[|ps| - 1] != []
    ensures Join(ps) != [] && Join(ps)[|Join(ps)| - 1] == ps[|ps| - 1][|ps[|ps| - 1]| - 1]
  {
  }

  /** An input made of pieces lexes piece by piece: the lexer never merges
      two pieces into one token, and each piece gives its own. */
  lemma {:induction false} LexJoin(ps: seq<string>, ts: seq<Token>)
    requires Woven(ps, ts)
    ensures Lex(Join(ps)) == ts
    decreases |ps|
  {
    if |ps| > 0 {
      var n := |ps| - 1;
      var p := ps[n];
      assert Piece(p, ts[n]);
      if ts[n].Atom? {
        LexNumeral(p);
      }
      if n > 0 {
        var init := ps[..n];
        assert Woven(init, ts[..n]);
        LexJoin(init, ts[..n]);
        assert !DigitSeam(Join(init), p) by {
          if ts[n - 1].Op? {
            assert Piece(init[n - 1], ts[n - 1]);
            JoinEnd(init);
          }
        }
        LexAppend(Join(init), p);
        assert ts == ts[..n] + [ts[n]];
      }
    }
  }

  lemma LexBang()
    ensures Lex("!") == [Op('!')]
  {
  }

  lemma LexClose()
    ensures Lex(")") == [Op(')')]
  {
  }

  lemma LexMinus()
    ensures Lex("-") == [Op('-')]
  {
  }

  lemma LexOpen()
    ensures Lex("(") == [Op('(')]
  {
  }

  lemma LexPlus()
    ensures Lex("+") == [Op('+')]
  {
  }

  lemma LexSpMinusSp()
    ensures Lex(" - ") == [Op('-')]
  {
  }

  lemma LexSpPlusSp()
    ensures Lex(" + ") == [Op('+')]
  {
  }

  lemma LexSpSlashSp()
    ensures Lex(" / ") == [Op('/')]
  {
  }

  lemma LexSpSpSpPlusSp()
    ensures Lex("   + ") == [Op('+')]
  {
  }

  lemma LexSpStarSp()
    ensures Lex(" * ") == [Op('*')]
  {
  }

  /** `a + b`, with numerals `a`, `b`. */
  lemma LexAddition(a: string, b: string)
    requires IsNumeral(a) && IsNumeral(b)
    ensures Lex(Join([a, " + ", b])) == [Atom(a), Op('+'), Atom(b)]
  {
    LexSpPlusSp();
    LexJoin([a, " + ", b], [Atom(a), Op('+'), Atom(b)]);
  }

  /** `a - b`, with numerals `a`, `b`. */
  lemma LexSubtraction(a: string, b: string)
    requires IsNumeral(a) && IsNumeral(b)
    ensures Lex(Join([a, " - ", b])) == [Atom(a), Op('-'), Atom(b)]
  {
    LexSpMinusSp();
    LexJoin([a, " - ", b], [Atom(a), Op('-'), Atom(b)]);
  }

  /** `a * b`, with numerals `a`, `b`. */
  lemma LexMultiplication(a: string, b: string)
    requires IsNumeral(a) && IsNumeral(b)
    ensures Lex(Join([a, " * ", b])) == [Atom(a), Op('*'), Atom(b)]
  {
    LexSpStarSp();
    LexJoin([a, " * ", b], [Atom(a), Op('*'), Atom(b)]);
  }

  /** `a / b`, with numerals `a`, `b`. */
  lemma LexDivision(a: string, b: string)
    requires IsNumeral(a) && IsNumeral(b)
    ensures Lex(Join([a, " / ", b])) == [Atom(a), Op('/'), Atom(b)]
  {
    LexSpSlashSp();
    LexJoin([a, " / ", b], [Atom(a), Op('/'), Atom(b)]);
  }

  /** `a + b * c`, with numerals `a`, `b`, `c`. */
  lemma LexProductBindsTighter(a: string, b: string, c: string)
    requires IsNumeral(a) && IsNumeral(b) && IsNumeral(c)
    ensures Lex(Join([a, " + ", b, " * ", c])) == [Atom(a), Op('+'), Atom(b), Op('*'), Atom(c)]
  {
    LexSpPlusSp();
    LexSpStarSp();
    LexJoin([a, " + ", b, " * ", c], [Atom(a), Op('+'), Atom(b), Op('*'), Atom(c)]);
  }

  /** `a - b / c`, with numerals `a`, `b`, `c`. */
  lemma LexQuotientBindsTighter(a: string, b: string, c: string)
    requires IsNumeral(a) && IsNumeral(b) && IsNumeral(c)
    ensures Lex(Join([a, " - ", b, " / ", c])) == [Atom(a), Op('-'), Atom(b), Op('/'), Atom(c)]
  {
    LexSpMinusSp();
    LexSpSlashSp();
    LexJoin([a, " - ", b, " / ", c], [Atom(a), Op('-'), Atom(b), Op('/'), Atom(c)]);
  }

  /** `a + b * c - d / e`, with numerals `a`, `b`, `c`, `d`, `e`. */
  lemma LexMixedPrecedence(a: string, b: string, c: string, d: string, e: string)
    requires IsNumeral(a) && IsNumeral(b) && IsNumeral(c) && IsNumeral(d) && IsNumeral(e)
    ensures Lex(Join([a, " + ", b, " * ", c, " - ", d, " / ", e])) == [Atom(a), Op('+'), Atom(b), Op('*'), Atom(c), Op('-'), Atom(d), Op('/'), Atom(e)]
  {
    LexSpPlusSp();
    LexSpStarSp();
    LexSpMinusSp();
    LexSpSlashSp();
    LexJoin([a, " + ", b, " * ", c, " - ", d, " / ", e], [Atom(a), Op('+'), Atom(b), Op('*'), Atom(c), Op('-'), Atom(d), Op('/'), Atom(e)]);
  }

  /** `(a + b) * c`, with numerals `a`, `b`, `c`. */
  lemma LexParenthesisedSum(a: string, b: string, c: string)
    requires IsNumeral(a) && IsNumeral(b) && IsNumeral(c)
    ensures Lex(Join(["(", a, " + ", b, ")", " * ", c])) == [Op('('), Atom(a), Op('+'), Atom(b), Op(')'), Op('*'), Atom(c)]
  {
    LexOpen();
    LexSpPlusSp();
    LexClose();
    LexSpStarSp();
    LexJoin(["(", a, " + ", b, ")", " * ", c], [Op('('), Atom(a), Op('+'), Atom(b), Op(')'), Op('*'), Atom(c)]);
  }

  /** `(a + b) * (c - d)`, with numerals `a`, `b`, `c`, `d`. */
  lemma LexTwoParenthesisedGroups(a: string, b: string, c: string, d: string)
    requires IsNumeral(a) && IsNumeral(b) && IsNumeral(c) && IsNumeral(d)
    ensures Lex(Join(["(", a, " + ", b, ")", " * ", "(", c, " - ", d, ")"])) == [Op('('), Atom(a), Op('+'), Atom(b), Op(')'), Op('*'), Op('('), Atom(c), Op('-'), Atom(d), Op(')')]
  {
    LexOpen();
    LexSpPlusSp();
    LexClose();
    LexSpStarSp();
    LexSpMinusSp();
    LexJoin(["(", a, " + ", b, ")", " * ", "(", c, " - ", d, ")"], [Op('('), Atom(a), Op('+'), Atom(b), Op(')'), Op('*'), Op('('), Atom(c), Op('-'), Atom(d), Op(')')]);
  }

  /** `((a + b) * c) / d`, with numerals `a`, `b`, `c`, `d`. */
  lemma LexNestedGroups(a: string, b: string, c: string, d: string)
    requires IsNumeral(a) && IsNumeral(b) && IsNumeral(c) && IsNumeral(d)
    ensures Lex(Join(["(", "(", a, " + ", b, ")", " * ", c, ")", " / ", d])) == [Op('('), Op('('), Atom(a), Op('+'), Atom(b), Op(')'), Op('*'), Atom(c), Op(')'), Op('/'), Atom(d)]
  {
    LexOpen();
    LexSpPlusSp();
    LexClose();
    LexSpStarSp();
    LexSpSlashSp();
    LexJoin(["(", "(", a, " + ", b, ")", " * ", c, ")", " / ", d], [Op('('), Op('('), Atom(a), Op('+'), Atom(b), Op(')'), Op('*'), Atom(c), Op(')'), Op('/'), Atom(d)]);
  }

  /** The pieces of the next input and its tokens. */
  lemma NestedGroupsBothSidesPieces(a: string, b: string, c: string, d: string, e: string, f: string)
    requires IsNumeral(a) && IsNumeral(b) && IsNumeral(c) && IsNumeral(d) && IsNumeral(e) && IsNumeral(f)
    ensures Pieces(["(", a, " + ", "(", b, " * ", c, ")", ")", " - ", "(", d, " / ", "(", e, " + ", f, ")", ")"], [Op('('), Atom(a), Op('+'), Op('('), Atom(b), Op('*'), Atom(c), Op(')'), Op(')'), Op('-'), Op('('), Atom(d), Op('/'), Op('('), Atom(e), Op('+'), Atom(f), Op(')'), Op(')')])
  {
    LexOpen();
    LexSpPlusSp();
    LexSpStarSp();
    LexClose();
    LexSpMinusSp();
    LexSpSlashSp();
  }

  /** The tokens of the next input keep its operands apart. */
  lemma NestedGroupsBothSidesSeparated(a: string, b: string, c: string, d: string, e: string, f: string)
    ensures Separated([Op('('), Atom(a), Op('+'), Op('('), Atom(b), Op('*'), Atom(c), Op(')'), Op(')'), Op('-'), Op('('), Atom(d), Op('/'), Op('('), Atom(e), Op('+'), Atom(f), Op(')'), Op(')')])
  {
  }

  /** `(a + (b * c)) - (d / (e + f))`, with numerals `a`, `b`, `c`, `d`, `e`, `f`. */
  lemma LexNestedGroupsBothSides(a: string, b: string, c: string, d: string, e: string, f: string)
    requires IsNumeral(a) && IsNumeral(b) && IsNumeral(c) && IsNumeral(d) && IsNumeral(e) && IsNumeral(f)
    ensures Lex(Join(["(", a, " + ", "(", b, " * ", c, ")", ")", " - ", "(", d, " / ", "(", e, " + ", f, ")", ")"])) == [Op('('), Atom(a), Op('+'), Op('('), Atom(b), Op('*'), Atom(c), Op(')'), Op(')'), Op('-'), Op('('), Atom(d), Op('/'), Op('('), Atom(e), Op('+'), Atom(f), Op(')'), Op(')')]
  {
    NestedGroupsBothSidesPieces(a, b, c, d, e, f);
    NestedGroupsBothSidesSeparated(a, b, c, d, e, f);
    LexJoin(["(", a, " + ", "(", b, " * ", c, ")", ")", " - ", "(", d, " / ", "(", e, " + ", f, ")", ")"], [Op('('), Atom(a), Op('+'), Op('('), Atom(b), Op('*'), Atom(c), Op(')'), Op(')'), Op('-'), Op('('), Atom(d), Op('/'), Op('('), Atom(e), Op('+'), Atom(f), Op(')'), Op(')')]);
  }

  /** The pieces of the next input and its tokens. */
  lemma GroupInChainPieces(a: string, b: string, c: string, d: string, e: string, f: string)
    requires IsNumeral(a) && IsNumeral(b) && IsNumeral(c) && IsNumeral(d) && IsNumeral(e) && IsNumeral(f)
    ensures Pieces([a, " + ", b, " * ", c, " / ", "(", d, " - ", e, ")", " + ", f], [Atom(a), Op('+'), Atom(b), Op('*'), Atom(c), Op('/'), Op('('), Atom(d), Op('-'), Atom(e), Op(')'), Op('+'), Atom(f)])
  {
    LexSpPlusSp();
    LexSpStarSp();
    LexSpSlashSp();
    LexOpen();
    LexSpMinusSp();
    LexClose();
  }

  /** The tokens of the next input keep its operands apart. */
  lemma GroupInChainSeparated(a: string, b: string, c: string, d: string, e: string, f: string)
    ensures Separated([Atom(a), Op('+'), Atom(b), Op('*'), Atom(c), Op('/'), Op('('), Atom(d), Op('-'), Atom(e), Op(')'), Op('+'), Atom(f)])
  {
  }

  /** `a + b * c / (d - e) + f`, with numerals `a`, `b`, `c`, `d`, `e`, `f`. */
  lemma LexGroupInChain(a: string, b: string, c: string, d: string, e: string, f: string)
    requires IsNumeral(a) && IsNumeral(b) && IsNumeral(c) && IsNumeral(d) && IsNumeral(e) && IsNumeral(f)
    ensures Lex(Join([a, " + ", b, " * ", c, " / ", "(", d, " - ", e, ")", " + ", f])) == [Atom(a), Op('+'), Atom(b), Op('*'), Atom(c), Op('/'), Op('('), Atom(d), Op('-'), Atom(e), Op(')'), Op('+'), Atom(f)]
  {
    GroupInChainPieces(a, b, c, d, e, f);
    GroupInChainSeparated(a, b, c, d, e, f);
    LexJoin([a, " + ", b, " * ", c, " / ", "(", d, " - ", e, ")", " + ", f], [Atom(a), Op('+'), Atom(b), Op('*'), Atom(c), Op('/'), Op('('), Atom(d), Op('-'), Atom(e), Op(')'), Op('+'), Atom(f)]);
  }

  /** The pieces of the next input and its tokens. */
  lemma GroupsInChainPieces(a: string, b: string, c: string, d: string, e: string, f: string)
    requires IsNumeral(a) && IsNumeral(b) && IsNumeral(c) && IsNumeral(d) && IsNumeral(e) && IsNumeral(f)
    ensures Pieces([a, " * ", "(", b, " + ", c, ")", " / ", "(", d, " - ", e, ")", " + ", f], [Atom(a), Op('*'), Op('('), Atom(b), Op('+'), Atom(c), Op(')'), Op('/'), Op('('), Atom(d), Op('-'), Atom(e), Op(')'), Op('+'), Atom(f)])
  {
    LexSpStarSp();
    LexOpen();
    LexSpPlusSp();
    LexClose();
    LexSpSlashSp();
    LexSpMinusSp();
  }

  /** The tokens of the next input keep its operands apart. */
  lemma GroupsInChainSeparated(a: string, b: string, c: string, d: string, e: string, f: string)
    ensures Separated([Atom(a), Op('*'), Op('('), Atom(b), Op('+'), Atom(c), Op(')'), Op('/'), Op('('), Atom(d), Op('-'), Atom(e), Op(')'), Op('+'), Atom(f)])
  {
  }

  /** `a * (b + c) / (d - e) + f`, with numerals `a`, `b`, `c`, `d`, `e`, `f`. */
  lemma LexGroupsInChain(a: string, b: string, c: string, d: string, e: string, f: string)
    requires IsNumeral(a) && IsNumeral(b) && IsNumeral(c) && IsNumeral(d) && IsNumeral(e) && IsNumeral(f)
    ensures Lex(Join([a, " * ", "(", b, " + ", c, ")", " / ", "(", d, " - ", e, ")", " + ", f])) == [Atom(a), Op('*'), Op('('), Atom(b), Op('+'), Atom(c), Op(')'), Op('/'), Op('('), Atom(d), Op('-'), Atom(e), Op(')'), Op('+'), Atom(f)]
  {
    GroupsInChainPieces(a, b, c, d, e, f);
    GroupsInChainSeparated(a, b, c, d, e, f);
    LexJoin([a, " * ", "(", b, " + ", c, ")", " / ", "(", d, " - ", e, ")", " + ", f], [Atom(a), Op('*'), Op('('), Atom(b), Op('+'), Atom(c), Op(')'), Op('/'), Op('('), Atom(d), Op('-'), Atom(e), Op(')'), Op('+'), Atom(f)]);
  }

  /** `-a`, with numerals `a`. */
  lemma LexNegation(a: string)
    requires IsNumeral(a)
    ensures Lex(Join(["-", a])) == [Op('-'), Atom(a)]
  {
    LexMinus();
    LexJoin(["-", a], [Op('-'), Atom(a)]);
  }

  /** `+a`, with numerals `a`. */
  lemma LexUnaryPlus(a: string)
    requires IsNumeral(a)
    ensures Lex(Join(["+", a])) == [Op('+'), Atom(a)]
  {
    LexPlus();
    LexJoin(["+", a], [Op('+'), Atom(a)]);
  }

  /** `-a + b`, with numerals `a`, `b`. */
  lemma LexNegationThenSum(a: string, b: string)
    requires IsNumeral(a) && IsNumeral(b)
    ensures Lex(Join(["-", a, " + ", b])) == [Op('-'), Atom(a), Op('+'), Atom(b)]
  {
    LexMinus();
    LexSpPlusSp();
    LexJoin(["-", a, " + ", b], [Op('-'), Atom(a), Op('+'), Atom(b)]);
  }

  /** `-a * (b + c)`, with numerals `a`, `b`, `c`. */
  lemma LexNegationTimesGroup(a: string, b: string, c: string)
    requires IsNumeral(a) && IsNumeral(b) && IsNumeral(c)
    ensures Lex(Join(["-", a, " * ", "(", b, " + ", c, ")"])) == [Op('-'), Atom(a), Op('*'), Op('('), Atom(b), Op('+'), Atom(c), Op(')')]
  {
    LexMinus();
    LexSpStarSp();
    LexOpen();
    LexSpPlusSp();
    LexClose();
    LexJoin(["-", a, " * ", "(", b, " + ", c, ")"], [Op('-'), Atom(a), Op('*'), Op('('), Atom(b), Op('+'), Atom(c), Op(')')]);
  }

  /** `  a   + b   `, with numerals `a`, `b`. */
  lemma LexSpacedAddition(a: string, b: string)
    requires IsNumeral(a) && IsNumeral(b)
    ensures Lex("  " + Join([a, "   + ", b]) + "   ") == [Atom(a), Op('+'), Atom(b)]
  {
    LexSpSpSpPlusSp();
    LexJoin([a, "   + ", b], [Atom(a), Op('+'), Atom(b)]);
    LexAppend("  ", Join([a, "   + ", b]));
    LexAppend("  " + Join([a, "   + ", b]), "   ");
  }

  /** `(((a)))`, with numerals `a`. */
  lemma LexRedundantParentheses(a: string)
    requires IsNumeral(a)
    ensures Lex(Join(["(", "(", "(", a, ")", ")", ")"])) == [Op('('), Op('('), Op('('), Atom(a), Op(')'), Op(')'), Op(')')]
  {
    LexOpen();
    LexClose();
    LexJoin(["(", "(", "(", a, ")", ")", ")"], [Op('('), Op('('), Op('('), Atom(a), Op(')'), Op(')'), Op(')')]);
  }

  /** `(a + (b * (c)))`, with numerals `a`, `b`, `c`. */
  lemma LexNestedRightGroups(a: string, b: string, c: string)
    requires IsNumeral(a) && IsNumeral(b) && IsNumeral(c)
    ensures Lex(Join(["(", a, " + ", "(", b, " * ", "(", c, ")", ")", ")"])) == [Op('('), Atom(a), Op('+'), Op('('), Atom(b), Op('*'), Op('('), Atom(c), Op(')'), Op(')'), Op(')')]
  {
    LexOpen();
    LexSpPlusSp();
    LexSpStarSp();
    LexClose();
    LexJoin(["(", a, " + ", "(", b, " * ", "(", c, ")", ")", ")"], [Op('('), Atom(a), Op('+'), Op('('), Atom(b), Op('*'), Op('('), Atom(c), Op(')'), Op(')'), Op(')')]);
  }

  /** `a + b - c`, with numerals `a`, `b`, `c`. */
  lemma LexSumsGroupLeft(a: string, b: string, c: string)
    requires IsNumeral(a) && IsNumeral(b) && IsNumeral(c)
    ensures Lex(Join([a, " + ", b, " - ", c])) == [Atom(a), Op('+'), Atom(b), Op('-'), Atom(c)]
  {
    LexSpPlusSp();
    LexSpMinusSp();
    LexJoin([a, " + ", b, " - ", c], [Atom(a), Op('+'), Atom(b), Op('-'), Atom(c)]);
  }

  /** `a * b / c`, with numerals `a`, `b`, `c`. */
  lemma LexProductsGroupLeft(a: string, b: string, c: string)
    requires IsNumeral(a) && IsNumeral(b) && IsNumeral(c)
    ensures Lex(Join([a, " * ", b, " / ", c])) == [Atom(a), Op('*'), Atom(b), Op('/'), Atom(c)]
  {
    LexSpStarSp();
    LexSpSlashSp();
    LexJoin([a, " * ", b, " / ", c], [Atom(a), Op('*'), Atom(b), Op('/'), Atom(c)]);
  }

  /** `(a + b`, with numerals `a`, `b`. */
  lemma LexUnclosedGroup(a: string, b: string)
    requires IsNumeral(a) && IsNumeral(b)
    ensures Lex(Join(["(", a, " + ", b])) == [Op('('), Atom(a), Op('+'), Atom(b)]
  {
    LexOpen();
    LexSpPlusSp();
    LexJoin(["(", a, " + ", b], [Op('('), Atom(a), Op('+'), Atom(b)]);
  }

  /** `)a + b(`, with numerals `a`, `b`. */
  lemma LexMisplacedParentheses(a: string, b: string)
    requires IsNumeral(a) && IsNumeral(b)
    ensures Lex(Join([")", a, " + ", b, "("])) == [Op(')'), Atom(a), Op('+'), Atom(b), Op('(')]
  {
    LexClose();
    LexSpPlusSp();
    LexOpen();
    LexJoin([")", a, " + ", b, "("], [Op(')'), Atom(a), Op('+'), Atom(b), Op('(')]);
  }

  /** `a b`, with numerals `a`, `b`. */
  lemma LexOperandsWithoutOperator(a: string, b: string)
    requires IsNumeral(a) && IsNumeral(b)
    ensures Lex(a + " " + b) == [Atom(a), Atom(b)]
  {
    LexNumeral(a);
    LexNumeral(b);
    SpaceSeparates(a, " ", b);
  }

  /** `a!`, with numerals `a`. */
  lemma LexFactorial(a: string)
    requires IsNumeral(a)
    ensures Lex(Join([a, "!"])) == [Atom(a), Op('!')]
  {
    LexBang();
    LexJoin([a, "!"], [Atom(a), Op('!')]);
  }

  /** `(a + b)!`, with numerals `a`, `b`. */
  lemma LexFactorialOfGroup(a: string, b: string)
    requires IsNumeral(a) && IsNumeral(b)
    ensures Lex(Join(["(", a, " + ", b, ")", "!"])) == [Op('('), Atom(a), Op('+'), Atom(b), Op(')'), Op('!')]
  {
    LexOpen();
    LexSpPlusSp();
    LexClose();
    LexBang();
    LexJoin(["(", a, " + ", b, ")", "!"], [Op('('), Atom(a), Op('+'), Atom(b), Op(')'), Op('!')]);
  }
}
