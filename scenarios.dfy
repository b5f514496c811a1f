/** The expressions of eval.cpp's test functions, and a few more, run
    through the model: what `expr(input)->to_string()` gives, or that the call
    throws or never returns. Where the model's answer differs from what the
    source's test expects, the lemma's comment says so. The operands are left
    symbolic (any atom text), so each lemma covers every input of that shape;
    the statements are on the token stream the lexer makes of the input,
    which is what `expr_bp` reads.

    The scenarios with one or two binary operators are instances of the
    grouping laws `Precedence.SingleInfix` and `Precedence.InfixGrouping`.
    Every other derivation is split into lemmas named after its scenario:
    `<name>From<k>` is the parse that starts at the k-th token (counting from
    0), `<name>Loop<k>At<m>` the operator loop that starts there with minimum
    binding power m, `<name>Stream<g>` reads tokens 5g to 5g + 4 off the
    scenario's stream, and `<name>Text` the serialisation of the scenario's
    tree. The streams `t<k>` are what is left after k tokens. */
module Scenarios {
  import opened Tokens
  import opened BindingPower
  import opened Syntax
  import opened Pratt
  import Precedence

  /** `expr_bp(lexer, 0)`, on a lexer holding `ts` and then `Eof`, returns a
      tree whose `to_string` is `out`. */
  predicate TokensRenderAs(ts: seq<Token>, out: string) {
    var r := Observed(Parse(ts + [Eof], 0));
    r.Built? && ToString(r.tree) == out
  }

  /** The table entries of the operator characters the scenarios use. */
  lemma TableEntries()
    ensures InfixBindingPower('+') == (5, 6) && PrefixBindingPower('+') == 9 && PostfixBindingPower('+') == -1
    ensures InfixBindingPower('-') == (5, 6) && PrefixBindingPower('-') == 9 && PostfixBindingPower('-') == -1
    ensures InfixBindingPower('*') == (7, 8) && PrefixBindingPower('*') == -1 && PostfixBindingPower('*') == -1
    ensures InfixBindingPower('/') == (7, 8) && PrefixBindingPower('/') == -1 && PostfixBindingPower('/') == -1
    ensures InfixBindingPower('(') == (-1, -1) && PrefixBindingPower('(') == 15 && PostfixBindingPower('(') == -1
    ensures InfixBindingPower(')') == (-1, -1) && PrefixBindingPower(')') == -1 && PostfixBindingPower(')') == 12
    ensures InfixBindingPower('!') == (-1, -1) && PrefixBindingPower('!') == -1 && PostfixBindingPower('!') == 11
    ensures InfixBindingPower('?') == (4, 3) && PrefixBindingPower('?') == -1 && PostfixBindingPower('?') == -1
    ensures InfixBindingPower(':') == (-1, -1) && PrefixBindingPower(':') == -1 && PostfixBindingPower(':') == -1
    ensures InfixBindingPower('=') == (2, 1) && PrefixBindingPower('=') == -1 && PostfixBindingPower('=') == -1
    ensures InfixBindingPower('.') == (14, 13) && PrefixBindingPower('.') == -1 && PostfixBindingPower('.') == -1
  {
  }

  // Splits a stream into its first token and the stream after it, at
  // position `k`; the `Stream` lemmas below use it to read the tokens of
  // each scenario off its display.
  lemma Suffixes(ts: seq<Token>, k: nat)
    requires k < |ts|
    ensures Head(ts[k..]) == ts[k] && Tail(ts[k..]) == ts[k + 1..]
  {
    assert ts[k..][1..] == ts[k + 1..];
  }

  // One step of `expr_bp` each, with the parse of what follows taken as given.

  lemma AtomThen(ts: seq<Token>, next: seq<Token>, minBp: int, s: string, res: Step)
    requires Head(ts) == Atom(s) && Tail(ts) == next && ParseLoop(Leaf(s), next, minBp) == res
    ensures Parse(ts, minBp) == res
  {
    PrimaryAtom(ts, minBp, s);
  }

  lemma GroupThen(ts: seq<Token>, next: seq<Token>, minBp: int, inner: S, mid: seq<Token>, res: Step)
    requires Head(ts) == Op('(') && Tail(ts) == next && Parse(next, 0) == Parsed(inner, mid)
    requires ParseLoop(inner, mid, minBp) == res
    ensures Parse(ts, minBp) == res
  {
    PrimaryOp(ts, minBp, '(');
  }

  lemma PrefixThen(ts: seq<Token>, next: seq<Token>, minBp: int, c: char, h: string, r: int, operand: S, mid: seq<Token>, res: Step)
    requires Head(ts) == Op(c) && Tail(ts) == next && h == [c] && c != '(' && PrefixBindingPower(c) == r
    requires Parse(next, r) == Parsed(operand, mid)
    requires ParseLoop(S(h, [operand]), mid, minBp) == res
    ensures Parse(ts, minBp) == res
  {
    PrimaryOp(ts, minBp, c);
  }

  lemma PostfixThen(lhs: S, ts: seq<Token>, next: seq<Token>, minBp: int, c: char, h: string, res: Step)
    requires Head(ts) == Op(c) && Tail(ts) == next && h == [c] && PostfixBindingPower(c) >= minBp
    requires ParseLoop(S(h, [lhs]), next, minBp) == res
    ensures ParseLoop(lhs, ts, minBp) == res
  {
    LoopPostfix(lhs, ts, minBp, c);
  }

  lemma InfixThen(lhs: S, ts: seq<Token>, next: seq<Token>, minBp: int, c: char, h: string, r: int, rhs: S, mid: seq<Token>, res: Step)
    requires Head(ts) == Op(c) && Tail(ts) == next && h == [c] && c != '?'
    requires PostfixBindingPower(c) < minBp && InfixBindingPower(c).0 >= minBp && InfixBindingPower(c).1 == r
    requires Parse(next, r) == Parsed(rhs, mid)
    requires ParseLoop(S(h, [lhs, rhs]), mid, minBp) == res
    ensures ParseLoop(lhs, ts, minBp) == res
  {
    LoopBinary(lhs, ts, minBp, c);
  }

  lemma TernaryThen(lhs: S, ts: seq<Token>, next: seq<Token>, minBp: int, mhs: S, mid: seq<Token>, rhs: S, mid2: seq<Token>, res: Step)
    requires Head(ts) == Op('?') && Tail(ts) == next && PostfixBindingPower('?') < minBp && InfixBindingPower('?').0 >= minBp
    requires Parse(next, 0) == Parsed(mhs, mid)
    requires Parse(mid, 3) == Parsed(rhs, mid2)
    requires ParseLoop(S("?", [lhs, mhs, rhs]), mid2, minBp) == res
    ensures ParseLoop(lhs, ts, minBp) == res
  {
    LoopTernary(lhs, ts, minBp);
  }

  /** `3`: `3`; likewise `42` and `1` and `123`. */
  lemma LoneOperand(a: string)
    ensures TokensRenderAs([Atom(a)], a)
  {
    var t1: seq<Token> := [Eof];
    var t0 := [Atom(a)] + t1;
    assert Tail(t0) == t1;
    assert [Atom(a)] + [Eof] == t0;
    LoopEnds(Leaf(a), t1, 0);
    AtomThen(t0, t1, 0, a, Parsed(Leaf(a), t1));
  }

  /** `3 + 4`: `3 4 +`; likewise `  3   + 4   ` and `123 + 456`. */
  lemma Addition(a: string, b: string)
    ensures TokensRenderAs([Atom(a), Op('+'), Atom(b)], a + " " + b + " " + "+")
  {
    assert [Atom(a), Op('+'), Atom(b)] + [Eof] == [Atom(a), Op('+'), Atom(b), Eof];
    Precedence.SingleInfix(a, '+', b);
    assert ToString(S("+", [Leaf(a), Leaf(b)])) == a + " " + b + " " + "+" by {
      ToStringOfBinary("+", Leaf(a), Leaf(b));
    }
  }

  /** `10 - 5`: `10 5 -`; likewise `1234567890 - 987654321`. */
  lemma Subtraction(a: string, b: string)
    ensures TokensRenderAs([Atom(a), Op('-'), Atom(b)], a + " " + b + " " + "-")
  {
    assert [Atom(a), Op('-'), Atom(b)] + [Eof] == [Atom(a), Op('-'), Atom(b), Eof];
    Precedence.SingleInfix(a, '-', b);
    assert ToString(S("-", [Leaf(a), Leaf(b)])) == a + " " + b + " " + "-" by {
      ToStringOfBinary("-", Leaf(a), Leaf(b));
    }
  }

  /** `6 * 7`: `6 7 *`; likewise `99999 * 88888`. */
  lemma Multiplication(a: string, b: string)
    ensures TokensRenderAs([Atom(a), Op('*'), Atom(b)], a + " " + b + " " + "*")
  {
    assert [Atom(a), Op('*'), Atom(b)] + [Eof] == [Atom(a), Op('*'), Atom(b), Eof];
    Precedence.SingleInfix(a, '*', b);
    assert ToString(S("*", [Leaf(a), Leaf(b)])) == a + " " + b + " " + "*" by {
      ToStringOfBinary("*", Leaf(a), Leaf(b));
    }
  }

  /** `8 / 2`: `8 2 /`. */
  lemma Division(a: string, b: string)
    ensures TokensRenderAs([Atom(a), Op('/'), Atom(b)], a + " " + b + " " + "/")
  {
    assert [Atom(a), Op('/'), Atom(b)] + [Eof] == [Atom(a), Op('/'), Atom(b), Eof];
    Precedence.SingleInfix(a, '/', b);
    assert ToString(S("/", [Leaf(a), Leaf(b)])) == a + " " + b + " " + "/" by {
      ToStringOfBinary("/", Leaf(a), Leaf(b));
    }
  }

  /** `3 + 4 * 5`: `3 4 5 * +`. */
  lemma ProductBindsTighter(a: string, b: string, c: string)
    ensures TokensRenderAs([Atom(a), Op('+'), Atom(b), Op('*'), Atom(c)], a + " " + (b + " " + c + " " + "*") + " " + "+")
  {
    var ts := [Atom(a), Op('+'), Atom(b), Op('*'), Atom(c)] + [Eof];
    assert Parse(ts, 0) == Parsed(S("+", [Leaf(a), S("*", [Leaf(b), Leaf(c)])]), [Eof]) by {
      assert ts == [Atom(a), Op('+'), Atom(b), Op('*'), Atom(c), Eof];
      TableEntries();
      Precedence.InfixGrouping(a, '+', b, '*', c);
    }
    assert ToString(S("+", [Leaf(a), S("*", [Leaf(b), Leaf(c)])])) == a + " " + (b + " " + c + " " + "*") + " " + "+" by {
      ToStringOfBinary("*", Leaf(b), Leaf(c));
      ToStringOfBinary("+", Leaf(a), S("*", [Leaf(b), Leaf(c)]));
    }
  }

  /** `10 - 5 / 5`: `10 5 5 / -`. */
  lemma QuotientBindsTighter(a: string, b: string, c: string)
    ensures TokensRenderAs([Atom(a), Op('-'), Atom(b), Op('/'), Atom(c)], a + " " + (b + " " + c + " " + "/") + " " + "-")
  {
    var ts := [Atom(a), Op('-'), Atom(b), Op('/'), Atom(c)] + [Eof];
    assert Parse(ts, 0) == Parsed(S("-", [Leaf(a), S("/", [Leaf(b), Leaf(c)])]), [Eof]) by {
      assert ts == [Atom(a), Op('-'), Atom(b), Op('/'), Atom(c), Eof];
      TableEntries();
      Precedence.InfixGrouping(a, '-', b, '/', c);
    }
    assert ToString(S("-", [Leaf(a), S("/", [Leaf(b), Leaf(c)])])) == a + " " + (b + " " + c + " " + "/") + " " + "-" by {
      ToStringOfBinary("/", Leaf(b), Leaf(c));
      ToStringOfBinary("-", Leaf(a), S("/", [Leaf(b), Leaf(c)]));
    }
  }

  lemma MixedPrecedenceLoop9At0(a: string, b: string, c: string, d: string, e: string, t9: seq<Token>)
    requires Head(t9) == Eof
    ensures ParseLoop(S("-", [S("+", [Leaf(a), S("*", [Leaf(b), Leaf(c)])]), S("/", [Leaf(d), Leaf(e)])]), t9, 0) == Parsed(S("-", [S("+", [Leaf(a), S("*", [Leaf(b), Leaf(c)])]), S("/", [Leaf(d), Leaf(e)])]), t9)
  {
    LoopEnds(S("-", [S("+", [Leaf(a), S("*", [Leaf(b), Leaf(c)])]), S("/", [Leaf(d), Leaf(e)])]), t9, 0);
  }

  lemma MixedPrecedenceLoop5At0(a: string, b: string, c: string, d: string, e: string, t5: seq<Token>, t6: seq<Token>, t7: seq<Token>, t8: seq<Token>, t9: seq<Token>)
    requires Head(t5) == Op('-') && Head(t6) == Atom(d) && Head(t7) == Op('/') && Head(t8) == Atom(e) && Head(t9) == Eof && Tail(t5) == t6 && Tail(t6) == t7 && Tail(t7) == t8 && Tail(t8) == t9
    ensures ParseLoop(S("+", [Leaf(a), S("*", [Leaf(b), Leaf(c)])]), t5, 0) == Parsed(S("-", [S("+", [Leaf(a), S("*", [Leaf(b), Leaf(c)])]), S("/", [Leaf(d), Leaf(e)])]), t9)
  {
    TableEntries();
    LoopEnds(Leaf(e), t9, 8);
    AtomThen(t8, t9, 8, e, Parsed(Leaf(e), t9));
    LoopEnds(S("/", [Leaf(d), Leaf(e)]), t9, 6);
    InfixThen(Leaf(d), t7, t8, 6, '/', "/", 8, Leaf(e), t9, Parsed(S("/", [Leaf(d), Leaf(e)]), t9));
    AtomThen(t6, t7, 6, d, Parsed(S("/", [Leaf(d), Leaf(e)]), t9));
    MixedPrecedenceLoop9At0(a, b, c, d, e, t9);
    InfixThen(S("+", [Leaf(a), S("*", [Leaf(b), Leaf(c)])]), t5, t6, 0, '-', "-", 6, S("/", [Leaf(d), Leaf(e)]), t9, Parsed(S("-", [S("+", [Leaf(a), S("*", [Leaf(b), Leaf(c)])]), S("/", [Leaf(d), Leaf(e)])]), t9));
  }

  lemma MixedPrecedenceLoop1At0(a: string, b: string, c: string, d: string, e: string, t1: seq<Token>, t2: seq<Token>, t3: seq<Token>, t4: seq<Token>, t5: seq<Token>, t6: seq<Token>, t7: seq<Token>, t8: seq<Token>, t9: seq<Token>)
    requires Head(t1) == Op('+') && Head(t2) == Atom(b) && Head(t3) == Op('*') && Head(t4) == Atom(c) && Head(t5) == Op('-') && Head(t6) == Atom(d) && Head(t7) == Op('/') && Head(t8) == Atom(e) && Head(t9) == Eof && Tail(t1) == t2 && Tail(t2) == t3 && Tail(t3) == t4 && Tail(t4) == t5 && Tail(t5) == t6 && Tail(t6) == t7 && Tail(t7) == t8 && Tail(t8) == t9
    ensures ParseLoop(Leaf(a), t1, 0) == Parsed(S("-", [S("+", [Leaf(a), S("*", [Leaf(b), Leaf(c)])]), S("/", [Leaf(d), Leaf(e)])]), t9)
  {
    TableEntries();
    LoopStops(Leaf(c), t5, 8, '-');
    AtomThen(t4, t5, 8, c, Parsed(Leaf(c), t5));
    LoopStops(S("*", [Leaf(b), Leaf(c)]), t5, 6, '-');
    InfixThen(Leaf(b), t3, t4, 6, '*', "*", 8, Leaf(c), t5, Parsed(S("*", [Leaf(b), Leaf(c)]), t5));
    AtomThen(t2, t3, 6, b, Parsed(S("*", [Leaf(b), Leaf(c)]), t5));
    MixedPrecedenceLoop5At0(a, b, c, d, e, t5, t6, t7, t8, t9);
    InfixThen(Leaf(a), t1, t2, 0, '+', "+", 6, S("*", [Leaf(b), Leaf(c)]), t5, Parsed(S("-", [S("+", [Leaf(a), S("*", [Leaf(b), Leaf(c)])]), S("/", [Leaf(d), Leaf(e)])]), t9));
  }

  lemma MixedPrecedenceStream0(a: string, b: string, c: string, d: string, e: string, ts: seq<Token>)
    requires ts == [Atom(a), Op('+'), Atom(b), Op('*'), Atom(c), Op('-'), Atom(d), Op('/'), Atom(e)] + [Eof]
    ensures Head(ts) == Atom(a) && Head(ts[1..]) == Op('+') && Head(ts[2..]) == Atom(b) && Head(ts[3..]) == Op('*') && Head(ts[4..]) == Atom(c) && Tail(ts) == ts[1..] && Tail(ts[1..]) == ts[2..] && Tail(ts[2..]) == ts[3..] && Tail(ts[3..]) == ts[4..] && Tail(ts[4..]) == ts[5..]
  {
    assert ts[0..] == ts;
    Suffixes(ts, 0);
    Suffixes(ts, 1);
    Suffixes(ts, 2);
    Suffixes(ts, 3);
    Suffixes(ts, 4);
  }

  lemma MixedPrecedenceStream1(a: string, b: string, c: string, d: string, e: string, ts: seq<Token>)
    requires ts == [Atom(a), Op('+'), Atom(b), Op('*'), Atom(c), Op('-'), Atom(d), Op('/'), Atom(e)] + [Eof]
    ensures Head(ts[5..]) == Op('-') && Head(ts[6..]) == Atom(d) && Head(ts[7..]) == Op('/') && Head(ts[8..]) == Atom(e) && Head(ts[9..]) == Eof && Tail(ts[5..]) == ts[6..] && Tail(ts[6..]) == ts[7..] && Tail(ts[7..]) == ts[8..] && Tail(ts[8..]) == ts[9..]
  {
    Suffixes(ts, 5);
    Suffixes(ts, 6);
    Suffixes(ts, 7);
    Suffixes(ts, 8);
    Suffixes(ts, 9);
  }

  lemma MixedPrecedenceFrom0(a: string, b: string, c: string, d: string, e: string, t0: seq<Token>, t1: seq<Token>, t2: seq<Token>, t3: seq<Token>, t4: seq<Token>, t5: seq<Token>, t6: seq<Token>, t7: seq<Token>, t8: seq<Token>, t9: seq<Token>)
    requires Head(t0) == Atom(a) && Head(t1) == Op('+') && Head(t2) == Atom(b) && Head(t3) == Op('*') && Head(t4) == Atom(c) && Head(t5) == Op('-') && Head(t6) == Atom(d) && Head(t7) == Op('/') && Head(t8) == Atom(e) && Head(t9) == Eof && Tail(t0) == t1 && Tail(t1) == t2 && Tail(t2) == t3 && Tail(t3) == t4 && Tail(t4) == t5 && Tail(t5) == t6 && Tail(t6) == t7 && Tail(t7) == t8 && Tail(t8) == t9
    ensures Parse(t0, 0) == Parsed(S("-", [S("+", [Leaf(a), S("*", [Leaf(b), Leaf(c)])]), S("/", [Leaf(d), Leaf(e)])]), t9)
  {
    MixedPrecedenceLoop1At0(a, b, c, d, e, t1, t2, t3, t4, t5, t6, t7, t8, t9);
    AtomThen(t0, t1, 0, a, Parsed(S("-", [S("+", [Leaf(a), S("*", [Leaf(b), Leaf(c)])]), S("/", [Leaf(d), Leaf(e)])]), t9));
  }

  lemma MixedPrecedenceText(a: string, b: string, c: string, d: string, e: string)
    ensures ToString(S("-", [S("+", [Leaf(a), S("*", [Leaf(b), Leaf(c)])]), S("/", [Leaf(d), Leaf(e)])])) == (a + " " + (b + " " + c + " " + "*") + " " + "+") + " " + (d + " " + e + " " + "/") + " " + "-"
  {
    ToStringOfBinary("*", Leaf(b), Leaf(c));
    ToStringOfBinary("+", Leaf(a), S("*", [Leaf(b), Leaf(c)]));
    ToStringOfBinary("/", Leaf(d), Leaf(e));
    ToStringOfBinary("-", S("+", [Leaf(a), S("*", [Leaf(b), Leaf(c)])]), S("/", [Leaf(d), Leaf(e)]));
  }

  /** `1 + 2 * 3 - 4 / 5`: `1 2 3 * + 4 5 / -`. */
  lemma MixedPrecedence(a: string, b: string, c: string, d: string, e: string)
    ensures TokensRenderAs([Atom(a), Op('+'), Atom(b), Op('*'), Atom(c), Op('-'), Atom(d), Op('/'), Atom(e)], (a + " " + (b + " " + c + " " + "*") + " " + "+") + " " + (d + " " + e + " " + "/") + " " + "-")
  {
    var t0 := [Atom(a), Op('+'), Atom(b), Op('*'), Atom(c), Op('-'), Atom(d), Op('/'), Atom(e)] + [Eof];
    var t1 := t0[1..];
    var t2 := t0[2..];
    var t3 := t0[3..];
    var t4 := t0[4..];
    var t5 := t0[5..];
    var t6 := t0[6..];
    var t7 := t0[7..];
    var t8 := t0[8..];
    var t9 := t0[9..];
    MixedPrecedenceStream0(a, b, c, d, e, t0);
    MixedPrecedenceStream1(a, b, c, d, e, t0);
    MixedPrecedenceFrom0(a, b, c, d, e, t0, t1, t2, t3, t4, t5, t6, t7, t8, t9);
    MixedPrecedenceText(a, b, c, d, e);
  }

  lemma ParenthesisedSumLoop2At0(a: string, b: string, c: string, t2: seq<Token>, t3: seq<Token>, t4: seq<Token>, t5: seq<Token>, t6: seq<Token>, t7: seq<Token>)
    requires Head(t2) == Op('+') && Head(t3) == Atom(b) && Head(t4) == Op(')') && Head(t5) == Op('*') && Head(t6) == Atom(c) && Head(t7) == Eof && Tail(t2) == t3 && Tail(t3) == t4 && Tail(t4) == t5 && Tail(t5) == t6 && Tail(t6) == t7
    ensures ParseLoop(Leaf(a), t2, 0) == Parsed(S("+", [Leaf(a), S("*", [S(")", [Leaf(b)]), Leaf(c)])]), t7)
  {
    TableEntries();
    LoopEnds(Leaf(c), t7, 8);
    AtomThen(t6, t7, 8, c, Parsed(Leaf(c), t7));
    LoopEnds(S("*", [S(")", [Leaf(b)]), Leaf(c)]), t7, 6);
    InfixThen(S(")", [Leaf(b)]), t5, t6, 6, '*', "*", 8, Leaf(c), t7, Parsed(S("*", [S(")", [Leaf(b)]), Leaf(c)]), t7));
    PostfixThen(Leaf(b), t4, t5, 6, ')', ")", Parsed(S("*", [S(")", [Leaf(b)]), Leaf(c)]), t7));
    AtomThen(t3, t4, 6, b, Parsed(S("*", [S(")", [Leaf(b)]), Leaf(c)]), t7));
    LoopEnds(S("+", [Leaf(a), S("*", [S(")", [Leaf(b)]), Leaf(c)])]), t7, 0);
    InfixThen(Leaf(a), t2, t3, 0, '+', "+", 6, S("*", [S(")", [Leaf(b)]), Leaf(c)]), t7, Parsed(S("+", [Leaf(a), S("*", [S(")", [Leaf(b)]), Leaf(c)])]), t7));
  }

  lemma ParenthesisedSumFrom1(a: string, b: string, c: string, t1: seq<Token>, t2: seq<Token>, t3: seq<Token>, t4: seq<Token>, t5: seq<Token>, t6: seq<Token>, t7: seq<Token>)
    requires Head(t1) == Atom(a) && Head(t2) == Op('+') && Head(t3) == Atom(b) && Head(t4) == Op(')') && Head(t5) == Op('*') && Head(t6) == Atom(c) && Head(t7) == Eof && Tail(t1) == t2 && Tail(t2) == t3 && Tail(t3) == t4 && Tail(t4) == t5 && Tail(t5) == t6 && Tail(t6) == t7
    ensures Parse(t1, 0) == Parsed(S("+", [Leaf(a), S("*", [S(")", [Leaf(b)]), Leaf(c)])]), t7)
  {
    ParenthesisedSumLoop2At0(a, b, c, t2, t3, t4, t5, t6, t7);
    AtomThen(t1, t2, 0, a, Parsed(S("+", [Leaf(a), S("*", [S(")", [Leaf(b)]), Leaf(c)])]), t7));
  }

  lemma ParenthesisedSumStream0(a: string, b: string, c: string, ts: seq<Token>)
    requires ts == [Op('('), Atom(a), Op('+'), Atom(b), Op(')'), Op('*'), Atom(c)] + [Eof]
    ensures Head(ts) == Op('(') && Head(ts[1..]) == Atom(a) && Head(ts[2..]) == Op('+') && Head(ts[3..]) == Atom(b) && Head(ts[4..]) == Op(')') && Tail(ts) == ts[1..] && Tail(ts[1..]) == ts[2..] && Tail(ts[2..]) == ts[3..] && Tail(ts[3..]) == ts[4..] && Tail(ts[4..]) == ts[5..]
  {
    assert ts[0..] == ts;
    Suffixes(ts, 0);
    Suffixes(ts, 1);
    Suffixes(ts, 2);
    Suffixes(ts, 3);
    Suffixes(ts, 4);
  }

  lemma ParenthesisedSumStream1(a: string, b: string, c: string, ts: seq<Token>)
    requires ts == [Op('('), Atom(a), Op('+'), Atom(b), Op(')'), Op('*'), Atom(c)] + [Eof]
    ensures Head(ts[5..]) == Op('*') && Head(ts[6..]) == Atom(c) && Head(ts[7..]) == Eof && Tail(ts[5..]) == ts[6..] && Tail(ts[6..]) == ts[7..]
  {
    Suffixes(ts, 5);
    Suffixes(ts, 6);
    Suffixes(ts, 7);
  }

  lemma ParenthesisedSumFrom0(a: string, b: string, c: string, t0: seq<Token>, t1: seq<Token>, t2: seq<Token>, t3: seq<Token>, t4: seq<Token>, t5: seq<Token>, t6: seq<Token>, t7: seq<Token>)
    requires Head(t0) == Op('(') && Head(t1) == Atom(a) && Head(t2) == Op('+') && Head(t3) == Atom(b) && Head(t4) == Op(')') && Head(t5) == Op('*') && Head(t6) == Atom(c) && Head(t7) == Eof && Tail(t0) == t1 && Tail(t1) == t2 && Tail(t2) == t3 && Tail(t3) == t4 && Tail(t4) == t5 && Tail(t5) == t6 && Tail(t6) == t7
    ensures Parse(t0, 0) == Parsed(S("+", [Leaf(a), S("*", [S(")", [Leaf(b)]), Leaf(c)])]), t7)
  {
    ParenthesisedSumFrom1(a, b, c, t1, t2, t3, t4, t5, t6, t7);
    LoopEnds(S("+", [Leaf(a), S("*", [S(")", [Leaf(b)]), Leaf(c)])]), t7, 0);
    GroupThen(t0, t1, 0, S("+", [Leaf(a), S("*", [S(")", [Leaf(b)]), Leaf(c)])]), t7, Parsed(S("+", [Leaf(a), S("*", [S(")", [Leaf(b)]), Leaf(c)])]), t7));
  }

  lemma ParenthesisedSumText(a: string, b: string, c: string)
    ensures ToString(S("+", [Leaf(a), S("*", [S(")", [Leaf(b)]), Leaf(c)])])) == a + " " + ((b + " " + ")") + " " + c + " " + "*") + " " + "+"
  {
    ToStringOfUnary(")", Leaf(b));
    ToStringOfBinary("*", S(")", [Leaf(b)]), Leaf(c));
    ToStringOfBinary("+", Leaf(a), S("*", [S(")", [Leaf(b)]), Leaf(c)]));
  }

  /** `(3 + 4) * 5`: `3 4 ) 5 * +`; the source expects `3 4 + 5 *`. */
  lemma ParenthesisedSum(a: string, b: string, c: string)
    ensures TokensRenderAs([Op('('), Atom(a), Op('+'), Atom(b), Op(')'), Op('*'), Atom(c)], a + " " + ((b + " " + ")") + " " + c + " " + "*") + " " + "+")
  {
    var t0 := [Op('('), Atom(a), Op('+'), Atom(b), Op(')'), Op('*'), Atom(c)] + [Eof];
    var t1 := t0[1..];
    var t2 := t0[2..];
    var t3 := t0[3..];
    var t4 := t0[4..];
    var t5 := t0[5..];
    var t6 := t0[6..];
    var t7 := t0[7..];
    ParenthesisedSumStream0(a, b, c, t0);
    ParenthesisedSumStream1(a, b, c, t0);
    ParenthesisedSumFrom0(a, b, c, t0, t1, t2, t3, t4, t5, t6, t7);
    ParenthesisedSumText(a, b, c);
  }

  lemma TwoParenthesisedGroupsLoop5At6(b: string, c: string, d: string, t5: seq<Token>, t6: seq<Token>, t7: seq<Token>, t8: seq<Token>, t9: seq<Token>, t10: seq<Token>, t11: seq<Token>)
    requires Head(t5) == Op('*') && Head(t6) == Op('(') && Head(t7) == Atom(c) && Head(t8) == Op('-') && Head(t9) == Atom(d) && Head(t10) == Op(')') && Head(t11) == Eof && Tail(t5) == t6 && Tail(t6) == t7 && Tail(t7) == t8 && Tail(t8) == t9 && Tail(t9) == t10 && Tail(t10) == t11
    ensures ParseLoop(S(")", [Leaf(b)]), t5, 6) == Parsed(S("*", [S(")", [Leaf(b)]), S("-", [Leaf(c), S(")", [Leaf(d)])])]), t11)
  {
    TableEntries();
    LoopEnds(S(")", [Leaf(d)]), t11, 6);
    PostfixThen(Leaf(d), t10, t11, 6, ')', ")", Parsed(S(")", [Leaf(d)]), t11));
    AtomThen(t9, t10, 6, d, Parsed(S(")", [Leaf(d)]), t11));
    LoopEnds(S("-", [Leaf(c), S(")", [Leaf(d)])]), t11, 0);
    InfixThen(Leaf(c), t8, t9, 0, '-', "-", 6, S(")", [Leaf(d)]), t11, Parsed(S("-", [Leaf(c), S(")", [Leaf(d)])]), t11));
    AtomThen(t7, t8, 0, c, Parsed(S("-", [Leaf(c), S(")", [Leaf(d)])]), t11));
    LoopEnds(S("-", [Leaf(c), S(")", [Leaf(d)])]), t11, 8);
    GroupThen(t6, t7, 8, S("-", [Leaf(c), S(")", [Leaf(d)])]), t11, Parsed(S("-", [Leaf(c), S(")", [Leaf(d)])]), t11));
    LoopEnds(S("*", [S(")", [Leaf(b)]), S("-", [Leaf(c), S(")", [Leaf(d)])])]), t11, 6);
    InfixThen(S(")", [Leaf(b)]), t5, t6, 6, '*', "*", 8, S("-", [Leaf(c), S(")", [Leaf(d)])]), t11, Parsed(S("*", [S(")", [Leaf(b)]), S("-", [Leaf(c), S(")", [Leaf(d)])])]), t11));
  }

  lemma TwoParenthesisedGroupsLoop4At6(b: string, c: string, d: string, t4: seq<Token>, t5: seq<Token>, t6: seq<Token>, t7: seq<Token>, t8: seq<Token>, t9: seq<Token>, t10: seq<Token>, t11: seq<Token>)
    requires Head(t4) == Op(')') && Head(t5) == Op('*') && Head(t6) == Op('(') && Head(t7) == Atom(c) && Head(t8) == Op('-') && Head(t9) == Atom(d) && Head(t10) == Op(')') && Head(t11) == Eof && Tail(t4) == t5 && Tail(t5) == t6 && Tail(t6) == t7 && Tail(t7) == t8 && Tail(t8) == t9 && Tail(t9) == t10 && Tail(t10) == t11
    ensures ParseLoop(Leaf(b), t4, 6) == Parsed(S("*", [S(")", [Leaf(b)]), S("-", [Leaf(c), S(")", [Leaf(d)])])]), t11)
  {
    TableEntries();
    TwoParenthesisedGroupsLoop5At6(b, c, d, t5, t6, t7, t8, t9, t10, t11);
    PostfixThen(Leaf(b), t4, t5, 6, ')', ")", Parsed(S("*", [S(")", [Leaf(b)]), S("-", [Leaf(c), S(")", [Leaf(d)])])]), t11));
  }

  lemma TwoParenthesisedGroupsFrom3(b: string, c: string, d: string, t3: seq<Token>, t4: seq<Token>, t5: seq<Token>, t6: seq<Token>, t7: seq<Token>, t8: seq<Token>, t9: seq<Token>, t10: seq<Token>, t11: seq<Token>)
    requires Head(t3) == Atom(b) && Head(t4) == Op(')') && Head(t5) == Op('*') && Head(t6) == Op('(') && Head(t7) == Atom(c) && Head(t8) == Op('-') && Head(t9) == Atom(d) && Head(t10) == Op(')') && Head(t11) == Eof && Tail(t3) == t4 && Tail(t4) == t5 && Tail(t5) == t6 && Tail(t6) == t7 && Tail(t7) == t8 && Tail(t8) == t9 && Tail(t9) == t10 && Tail(t10) == t11
    ensures Parse(t3, 6) == Parsed(S("*", [S(")", [Leaf(b)]), S("-", [Leaf(c), S(")", [Leaf(d)])])]), t11)
  {
    TwoParenthesisedGroupsLoop4At6(b, c, d, t4, t5, t6, t7, t8, t9, t10, t11);
    AtomThen(t3, t4, 6, b, Parsed(S("*", [S(")", [Leaf(b)]), S("-", [Leaf(c), S(")", [Leaf(d)])])]), t11));
  }

  lemma TwoParenthesisedGroupsLoop11At0(a: string, b: string, c: string, d: string, t11: seq<Token>)
    requires Head(t11) == Eof
    ensures ParseLoop(S("+", [Leaf(a), S("*", [S(")", [Leaf(b)]), S("-", [Leaf(c), S(")", [Leaf(d)])])])]), t11, 0) == Parsed(S("+", [Leaf(a), S("*", [S(")", [Leaf(b)]), S("-", [Leaf(c), S(")", [Leaf(d)])])])]), t11)
  {
    LoopEnds(S("+", [Leaf(a), S("*", [S(")", [Leaf(b)]), S("-", [Leaf(c), S(")", [Leaf(d)])])])]), t11, 0);
  }

  lemma TwoParenthesisedGroupsLoop2At0(a: string, b: string, c: string, d: string, t2: seq<Token>, t3: seq<Token>, t4: seq<Token>, t5: seq<Token>, t6: seq<Token>, t7: seq<Token>, t8: seq<Token>, t9: seq<Token>, t10: seq<Token>, t11: seq<Token>)
    requires Head(t2) == Op('+') && Head(t3) == Atom(b) && Head(t4) == Op(')') && Head(t5) == Op('*') && Head(t6) == Op('(') && Head(t7) == Atom(c) && Head(t8) == Op('-') && Head(t9) == Atom(d) && Head(t10) == Op(')') && Head(t11) == Eof && Tail(t2) == t3 && Tail(t3) == t4 && Tail(t4) == t5 && Tail(t5) == t6 && Tail(t6) == t7 && Tail(t7) == t8 && Tail(t8) == t9 && Tail(t9) == t10 && Tail(t10) == t11
    ensures ParseLoop(Leaf(a), t2, 0) == Parsed(S("+", [Leaf(a), S("*", [S(")", [Leaf(b)]), S("-", [Leaf(c), S(")", [Leaf(d)])])])]), t11)
  {
    TableEntries();
    TwoParenthesisedGroupsFrom3(b, c, d, t3, t4, t5, t6, t7, t8, t9, t10, t11);
    TwoParenthesisedGroupsLoop11At0(a, b, c, d, t11);
    InfixThen(Leaf(a), t2, t3, 0, '+', "+", 6, S("*", [S(")", [Leaf(b)]), S("-", [Leaf(c), S(")", [Leaf(d)])])]), t11, Parsed(S("+", [Leaf(a), S("*", [S(")", [Leaf(b)]), S("-", [Leaf(c), S(")", [Leaf(d)])])])]), t11));
  }

  lemma TwoParenthesisedGroupsFrom1(a: string, b: string, c: string, d: string, t1: seq<Token>, t2: seq<Token>, t3: seq<Token>, t4: seq<Token>, t5: seq<Token>, t6: seq<Token>, t7: seq<Token>, t8: seq<Token>, t9: seq<Token>, t10: seq<Token>, t11: seq<Token>)
    requires Head(t1) == Atom(a) && Head(t2) == Op('+') && Head(t3) == Atom(b) && Head(t4) == Op(')') && Head(t5) == Op('*') && Head(t6) == Op('(') && Head(t7) == Atom(c) && Head(t8) == Op('-') && Head(t9) == Atom(d) && Head(t10) == Op(')') && Head(t11) == Eof && Tail(t1) == t2 && Tail(t2) == t3 && Tail(t3) == t4 && Tail(t4) == t5 && Tail(t5) == t6 && Tail(t6) == t7 && Tail(t7) == t8 && Tail(t8) == t9 && Tail(t9) == t10 && Tail(t10) == t11
    ensures Parse(t1, 0) == Parsed(S("+", [Leaf(a), S("*", [S(")", [Leaf(b)]), S("-", [Leaf(c), S(")", [Leaf(d)])])])]), t11)
  {
    TwoParenthesisedGroupsLoop2At0(a, b, c, d, t2, t3, t4, t5, t6, t7, t8, t9, t10, t11);
    AtomThen(t1, t2, 0, a, Parsed(S("+", [Leaf(a), S("*", [S(")", [Leaf(b)]), S("-", [Leaf(c), S(")", [Leaf(d)])])])]), t11));
  }

  lemma TwoParenthesisedGroupsStream0(a: string, b: string, c: string, d: string, ts: seq<Token>)
    requires ts == [Op('('), Atom(a), Op('+'), Atom(b), Op(')'), Op('*'), Op('('), Atom(c), Op('-'), Atom(d), Op(')')] + [Eof]
    ensures Head(ts) == Op('(') && Head(ts[1..]) == Atom(a) && Head(ts[2..]) == Op('+') && Head(ts[3..]) == Atom(b) && Head(ts[4..]) == Op(')') && Tail(ts) == ts[1..] && Tail(ts[1..]) == ts[2..] && Tail(ts[2..]) == ts[3..] && Tail(ts[3..]) == ts[4..] && Tail(ts[4..]) == ts[5..]
  {
    assert ts[0..] == ts;
    Suffixes(ts, 0);
    Suffixes(ts, 1);
    Suffixes(ts, 2);
    Suffixes(ts, 3);
    Suffixes(ts, 4);
  }

  lemma TwoParenthesisedGroupsStream1(a: string, b: string, c: string, d: string, ts: seq<Token>)
    requires ts == [Op('('), Atom(a), Op('+'), Atom(b), Op(')'), Op('*'), Op('('), Atom(c), Op('-'), Atom(d), Op(')')] + [Eof]
    ensures Head(ts[5..]) == Op('*') && Head(ts[6..]) == Op('(') && Head(ts[7..]) == Atom(c) && Head(ts[8..]) == Op('-') && Head(ts[9..]) == Atom(d) && Tail(ts[5..]) == ts[6..] && Tail(ts[6..]) == ts[7..] && Tail(ts[7..]) == ts[8..] && Tail(ts[8..]) == ts[9..] && Tail(ts[9..]) == ts[10..]
  {
    Suffixes(ts, 5);
    Suffixes(ts, 6);
    Suffixes(ts, 7);
    Suffixes(ts, 8);
    Suffixes(ts, 9);
  }

  lemma TwoParenthesisedGroupsStream2(a: string, b: string, c: string, d: string, ts: seq<Token>)
    requires ts == [Op('('), Atom(a), Op('+'), Atom(b), Op(')'), Op('*'), Op('('), Atom(c), Op('-'), Atom(d), Op(')')] + [Eof]
    ensures Head(ts[10..]) == Op(')') && Head(ts[11..]) == Eof && Tail(ts[10..]) == ts[11..]
  {
    Suffixes(ts, 10);
    Suffixes(ts, 11);
  }

  lemma TwoParenthesisedGroupsFrom0(a: string, b: string, c: string, d: string, t0: seq<Token>, t1: seq<Token>, t2: seq<Token>, t3: seq<Token>, t4: seq<Token>, t5: seq<Token>, t6: seq<Token>, t7: seq<Token>, t8: seq<Token>, t9: seq<Token>, t10: seq<Token>, t11: seq<Token>)
    requires Head(t0) == Op('(') && Head(t1) == Atom(a) && Head(t2) == Op('+') && Head(t3) == Atom(b) && Head(t4) == Op(')') && Head(t5) == Op('*') && Head(t6) == Op('(') && Head(t7) == Atom(c) && Head(t8) == Op('-') && Head(t9) == Atom(d) && Head(t10) == Op(')') && Head(t11) == Eof && Tail(t0) == t1 && Tail(t1) == t2 && Tail(t2) == t3 && Tail(t3) == t4 && Tail(t4) == t5 && Tail(t5) == t6 && Tail(t6) == t7 && Tail(t7) == t8 && Tail(t8) == t9 && Tail(t9) == t10 && Tail(t10) == t11
    ensures Parse(t0, 0) == Parsed(S("+", [Leaf(a), S("*", [S(")", [Leaf(b)]), S("-", [Leaf(c), S(")", [Leaf(d)])])])]), t11)
  {
    TwoParenthesisedGroupsFrom1(a, b, c, d, t1, t2, t3, t4, t5, t6, t7, t8, t9, t10, t11);
    TwoParenthesisedGroupsLoop11At0(a, b, c, d, t11);
    GroupThen(t0, t1, 0, S("+", [Leaf(a), S("*", [S(")", [Leaf(b)]), S("-", [Leaf(c), S(")", [Leaf(d)])])])]), t11, Parsed(S("+", [Leaf(a), S("*", [S(")", [Leaf(b)]), S("-", [Leaf(c), S(")", [Leaf(d)])])])]), t11));
  }

  lemma TwoParenthesisedGroupsText(a: string, b: string, c: string, d: string)
    ensures ToString(S("+", [Leaf(a), S("*", [S(")", [Leaf(b)]), S("-", [Leaf(c), S(")", [Leaf(d)])])])])) == a + " " + ((b + " " + ")") + " " + (c + " " + (d + " " + ")") + " " + "-") + " " + "*") + " " + "+"
  {
    ToStringOfUnary(")", Leaf(b));
    ToStringOfUnary(")", Leaf(d));
    ToStringOfBinary("-", Leaf(c), S(")", [Leaf(d)]));
    ToStringOfBinary("*", S(")", [Leaf(b)]), S("-", [Leaf(c), S(")", [Leaf(d)])]));
    ToStringOfBinary("+", Leaf(a), S("*", [S(")", [Leaf(b)]), S("-", [Leaf(c), S(")", [Leaf(d)])])]));
  }

  /** `(1 + 2) * (3 - 4)`: `1 2 ) 3 4 ) - * +`; the source expects `1 2 + 3 4 - *`. */
  lemma TwoParenthesisedGroups(a: string, b: string, c: string, d: string)
    ensures TokensRenderAs([Op('('), Atom(a), Op('+'), Atom(b), Op(')'), Op('*'), Op('('), Atom(c), Op('-'), Atom(d), Op(')')], a + " " + ((b + " " + ")") + " " + (c + " " + (d + " " + ")") + " " + "-") + " " + "*") + " " + "+")
  {
    var t0 := [Op('('), Atom(a), Op('+'), Atom(b), Op(')'), Op('*'), Op('('), Atom(c), Op('-'), Atom(d), Op(')')] + [Eof];
    var t1 := t0[1..];
    var t2 := t0[2..];
    var t3 := t0[3..];
    var t4 := t0[4..];
    var t5 := t0[5..];
    var t6 := t0[6..];
    var t7 := t0[7..];
    var t8 := t0[8..];
    var t9 := t0[9..];
    var t10 := t0[10..];
    var t11 := t0[11..];
    TwoParenthesisedGroupsStream0(a, b, c, d, t0);
    TwoParenthesisedGroupsStream1(a, b, c, d, t0);
    TwoParenthesisedGroupsStream2(a, b, c, d, t0);
    TwoParenthesisedGroupsFrom0(a, b, c, d, t0, t1, t2, t3, t4, t5, t6, t7, t8, t9, t10, t11);
    TwoParenthesisedGroupsText(a, b, c, d);
  }

  lemma NestedGroupsLoop6At6(b: string, c: string, d: string, t6: seq<Token>, t7: seq<Token>, t8: seq<Token>, t9: seq<Token>, t10: seq<Token>, t11: seq<Token>)
    requires Head(t6) == Op('*') && Head(t7) == Atom(c) && Head(t8) == Op(')') && Head(t9) == Op('/') && Head(t10) == Atom(d) && Head(t11) == Eof && Tail(t6) == t7 && Tail(t7) == t8 && Tail(t8) == t9 && Tail(t9) == t10 && Tail(t10) == t11
    ensures ParseLoop(S(")", [Leaf(b)]), t6, 6) == Parsed(S("/", [S("*", [S(")", [Leaf(b)]), S(")", [Leaf(c)])]), Leaf(d)]), t11)
  {
    TableEntries();
    LoopStops(S(")", [Leaf(c)]), t9, 8, '/');
    PostfixThen(Leaf(c), t8, t9, 8, ')', ")", Parsed(S(")", [Leaf(c)]), t9));
    AtomThen(t7, t8, 8, c, Parsed(S(")", [Leaf(c)]), t9));
    LoopEnds(Leaf(d), t11, 8);
    AtomThen(t10, t11, 8, d, Parsed(Leaf(d), t11));
    LoopEnds(S("/", [S("*", [S(")", [Leaf(b)]), S(")", [Leaf(c)])]), Leaf(d)]), t11, 6);
    InfixThen(S("*", [S(")", [Leaf(b)]), S(")", [Leaf(c)])]), t9, t10, 6, '/', "/", 8, Leaf(d), t11, Parsed(S("/", [S("*", [S(")", [Leaf(b)]), S(")", [Leaf(c)])]), Leaf(d)]), t11));
    InfixThen(S(")", [Leaf(b)]), t6, t7, 6, '*', "*", 8, S(")", [Leaf(c)]), t9, Parsed(S("/", [S("*", [S(")", [Leaf(b)]), S(")", [Leaf(c)])]), Leaf(d)]), t11));
  }

  lemma NestedGroupsLoop5At6(b: string, c: string, d: string, t5: seq<Token>, t6: seq<Token>, t7: seq<Token>, t8: seq<Token>, t9: seq<Token>, t10: seq<Token>, t11: seq<Token>)
    requires Head(t5) == Op(')') && Head(t6) == Op('*') && Head(t7) == Atom(c) && Head(t8) == Op(')') && Head(t9) == Op('/') && Head(t10) == Atom(d) && Head(t11) == Eof && Tail(t5) == t6 && Tail(t6) == t7 && Tail(t7) == t8 && Tail(t8) == t9 && Tail(t9) == t10 && Tail(t10) == t11
    ensures ParseLoop(Leaf(b), t5, 6) == Parsed(S("/", [S("*", [S(")", [Leaf(b)]), S(")", [Leaf(c)])]), Leaf(d)]), t11)
  {
    TableEntries();
    NestedGroupsLoop6At6(b, c, d, t6, t7, t8, t9, t10, t11);
    PostfixThen(Leaf(b), t5, t6, 6, ')', ")", Parsed(S("/", [S("*", [S(")", [Leaf(b)]), S(")", [Leaf(c)])]), Leaf(d)]), t11));
  }

  lemma NestedGroupsFrom4(b: string, c: string, d: string, t4: seq<Token>, t5: seq<Token>, t6: seq<Token>, t7: seq<Token>, t8: seq<Token>, t9: seq<Token>, t10: seq<Token>, t11: seq<Token>)
    requires Head(t4) == Atom(b) && Head(t5) == Op(')') && Head(t6) == Op('*') && Head(t7) == Atom(c) && Head(t8) == Op(')') && Head(t9) == Op('/') && Head(t10) == Atom(d) && Head(t11) == Eof && Tail(t4) == t5 && Tail(t5) == t6 && Tail(t6) == t7 && Tail(t7) == t8 && Tail(t8) == t9 && Tail(t9) == t10 && Tail(t10) == t11
    ensures Parse(t4, 6) == Parsed(S("/", [S("*", [S(")", [Leaf(b)]), S(")", [Leaf(c)])]), Leaf(d)]), t11)
  {
    NestedGroupsLoop5At6(b, c, d, t5, t6, t7, t8, t9, t10, t11);
    AtomThen(t4, t5, 6, b, Parsed(S("/", [S("*", [S(")", [Leaf(b)]), S(")", [Leaf(c)])]), Leaf(d)]), t11));
  }

  lemma NestedGroupsLoop11At0(a: string, b: string, c: string, d: string, t11: seq<Token>)
    requires Head(t11) == Eof
    ensures ParseLoop(S("+", [Leaf(a), S("/", [S("*", [S(")", [Leaf(b)]), S(")", [Leaf(c)])]), Leaf(d)])]), t11, 0) == Parsed(S("+", [Leaf(a), S("/", [S("*", [S(")", [Leaf(b)]), S(")", [Leaf(c)])]), Leaf(d)])]), t11)
  {
    LoopEnds(S("+", [Leaf(a), S("/", [S("*", [S(")", [Leaf(b)]), S(")", [Leaf(c)])]), Leaf(d)])]), t11, 0);
  }

  lemma NestedGroupsLoop3At0(a: string, b: string, c: string, d: string, t3: seq<Token>, t4: seq<Token>, t5: seq<Token>, t6: seq<Token>, t7: seq<Token>, t8: seq<Token>, t9: seq<Token>, t10: seq<Token>, t11: seq<Token>)
    requires Head(t3) == Op('+') && Head(t4) == Atom(b) && Head(t5) == Op(')') && Head(t6) == Op('*') && Head(t7) == Atom(c) && Head(t8) == Op(')') && Head(t9) == Op('/') && Head(t10) == Atom(d) && Head(t11) == Eof && Tail(t3) == t4 && Tail(t4) == t5 && Tail(t5) == t6 && Tail(t6) == t7 && Tail(t7) == t8 && Tail(t8) == t9 && Tail(t9) == t10 && Tail(t10) == t11
    ensures ParseLoop(Leaf(a), t3, 0) == Parsed(S("+", [Leaf(a), S("/", [S("*", [S(")", [Leaf(b)]), S(")", [Leaf(c)])]), Leaf(d)])]), t11)
  {
    TableEntries();
    NestedGroupsFrom4(b, c, d, t4, t5, t6, t7, t8, t9, t10, t11);
    NestedGroupsLoop11At0(a, b, c, d, t11);
    InfixThen(Leaf(a), t3, t4, 0, '+', "+", 6, S("/", [S("*", [S(")", [Leaf(b)]), S(")", [Leaf(c)])]), Leaf(d)]), t11, Parsed(S("+", [Leaf(a), S("/", [S("*", [S(")", [Leaf(b)]), S(")", [Leaf(c)])]), Leaf(d)])]), t11));
  }

  lemma NestedGroupsFrom2(a: string, b: string, c: string, d: string, t2: seq<Token>, t3: seq<Token>, t4: seq<Token>, t5: seq<Token>, t6: seq<Token>, t7: seq<Token>, t8: seq<Token>, t9: seq<Token>, t10: seq<Token>, t11: seq<Token>)
    requires Head(t2) == Atom(a) && Head(t3) == Op('+') && Head(t4) == Atom(b) && Head(t5) == Op(')') && Head(t6) == Op('*') && Head(t7) == Atom(c) && Head(t8) == Op(')') && Head(t9) == Op('/') && Head(t10) == Atom(d) && Head(t11) == Eof && Tail(t2) == t3 && Tail(t3) == t4 && Tail(t4) == t5 && Tail(t5) == t6 && Tail(t6) == t7 && Tail(t7) == t8 && Tail(t8) == t9 && Tail(t9) == t10 && Tail(t10) == t11
    ensures Parse(t2, 0) == Parsed(S("+", [Leaf(a), S("/", [S("*", [S(")", [Leaf(b)]), S(")", [Leaf(c)])]), Leaf(d)])]), t11)
  {
    NestedGroupsLoop3At0(a, b, c, d, t3, t4, t5, t6, t7, t8, t9, t10, t11);
    AtomThen(t2, t3, 0, a, Parsed(S("+", [Leaf(a), S("/", [S("*", [S(")", [Leaf(b)]), S(")", [Leaf(c)])]), Leaf(d)])]), t11));
  }

  lemma NestedGroupsFrom1(a: string, b: string, c: string, d: string, t1: seq<Token>, t2: seq<Token>, t3: seq<Token>, t4: seq<Token>, t5: seq<Token>, t6: seq<Token>, t7: seq<Token>, t8: seq<Token>, t9: seq<Token>, t10: seq<Token>, t11: seq<Token>)
    requires Head(t1) == Op('(') && Head(t2) == Atom(a) && Head(t3) == Op('+') && Head(t4) == Atom(b) && Head(t5) == Op(')') && Head(t6) == Op('*') && Head(t7) == Atom(c) && Head(t8) == Op(')') && Head(t9) == Op('/') && Head(t10) == Atom(d) && Head(t11) == Eof && Tail(t1) == t2 && Tail(t2) == t3 && Tail(t3) == t4 && Tail(t4) == t5 && Tail(t5) == t6 && Tail(t6) == t7 && Tail(t7) == t8 && Tail(t8) == t9 && Tail(t9) == t10 && Tail(t10) == t11
    ensures Parse(t1, 0) == Parsed(S("+", [Leaf(a), S("/", [S("*", [S(")", [Leaf(b)]), S(")", [Leaf(c)])]), Leaf(d)])]), t11)
  {
    NestedGroupsFrom2(a, b, c, d, t2, t3, t4, t5, t6, t7, t8, t9, t10, t11);
    NestedGroupsLoop11At0(a, b, c, d, t11);
    GroupThen(t1, t2, 0, S("+", [Leaf(a), S("/", [S("*", [S(")", [Leaf(b)]), S(")", [Leaf(c)])]), Leaf(d)])]), t11, Parsed(S("+", [Leaf(a), S("/", [S("*", [S(")", [Leaf(b)]), S(")", [Leaf(c)])]), Leaf(d)])]), t11));
  }

  lemma NestedGroupsStream0(a: string, b: string, c: string, d: string, ts: seq<Token>)
    requires ts == [Op('('), Op('('), Atom(a), Op('+'), Atom(b), Op(')'), Op('*'), Atom(c), Op(')'), Op('/'), Atom(d)] + [Eof]
    ensures Head(ts) == Op('(') && Head(ts[1..]) == Op('(') && Head(ts[2..]) == Atom(a) && Head(ts[3..]) == Op('+') && Head(ts[4..]) == Atom(b) && Tail(ts) == ts[1..] && Tail(ts[1..]) == ts[2..] && Tail(ts[2..]) == ts[3..] && Tail(ts[3..]) == ts[4..] && Tail(ts[4..]) == ts[5..]
  {
    assert ts[0..] == ts;
    Suffixes(ts, 0);
    Suffixes(ts, 1);
    Suffixes(ts, 2);
    Suffixes(ts, 3);
    Suffixes(ts, 4);
  }

  lemma NestedGroupsStream1(a: string, b: string, c: string, d: string, ts: seq<Token>)
    requires ts == [Op('('), Op('('), Atom(a), Op('+'), Atom(b), Op(')'), Op('*'), Atom(c), Op(')'), Op('/'), Atom(d)] + [Eof]
    ensures Head(ts[5..]) == Op(')') && Head(ts[6..]) == Op('*') && Head(ts[7..]) == Atom(c) && Head(ts[8..]) == Op(')') && Head(ts[9..]) == Op('/') && Tail(ts[5..]) == ts[6..] && Tail(ts[6..]) == ts[7..] && Tail(ts[7..]) == ts[8..] && Tail(ts[8..]) == ts[9..] && Tail(ts[9..]) == ts[10..]
  {
    Suffixes(ts, 5);
    Suffixes(ts, 6);
    Suffixes(ts, 7);
    Suffixes(ts, 8);
    Suffixes(ts, 9);
  }

  lemma NestedGroupsStream2(a: string, b: string, c: string, d: string, ts: seq<Token>)
    requires ts == [Op('('), Op('('), Atom(a), Op('+'), Atom(b), Op(')'), Op('*'), Atom(c), Op(')'), Op('/'), Atom(d)] + [Eof]
    ensures Head(ts[10..]) == Atom(d) && Head(ts[11..]) == Eof && Tail(ts[10..]) == ts[11..]
  {
    Suffixes(ts, 10);
    Suffixes(ts, 11);
  }

  lemma NestedGroupsFrom0(a: string, b: string, c: string, d: string, t0: seq<Token>, t1: seq<Token>, t2: seq<Token>, t3: seq<Token>, t4: seq<Token>, t5: seq<Token>, t6: seq<Token>, t7: seq<Token>, t8: seq<Token>, t9: seq<Token>, t10: seq<Token>, t11: seq<Token>)
    requires Head(t0) == Op('(') && Head(t1) == Op('(') && Head(t2) == Atom(a) && Head(t3) == Op('+') && Head(t4) == Atom(b) && Head(t5) == Op(')') && Head(t6) == Op('*') && Head(t7) == Atom(c) && Head(t8) == Op(')') && Head(t9) == Op('/') && Head(t10) == Atom(d) && Head(t11) == Eof && Tail(t0) == t1 && Tail(t1) == t2 && Tail(t2) == t3 && Tail(t3) == t4 && Tail(t4) == t5 && Tail(t5) == t6 && Tail(t6) == t7 && Tail(t7) == t8 && Tail(t8) == t9 && Tail(t9) == t10 && Tail(t10) == t11
    ensures Parse(t0, 0) == Parsed(S("+", [Leaf(a), S("/", [S("*", [S(")", [Leaf(b)]), S(")", [Leaf(c)])]), Leaf(d)])]), t11)
  {
    NestedGroupsFrom1(a, b, c, d, t1, t2, t3, t4, t5, t6, t7, t8, t9, t10, t11);
    NestedGroupsLoop11At0(a, b, c, d, t11);
    GroupThen(t0, t1, 0, S("+", [Leaf(a), S("/", [S("*", [S(")", [Leaf(b)]), S(")", [Leaf(c)])]), Leaf(d)])]), t11, Parsed(S("+", [Leaf(a), S("/", [S("*", [S(")", [Leaf(b)]), S(")", [Leaf(c)])]), Leaf(d)])]), t11));
  }

  lemma NestedGroupsText(a: string, b: string, c: string, d: string)
    ensures ToString(S("+", [Leaf(a), S("/", [S("*", [S(")", [Leaf(b)]), S(")", [Leaf(c)])]), Leaf(d)])])) == a + " " + (((b + " " + ")") + " " + (c + " " + ")") + " " + "*") + " " + d + " " + "/") + " " + "+"
  {
    ToStringOfUnary(")", Leaf(b));
    ToStringOfUnary(")", Leaf(c));
    ToStringOfBinary("*", S(")", [Leaf(b)]), S(")", [Leaf(c)]));
    ToStringOfBinary("/", S("*", [S(")", [Leaf(b)]), S(")", [Leaf(c)])]), Leaf(d));
    ToStringOfBinary("+", Leaf(a), S("/", [S("*", [S(")", [Leaf(b)]), S(")", [Leaf(c)])]), Leaf(d)]));
  }

  /** `((3 + 4) * 5) / 2`: `3 4 ) 5 ) * 2 / +`; the source expects `3 4 + 5 * 2 /`. */
  lemma NestedGroups(a: string, b: string, c: string, d: string)
    ensures TokensRenderAs([Op('('), Op('('), Atom(a), Op('+'), Atom(b), Op(')'), Op('*'), Atom(c), Op(')'), Op('/'), Atom(d)], a + " " + (((b + " " + ")") + " " + (c + " " + ")") + " " + "*") + " " + d + " " + "/") + " " + "+")
  {
    var t0 := [Op('('), Op('('), Atom(a), Op('+'), Atom(b), Op(')'), Op('*'), Atom(c), Op(')'), Op('/'), Atom(d)] + [Eof];
    var t1 := t0[1..];
    var t2 := t0[2..];
    var t3 := t0[3..];
    var t4 := t0[4..];
    var t5 := t0[5..];
    var t6 := t0[6..];
    var t7 := t0[7..];
    var t8 := t0[8..];
    var t9 := t0[9..];
    var t10 := t0[10..];
    var t11 := t0[11..];
    NestedGroupsStream0(a, b, c, d, t0);
    NestedGroupsStream1(a, b, c, d, t0);
    NestedGroupsStream2(a, b, c, d, t0);
    NestedGroupsFrom0(a, b, c, d, t0, t1, t2, t3, t4, t5, t6, t7, t8, t9, t10, t11);
    NestedGroupsText(a, b, c, d);
  }

  lemma NestedGroupsBothSidesLoop8At8(c: string, t8: seq<Token>, t9: seq<Token>)
    requires Head(t8) == Op(')') && Head(t9) == Op('-') && Tail(t8) == t9
    ensures ParseLoop(S(")", [Leaf(c)]), t8, 8) == Parsed(S(")", [S(")", [Leaf(c)])]), t9)
  {
    TableEntries();
    LoopStops(S(")", [S(")", [Leaf(c)])]), t9, 8, '-');
    PostfixThen(S(")", [Leaf(c)]), t8, t9, 8, ')', ")", Parsed(S(")", [S(")", [Leaf(c)])]), t9));
  }

  lemma NestedGroupsBothSidesLoop7At8(c: string, t7: seq<Token>, t8: seq<Token>, t9: seq<Token>)
    requires Head(t7) == Op(')') && Head(t8) == Op(')') && Head(t9) == Op('-') && Tail(t7) == t8 && Tail(t8) == t9
    ensures ParseLoop(Leaf(c), t7, 8) == Parsed(S(")", [S(")", [Leaf(c)])]), t9)
  {
    TableEntries();
    NestedGroupsBothSidesLoop8At8(c, t8, t9);
    PostfixThen(Leaf(c), t7, t8, 8, ')', ")", Parsed(S(")", [S(")", [Leaf(c)])]), t9));
  }

  lemma NestedGroupsBothSidesFrom6(c: string, t6: seq<Token>, t7: seq<Token>, t8: seq<Token>, t9: seq<Token>)
    requires Head(t6) == Atom(c) && Head(t7) == Op(')') && Head(t8) == Op(')') && Head(t9) == Op('-') && Tail(t6) == t7 && Tail(t7) == t8 && Tail(t8) == t9
    ensures Parse(t6, 8) == Parsed(S(")", [S(")", [Leaf(c)])]), t9)
  {
    NestedGroupsBothSidesLoop7At8(c, t7, t8, t9);
    AtomThen(t6, t7, 8, c, Parsed(S(")", [S(")", [Leaf(c)])]), t9));
  }

  lemma NestedGroupsBothSidesLoop18At6(f: string, t18: seq<Token>, t19: seq<Token>)
    requires Head(t18) == Op(')') && Head(t19) == Eof && Tail(t18) == t19
    ensures ParseLoop(S(")", [Leaf(f)]), t18, 6) == Parsed(S(")", [S(")", [Leaf(f)])]), t19)
  {
    TableEntries();
    LoopEnds(S(")", [S(")", [Leaf(f)])]), t19, 6);
    PostfixThen(S(")", [Leaf(f)]), t18, t19, 6, ')', ")", Parsed(S(")", [S(")", [Leaf(f)])]), t19));
  }

  lemma NestedGroupsBothSidesLoop17At6(f: string, t17: seq<Token>, t18: seq<Token>, t19: seq<Token>)
    requires Head(t17) == Op(')') && Head(t18) == Op(')') && Head(t19) == Eof && Tail(t17) == t18 && Tail(t18) == t19
    ensures ParseLoop(Leaf(f), t17, 6) == Parsed(S(")", [S(")", [Leaf(f)])]), t19)
  {
    TableEntries();
    NestedGroupsBothSidesLoop18At6(f, t18, t19);
    PostfixThen(Leaf(f), t17, t18, 6, ')', ")", Parsed(S(")", [S(")", [Leaf(f)])]), t19));
  }

  lemma NestedGroupsBothSidesFrom16(f: string, t16: seq<Token>, t17: seq<Token>, t18: seq<Token>, t19: seq<Token>)
    requires Head(t16) == Atom(f) && Head(t17) == Op(')') && Head(t18) == Op(')') && Head(t19) == Eof && Tail(t16) == t17 && Tail(t17) == t18 && Tail(t18) == t19
    ensures Parse(t16, 6) == Parsed(S(")", [S(")", [Leaf(f)])]), t19)
  {
    NestedGroupsBothSidesLoop17At6(f, t17, t18, t19);
    AtomThen(t16, t17, 6, f, Parsed(S(")", [S(")", [Leaf(f)])]), t19));
  }

  lemma NestedGroupsBothSidesLoop15At0(e: string, f: string, t15: seq<Token>, t16: seq<Token>, t17: seq<Token>, t18: seq<Token>, t19: seq<Token>)
    requires Head(t15) == Op('+') && Head(t16) == Atom(f) && Head(t17) == Op(')') && Head(t18) == Op(')') && Head(t19) == Eof && Tail(t15) == t16 && Tail(t16) == t17 && Tail(t17) == t18 && Tail(t18) == t19
    ensures ParseLoop(Leaf(e), t15, 0) == Parsed(S("+", [Leaf(e), S(")", [S(")", [Leaf(f)])])]), t19)
  {
    TableEntries();
    NestedGroupsBothSidesFrom16(f, t16, t17, t18, t19);
    LoopEnds(S("+", [Leaf(e), S(")", [S(")", [Leaf(f)])])]), t19, 0);
    InfixThen(Leaf(e), t15, t16, 0, '+', "+", 6, S(")", [S(")", [Leaf(f)])]), t19, Parsed(S("+", [Leaf(e), S(")", [S(")", [Leaf(f)])])]), t19));
  }

  lemma NestedGroupsBothSidesFrom14(e: string, f: string, t14: seq<Token>, t15: seq<Token>, t16: seq<Token>, t17: seq<Token>, t18: seq<Token>, t19: seq<Token>)
    requires Head(t14) == Atom(e) && Head(t15) == Op('+') && Head(t16) == Atom(f) && Head(t17) == Op(')') && Head(t18) == Op(')') && Head(t19) == Eof && Tail(t14) == t15 && Tail(t15) == t16 && Tail(t16) == t17 && Tail(t17) == t18 && Tail(t18) == t19
    ensures Parse(t14, 0) == Parsed(S("+", [Leaf(e), S(")", [S(")", [Leaf(f)])])]), t19)
  {
    NestedGroupsBothSidesLoop15At0(e, f, t15, t16, t17, t18, t19);
    AtomThen(t14, t15, 0, e, Parsed(S("+", [Leaf(e), S(")", [S(")", [Leaf(f)])])]), t19));
  }

  lemma NestedGroupsBothSidesFrom13(e: string, f: string, t13: seq<Token>, t14: seq<Token>, t15: seq<Token>, t16: seq<Token>, t17: seq<Token>, t18: seq<Token>, t19: seq<Token>)
    requires Head(t13) == Op('(') && Head(t14) == Atom(e) && Head(t15) == Op('+') && Head(t16) == Atom(f) && Head(t17) == Op(')') && Head(t18) == Op(')') && Head(t19) == Eof && Tail(t13) == t14 && Tail(t14) == t15 && Tail(t15) == t16 && Tail(t16) == t17 && Tail(t17) == t18 && Tail(t18) == t19
    ensures Parse(t13, 8) == Parsed(S("+", [Leaf(e), S(")", [S(")", [Leaf(f)])])]), t19)
  {
    NestedGroupsBothSidesFrom14(e, f, t14, t15, t16, t17, t18, t19);
    LoopEnds(S("+", [Leaf(e), S(")", [S(")", [Leaf(f)])])]), t19, 8);
    GroupThen(t13, t14, 8, S("+", [Leaf(e), S(")", [S(")", [Leaf(f)])])]), t19, Parsed(S("+", [Leaf(e), S(")", [S(")", [Leaf(f)])])]), t19));
  }

  lemma NestedGroupsBothSidesLoop12At0(d: string, e: string, f: string, t12: seq<Token>, t13: seq<Token>, t14: seq<Token>, t15: seq<Token>, t16: seq<Token>, t17: seq<Token>, t18: seq<Token>, t19: seq<Token>)
    requires Head(t12) == Op('/') && Head(t13) == Op('(') && Head(t14) == Atom(e) && Head(t15) == Op('+') && Head(t16) == Atom(f) && Head(t17) == Op(')') && Head(t18) == Op(')') && Head(t19) == Eof && Tail(t12) == t13 && Tail(t13) == t14 && Tail(t14) == t15 && Tail(t15) == t16 && Tail(t16) == t17 && Tail(t17) == t18 && Tail(t18) == t19
    ensures ParseLoop(Leaf(d), t12, 0) == Parsed(S("/", [Leaf(d), S("+", [Leaf(e), S(")", [S(")", [Leaf(f)])])])]), t19)
  {
    TableEntries();
    NestedGroupsBothSidesFrom13(e, f, t13, t14, t15, t16, t17, t18, t19);
    LoopEnds(S("/", [Leaf(d), S("+", [Leaf(e), S(")", [S(")", [Leaf(f)])])])]), t19, 0);
    InfixThen(Leaf(d), t12, t13, 0, '/', "/", 8, S("+", [Leaf(e), S(")", [S(")", [Leaf(f)])])]), t19, Parsed(S("/", [Leaf(d), S("+", [Leaf(e), S(")", [S(")", [Leaf(f)])])])]), t19));
  }

  lemma NestedGroupsBothSidesFrom11(d: string, e: string, f: string, t11: seq<Token>, t12: seq<Token>, t13: seq<Token>, t14: seq<Token>, t15: seq<Token>, t16: seq<Token>, t17: seq<Token>, t18: seq<Token>, t19: seq<Token>)
    requires Head(t11) == Atom(d) && Head(t12) == Op('/') && Head(t13) == Op('(') && Head(t14) == Atom(e) && Head(t15) == Op('+') && Head(t16) == Atom(f) && Head(t17) == Op(')') && Head(t18) == Op(')') && Head(t19) == Eof && Tail(t11) == t12 && Tail(t12) == t13 && Tail(t13) == t14 && Tail(t14) == t15 && Tail(t15) == t16 && Tail(t16) == t17 && Tail(t17) == t18 && Tail(t18) == t19
    ensures Parse(t11, 0) == Parsed(S("/", [Leaf(d), S("+", [Leaf(e), S(")", [S(")", [Leaf(f)])])])]), t19)
  {
    NestedGroupsBothSidesLoop12At0(d, e, f, t12, t13, t14, t15, t16, t17, t18, t19);
    AtomThen(t11, t12, 0, d, Parsed(S("/", [Leaf(d), S("+", [Leaf(e), S(")", [S(")", [Leaf(f)])])])]), t19));
  }

  lemma NestedGroupsBothSidesFrom10(d: string, e: string, f: string, t10: seq<Token>, t11: seq<Token>, t12: seq<Token>, t13: seq<Token>, t14: seq<Token>, t15: seq<Token>, t16: seq<Token>, t17: seq<Token>, t18: seq<Token>, t19: seq<Token>)
    requires Head(t10) == Op('(') && Head(t11) == Atom(d) && Head(t12) == Op('/') && Head(t13) == Op('(') && Head(t14) == Atom(e) && Head(t15) == Op('+') && Head(t16) == Atom(f) && Head(t17) == Op(')') && Head(t18) == Op(')') && Head(t19) == Eof && Tail(t10) == t11 && Tail(t11) == t12 && Tail(t12) == t13 && Tail(t13) == t14 && Tail(t14) == t15 && Tail(t15) == t16 && Tail(t16) == t17 && Tail(t17) == t18 && Tail(t18) == t19
    ensures Parse(t10, 6) == Parsed(S("/", [Leaf(d), S("+", [Leaf(e), S(")", [S(")", [Leaf(f)])])])]), t19)
  {
    NestedGroupsBothSidesFrom11(d, e, f, t11, t12, t13, t14, t15, t16, t17, t18, t19);
    LoopEnds(S("/", [Leaf(d), S("+", [Leaf(e), S(")", [S(")", [Leaf(f)])])])]), t19, 6);
    GroupThen(t10, t11, 6, S("/", [Leaf(d), S("+", [Leaf(e), S(")", [S(")", [Leaf(f)])])])]), t19, Parsed(S("/", [Leaf(d), S("+", [Leaf(e), S(")", [S(")", [Leaf(f)])])])]), t19));
  }

  lemma NestedGroupsBothSidesLoop9At0(b: string, c: string, d: string, e: string, f: string, t9: seq<Token>, t10: seq<Token>, t11: seq<Token>, t12: seq<Token>, t13: seq<Token>, t14: seq<Token>, t15: seq<Token>, t16: seq<Token>, t17: seq<Token>, t18: seq<Token>, t19: seq<Token>)
    requires Head(t9) == Op('-') && Head(t10) == Op('(') && Head(t11) == Atom(d) && Head(t12) == Op('/') && Head(t13) == Op('(') && Head(t14) == Atom(e) && Head(t15) == Op('+') && Head(t16) == Atom(f) && Head(t17) == Op(')') && Head(t18) == Op(')') && Head(t19) == Eof && Tail(t9) == t10 && Tail(t10) == t11 && Tail(t11) == t12 && Tail(t12) == t13 && Tail(t13) == t14 && Tail(t14) == t15 && Tail(t15) == t16 && Tail(t16) == t17 && Tail(t17) == t18 && Tail(t18) == t19
    ensures ParseLoop(S("*", [Leaf(b), S(")", [S(")", [Leaf(c)])])]), t9, 0) == Parsed(S("-", [S("*", [Leaf(b), S(")", [S(")", [Leaf(c)])])]), S("/", [Leaf(d), S("+", [Leaf(e), S(")", [S(")", [Leaf(f)])])])])]), t19)
  {
    TableEntries();
    NestedGroupsBothSidesFrom10(d, e, f, t10, t11, t12, t13, t14, t15, t16, t17, t18, t19);
    LoopEnds(S("-", [S("*", [Leaf(b), S(")", [S(")", [Leaf(c)])])]), S("/", [Leaf(d), S("+", [Leaf(e), S(")", [S(")", [Leaf(f)])])])])]), t19, 0);
    InfixThen(S("*", [Leaf(b), S(")", [S(")", [Leaf(c)])])]), t9, t10, 0, '-', "-", 6, S("/", [Leaf(d), S("+", [Leaf(e), S(")", [S(")", [Leaf(f)])])])]), t19, Parsed(S("-", [S("*", [Leaf(b), S(")", [S(")", [Leaf(c)])])]), S("/", [Leaf(d), S("+", [Leaf(e), S(")", [S(")", [Leaf(f)])])])])]), t19));
  }

  lemma NestedGroupsBothSidesLoop5At0(b: string, c: string, d: string, e: string, f: string, t5: seq<Token>, t6: seq<Token>, t7: seq<Token>, t8: seq<Token>, t9: seq<Token>, t10: seq<Token>, t11: seq<Token>, t12: seq<Token>, t13: seq<Token>, t14: seq<Token>, t15: seq<Token>, t16: seq<Token>, t17: seq<Token>, t18: seq<Token>, t19: seq<Token>)
    requires Head(t5) == Op('*') && Head(t6) == Atom(c) && Head(t7) == Op(')') && Head(t8) == Op(')') && Head(t9) == Op('-') && Head(t10) == Op('(') && Head(t11) == Atom(d) && Head(t12) == Op('/') && Head(t13) == Op('(') && Head(t14) == Atom(e) && Head(t15) == Op('+') && Head(t16) == Atom(f) && Head(t17) == Op(')') && Head(t18) == Op(')') && Head(t19) == Eof && Tail(t5) == t6 && Tail(t6) == t7 && Tail(t7) == t8 && Tail(t8) == t9 && Tail(t9) == t10 && Tail(t10) == t11 && Tail(t11) == t12 && Tail(t12) == t13 && Tail(t13) == t14 && Tail(t14) == t15 && Tail(t15) == t16 && Tail(t16) == t17 && Tail(t17) == t18 && Tail(t18) == t19
    ensures ParseLoop(Leaf(b), t5, 0) == Parsed(S("-", [S("*", [Leaf(b), S(")", [S(")", [Leaf(c)])])]), S("/", [Leaf(d), S("+", [Leaf(e), S(")", [S(")", [Leaf(f)])])])])]), t19)
  {
    TableEntries();
    NestedGroupsBothSidesFrom6(c, t6, t7, t8, t9);
    NestedGroupsBothSidesLoop9At0(b, c, d, e, f, t9, t10, t11, t12, t13, t14, t15, t16, t17, t18, t19);
    InfixThen(Leaf(b), t5, t6, 0, '*', "*", 8, S(")", [S(")", [Leaf(c)])]), t9, Parsed(S("-", [S("*", [Leaf(b), S(")", [S(")", [Leaf(c)])])]), S("/", [Leaf(d), S("+", [Leaf(e), S(")", [S(")", [Leaf(f)])])])])]), t19));
  }

  lemma NestedGroupsBothSidesFrom4(b: string, c: string, d: string, e: string, f: string, t4: seq<Token>, t5: seq<Token>, t6: seq<Token>, t7: seq<Token>, t8: seq<Token>, t9: seq<Token>, t10: seq<Token>, t11: seq<Token>, t12: seq<Token>, t13: seq<Token>, t14: seq<Token>, t15: seq<Token>, t16: seq<Token>, t17: seq<Token>, t18: seq<Token>, t19: seq<Token>)
    requires Head(t4) == Atom(b) && Head(t5) == Op('*') && Head(t6) == Atom(c) && Head(t7) == Op(')') && Head(t8) == Op(')') && Head(t9) == Op('-') && Head(t10) == Op('(') && Head(t11) == Atom(d) && Head(t12) == Op('/') && Head(t13) == Op('(') && Head(t14) == Atom(e) && Head(t15) == Op('+') && Head(t16) == Atom(f) && Head(t17) == Op(')') && Head(t18) == Op(')') && Head(t19) == Eof && Tail(t4) == t5 && Tail(t5) == t6 && Tail(t6) == t7 && Tail(t7) == t8 && Tail(t8) == t9 && Tail(t9) == t10 && Tail(t10) == t11 && Tail(t11) == t12 && Tail(t12) == t13 && Tail(t13) == t14 && Tail(t14) == t15 && Tail(t15) == t16 && Tail(t16) == t17 && Tail(t17) == t18 && Tail(t18) == t19
    ensures Parse(t4, 0) == Parsed(S("-", [S("*", [Leaf(b), S(")", [S(")", [Leaf(c)])])]), S("/", [Leaf(d), S("+", [Leaf(e), S(")", [S(")", [Leaf(f)])])])])]), t19)
  {
    NestedGroupsBothSidesLoop5At0(b, c, d, e, f, t5, t6, t7, t8, t9, t10, t11, t12, t13, t14, t15, t16, t17, t18, t19);
    AtomThen(t4, t5, 0, b, Parsed(S("-", [S("*", [Leaf(b), S(")", [S(")", [Leaf(c)])])]), S("/", [Leaf(d), S("+", [Leaf(e), S(")", [S(")", [Leaf(f)])])])])]), t19));
  }

  lemma NestedGroupsBothSidesFrom3(b: string, c: string, d: string, e: string, f: string, t3: seq<Token>, t4: seq<Token>, t5: seq<Token>, t6: seq<Token>, t7: seq<Token>, t8: seq<Token>, t9: seq<Token>, t10: seq<Token>, t11: seq<Token>, t12: seq<Token>, t13: seq<Token>, t14: seq<Token>, t15: seq<Token>, t16: seq<Token>, t17: seq<Token>, t18: seq<Token>, t19: seq<Token>)
    requires Head(t3) == Op('(') && Head(t4) == Atom(b) && Head(t5) == Op('*') && Head(t6) == Atom(c) && Head(t7) == Op(')') && Head(t8) == Op(')') && Head(t9) == Op('-') && Head(t10) == Op('(') && Head(t11) == Atom(d) && Head(t12) == Op('/') && Head(t13) == Op('(') && Head(t14) == Atom(e) && Head(t15) == Op('+') && Head(t16) == Atom(f) && Head(t17) == Op(')') && Head(t18) == Op(')') && Head(t19) == Eof && Tail(t3) == t4 && Tail(t4) == t5 && Tail(t5) == t6 && Tail(t6) == t7 && Tail(t7) == t8 && Tail(t8) == t9 && Tail(t9) == t10 && Tail(t10) == t11 && Tail(t11) == t12 && Tail(t12) == t13 && Tail(t13) == t14 && Tail(t14) == t15 && Tail(t15) == t16 && Tail(t16) == t17 && Tail(t17) == t18 && Tail(t18) == t19
    ensures Parse(t3, 6) == Parsed(S("-", [S("*", [Leaf(b), S(")", [S(")", [Leaf(c)])])]), S("/", [Leaf(d), S("+", [Leaf(e), S(")", [S(")", [Leaf(f)])])])])]), t19)
  {
    NestedGroupsBothSidesFrom4(b, c, d, e, f, t4, t5, t6, t7, t8, t9, t10, t11, t12, t13, t14, t15, t16, t17, t18, t19);
    LoopEnds(S("-", [S("*", [Leaf(b), S(")", [S(")", [Leaf(c)])])]), S("/", [Leaf(d), S("+", [Leaf(e), S(")", [S(")", [Leaf(f)])])])])]), t19, 6);
    GroupThen(t3, t4, 6, S("-", [S("*", [Leaf(b), S(")", [S(")", [Leaf(c)])])]), S("/", [Leaf(d), S("+", [Leaf(e), S(")", [S(")", [Leaf(f)])])])])]), t19, Parsed(S("-", [S("*", [Leaf(b), S(")", [S(")", [Leaf(c)])])]), S("/", [Leaf(d), S("+", [Leaf(e), S(")", [S(")", [Leaf(f)])])])])]), t19));
  }

  lemma NestedGroupsBothSidesLoop2At0(a: string, b: string, c: string, d: string, e: string, f: string, t2: seq<Token>, t3: seq<Token>, t4: seq<Token>, t5: seq<Token>, t6: seq<Token>, t7: seq<Token>, t8: seq<Token>, t9: seq<Token>, t10: seq<Token>, t11: seq<Token>, t12: seq<Token>, t13: seq<Token>, t14: seq<Token>, t15: seq<Token>, t16: seq<Token>, t17: seq<Token>, t18: seq<Token>, t19: seq<Token>)
    requires Head(t2) == Op('+') && Head(t3) == Op('(') && Head(t4) == Atom(b) && Head(t5) == Op('*') && Head(t6) == Atom(c) && Head(t7) == Op(')') && Head(t8) == Op(')') && Head(t9) == Op('-') && Head(t10) == Op('(') && Head(t11) == Atom(d) && Head(t12) == Op('/') && Head(t13) == Op('(') && Head(t14) == Atom(e) && Head(t15) == Op('+') && Head(t16) == Atom(f) && Head(t17) == Op(')') && Head(t18) == Op(')') && Head(t19) == Eof && Tail(t2) == t3 && Tail(t3) == t4 && Tail(t4) == t5 && Tail(t5) == t6 && Tail(t6) == t7 && Tail(t7) == t8 && Tail(t8) == t9 && Tail(t9) == t10 && Tail(t10) == t11 && Tail(t11) == t12 && Tail(t12) == t13 && Tail(t13) == t14 && Tail(t14) == t15 && Tail(t15) == t16 && Tail(t16) == t17 && Tail(t17) == t18 && Tail(t18) == t19
    ensures ParseLoop(Leaf(a), t2, 0) == Parsed(S("+", [Leaf(a), S("-", [S("*", [Leaf(b), S(")", [S(")", [Leaf(c)])])]), S("/", [Leaf(d), S("+", [Leaf(e), S(")", [S(")", [Leaf(f)])])])])])]), t19)
  {
    TableEntries();
    NestedGroupsBothSidesFrom3(b, c, d, e, f, t3, t4, t5, t6, t7, t8, t9, t10, t11, t12, t13, t14, t15, t16, t17, t18, t19);
    LoopEnds(S("+", [Leaf(a), S("-", [S("*", [Leaf(b), S(")", [S(")", [Leaf(c)])])]), S("/", [Leaf(d), S("+", [Leaf(e), S(")", [S(")", [Leaf(f)])])])])])]), t19, 0);
    InfixThen(Leaf(a), t2, t3, 0, '+', "+", 6, S("-", [S("*", [Leaf(b), S(")", [S(")", [Leaf(c)])])]), S("/", [Leaf(d), S("+", [Leaf(e), S(")", [S(")", [Leaf(f)])])])])]), t19, Parsed(S("+", [Leaf(a), S("-", [S("*", [Leaf(b), S(")", [S(")", [Leaf(c)])])]), S("/", [Leaf(d), S("+", [Leaf(e), S(")", [S(")", [Leaf(f)])])])])])]), t19));
  }

  lemma NestedGroupsBothSidesFrom1(a: string, b: string, c: string, d: string, e: string, f: string, t1: seq<Token>, t2: seq<Token>, t3: seq<Token>, t4: seq<Token>, t5: seq<Token>, t6: seq<Token>, t7: seq<Token>, t8: seq<Token>, t9: seq<Token>, t10: seq<Token>, t11: seq<Token>, t12: seq<Token>, t13: seq<Token>, t14: seq<Token>, t15: seq<Token>, t16: seq<Token>, t17: seq<Token>, t18: seq<Token>, t19: seq<Token>)
    requires Head(t1) == Atom(a) && Head(t2) == Op('+') && Head(t3) == Op('(') && Head(t4) == Atom(b) && Head(t5) == Op('*') && Head(t6) == Atom(c) && Head(t7) == Op(')') && Head(t8) == Op(')') && Head(t9) == Op('-') && Head(t10) == Op('(') && Head(t11) == Atom(d) && Head(t12) == Op('/') && Head(t13) == Op('(') && Head(t14) == Atom(e) && Head(t15) == Op('+') && Head(t16) == Atom(f) && Head(t17) == Op(')') && Head(t18) == Op(')') && Head(t19) == Eof && Tail(t1) == t2 && Tail(t2) == t3 && Tail(t3) == t4 && Tail(t4) == t5 && Tail(t5) == t6 && Tail(t6) == t7 && Tail(t7) == t8 && Tail(t8) == t9 && Tail(t9) == t10 && Tail(t10) == t11 && Tail(t11) == t12 && Tail(t12) == t13 && Tail(t13) == t14 && Tail(t14) == t15 && Tail(t15) == t16 && Tail(t16) == t17 && Tail(t17) == t18 && Tail(t18) == t19
    ensures Parse(t1, 0) == Parsed(S("+", [Leaf(a), S("-", [S("*", [Leaf(b), S(")", [S(")", [Leaf(c)])])]), S("/", [Leaf(d), S("+", [Leaf(e), S(")", [S(")", [Leaf(f)])])])])])]), t19)
  {
    NestedGroupsBothSidesLoop2At0(a, b, c, d, e, f, t2, t3, t4, t5, t6, t7, t8, t9, t10, t11, t12, t13, t14, t15, t16, t17, t18, t19);
    AtomThen(t1, t2, 0, a, Parsed(S("+", [Leaf(a), S("-", [S("*", [Leaf(b), S(")", [S(")", [Leaf(c)])])]), S("/", [Leaf(d), S("+", [Leaf(e), S(")", [S(")", [Leaf(f)])])])])])]), t19));
  }

  lemma NestedGroupsBothSidesStream0(a: string, b: string, c: string, d: string, e: string, f: string, ts: seq<Token>)
    requires ts == [Op('('), Atom(a), Op('+'), Op('('), Atom(b), Op('*'), Atom(c), Op(')'), Op(')'), Op('-'), Op('('), Atom(d), Op('/'), Op('('), Atom(e), Op('+'), Atom(f), Op(')'), Op(')')] + [Eof]
    ensures Head(ts) == Op('(') && Head(ts[1..]) == Atom(a) && Head(ts[2..]) == Op('+') && Head(ts[3..]) == Op('(') && Head(ts[4..]) == Atom(b) && Tail(ts) == ts[1..] && Tail(ts[1..]) == ts[2..] && Tail(ts[2..]) == ts[3..] && Tail(ts[3..]) == ts[4..] && Tail(ts[4..]) == ts[5..]
  {
    assert ts[0..] == ts;
    Suffixes(ts, 0);
    Suffixes(ts, 1);
    Suffixes(ts, 2);
    Suffixes(ts, 3);
    Suffixes(ts, 4);
  }

  lemma NestedGroupsBothSidesStream1(a: string, b: string, c: string, d: string, e: string, f: string, ts: seq<Token>)
    requires ts == [Op('('), Atom(a), Op('+'), Op('('), Atom(b), Op('*'), Atom(c), Op(')'), Op(')'), Op('-'), Op('('), Atom(d), Op('/'), Op('('), Atom(e), Op('+'), Atom(f), Op(')'), Op(')')] + [Eof]
    ensures Head(ts[5..]) == Op('*') && Head(ts[6..]) == Atom(c) && Head(ts[7..]) == Op(')') && Head(ts[8..]) == Op(')') && Head(ts[9..]) == Op('-') && Tail(ts[5..]) == ts[6..] && Tail(ts[6..]) == ts[7..] && Tail(ts[7..]) == ts[8..] && Tail(ts[8..]) == ts[9..] && Tail(ts[9..]) == ts[10..]
  {
    Suffixes(ts, 5);
    Suffixes(ts, 6);
    Suffixes(ts, 7);
    Suffixes(ts, 8);
    Suffixes(ts, 9);
  }

  lemma NestedGroupsBothSidesStream2(a: string, b: string, c: string, d: string, e: string, f: string, ts: seq<Token>)
    requires ts == [Op('('), Atom(a), Op('+'), Op('('), Atom(b), Op('*'), Atom(c), Op(')'), Op(')'), Op('-'), Op('('), Atom(d), Op('/'), Op('('), Atom(e), Op('+'), Atom(f), Op(')'), Op(')')] + [Eof]
    ensures Head(ts[10..]) == Op('(') && Head(ts[11..]) == Atom(d) && Head(ts[12..]) == Op('/') && Head(ts[13..]) == Op('(') && Head(ts[14..]) == Atom(e) && Tail(ts[10..]) == ts[11..] && Tail(ts[11..]) == ts[12..] && Tail(ts[12..]) == ts[13..] && Tail(ts[13..]) == ts[14..] && Tail(ts[14..]) == ts[15..]
  {
    Suffixes(ts, 10);
    Suffixes(ts, 11);
    Suffixes(ts, 12);
    Suffixes(ts, 13);
    Suffixes(ts, 14);
  }

  lemma NestedGroupsBothSidesStream3(a: string, b: string, c: string, d: string, e: string, f: string, ts: seq<Token>)
    requires ts == [Op('('), Atom(a), Op('+'), Op('('), Atom(b), Op('*'), Atom(c), Op(')'), Op(')'), Op('-'), Op('('), Atom(d), Op('/'), Op('('), Atom(e), Op('+'), Atom(f), Op(')'), Op(')')] + [Eof]
    ensures Head(ts[15..]) == Op('+') && Head(ts[16..]) == Atom(f) && Head(ts[17..]) == Op(')') && Head(ts[18..]) == Op(')') && Head(ts[19..]) == Eof && Tail(ts[15..]) == ts[16..] && Tail(ts[16..]) == ts[17..] && Tail(ts[17..]) == ts[18..] && Tail(ts[18..]) == ts[19..]
  {
    Suffixes(ts, 15);
    Suffixes(ts, 16);
    Suffixes(ts, 17);
    Suffixes(ts, 18);
    Suffixes(ts, 19);
  }

  lemma NestedGroupsBothSidesFrom0(a: string, b: string, c: string, d: string, e: string, f: string, t0: seq<Token>, t1: seq<Token>, t2: seq<Token>, t3: seq<Token>, t4: seq<Token>, t5: seq<Token>, t6: seq<Token>, t7: seq<Token>, t8: seq<Token>, t9: seq<Token>, t10: seq<Token>, t11: seq<Token>, t12: seq<Token>, t13: seq<Token>, t14: seq<Token>, t15: seq<Token>, t16: seq<Token>, t17: seq<Token>, t18: seq<Token>, t19: seq<Token>)
    requires Head(t0) == Op('(') && Head(t1) == Atom(a) && Head(t2) == Op('+') && Head(t3) == Op('(') && Head(t4) == Atom(b) && Head(t5) == Op('*') && Head(t6) == Atom(c) && Head(t7) == Op(')') && Head(t8) == Op(')') && Head(t9) == Op('-') && Head(t10) == Op('(') && Head(t11) == Atom(d) && Head(t12) == Op('/') && Head(t13) == Op('(') && Head(t14) == Atom(e) && Head(t15) == Op('+') && Head(t16) == Atom(f) && Head(t17) == Op(')') && Head(t18) == Op(')') && Head(t19) == Eof && Tail(t0) == t1 && Tail(t1) == t2 && Tail(t2) == t3 && Tail(t3) == t4 && Tail(t4) == t5 && Tail(t5) == t6 && Tail(t6) == t7 && Tail(t7) == t8 && Tail(t8) == t9 && Tail(t9) == t10 && Tail(t10) == t11 && Tail(t11) == t12 && Tail(t12) == t13 && Tail(t13) == t14 && Tail(t14) == t15 && Tail(t15) == t16 && Tail(t16) == t17 && Tail(t17) == t18 && Tail(t18) == t19
    ensures Parse(t0, 0) == Parsed(S("+", [Leaf(a), S("-", [S("*", [Leaf(b), S(")", [S(")", [Leaf(c)])])]), S("/", [Leaf(d), S("+", [Leaf(e), S(")", [S(")", [Leaf(f)])])])])])]), t19)
  {
    NestedGroupsBothSidesFrom1(a, b, c, d, e, f, t1, t2, t3, t4, t5, t6, t7, t8, t9, t10, t11, t12, t13, t14, t15, t16, t17, t18, t19);
    LoopEnds(S("+", [Leaf(a), S("-", [S("*", [Leaf(b), S(")", [S(")", [Leaf(c)])])]), S("/", [Leaf(d), S("+", [Leaf(e), S(")", [S(")", [Leaf(f)])])])])])]), t19, 0);
    GroupThen(t0, t1, 0, S("+", [Leaf(a), S("-", [S("*", [Leaf(b), S(")", [S(")", [Leaf(c)])])]), S("/", [Leaf(d), S("+", [Leaf(e), S(")", [S(")", [Leaf(f)])])])])])]), t19, Parsed(S("+", [Leaf(a), S("-", [S("*", [Leaf(b), S(")", [S(")", [Leaf(c)])])]), S("/", [Leaf(d), S("+", [Leaf(e), S(")", [S(")", [Leaf(f)])])])])])]), t19));
  }

  lemma NestedGroupsBothSidesLeftText(b: string, c: string)
    ensures ToString(S("*", [Leaf(b), S(")", [S(")", [Leaf(c)])])])) == b + " " + ((c + " " + ")") + " " + ")") + " " + "*"
  {
    ToStringOfUnary(")", Leaf(c));
    ToStringOfUnary(")", S(")", [Leaf(c)]));
    ToStringOfBinary("*", Leaf(b), S(")", [S(")", [Leaf(c)])]));
  }

  lemma NestedGroupsBothSidesRightText(d: string, e: string, f: string)
    ensures ToString(S("/", [Leaf(d), S("+", [Leaf(e), S(")", [S(")", [Leaf(f)])])])])) == d + " " + (e + " " + ((f + " " + ")") + " " + ")") + " " + "+") + " " + "/"
  {
    ToStringOfUnary(")", Leaf(f));
    ToStringOfUnary(")", S(")", [Leaf(f)]));
    ToStringOfBinary("+", Leaf(e), S(")", [S(")", [Leaf(f)])]));
    ToStringOfBinary("/", Leaf(d), S("+", [Leaf(e), S(")", [S(")", [Leaf(f)])])]));
  }

  lemma NestedGroupsBothSidesText(a: string, b: string, c: string, d: string, e: string, f: string)
    ensures ToString(S("+", [Leaf(a), S("-", [S("*", [Leaf(b), S(")", [S(")", [Leaf(c)])])]), S("/", [Leaf(d), S("+", [Leaf(e), S(")", [S(")", [Leaf(f)])])])])])])) == a + " " + ((b + " " + ((c + " " + ")") + " " + ")") + " " + "*") + " " + (d + " " + (e + " " + ((f + " " + ")") + " " + ")") + " " + "+") + " " + "/") + " " + "-") + " " + "+"
  {
    var left := S("*", [Leaf(b), S(")", [S(")", [Leaf(c)])])]);
    var right := S("/", [Leaf(d), S("+", [Leaf(e), S(")", [S(")", [Leaf(f)])])])]);
    NestedGroupsBothSidesLeftText(b, c);
    NestedGroupsBothSidesRightText(d, e, f);
    ToStringOfBinary("-", left, right);
    ToStringOfBinary("+", Leaf(a), S("-", [left, right]));
  }


  /** `(1 + (2 * 3)) - (4 / (5 + 6))`: `1 2 3 ) ) * 4 5 6 ) ) + / - +`; the source expects `1 2 3 * + 4 5 6 + / -`. */
  lemma NestedGroupsBothSides(a: string, b: string, c: string, d: string, e: string, f: string)
    ensures TokensRenderAs([Op('('), Atom(a), Op('+'), Op('('), Atom(b), Op('*'), Atom(c), Op(')'), Op(')'), Op('-'), Op('('), Atom(d), Op('/'), Op('('), Atom(e), Op('+'), Atom(f), Op(')'), Op(')')], a + " " + ((b + " " + ((c + " " + ")") + " " + ")") + " " + "*") + " " + (d + " " + (e + " " + ((f + " " + ")") + " " + ")") + " " + "+") + " " + "/") + " " + "-") + " " + "+")
  {
    var t0 := [Op('('), Atom(a), Op('+'), Op('('), Atom(b), Op('*'), Atom(c), Op(')'), Op(')'), Op('-'), Op('('), Atom(d), Op('/'), Op('('), Atom(e), Op('+'), Atom(f), Op(')'), Op(')')] + [Eof];
    var t1 := t0[1..];
    var t2 := t0[2..];
    var t3 := t0[3..];
    var t4 := t0[4..];
    var t5 := t0[5..];
    var t6 := t0[6..];
    var t7 := t0[7..];
    var t8 := t0[8..];
    var t9 := t0[9..];
    var t10 := t0[10..];
    var t11 := t0[11..];
    var t12 := t0[12..];
    var t13 := t0[13..];
    var t14 := t0[14..];
    var t15 := t0[15..];
    var t16 := t0[16..];
    var t17 := t0[17..];
    var t18 := t0[18..];
    var t19 := t0[19..];
    NestedGroupsBothSidesStream0(a, b, c, d, e, f, t0);
    NestedGroupsBothSidesStream1(a, b, c, d, e, f, t0);
    NestedGroupsBothSidesStream2(a, b, c, d, e, f, t0);
    NestedGroupsBothSidesStream3(a, b, c, d, e, f, t0);
    NestedGroupsBothSidesFrom0(a, b, c, d, e, f, t0, t1, t2, t3, t4, t5, t6, t7, t8, t9, t10, t11, t12, t13, t14, t15, t16, t17, t18, t19);
    NestedGroupsBothSidesText(a, b, c, d, e, f);
  }

  lemma GroupInChainLoop8At0(d: string, e: string, f: string, t8: seq<Token>, t9: seq<Token>, t10: seq<Token>, t11: seq<Token>, t12: seq<Token>, t13: seq<Token>)
    requires Head(t8) == Op('-') && Head(t9) == Atom(e) && Head(t10) == Op(')') && Head(t11) == Op('+') && Head(t12) == Atom(f) && Head(t13) == Eof && Tail(t8) == t9 && Tail(t9) == t10 && Tail(t10) == t11 && Tail(t11) == t12 && Tail(t12) == t13
    ensures ParseLoop(Leaf(d), t8, 0) == Parsed(S("+", [S("-", [Leaf(d), S(")", [Leaf(e)])]), Leaf(f)]), t13)
  {
    TableEntries();
    LoopStops(S(")", [Leaf(e)]), t11, 6, '+');
    PostfixThen(Leaf(e), t10, t11, 6, ')', ")", Parsed(S(")", [Leaf(e)]), t11));
    AtomThen(t9, t10, 6, e, Parsed(S(")", [Leaf(e)]), t11));
    LoopEnds(Leaf(f), t13, 6);
    AtomThen(t12, t13, 6, f, Parsed(Leaf(f), t13));
    LoopEnds(S("+", [S("-", [Leaf(d), S(")", [Leaf(e)])]), Leaf(f)]), t13, 0);
    InfixThen(S("-", [Leaf(d), S(")", [Leaf(e)])]), t11, t12, 0, '+', "+", 6, Leaf(f), t13, Parsed(S("+", [S("-", [Leaf(d), S(")", [Leaf(e)])]), Leaf(f)]), t13));
    InfixThen(Leaf(d), t8, t9, 0, '-', "-", 6, S(")", [Leaf(e)]), t11, Parsed(S("+", [S("-", [Leaf(d), S(")", [Leaf(e)])]), Leaf(f)]), t13));
  }

  lemma GroupInChainFrom7(d: string, e: string, f: string, t7: seq<Token>, t8: seq<Token>, t9: seq<Token>, t10: seq<Token>, t11: seq<Token>, t12: seq<Token>, t13: seq<Token>)
    requires Head(t7) == Atom(d) && Head(t8) == Op('-') && Head(t9) == Atom(e) && Head(t10) == Op(')') && Head(t11) == Op('+') && Head(t12) == Atom(f) && Head(t13) == Eof && Tail(t7) == t8 && Tail(t8) == t9 && Tail(t9) == t10 && Tail(t10) == t11 && Tail(t11) == t12 && Tail(t12) == t13
    ensures Parse(t7, 0) == Parsed(S("+", [S("-", [Leaf(d), S(")", [Leaf(e)])]), Leaf(f)]), t13)
  {
    GroupInChainLoop8At0(d, e, f, t8, t9, t10, t11, t12, t13);
    AtomThen(t7, t8, 0, d, Parsed(S("+", [S("-", [Leaf(d), S(")", [Leaf(e)])]), Leaf(f)]), t13));
  }

  lemma GroupInChainFrom6(d: string, e: string, f: string, t6: seq<Token>, t7: seq<Token>, t8: seq<Token>, t9: seq<Token>, t10: seq<Token>, t11: seq<Token>, t12: seq<Token>, t13: seq<Token>)
    requires Head(t6) == Op('(') && Head(t7) == Atom(d) && Head(t8) == Op('-') && Head(t9) == Atom(e) && Head(t10) == Op(')') && Head(t11) == Op('+') && Head(t12) == Atom(f) && Head(t13) == Eof && Tail(t6) == t7 && Tail(t7) == t8 && Tail(t8) == t9 && Tail(t9) == t10 && Tail(t10) == t11 && Tail(t11) == t12 && Tail(t12) == t13
    ensures Parse(t6, 8) == Parsed(S("+", [S("-", [Leaf(d), S(")", [Leaf(e)])]), Leaf(f)]), t13)
  {
    GroupInChainFrom7(d, e, f, t7, t8, t9, t10, t11, t12, t13);
    LoopEnds(S("+", [S("-", [Leaf(d), S(")", [Leaf(e)])]), Leaf(f)]), t13, 8);
    GroupThen(t6, t7, 8, S("+", [S("-", [Leaf(d), S(")", [Leaf(e)])]), Leaf(f)]), t13, Parsed(S("+", [S("-", [Leaf(d), S(")", [Leaf(e)])]), Leaf(f)]), t13));
  }

  lemma GroupInChainLoop13At6(b: string, c: string, d: string, e: string, f: string, t13: seq<Token>)
    requires Head(t13) == Eof
    ensures ParseLoop(S("/", [S("*", [Leaf(b), Leaf(c)]), S("+", [S("-", [Leaf(d), S(")", [Leaf(e)])]), Leaf(f)])]), t13, 6) == Parsed(S("/", [S("*", [Leaf(b), Leaf(c)]), S("+", [S("-", [Leaf(d), S(")", [Leaf(e)])]), Leaf(f)])]), t13)
  {
    LoopEnds(S("/", [S("*", [Leaf(b), Leaf(c)]), S("+", [S("-", [Leaf(d), S(")", [Leaf(e)])]), Leaf(f)])]), t13, 6);
  }

  lemma GroupInChainLoop5At6(b: string, c: string, d: string, e: string, f: string, t5: seq<Token>, t6: seq<Token>, t7: seq<Token>, t8: seq<Token>, t9: seq<Token>, t10: seq<Token>, t11: seq<Token>, t12: seq<Token>, t13: seq<Token>)
    requires Head(t5) == Op('/') && Head(t6) == Op('(') && Head(t7) == Atom(d) && Head(t8) == Op('-') && Head(t9) == Atom(e) && Head(t10) == Op(')') && Head(t11) == Op('+') && Head(t12) == Atom(f) && Head(t13) == Eof && Tail(t5) == t6 && Tail(t6) == t7 && Tail(t7) == t8 && Tail(t8) == t9 && Tail(t9) == t10 && Tail(t10) == t11 && Tail(t11) == t12 && Tail(t12) == t13
    ensures ParseLoop(S("*", [Leaf(b), Leaf(c)]), t5, 6) == Parsed(S("/", [S("*", [Leaf(b), Leaf(c)]), S("+", [S("-", [Leaf(d), S(")", [Leaf(e)])]), Leaf(f)])]), t13)
  {
    TableEntries();
    GroupInChainFrom6(d, e, f, t6, t7, t8, t9, t10, t11, t12, t13);
    GroupInChainLoop13At6(b, c, d, e, f, t13);
    InfixThen(S("*", [Leaf(b), Leaf(c)]), t5, t6, 6, '/', "/", 8, S("+", [S("-", [Leaf(d), S(")", [Leaf(e)])]), Leaf(f)]), t13, Parsed(S("/", [S("*", [Leaf(b), Leaf(c)]), S("+", [S("-", [Leaf(d), S(")", [Leaf(e)])]), Leaf(f)])]), t13));
  }

  lemma GroupInChainLoop3At6(b: string, c: string, d: string, e: string, f: string, t3: seq<Token>, t4: seq<Token>, t5: seq<Token>, t6: seq<Token>, t7: seq<Token>, t8: seq<Token>, t9: seq<Token>, t10: seq<Token>, t11: seq<Token>, t12: seq<Token>, t13: seq<Token>)
    requires Head(t3) == Op('*') && Head(t4) == Atom(c) && Head(t5) == Op('/') && Head(t6) == Op('(') && Head(t7) == Atom(d) && Head(t8) == Op('-') && Head(t9) == Atom(e) && Head(t10) == Op(')') && Head(t11) == Op('+') && Head(t12) == Atom(f) && Head(t13) == Eof && Tail(t3) == t4 && Tail(t4) == t5 && Tail(t5) == t6 && Tail(t6) == t7 && Tail(t7) == t8 && Tail(t8) == t9 && Tail(t9) == t10 && Tail(t10) == t11 && Tail(t11) == t12 && Tail(t12) == t13
    ensures ParseLoop(Leaf(b), t3, 6) == Parsed(S("/", [S("*", [Leaf(b), Leaf(c)]), S("+", [S("-", [Leaf(d), S(")", [Leaf(e)])]), Leaf(f)])]), t13)
  {
    TableEntries();
    LoopStops(Leaf(c), t5, 8, '/');
    AtomThen(t4, t5, 8, c, Parsed(Leaf(c), t5));
    GroupInChainLoop5At6(b, c, d, e, f, t5, t6, t7, t8, t9, t10, t11, t12, t13);
    InfixThen(Leaf(b), t3, t4, 6, '*', "*", 8, Leaf(c), t5, Parsed(S("/", [S("*", [Leaf(b), Leaf(c)]), S("+", [S("-", [Leaf(d), S(")", [Leaf(e)])]), Leaf(f)])]), t13));
  }

  lemma GroupInChainFrom2(b: string, c: string, d: string, e: string, f: string, t2: seq<Token>, t3: seq<Token>, t4: seq<Token>, t5: seq<Token>, t6: seq<Token>, t7: seq<Token>, t8: seq<Token>, t9: seq<Token>, t10: seq<Token>, t11: seq<Token>, t12: seq<Token>, t13: seq<Token>)
    requires Head(t2) == Atom(b) && Head(t3) == Op('*') && Head(t4) == Atom(c) && Head(t5) == Op('/') && Head(t6) == Op('(') && Head(t7) == Atom(d) && Head(t8) == Op('-') && Head(t9) == Atom(e) && Head(t10) == Op(')') && Head(t11) == Op('+') && Head(t12) == Atom(f) && Head(t13) == Eof && Tail(t2) == t3 && Tail(t3) == t4 && Tail(t4) == t5 && Tail(t5) == t6 && Tail(t6) == t7 && Tail(t7) == t8 && Tail(t8) == t9 && Tail(t9) == t10 && Tail(t10) == t11 && Tail(t11) == t12 && Tail(t12) == t13
    ensures Parse(t2, 6) == Parsed(S("/", [S("*", [Leaf(b), Leaf(c)]), S("+", [S("-", [Leaf(d), S(")", [Leaf(e)])]), Leaf(f)])]), t13)
  {
    GroupInChainLoop3At6(b, c, d, e, f, t3, t4, t5, t6, t7, t8, t9, t10, t11, t12, t13);
    AtomThen(t2, t3, 6, b, Parsed(S("/", [S("*", [Leaf(b), Leaf(c)]), S("+", [S("-", [Leaf(d), S(")", [Leaf(e)])]), Leaf(f)])]), t13));
  }

  lemma GroupInChainLoop13At0(a: string, b: string, c: string, d: string, e: string, f: string, t13: seq<Token>)
    requires Head(t13) == Eof
    ensures ParseLoop(S("+", [Leaf(a), S("/", [S("*", [Leaf(b), Leaf(c)]), S("+", [S("-", [Leaf(d), S(")", [Leaf(e)])]), Leaf(f)])])]), t13, 0) == Parsed(S("+", [Leaf(a), S("/", [S("*", [Leaf(b), Leaf(c)]), S("+", [S("-", [Leaf(d), S(")", [Leaf(e)])]), Leaf(f)])])]), t13)
  {
    LoopEnds(S("+", [Leaf(a), S("/", [S("*", [Leaf(b), Leaf(c)]), S("+", [S("-", [Leaf(d), S(")", [Leaf(e)])]), Leaf(f)])])]), t13, 0);
  }

  lemma GroupInChainLoop1At0(a: string, b: string, c: string, d: string, e: string, f: string, t1: seq<Token>, t2: seq<Token>, t3: seq<Token>, t4: seq<Token>, t5: seq<Token>, t6: seq<Token>, t7: seq<Token>, t8: seq<Token>, t9: seq<Token>, t10: seq<Token>, t11: seq<Token>, t12: seq<Token>, t13: seq<Token>)
    requires Head(t1) == Op('+') && Head(t2) == Atom(b) && Head(t3) == Op('*') && Head(t4) == Atom(c) && Head(t5) == Op('/') && Head(t6) == Op('(') && Head(t7) == Atom(d) && Head(t8) == Op('-') && Head(t9) == Atom(e) && Head(t10) == Op(')') && Head(t11) == Op('+') && Head(t12) == Atom(f) && Head(t13) == Eof && Tail(t1) == t2 && Tail(t2) == t3 && Tail(t3) == t4 && Tail(t4) == t5 && Tail(t5) == t6 && Tail(t6) == t7 && Tail(t7) == t8 && Tail(t8) == t9 && Tail(t9) == t10 && Tail(t10) == t11 && Tail(t11) == t12 && Tail(t12) == t13
    ensures ParseLoop(Leaf(a), t1, 0) == Parsed(S("+", [Leaf(a), S("/", [S("*", [Leaf(b), Leaf(c)]), S("+", [S("-", [Leaf(d), S(")", [Leaf(e)])]), Leaf(f)])])]), t13)
  {
    TableEntries();
    GroupInChainFrom2(b, c, d, e, f, t2, t3, t4, t5, t6, t7, t8, t9, t10, t11, t12, t13);
    GroupInChainLoop13At0(a, b, c, d, e, f, t13);
    InfixThen(Leaf(a), t1, t2, 0, '+', "+", 6, S("/", [S("*", [Leaf(b), Leaf(c)]), S("+", [S("-", [Leaf(d), S(")", [Leaf(e)])]), Leaf(f)])]), t13, Parsed(S("+", [Leaf(a), S("/", [S("*", [Leaf(b), Leaf(c)]), S("+", [S("-", [Leaf(d), S(")", [Leaf(e)])]), Leaf(f)])])]), t13));
  }

  lemma GroupInChainStream0(a: string, b: string, c: string, d: string, e: string, f: string, ts: seq<Token>)
    requires ts == [Atom(a), Op('+'), Atom(b), Op('*'), Atom(c), Op('/'), Op('('), Atom(d), Op('-'), Atom(e), Op(')'), Op('+'), Atom(f)] + [Eof]
    ensures Head(ts) == Atom(a) && Head(ts[1..]) == Op('+') && Head(ts[2..]) == Atom(b) && Head(ts[3..]) == Op('*') && Head(ts[4..]) == Atom(c) && Tail(ts) == ts[1..] && Tail(ts[1..]) == ts[2..] && Tail(ts[2..]) == ts[3..] && Tail(ts[3..]) == ts[4..] && Tail(ts[4..]) == ts[5..]
  {
    assert ts[0..] == ts;
    Suffixes(ts, 0);
    Suffixes(ts, 1);
    Suffixes(ts, 2);
    Suffixes(ts, 3);
    Suffixes(ts, 4);
  }

  lemma GroupInChainStream1(a: string, b: string, c: string, d: string, e: string, f: string, ts: seq<Token>)
    requires ts == [Atom(a), Op('+'), Atom(b), Op('*'), Atom(c), Op('/'), Op('('), Atom(d), Op('-'), Atom(e), Op(')'), Op('+'), Atom(f)] + [Eof]
    ensures Head(ts[5..]) == Op('/') && Head(ts[6..]) == Op('(') && Head(ts[7..]) == Atom(d) && Head(ts[8..]) == Op('-') && Head(ts[9..]) == Atom(e) && Tail(ts[5..]) == ts[6..] && Tail(ts[6..]) == ts[7..] && Tail(ts[7..]) == ts[8..] && Tail(ts[8..]) == ts[9..] && Tail(ts[9..]) == ts[10..]
  {
    Suffixes(ts, 5);
    Suffixes(ts, 6);
    Suffixes(ts, 7);
    Suffixes(ts, 8);
    Suffixes(ts, 9);
  }

  lemma GroupInChainStream2(a: string, b: string, c: string, d: string, e: string, f: string, ts: seq<Token>)
    requires ts == [Atom(a), Op('+'), Atom(b), Op('*'), Atom(c), Op('/'), Op('('), Atom(d), Op('-'), Atom(e), Op(')'), Op('+'), Atom(f)] + [Eof]
    ensures Head(ts[10..]) == Op(')') && Head(ts[11..]) == Op('+') && Head(ts[12..]) == Atom(f) && Head(ts[13..]) == Eof && Tail(ts[10..]) == ts[11..] && Tail(ts[11..]) == ts[12..] && Tail(ts[12..]) == ts[13..]
  {
    Suffixes(ts, 10);
    Suffixes(ts, 11);
    Suffixes(ts, 12);
    Suffixes(ts, 13);
  }

  lemma GroupInChainFrom0(a: string, b: string, c: string, d: string, e: string, f: string, t0: seq<Token>, t1: seq<Token>, t2: seq<Token>, t3: seq<Token>, t4: seq<Token>, t5: seq<Token>, t6: seq<Token>, t7: seq<Token>, t8: seq<Token>, t9: seq<Token>, t10: seq<Token>, t11: seq<Token>, t12: seq<Token>, t13: seq<Token>)
    requires Head(t0) == Atom(a) && Head(t1) == Op('+') && Head(t2) == Atom(b) && Head(t3) == Op('*') && Head(t4) == Atom(c) && Head(t5) == Op('/') && Head(t6) == Op('(') && Head(t7) == Atom(d) && Head(t8) == Op('-') && Head(t9) == Atom(e) && Head(t10) == Op(')') && Head(t11) == Op('+') && Head(t12) == Atom(f) && Head(t13) == Eof && Tail(t0) == t1 && Tail(t1) == t2 && Tail(t2) == t3 && Tail(t3) == t4 && Tail(t4) == t5 && Tail(t5) == t6 && Tail(t6) == t7 && Tail(t7) == t8 && Tail(t8) == t9 && Tail(t9) == t10 && Tail(t10) == t11 && Tail(t11) == t12 && Tail(t12) == t13
    ensures Parse(t0, 0) == Parsed(S("+", [Leaf(a), S("/", [S("*", [Leaf(b), Leaf(c)]), S("+", [S("-", [Leaf(d), S(")", [Leaf(e)])]), Leaf(f)])])]), t13)
  {
    GroupInChainLoop1At0(a, b, c, d, e, f, t1, t2, t3, t4, t5, t6, t7, t8, t9, t10, t11, t12, t13);
    AtomThen(t0, t1, 0, a, Parsed(S("+", [Leaf(a), S("/", [S("*", [Leaf(b), Leaf(c)]), S("+", [S("-", [Leaf(d), S(")", [Leaf(e)])]), Leaf(f)])])]), t13));
  }

  lemma GroupInChainText(a: string, b: string, c: string, d: string, e: string, f: string)
    ensures ToString(S("+", [Leaf(a), S("/", [S("*", [Leaf(b), Leaf(c)]), S("+", [S("-", [Leaf(d), S(")", [Leaf(e)])]), Leaf(f)])])])) == a + " " + ((b + " " + c + " " + "*") + " " + ((d + " " + (e + " " + ")") + " " + "-") + " " + f + " " + "+") + " " + "/") + " " + "+"
  {
    var de := S("-", [Leaf(d), S(")", [Leaf(e)])]);
    var bc := S("*", [Leaf(b), Leaf(c)]);
    var def := S("+", [de, Leaf(f)]);
    ToStringOfUnary(")", Leaf(e));
    ToStringOfBinary("-", Leaf(d), S(")", [Leaf(e)]));
    assert ToString(de) == d + " " + (e + " " + ")") + " " + "-";
    ToStringOfBinary("+", de, Leaf(f));
    assert ToString(def) == ToString(de) + " " + f + " " + "+";
    ToStringOfBinary("*", Leaf(b), Leaf(c));
    ToStringOfBinary("/", bc, def);
    ToStringOfBinary("+", Leaf(a), S("/", [bc, def]));
  }

  /** `3 + 4 * 2 / (1 - 5) + 6`: `3 4 2 * 1 5 ) - 6 + / +`; the source expects `3 4 2 * 1 5 - / + 6 +`. */
  lemma GroupInChain(a: string, b: string, c: string, d: string, e: string, f: string)
    ensures TokensRenderAs([Atom(a), Op('+'), Atom(b), Op('*'), Atom(c), Op('/'), Op('('), Atom(d), Op('-'), Atom(e), Op(')'), Op('+'), Atom(f)], a + " " + ((b + " " + c + " " + "*") + " " + ((d + " " + (e + " " + ")") + " " + "-") + " " + f + " " + "+") + " " + "/") + " " + "+")
  {
    var t0 := [Atom(a), Op('+'), Atom(b), Op('*'), Atom(c), Op('/'), Op('('), Atom(d), Op('-'), Atom(e), Op(')'), Op('+'), Atom(f)] + [Eof];
    var t1 := t0[1..];
    var t2 := t0[2..];
    var t3 := t0[3..];
    var t4 := t0[4..];
    var t5 := t0[5..];
    var t6 := t0[6..];
    var t7 := t0[7..];
    var t8 := t0[8..];
    var t9 := t0[9..];
    var t10 := t0[10..];
    var t11 := t0[11..];
    var t12 := t0[12..];
    var t13 := t0[13..];
    GroupInChainStream0(a, b, c, d, e, f, t0);
    GroupInChainStream1(a, b, c, d, e, f, t0);
    GroupInChainStream2(a, b, c, d, e, f, t0);
    GroupInChainFrom0(a, b, c, d, e, f, t0, t1, t2, t3, t4, t5, t6, t7, t8, t9, t10, t11, t12, t13);
    GroupInChainText(a, b, c, d, e, f);
  }

  lemma GroupsInChainLoop10At0(d: string, e: string, f: string, t10: seq<Token>, t11: seq<Token>, t12: seq<Token>, t13: seq<Token>, t14: seq<Token>, t15: seq<Token>)
    requires Head(t10) == Op('-') && Head(t11) == Atom(e) && Head(t12) == Op(')') && Head(t13) == Op('+') && Head(t14) == Atom(f) && Head(t15) == Eof && Tail(t10) == t11 && Tail(t11) == t12 && Tail(t12) == t13 && Tail(t13) == t14 && Tail(t14) == t15
    ensures ParseLoop(Leaf(d), t10, 0) == Parsed(S("+", [S("-", [Leaf(d), S(")", [Leaf(e)])]), Leaf(f)]), t15)
  {
    TableEntries();
    LoopStops(S(")", [Leaf(e)]), t13, 6, '+');
    PostfixThen(Leaf(e), t12, t13, 6, ')', ")", Parsed(S(")", [Leaf(e)]), t13));
    AtomThen(t11, t12, 6, e, Parsed(S(")", [Leaf(e)]), t13));
    LoopEnds(Leaf(f), t15, 6);
    AtomThen(t14, t15, 6, f, Parsed(Leaf(f), t15));
    LoopEnds(S("+", [S("-", [Leaf(d), S(")", [Leaf(e)])]), Leaf(f)]), t15, 0);
    InfixThen(S("-", [Leaf(d), S(")", [Leaf(e)])]), t13, t14, 0, '+', "+", 6, Leaf(f), t15, Parsed(S("+", [S("-", [Leaf(d), S(")", [Leaf(e)])]), Leaf(f)]), t15));
    InfixThen(Leaf(d), t10, t11, 0, '-', "-", 6, S(")", [Leaf(e)]), t13, Parsed(S("+", [S("-", [Leaf(d), S(")", [Leaf(e)])]), Leaf(f)]), t15));
  }

  lemma GroupsInChainFrom9(d: string, e: string, f: string, t9: seq<Token>, t10: seq<Token>, t11: seq<Token>, t12: seq<Token>, t13: seq<Token>, t14: seq<Token>, t15: seq<Token>)
    requires Head(t9) == Atom(d) && Head(t10) == Op('-') && Head(t11) == Atom(e) && Head(t12) == Op(')') && Head(t13) == Op('+') && Head(t14) == Atom(f) && Head(t15) == Eof && Tail(t9) == t10 && Tail(t10) == t11 && Tail(t11) == t12 && Tail(t12) == t13 && Tail(t13) == t14 && Tail(t14) == t15
    ensures Parse(t9, 0) == Parsed(S("+", [S("-", [Leaf(d), S(")", [Leaf(e)])]), Leaf(f)]), t15)
  {
    GroupsInChainLoop10At0(d, e, f, t10, t11, t12, t13, t14, t15);
    AtomThen(t9, t10, 0, d, Parsed(S("+", [S("-", [Leaf(d), S(")", [Leaf(e)])]), Leaf(f)]), t15));
  }

  lemma GroupsInChainFrom8(d: string, e: string, f: string, t8: seq<Token>, t9: seq<Token>, t10: seq<Token>, t11: seq<Token>, t12: seq<Token>, t13: seq<Token>, t14: seq<Token>, t15: seq<Token>)
    requires Head(t8) == Op('(') && Head(t9) == Atom(d) && Head(t10) == Op('-') && Head(t11) == Atom(e) && Head(t12) == Op(')') && Head(t13) == Op('+') && Head(t14) == Atom(f) && Head(t15) == Eof && Tail(t8) == t9 && Tail(t9) == t10 && Tail(t10) == t11 && Tail(t11) == t12 && Tail(t12) == t13 && Tail(t13) == t14 && Tail(t14) == t15
    ensures Parse(t8, 8) == Parsed(S("+", [S("-", [Leaf(d), S(")", [Leaf(e)])]), Leaf(f)]), t15)
  {
    GroupsInChainFrom9(d, e, f, t9, t10, t11, t12, t13, t14, t15);
    LoopEnds(S("+", [S("-", [Leaf(d), S(")", [Leaf(e)])]), Leaf(f)]), t15, 8);
    GroupThen(t8, t9, 8, S("+", [S("-", [Leaf(d), S(")", [Leaf(e)])]), Leaf(f)]), t15, Parsed(S("+", [S("-", [Leaf(d), S(")", [Leaf(e)])]), Leaf(f)]), t15));
  }

  lemma GroupsInChainLoop15At6(c: string, d: string, e: string, f: string, t15: seq<Token>)
    requires Head(t15) == Eof
    ensures ParseLoop(S("/", [S(")", [Leaf(c)]), S("+", [S("-", [Leaf(d), S(")", [Leaf(e)])]), Leaf(f)])]), t15, 6) == Parsed(S("/", [S(")", [Leaf(c)]), S("+", [S("-", [Leaf(d), S(")", [Leaf(e)])]), Leaf(f)])]), t15)
  {
    LoopEnds(S("/", [S(")", [Leaf(c)]), S("+", [S("-", [Leaf(d), S(")", [Leaf(e)])]), Leaf(f)])]), t15, 6);
  }

  lemma GroupsInChainLoop7At6(c: string, d: string, e: string, f: string, t7: seq<Token>, t8: seq<Token>, t9: seq<Token>, t10: seq<Token>, t11: seq<Token>, t12: seq<Token>, t13: seq<Token>, t14: seq<Token>, t15: seq<Token>)
    requires Head(t7) == Op('/') && Head(t8) == Op('(') && Head(t9) == Atom(d) && Head(t10) == Op('-') && Head(t11) == Atom(e) && Head(t12) == Op(')') && Head(t13) == Op('+') && Head(t14) == Atom(f) && Head(t15) == Eof && Tail(t7) == t8 && Tail(t8) == t9 && Tail(t9) == t10 && Tail(t10) == t11 && Tail(t11) == t12 && Tail(t12) == t13 && Tail(t13) == t14 && Tail(t14) == t15
    ensures ParseLoop(S(")", [Leaf(c)]), t7, 6) == Parsed(S("/", [S(")", [Leaf(c)]), S("+", [S("-", [Leaf(d), S(")", [Leaf(e)])]), Leaf(f)])]), t15)
  {
    TableEntries();
    GroupsInChainFrom8(d, e, f, t8, t9, t10, t11, t12, t13, t14, t15);
    GroupsInChainLoop15At6(c, d, e, f, t15);
    InfixThen(S(")", [Leaf(c)]), t7, t8, 6, '/', "/", 8, S("+", [S("-", [Leaf(d), S(")", [Leaf(e)])]), Leaf(f)]), t15, Parsed(S("/", [S(")", [Leaf(c)]), S("+", [S("-", [Leaf(d), S(")", [Leaf(e)])]), Leaf(f)])]), t15));
  }

  lemma GroupsInChainLoop6At6(c: string, d: string, e: string, f: string, t6: seq<Token>, t7: seq<Token>, t8: seq<Token>, t9: seq<Token>, t10: seq<Token>, t11: seq<Token>, t12: seq<Token>, t13: seq<Token>, t14: seq<Token>, t15: seq<Token>)
    requires Head(t6) == Op(')') && Head(t7) == Op('/') && Head(t8) == Op('(') && Head(t9) == Atom(d) && Head(t10) == Op('-') && Head(t11) == Atom(e) && Head(t12) == Op(')') && Head(t13) == Op('+') && Head(t14) == Atom(f) && Head(t15) == Eof && Tail(t6) == t7 && Tail(t7) == t8 && Tail(t8) == t9 && Tail(t9) == t10 && Tail(t10) == t11 && Tail(t11) == t12 && Tail(t12) == t13 && Tail(t13) == t14 && Tail(t14) == t15
    ensures ParseLoop(Leaf(c), t6, 6) == Parsed(S("/", [S(")", [Leaf(c)]), S("+", [S("-", [Leaf(d), S(")", [Leaf(e)])]), Leaf(f)])]), t15)
  {
    TableEntries();
    GroupsInChainLoop7At6(c, d, e, f, t7, t8, t9, t10, t11, t12, t13, t14, t15);
    PostfixThen(Leaf(c), t6, t7, 6, ')', ")", Parsed(S("/", [S(")", [Leaf(c)]), S("+", [S("-", [Leaf(d), S(")", [Leaf(e)])]), Leaf(f)])]), t15));
  }

  lemma GroupsInChainFrom5(c: string, d: string, e: string, f: string, t5: seq<Token>, t6: seq<Token>, t7: seq<Token>, t8: seq<Token>, t9: seq<Token>, t10: seq<Token>, t11: seq<Token>, t12: seq<Token>, t13: seq<Token>, t14: seq<Token>, t15: seq<Token>)
    requires Head(t5) == Atom(c) && Head(t6) == Op(')') && Head(t7) == Op('/') && Head(t8) == Op('(') && Head(t9) == Atom(d) && Head(t10) == Op('-') && Head(t11) == Atom(e) && Head(t12) == Op(')') && Head(t13) == Op('+') && Head(t14) == Atom(f) && Head(t15) == Eof && Tail(t5) == t6 && Tail(t6) == t7 && Tail(t7) == t8 && Tail(t8) == t9 && Tail(t9) == t10 && Tail(t10) == t11 && Tail(t11) == t12 && Tail(t12) == t13 && Tail(t13) == t14 && Tail(t14) == t15
    ensures Parse(t5, 6) == Parsed(S("/", [S(")", [Leaf(c)]), S("+", [S("-", [Leaf(d), S(")", [Leaf(e)])]), Leaf(f)])]), t15)
  {
    GroupsInChainLoop6At6(c, d, e, f, t6, t7, t8, t9, t10, t11, t12, t13, t14, t15);
    AtomThen(t5, t6, 6, c, Parsed(S("/", [S(")", [Leaf(c)]), S("+", [S("-", [Leaf(d), S(")", [Leaf(e)])]), Leaf(f)])]), t15));
  }

  lemma GroupsInChainLoop15At0(b: string, c: string, d: string, e: string, f: string, t15: seq<Token>)
    requires Head(t15) == Eof
    ensures ParseLoop(S("+", [Leaf(b), S("/", [S(")", [Leaf(c)]), S("+", [S("-", [Leaf(d), S(")", [Leaf(e)])]), Leaf(f)])])]), t15, 0) == Parsed(S("+", [Leaf(b), S("/", [S(")", [Leaf(c)]), S("+", [S("-", [Leaf(d), S(")", [Leaf(e)])]), Leaf(f)])])]), t15)
  {
    LoopEnds(S("+", [Leaf(b), S("/", [S(")", [Leaf(c)]), S("+", [S("-", [Leaf(d), S(")", [Leaf(e)])]), Leaf(f)])])]), t15, 0);
  }

  lemma GroupsInChainLoop4At0(b: string, c: string, d: string, e: string, f: string, t4: seq<Token>, t5: seq<Token>, t6: seq<Token>, t7: seq<Token>, t8: seq<Token>, t9: seq<Token>, t10: seq<Token>, t11: seq<Token>, t12: seq<Token>, t13: seq<Token>, t14: seq<Token>, t15: seq<Token>)
    requires Head(t4) == Op('+') && Head(t5) == Atom(c) && Head(t6) == Op(')') && Head(t7) == Op('/') && Head(t8) == Op('(') && Head(t9) == Atom(d) && Head(t10) == Op('-') && Head(t11) == Atom(e) && Head(t12) == Op(')') && Head(t13) == Op('+') && Head(t14) == Atom(f) && Head(t15) == Eof && Tail(t4) == t5 && Tail(t5) == t6 && Tail(t6) == t7 && Tail(t7) == t8 && Tail(t8) == t9 && Tail(t9) == t10 && Tail(t10) == t11 && Tail(t11) == t12 && Tail(t12) == t13 && Tail(t13) == t14 && Tail(t14) == t15
    ensures ParseLoop(Leaf(b), t4, 0) == Parsed(S("+", [Leaf(b), S("/", [S(")", [Leaf(c)]), S("+", [S("-", [Leaf(d), S(")", [Leaf(e)])]), Leaf(f)])])]), t15)
  {
    TableEntries();
    GroupsInChainFrom5(c, d, e, f, t5, t6, t7, t8, t9, t10, t11, t12, t13, t14, t15);
    GroupsInChainLoop15At0(b, c, d, e, f, t15);
    InfixThen(Leaf(b), t4, t5, 0, '+', "+", 6, S("/", [S(")", [Leaf(c)]), S("+", [S("-", [Leaf(d), S(")", [Leaf(e)])]), Leaf(f)])]), t15, Parsed(S("+", [Leaf(b), S("/", [S(")", [Leaf(c)]), S("+", [S("-", [Leaf(d), S(")", [Leaf(e)])]), Leaf(f)])])]), t15));
  }

  lemma GroupsInChainFrom3(b: string, c: string, d: string, e: string, f: string, t3: seq<Token>, t4: seq<Token>, t5: seq<Token>, t6: seq<Token>, t7: seq<Token>, t8: seq<Token>, t9: seq<Token>, t10: seq<Token>, t11: seq<Token>, t12: seq<Token>, t13: seq<Token>, t14: seq<Token>, t15: seq<Token>)
    requires Head(t3) == Atom(b) && Head(t4) == Op('+') && Head(t5) == Atom(c) && Head(t6) == Op(')') && Head(t7) == Op('/') && Head(t8) == Op('(') && Head(t9) == Atom(d) && Head(t10) == Op('-') && Head(t11) == Atom(e) && Head(t12) == Op(')') && Head(t13) == Op('+') && Head(t14) == Atom(f) && Head(t15) == Eof && Tail(t3) == t4 && Tail(t4) == t5 && Tail(t5) == t6 && Tail(t6) == t7 && Tail(t7) == t8 && Tail(t8) == t9 && Tail(t9) == t10 && Tail(t10) == t11 && Tail(t11) == t12 && Tail(t12) == t13 && Tail(t13) == t14 && Tail(t14) == t15
    ensures Parse(t3, 0) == Parsed(S("+", [Leaf(b), S("/", [S(")", [Leaf(c)]), S("+", [S("-", [Leaf(d), S(")", [Leaf(e)])]), Leaf(f)])])]), t15)
  {
    GroupsInChainLoop4At0(b, c, d, e, f, t4, t5, t6, t7, t8, t9, t10, t11, t12, t13, t14, t15);
    AtomThen(t3, t4, 0, b, Parsed(S("+", [Leaf(b), S("/", [S(")", [Leaf(c)]), S("+", [S("-", [Leaf(d), S(")", [Leaf(e)])]), Leaf(f)])])]), t15));
  }

  lemma GroupsInChainLoop15At8(b: string, c: string, d: string, e: string, f: string, t15: seq<Token>)
    requires Head(t15) == Eof
    ensures ParseLoop(S("+", [Leaf(b), S("/", [S(")", [Leaf(c)]), S("+", [S("-", [Leaf(d), S(")", [Leaf(e)])]), Leaf(f)])])]), t15, 8) == Parsed(S("+", [Leaf(b), S("/", [S(")", [Leaf(c)]), S("+", [S("-", [Leaf(d), S(")", [Leaf(e)])]), Leaf(f)])])]), t15)
  {
    LoopEnds(S("+", [Leaf(b), S("/", [S(")", [Leaf(c)]), S("+", [S("-", [Leaf(d), S(")", [Leaf(e)])]), Leaf(f)])])]), t15, 8);
  }

  lemma GroupsInChainFrom2(b: string, c: string, d: string, e: string, f: string, t2: seq<Token>, t3: seq<Token>, t4: seq<Token>, t5: seq<Token>, t6: seq<Token>, t7: seq<Token>, t8: seq<Token>, t9: seq<Token>, t10: seq<Token>, t11: seq<Token>, t12: seq<Token>, t13: seq<Token>, t14: seq<Token>, t15: seq<Token>)
    requires Head(t2) == Op('(') && Head(t3) == Atom(b) && Head(t4) == Op('+') && Head(t5) == Atom(c) && Head(t6) == Op(')') && Head(t7) == Op('/') && Head(t8) == Op('(') && Head(t9) == Atom(d) && Head(t10) == Op('-') && Head(t11) == Atom(e) && Head(t12) == Op(')') && Head(t13) == Op('+') && Head(t14) == Atom(f) && Head(t15) == Eof && Tail(t2) == t3 && Tail(t3) == t4 && Tail(t4) == t5 && Tail(t5) == t6 && Tail(t6) == t7 && Tail(t7) == t8 && Tail(t8) == t9 && Tail(t9) == t10 && Tail(t10) == t11 && Tail(t11) == t12 && Tail(t12) == t13 && Tail(t13) == t14 && Tail(t14) == t15
    ensures Parse(t2, 8) == Parsed(S("+", [Leaf(b), S("/", [S(")", [Leaf(c)]), S("+", [S("-", [Leaf(d), S(")", [Leaf(e)])]), Leaf(f)])])]), t15)
  {
    GroupsInChainFrom3(b, c, d, e, f, t3, t4, t5, t6, t7, t8, t9, t10, t11, t12, t13, t14, t15);
    GroupsInChainLoop15At8(b, c, d, e, f, t15);
    GroupThen(t2, t3, 8, S("+", [Leaf(b), S("/", [S(")", [Leaf(c)]), S("+", [S("-", [Leaf(d), S(")", [Leaf(e)])]), Leaf(f)])])]), t15, Parsed(S("+", [Leaf(b), S("/", [S(")", [Leaf(c)]), S("+", [S("-", [Leaf(d), S(")", [Leaf(e)])]), Leaf(f)])])]), t15));
  }

  lemma GroupsInChainLoop15At0Outer(a: string, b: string, c: string, d: string, e: string, f: string, t15: seq<Token>)
    requires Head(t15) == Eof
    ensures ParseLoop(S("*", [Leaf(a), S("+", [Leaf(b), S("/", [S(")", [Leaf(c)]), S("+", [S("-", [Leaf(d), S(")", [Leaf(e)])]), Leaf(f)])])])]), t15, 0) == Parsed(S("*", [Leaf(a), S("+", [Leaf(b), S("/", [S(")", [Leaf(c)]), S("+", [S("-", [Leaf(d), S(")", [Leaf(e)])]), Leaf(f)])])])]), t15)
  {
    LoopEnds(S("*", [Leaf(a), S("+", [Leaf(b), S("/", [S(")", [Leaf(c)]), S("+", [S("-", [Leaf(d), S(")", [Leaf(e)])]), Leaf(f)])])])]), t15, 0);
  }

  lemma GroupsInChainLoop1At0(a: string, b: string, c: string, d: string, e: string, f: string, t1: seq<Token>, t2: seq<Token>, t3: seq<Token>, t4: seq<Token>, t5: seq<Token>, t6: seq<Token>, t7: seq<Token>, t8: seq<Token>, t9: seq<Token>, t10: seq<Token>, t11: seq<Token>, t12: seq<Token>, t13: seq<Token>, t14: seq<Token>, t15: seq<Token>)
    requires Head(t1) == Op('*') && Head(t2) == Op('(') && Head(t3) == Atom(b) && Head(t4) == Op('+') && Head(t5) == Atom(c) && Head(t6) == Op(')') && Head(t7) == Op('/') && Head(t8) == Op('(') && Head(t9) == Atom(d) && Head(t10) == Op('-') && Head(t11) == Atom(e) && Head(t12) == Op(')') && Head(t13) == Op('+') && Head(t14) == Atom(f) && Head(t15) == Eof && Tail(t1) == t2 && Tail(t2) == t3 && Tail(t3) == t4 && Tail(t4) == t5 && Tail(t5) == t6 && Tail(t6) == t7 && Tail(t7) == t8 && Tail(t8) == t9 && Tail(t9) == t10 && Tail(t10) == t11 && Tail(t11) == t12 && Tail(t12) == t13 && Tail(t13) == t14 && Tail(t14) == t15
    ensures ParseLoop(Leaf(a), t1, 0) == Parsed(S("*", [Leaf(a), S("+", [Leaf(b), S("/", [S(")", [Leaf(c)]), S("+", [S("-", [Leaf(d), S(")", [Leaf(e)])]), Leaf(f)])])])]), t15)
  {
    TableEntries();
    GroupsInChainFrom2(b, c, d, e, f, t2, t3, t4, t5, t6, t7, t8, t9, t10, t11, t12, t13, t14, t15);
    GroupsInChainLoop15At0Outer(a, b, c, d, e, f, t15);
    InfixThen(Leaf(a), t1, t2, 0, '*', "*", 8, S("+", [Leaf(b), S("/", [S(")", [Leaf(c)]), S("+", [S("-", [Leaf(d), S(")", [Leaf(e)])]), Leaf(f)])])]), t15, Parsed(S("*", [Leaf(a), S("+", [Leaf(b), S("/", [S(")", [Leaf(c)]), S("+", [S("-", [Leaf(d), S(")", [Leaf(e)])]), Leaf(f)])])])]), t15));
  }

  lemma GroupsInChainStream0(a: string, b: string, c: string, d: string, e: string, f: string, ts: seq<Token>)
    requires ts == [Atom(a), Op('*'), Op('('), Atom(b), Op('+'), Atom(c), Op(')'), Op('/'), Op('('), Atom(d), Op('-'), Atom(e), Op(')'), Op('+'), Atom(f)] + [Eof]
    ensures Head(ts) == Atom(a) && Head(ts[1..]) == Op('*') && Head(ts[2..]) == Op('(') && Head(ts[3..]) == Atom(b) && Head(ts[4..]) == Op('+') && Tail(ts) == ts[1..] && Tail(ts[1..]) == ts[2..] && Tail(ts[2..]) == ts[3..] && Tail(ts[3..]) == ts[4..] && Tail(ts[4..]) == ts[5..]
  {
    assert ts[0..] == ts;
    Suffixes(ts, 0);
    Suffixes(ts, 1);
    Suffixes(ts, 2);
    Suffixes(ts, 3);
    Suffixes(ts, 4);
  }

  lemma GroupsInChainStream1(a: string, b: string, c: string, d: string, e: string, f: string, ts: seq<Token>)
    requires ts == [Atom(a), Op('*'), Op('('), Atom(b), Op('+'), Atom(c), Op(')'), Op('/'), Op('('), Atom(d), Op('-'), Atom(e), Op(')'), Op('+'), Atom(f)] + [Eof]
    ensures Head(ts[5..]) == Atom(c) && Head(ts[6..]) == Op(')') && Head(ts[7..]) == Op('/') && Head(ts[8..]) == Op('(') && Head(ts[9..]) == Atom(d) && Tail(ts[5..]) == ts[6..] && Tail(ts[6..]) == ts[7..] && Tail(ts[7..]) == ts[8..] && Tail(ts[8..]) == ts[9..] && Tail(ts[9..]) == ts[10..]
  {
    Suffixes(ts, 5);
    Suffixes(ts, 6);
    Suffixes(ts, 7);
    Suffixes(ts, 8);
    Suffixes(ts, 9);
  }

  lemma GroupsInChainStream2(a: string, b: string, c: string, d: string, e: string, f: string, ts: seq<Token>)
    requires ts == [Atom(a), Op('*'), Op('('), Atom(b), Op('+'), Atom(c), Op(')'), Op('/'), Op('('), Atom(d), Op('-'), Atom(e), Op(')'), Op('+'), Atom(f)] + [Eof]
    ensures Head(ts[10..]) == Op('-') && Head(ts[11..]) == Atom(e) && Head(ts[12..]) == Op(')') && Head(ts[13..]) == Op('+') && Head(ts[14..]) == Atom(f) && Tail(ts[10..]) == ts[11..] && Tail(ts[11..]) == ts[12..] && Tail(ts[12..]) == ts[13..] && Tail(ts[13..]) == ts[14..] && Tail(ts[14..]) == ts[15..]
  {
    Suffixes(ts, 10);
    Suffixes(ts, 11);
    Suffixes(ts, 12);
    Suffixes(ts, 13);
    Suffixes(ts, 14);
  }

  lemma GroupsInChainStream3(a: string, b: string, c: string, d: string, e: string, f: string, ts: seq<Token>)
    requires ts == [Atom(a), Op('*'), Op('('), Atom(b), Op('+'), Atom(c), Op(')'), Op('/'), Op('('), Atom(d), Op('-'), Atom(e), Op(')'), Op('+'), Atom(f)] + [Eof]
    ensures Head(ts[15..]) == Eof
  {
    Suffixes(ts, 15);
  }

  lemma GroupsInChainFrom0(a: string, b: string, c: string, d: string, e: string, f: string, t0: seq<Token>, t1: seq<Token>, t2: seq<Token>, t3: seq<Token>, t4: seq<Token>, t5: seq<Token>, t6: seq<Token>, t7: seq<Token>, t8: seq<Token>, t9: seq<Token>, t10: seq<Token>, t11: seq<Token>, t12: seq<Token>, t13: seq<Token>, t14: seq<Token>, t15: seq<Token>)
    requires Head(t0) == Atom(a) && Head(t1) == Op('*') && Head(t2) == Op('(') && Head(t3) == Atom(b) && Head(t4) == Op('+') && Head(t5) == Atom(c) && Head(t6) == Op(')') && Head(t7) == Op('/') && Head(t8) == Op('(') && Head(t9) == Atom(d) && Head(t10) == Op('-') && Head(t11) == Atom(e) && Head(t12) == Op(')') && Head(t13) == Op('+') && Head(t14) == Atom(f) && Head(t15) == Eof && Tail(t0) == t1 && Tail(t1) == t2 && Tail(t2) == t3 && Tail(t3) == t4 && Tail(t4) == t5 && Tail(t5) == t6 && Tail(t6) == t7 && Tail(t7) == t8 && Tail(t8) == t9 && Tail(t9) == t10 && Tail(t10) == t11 && Tail(t11) == t12 && Tail(t12) == t13 && Tail(t13) == t14 && Tail(t14) == t15
    ensures Parse(t0, 0) == Parsed(S("*", [Leaf(a), S("+", [Leaf(b), S("/", [S(")", [Leaf(c)]), S("+", [S("-", [Leaf(d), S(")", [Leaf(e)])]), Leaf(f)])])])]), t15)
  {
    GroupsInChainLoop1At0(a, b, c, d, e, f, t1, t2, t3, t4, t5, t6, t7, t8, t9, t10, t11, t12, t13, t14, t15);
    AtomThen(t0, t1, 0, a, Parsed(S("*", [Leaf(a), S("+", [Leaf(b), S("/", [S(")", [Leaf(c)]), S("+", [S("-", [Leaf(d), S(")", [Leaf(e)])]), Leaf(f)])])])]), t15));
  }

  lemma GroupsInChainText(a: string, b: string, c: string, d: string, e: string, f: string)
    ensures ToString(S("*", [Leaf(a), S("+", [Leaf(b), S("/", [S(")", [Leaf(c)]), S("+", [S("-", [Leaf(d), S(")", [Leaf(e)])]), Leaf(f)])])])])) == a + " " + (b + " " + ((c + " " + ")") + " " + ((d + " " + (e + " " + ")") + " " + "-") + " " + f + " " + "+") + " " + "/") + " " + "+") + " " + "*"
  {
    ToStringOfUnary(")", Leaf(c));
    ToStringOfUnary(")", Leaf(e));
    ToStringOfBinary("-", Leaf(d), S(")", [Leaf(e)]));
    ToStringOfBinary("+", S("-", [Leaf(d), S(")", [Leaf(e)])]), Leaf(f));
    ToStringOfBinary("/", S(")", [Leaf(c)]), S("+", [S("-", [Leaf(d), S(")", [Leaf(e)])]), Leaf(f)]));
    ToStringOfBinary("+", Leaf(b), S("/", [S(")", [Leaf(c)]), S("+", [S("-", [Leaf(d), S(")", [Leaf(e)])]), Leaf(f)])]));
    ToStringOfBinary("*", Leaf(a), S("+", [Leaf(b), S("/", [S(")", [Leaf(c)]), S("+", [S("-", [Leaf(d), S(")", [Leaf(e)])]), Leaf(f)])])]));
  }

  /** `42 * (35 + 12) / (7 - 3) + 8`: `42 35 12 ) 7 3 ) - 8 + / + *`; the source expects `42 35 12 + * 7 3 - / 8 +`. */
  lemma GroupsInChain(a: string, b: string, c: string, d: string, e: string, f: string)
    ensures TokensRenderAs([Atom(a), Op('*'), Op('('), Atom(b), Op('+'), Atom(c), Op(')'), Op('/'), Op('('), Atom(d), Op('-'), Atom(e), Op(')'), Op('+'), Atom(f)], a + " " + (b + " " + ((c + " " + ")") + " " + ((d + " " + (e + " " + ")") + " " + "-") + " " + f + " " + "+") + " " + "/") + " " + "+") + " " + "*")
  {
    var t0 := [Atom(a), Op('*'), Op('('), Atom(b), Op('+'), Atom(c), Op(')'), Op('/'), Op('('), Atom(d), Op('-'), Atom(e), Op(')'), Op('+'), Atom(f)] + [Eof];
    var t1 := t0[1..];
    var t2 := t0[2..];
    var t3 := t0[3..];
    var t4 := t0[4..];
    var t5 := t0[5..];
    var t6 := t0[6..];
    var t7 := t0[7..];
    var t8 := t0[8..];
    var t9 := t0[9..];
    var t10 := t0[10..];
    var t11 := t0[11..];
    var t12 := t0[12..];
    var t13 := t0[13..];
    var t14 := t0[14..];
    var t15 := t0[15..];
    GroupsInChainStream0(a, b, c, d, e, f, t0);
    GroupsInChainStream1(a, b, c, d, e, f, t0);
    GroupsInChainStream2(a, b, c, d, e, f, t0);
    GroupsInChainStream3(a, b, c, d, e, f, t0);
    GroupsInChainFrom0(a, b, c, d, e, f, t0, t1, t2, t3, t4, t5, t6, t7, t8, t9, t10, t11, t12, t13, t14, t15);
    GroupsInChainText(a, b, c, d, e, f);
  }

  /** `-3`: `3 -`. */
  lemma Negation(a: string)
    ensures TokensRenderAs([Op('-'), Atom(a)], a + " " + "-")
  {
    TableEntries();
    var t2: seq<Token> := [Eof];
    var t1 := [Atom(a)] + t2;
    var t0 := [Op('-')] + t1;
    assert Tail(t0) == t1 && Tail(t1) == t2;
    assert [Op('-'), Atom(a)] + [Eof] == t0;
    LoopEnds(Leaf(a), t2, 9);
    AtomThen(t1, t2, 9, a, Parsed(Leaf(a), t2));
    LoopEnds(S("-", [Leaf(a)]), t2, 0);
    PrefixThen(t0, t1, 0, '-', "-", 9, Leaf(a), t2, Parsed(S("-", [Leaf(a)]), t2));
    ToStringOfUnary("-", Leaf(a));
  }

  /** `+42`: `42 +`. */
  lemma UnaryPlus(a: string)
    ensures TokensRenderAs([Op('+'), Atom(a)], a + " " + "+")
  {
    TableEntries();
    var t2: seq<Token> := [Eof];
    var t1 := [Atom(a)] + t2;
    var t0 := [Op('+')] + t1;
    assert Tail(t0) == t1 && Tail(t1) == t2;
    assert [Op('+'), Atom(a)] + [Eof] == t0;
    LoopEnds(Leaf(a), t2, 9);
    AtomThen(t1, t2, 9, a, Parsed(Leaf(a), t2));
    LoopEnds(S("+", [Leaf(a)]), t2, 0);
    PrefixThen(t0, t1, 0, '+', "+", 9, Leaf(a), t2, Parsed(S("+", [Leaf(a)]), t2));
    ToStringOfUnary("+", Leaf(a));
  }

  lemma NegationThenSumText(a: string, b: string)
    ensures ToString(S("+", [S("-", [Leaf(a)]), Leaf(b)])) == (a + " " + "-") + " " + b + " " + "+"
  {
    ToStringOfUnary("-", Leaf(a));
    ToStringOfBinary("+", S("-", [Leaf(a)]), Leaf(b));
  }

  /** `-3 + 4`: `3 - 4 +`. */
  lemma NegationThenSum(a: string, b: string)
    ensures TokensRenderAs([Op('-'), Atom(a), Op('+'), Atom(b)], (a + " " + "-") + " " + b + " " + "+")
  {
    TableEntries();
    var t4: seq<Token> := [Eof];
    var t3 := [Atom(b)] + t4;
    var t2 := [Op('+')] + t3;
    var t1 := [Atom(a)] + t2;
    var t0 := [Op('-')] + t1;
    assert Tail(t0) == t1 && Tail(t1) == t2 && Tail(t2) == t3 && Tail(t3) == t4;
    assert [Op('-'), Atom(a), Op('+'), Atom(b)] + [Eof] == t0;
    LoopStops(Leaf(a), t2, 9, '+');
    AtomThen(t1, t2, 9, a, Parsed(Leaf(a), t2));
    LoopEnds(Leaf(b), t4, 6);
    AtomThen(t3, t4, 6, b, Parsed(Leaf(b), t4));
    LoopEnds(S("+", [S("-", [Leaf(a)]), Leaf(b)]), t4, 0);
    InfixThen(S("-", [Leaf(a)]), t2, t3, 0, '+', "+", 6, Leaf(b), t4, Parsed(S("+", [S("-", [Leaf(a)]), Leaf(b)]), t4));
    PrefixThen(t0, t1, 0, '-', "-", 9, Leaf(a), t2, Parsed(S("+", [S("-", [Leaf(a)]), Leaf(b)]), t4));
    NegationThenSumText(a, b);
  }

  lemma NegationTimesGroupLoop2At0(a: string, b: string, c: string, t2: seq<Token>, t3: seq<Token>, t4: seq<Token>, t5: seq<Token>, t6: seq<Token>, t7: seq<Token>, t8: seq<Token>)
    requires Head(t2) == Op('*') && Head(t3) == Op('(') && Head(t4) == Atom(b) && Head(t5) == Op('+') && Head(t6) == Atom(c) && Head(t7) == Op(')') && Head(t8) == Eof && Tail(t2) == t3 && Tail(t3) == t4 && Tail(t4) == t5 && Tail(t5) == t6 && Tail(t6) == t7 && Tail(t7) == t8
    ensures ParseLoop(S("-", [Leaf(a)]), t2, 0) == Parsed(S("*", [S("-", [Leaf(a)]), S("+", [Leaf(b), S(")", [Leaf(c)])])]), t8)
  {
    TableEntries();
    LoopEnds(S(")", [Leaf(c)]), t8, 6);
    PostfixThen(Leaf(c), t7, t8, 6, ')', ")", Parsed(S(")", [Leaf(c)]), t8));
    AtomThen(t6, t7, 6, c, Parsed(S(")", [Leaf(c)]), t8));
    LoopEnds(S("+", [Leaf(b), S(")", [Leaf(c)])]), t8, 0);
    InfixThen(Leaf(b), t5, t6, 0, '+', "+", 6, S(")", [Leaf(c)]), t8, Parsed(S("+", [Leaf(b), S(")", [Leaf(c)])]), t8));
    AtomThen(t4, t5, 0, b, Parsed(S("+", [Leaf(b), S(")", [Leaf(c)])]), t8));
    LoopEnds(S("+", [Leaf(b), S(")", [Leaf(c)])]), t8, 8);
    GroupThen(t3, t4, 8, S("+", [Leaf(b), S(")", [Leaf(c)])]), t8, Parsed(S("+", [Leaf(b), S(")", [Leaf(c)])]), t8));
    LoopEnds(S("*", [S("-", [Leaf(a)]), S("+", [Leaf(b), S(")", [Leaf(c)])])]), t8, 0);
    InfixThen(S("-", [Leaf(a)]), t2, t3, 0, '*', "*", 8, S("+", [Leaf(b), S(")", [Leaf(c)])]), t8, Parsed(S("*", [S("-", [Leaf(a)]), S("+", [Leaf(b), S(")", [Leaf(c)])])]), t8));
  }

  lemma NegationTimesGroupStream0(a: string, b: string, c: string, ts: seq<Token>)
    requires ts == [Op('-'), Atom(a), Op('*'), Op('('), Atom(b), Op('+'), Atom(c), Op(')')] + [Eof]
    ensures Head(ts) == Op('-') && Head(ts[1..]) == Atom(a) && Head(ts[2..]) == Op('*') && Head(ts[3..]) == Op('(') && Head(ts[4..]) == Atom(b) && Tail(ts) == ts[1..] && Tail(ts[1..]) == ts[2..] && Tail(ts[2..]) == ts[3..] && Tail(ts[3..]) == ts[4..] && Tail(ts[4..]) == ts[5..]
  {
    assert ts[0..] == ts;
    Suffixes(ts, 0);
    Suffixes(ts, 1);
    Suffixes(ts, 2);
    Suffixes(ts, 3);
    Suffixes(ts, 4);
  }

  lemma NegationTimesGroupStream1(a: string, b: string, c: string, ts: seq<Token>)
    requires ts == [Op('-'), Atom(a), Op('*'), Op('('), Atom(b), Op('+'), Atom(c), Op(')')] + [Eof]
    ensures Head(ts[5..]) == Op('+') && Head(ts[6..]) == Atom(c) && Head(ts[7..]) == Op(')') && Head(ts[8..]) == Eof && Tail(ts[5..]) == ts[6..] && Tail(ts[6..]) == ts[7..] && Tail(ts[7..]) == ts[8..]
  {
    Suffixes(ts, 5);
    Suffixes(ts, 6);
    Suffixes(ts, 7);
    Suffixes(ts, 8);
  }

  lemma NegationTimesGroupFrom0(a: string, b: string, c: string, t0: seq<Token>, t1: seq<Token>, t2: seq<Token>, t3: seq<Token>, t4: seq<Token>, t5: seq<Token>, t6: seq<Token>, t7: seq<Token>, t8: seq<Token>)
    requires Head(t0) == Op('-') && Head(t1) == Atom(a) && Head(t2) == Op('*') && Head(t3) == Op('(') && Head(t4) == Atom(b) && Head(t5) == Op('+') && Head(t6) == Atom(c) && Head(t7) == Op(')') && Head(t8) == Eof && Tail(t0) == t1 && Tail(t1) == t2 && Tail(t2) == t3 && Tail(t3) == t4 && Tail(t4) == t5 && Tail(t5) == t6 && Tail(t6) == t7 && Tail(t7) == t8
    ensures Parse(t0, 0) == Parsed(S("*", [S("-", [Leaf(a)]), S("+", [Leaf(b), S(")", [Leaf(c)])])]), t8)
  {
    TableEntries();
    LoopStops(Leaf(a), t2, 9, '*');
    AtomThen(t1, t2, 9, a, Parsed(Leaf(a), t2));
    NegationTimesGroupLoop2At0(a, b, c, t2, t3, t4, t5, t6, t7, t8);
    PrefixThen(t0, t1, 0, '-', "-", 9, Leaf(a), t2, Parsed(S("*", [S("-", [Leaf(a)]), S("+", [Leaf(b), S(")", [Leaf(c)])])]), t8));
  }

  lemma NegationTimesGroupText(a: string, b: string, c: string)
    ensures ToString(S("*", [S("-", [Leaf(a)]), S("+", [Leaf(b), S(")", [Leaf(c)])])])) == (a + " " + "-") + " " + (b + " " + (c + " " + ")") + " " + "+") + " " + "*"
  {
    ToStringOfUnary("-", Leaf(a));
    ToStringOfUnary(")", Leaf(c));
    ToStringOfBinary("+", Leaf(b), S(")", [Leaf(c)]));
    ToStringOfBinary("*", S("-", [Leaf(a)]), S("+", [Leaf(b), S(")", [Leaf(c)])]));
  }

  /** `-3 * (4 + 2)`: `3 - 4 2 ) + *`; the source expects `3 - 4 2 + *`. */
  lemma NegationTimesGroup(a: string, b: string, c: string)
    ensures TokensRenderAs([Op('-'), Atom(a), Op('*'), Op('('), Atom(b), Op('+'), Atom(c), Op(')')], (a + " " + "-") + " " + (b + " " + (c + " " + ")") + " " + "+") + " " + "*")
  {
    var t0 := [Op('-'), Atom(a), Op('*'), Op('('), Atom(b), Op('+'), Atom(c), Op(')')] + [Eof];
    var t1 := t0[1..];
    var t2 := t0[2..];
    var t3 := t0[3..];
    var t4 := t0[4..];
    var t5 := t0[5..];
    var t6 := t0[6..];
    var t7 := t0[7..];
    var t8 := t0[8..];
    NegationTimesGroupStream0(a, b, c, t0);
    NegationTimesGroupStream1(a, b, c, t0);
    NegationTimesGroupFrom0(a, b, c, t0, t1, t2, t3, t4, t5, t6, t7, t8);
    NegationTimesGroupText(a, b, c);
  }

  lemma RedundantParenthesesFrom1(a: string, t1: seq<Token>, t2: seq<Token>, t3: seq<Token>, t4: seq<Token>, t5: seq<Token>, t6: seq<Token>, t7: seq<Token>)
    requires Head(t1) == Op('(') && Head(t2) == Op('(') && Head(t3) == Atom(a) && Head(t4) == Op(')') && Head(t5) == Op(')') && Head(t6) == Op(')') && Head(t7) == Eof && Tail(t1) == t2 && Tail(t2) == t3 && Tail(t3) == t4 && Tail(t4) == t5 && Tail(t5) == t6 && Tail(t6) == t7
    ensures Parse(t1, 0) == Parsed(S(")", [S(")", [S(")", [Leaf(a)])])]), t7)
  {
    TableEntries();
    LoopEnds(S(")", [S(")", [S(")", [Leaf(a)])])]), t7, 0);
    PostfixThen(S(")", [S(")", [Leaf(a)])]), t6, t7, 0, ')', ")", Parsed(S(")", [S(")", [S(")", [Leaf(a)])])]), t7));
    PostfixThen(S(")", [Leaf(a)]), t5, t6, 0, ')', ")", Parsed(S(")", [S(")", [S(")", [Leaf(a)])])]), t7));
    PostfixThen(Leaf(a), t4, t5, 0, ')', ")", Parsed(S(")", [S(")", [S(")", [Leaf(a)])])]), t7));
    AtomThen(t3, t4, 0, a, Parsed(S(")", [S(")", [S(")", [Leaf(a)])])]), t7));
    LoopEnds(S(")", [S(")", [S(")", [Leaf(a)])])]), t7, 0);
    GroupThen(t2, t3, 0, S(")", [S(")", [S(")", [Leaf(a)])])]), t7, Parsed(S(")", [S(")", [S(")", [Leaf(a)])])]), t7));
    LoopEnds(S(")", [S(")", [S(")", [Leaf(a)])])]), t7, 0);
    GroupThen(t1, t2, 0, S(")", [S(")", [S(")", [Leaf(a)])])]), t7, Parsed(S(")", [S(")", [S(")", [Leaf(a)])])]), t7));
  }

  lemma RedundantParenthesesStream0(a: string, ts: seq<Token>)
    requires ts == [Op('('), Op('('), Op('('), Atom(a), Op(')'), Op(')'), Op(')')] + [Eof]
    ensures Head(ts) == Op('(') && Head(ts[1..]) == Op('(') && Head(ts[2..]) == Op('(') && Head(ts[3..]) == Atom(a) && Head(ts[4..]) == Op(')') && Tail(ts) == ts[1..] && Tail(ts[1..]) == ts[2..] && Tail(ts[2..]) == ts[3..] && Tail(ts[3..]) == ts[4..] && Tail(ts[4..]) == ts[5..]
  {
    assert ts[0..] == ts;
    Suffixes(ts, 0);
    Suffixes(ts, 1);
    Suffixes(ts, 2);
    Suffixes(ts, 3);
    Suffixes(ts, 4);
  }

  lemma RedundantParenthesesStream1(a: string, ts: seq<Token>)
    requires ts == [Op('('), Op('('), Op('('), Atom(a), Op(')'), Op(')'), Op(')')] + [Eof]
    ensures Head(ts[5..]) == Op(')') && Head(ts[6..]) == Op(')') && Head(ts[7..]) == Eof && Tail(ts[5..]) == ts[6..] && Tail(ts[6..]) == ts[7..]
  {
    Suffixes(ts, 5);
    Suffixes(ts, 6);
    Suffixes(ts, 7);
  }

  lemma RedundantParenthesesFrom0(a: string, t0: seq<Token>, t1: seq<Token>, t2: seq<Token>, t3: seq<Token>, t4: seq<Token>, t5: seq<Token>, t6: seq<Token>, t7: seq<Token>)
    requires Head(t0) == Op('(') && Head(t1) == Op('(') && Head(t2) == Op('(') && Head(t3) == Atom(a) && Head(t4) == Op(')') && Head(t5) == Op(')') && Head(t6) == Op(')') && Head(t7) == Eof && Tail(t0) == t1 && Tail(t1) == t2 && Tail(t2) == t3 && Tail(t3) == t4 && Tail(t4) == t5 && Tail(t5) == t6 && Tail(t6) == t7
    ensures Parse(t0, 0) == Parsed(S(")", [S(")", [S(")", [Leaf(a)])])]), t7)
  {
    RedundantParenthesesFrom1(a, t1, t2, t3, t4, t5, t6, t7);
    LoopEnds(S(")", [S(")", [S(")", [Leaf(a)])])]), t7, 0);
    GroupThen(t0, t1, 0, S(")", [S(")", [S(")", [Leaf(a)])])]), t7, Parsed(S(")", [S(")", [S(")", [Leaf(a)])])]), t7));
  }

  lemma RedundantParenthesesText(a: string)
    ensures ToString(S(")", [S(")", [S(")", [Leaf(a)])])])) == ((a + " " + ")") + " " + ")") + " " + ")"
  {
    ToStringOfUnary(")", Leaf(a));
    ToStringOfUnary(")", S(")", [Leaf(a)]));
    ToStringOfUnary(")", S(")", [S(")", [Leaf(a)])]));
  }

  /** `(((3)))`: `3 ) ) )`; the source expects `3`. */
  lemma RedundantParentheses(a: string)
    ensures TokensRenderAs([Op('('), Op('('), Op('('), Atom(a), Op(')'), Op(')'), Op(')')], ((a + " " + ")") + " " + ")") + " " + ")")
  {
    var t0 := [Op('('), Op('('), Op('('), Atom(a), Op(')'), Op(')'), Op(')')] + [Eof];
    var t1 := t0[1..];
    var t2 := t0[2..];
    var t3 := t0[3..];
    var t4 := t0[4..];
    var t5 := t0[5..];
    var t6 := t0[6..];
    var t7 := t0[7..];
    RedundantParenthesesStream0(a, t0);
    RedundantParenthesesStream1(a, t0);
    RedundantParenthesesFrom0(a, t0, t1, t2, t3, t4, t5, t6, t7);
    RedundantParenthesesText(a);
  }

  lemma NestedRightGroupsLoop5At0(b: string, c: string, t5: seq<Token>, t6: seq<Token>, t7: seq<Token>, t8: seq<Token>, t9: seq<Token>, t10: seq<Token>, t11: seq<Token>)
    requires Head(t5) == Op('*') && Head(t6) == Op('(') && Head(t7) == Atom(c) && Head(t8) == Op(')') && Head(t9) == Op(')') && Head(t10) == Op(')') && Head(t11) == Eof && Tail(t5) == t6 && Tail(t6) == t7 && Tail(t7) == t8 && Tail(t8) == t9 && Tail(t9) == t10 && Tail(t10) == t11
    ensures ParseLoop(Leaf(b), t5, 0) == Parsed(S("*", [Leaf(b), S(")", [S(")", [S(")", [Leaf(c)])])])]), t11)
  {
    TableEntries();
    LoopEnds(S(")", [S(")", [S(")", [Leaf(c)])])]), t11, 0);
    PostfixThen(S(")", [S(")", [Leaf(c)])]), t10, t11, 0, ')', ")", Parsed(S(")", [S(")", [S(")", [Leaf(c)])])]), t11));
    PostfixThen(S(")", [Leaf(c)]), t9, t10, 0, ')', ")", Parsed(S(")", [S(")", [S(")", [Leaf(c)])])]), t11));
    PostfixThen(Leaf(c), t8, t9, 0, ')', ")", Parsed(S(")", [S(")", [S(")", [Leaf(c)])])]), t11));
    AtomThen(t7, t8, 0, c, Parsed(S(")", [S(")", [S(")", [Leaf(c)])])]), t11));
    LoopEnds(S(")", [S(")", [S(")", [Leaf(c)])])]), t11, 8);
    GroupThen(t6, t7, 8, S(")", [S(")", [S(")", [Leaf(c)])])]), t11, Parsed(S(")", [S(")", [S(")", [Leaf(c)])])]), t11));
    LoopEnds(S("*", [Leaf(b), S(")", [S(")", [S(")", [Leaf(c)])])])]), t11, 0);
    InfixThen(Leaf(b), t5, t6, 0, '*', "*", 8, S(")", [S(")", [S(")", [Leaf(c)])])]), t11, Parsed(S("*", [Leaf(b), S(")", [S(")", [S(")", [Leaf(c)])])])]), t11));
  }

  lemma NestedRightGroupsFrom4(b: string, c: string, t4: seq<Token>, t5: seq<Token>, t6: seq<Token>, t7: seq<Token>, t8: seq<Token>, t9: seq<Token>, t10: seq<Token>, t11: seq<Token>)
    requires Head(t4) == Atom(b) && Head(t5) == Op('*') && Head(t6) == Op('(') && Head(t7) == Atom(c) && Head(t8) == Op(')') && Head(t9) == Op(')') && Head(t10) == Op(')') && Head(t11) == Eof && Tail(t4) == t5 && Tail(t5) == t6 && Tail(t6) == t7 && Tail(t7) == t8 && Tail(t8) == t9 && Tail(t9) == t10 && Tail(t10) == t11
    ensures Parse(t4, 0) == Parsed(S("*", [Leaf(b), S(")", [S(")", [S(")", [Leaf(c)])])])]), t11)
  {
    NestedRightGroupsLoop5At0(b, c, t5, t6, t7, t8, t9, t10, t11);
    AtomThen(t4, t5, 0, b, Parsed(S("*", [Leaf(b), S(")", [S(")", [S(")", [Leaf(c)])])])]), t11));
  }

  lemma NestedRightGroupsFrom3(b: string, c: string, t3: seq<Token>, t4: seq<Token>, t5: seq<Token>, t6: seq<Token>, t7: seq<Token>, t8: seq<Token>, t9: seq<Token>, t10: seq<Token>, t11: seq<Token>)
    requires Head(t3) == Op('(') && Head(t4) == Atom(b) && Head(t5) == Op('*') && Head(t6) == Op('(') && Head(t7) == Atom(c) && Head(t8) == Op(')') && Head(t9) == Op(')') && Head(t10) == Op(')') && Head(t11) == Eof && Tail(t3) == t4 && Tail(t4) == t5 && Tail(t5) == t6 && Tail(t6) == t7 && Tail(t7) == t8 && Tail(t8) == t9 && Tail(t9) == t10 && Tail(t10) == t11
    ensures Parse(t3, 6) == Parsed(S("*", [Leaf(b), S(")", [S(")", [S(")", [Leaf(c)])])])]), t11)
  {
    NestedRightGroupsFrom4(b, c, t4, t5, t6, t7, t8, t9, t10, t11);
    LoopEnds(S("*", [Leaf(b), S(")", [S(")", [S(")", [Leaf(c)])])])]), t11, 6);
    GroupThen(t3, t4, 6, S("*", [Leaf(b), S(")", [S(")", [S(")", [Leaf(c)])])])]), t11, Parsed(S("*", [Leaf(b), S(")", [S(")", [S(")", [Leaf(c)])])])]), t11));
  }

  lemma NestedRightGroupsLoop11At0(a: string, b: string, c: string, t11: seq<Token>)
    requires Head(t11) == Eof
    ensures ParseLoop(S("+", [Leaf(a), S("*", [Leaf(b), S(")", [S(")", [S(")", [Leaf(c)])])])])]), t11, 0) == Parsed(S("+", [Leaf(a), S("*", [Leaf(b), S(")", [S(")", [S(")", [Leaf(c)])])])])]), t11)
  {
    LoopEnds(S("+", [Leaf(a), S("*", [Leaf(b), S(")", [S(")", [S(")", [Leaf(c)])])])])]), t11, 0);
  }

  lemma NestedRightGroupsLoop2At0(a: string, b: string, c: string, t2: seq<Token>, t3: seq<Token>, t4: seq<Token>, t5: seq<Token>, t6: seq<Token>, t7: seq<Token>, t8: seq<Token>, t9: seq<Token>, t10: seq<Token>, t11: seq<Token>)
    requires Head(t2) == Op('+') && Head(t3) == Op('(') && Head(t4) == Atom(b) && Head(t5) == Op('*') && Head(t6) == Op('(') && Head(t7) == Atom(c) && Head(t8) == Op(')') && Head(t9) == Op(')') && Head(t10) == Op(')') && Head(t11) == Eof && Tail(t2) == t3 && Tail(t3) == t4 && Tail(t4) == t5 && Tail(t5) == t6 && Tail(t6) == t7 && Tail(t7) == t8 && Tail(t8) == t9 && Tail(t9) == t10 && Tail(t10) == t11
    ensures ParseLoop(Leaf(a), t2, 0) == Parsed(S("+", [Leaf(a), S("*", [Leaf(b), S(")", [S(")", [S(")", [Leaf(c)])])])])]), t11)
  {
    TableEntries();
    NestedRightGroupsFrom3(b, c, t3, t4, t5, t6, t7, t8, t9, t10, t11);
    NestedRightGroupsLoop11At0(a, b, c, t11);
    InfixThen(Leaf(a), t2, t3, 0, '+', "+", 6, S("*", [Leaf(b), S(")", [S(")", [S(")", [Leaf(c)])])])]), t11, Parsed(S("+", [Leaf(a), S("*", [Leaf(b), S(")", [S(")", [S(")", [Leaf(c)])])])])]), t11));
  }

  lemma NestedRightGroupsFrom1(a: string, b: string, c: string, t1: seq<Token>, t2: seq<Token>, t3: seq<Token>, t4: seq<Token>, t5: seq<Token>, t6: seq<Token>, t7: seq<Token>, t8: seq<Token>, t9: seq<Token>, t10: seq<Token>, t11: seq<Token>)
    requires Head(t1) == Atom(a) && Head(t2) == Op('+') && Head(t3) == Op('(') && Head(t4) == Atom(b) && Head(t5) == Op('*') && Head(t6) == Op('(') && Head(t7) == Atom(c) && Head(t8) == Op(')') && Head(t9) == Op(')') && Head(t10) == Op(')') && Head(t11) == Eof && Tail(t1) == t2 && Tail(t2) == t3 && Tail(t3) == t4 && Tail(t4) == t5 && Tail(t5) == t6 && Tail(t6) == t7 && Tail(t7) == t8 && Tail(t8) == t9 && Tail(t9) == t10 && Tail(t10) == t11
    ensures Parse(t1, 0) == Parsed(S("+", [Leaf(a), S("*", [Leaf(b), S(")", [S(")", [S(")", [Leaf(c)])])])])]), t11)
  {
    NestedRightGroupsLoop2At0(a, b, c, t2, t3, t4, t5, t6, t7, t8, t9, t10, t11);
    AtomThen(t1, t2, 0, a, Parsed(S("+", [Leaf(a), S("*", [Leaf(b), S(")", [S(")", [S(")", [Leaf(c)])])])])]), t11));
  }

  lemma NestedRightGroupsStream0(a: string, b: string, c: string, ts: seq<Token>)
    requires ts == [Op('('), Atom(a), Op('+'), Op('('), Atom(b), Op('*'), Op('('), Atom(c), Op(')'), Op(')'), Op(')')] + [Eof]
    ensures Head(ts) == Op('(') && Head(ts[1..]) == Atom(a) && Head(ts[2..]) == Op('+') && Head(ts[3..]) == Op('(') && Head(ts[4..]) == Atom(b) && Tail(ts) == ts[1..] && Tail(ts[1..]) == ts[2..] && Tail(ts[2..]) == ts[3..] && Tail(ts[3..]) == ts[4..] && Tail(ts[4..]) == ts[5..]
  {
    assert ts[0..] == ts;
    Suffixes(ts, 0);
    Suffixes(ts, 1);
    Suffixes(ts, 2);
    Suffixes(ts, 3);
    Suffixes(ts, 4);
  }

  lemma NestedRightGroupsStream1(a: string, b: string, c: string, ts: seq<Token>)
    requires ts == [Op('('), Atom(a), Op('+'), Op('('), Atom(b), Op('*'), Op('('), Atom(c), Op(')'), Op(')'), Op(')')] + [Eof]
    ensures Head(ts[5..]) == Op('*') && Head(ts[6..]) == Op('(') && Head(ts[7..]) == Atom(c) && Head(ts[8..]) == Op(')') && Head(ts[9..]) == Op(')') && Tail(ts[5..]) == ts[6..] && Tail(ts[6..]) == ts[7..] && Tail(ts[7..]) == ts[8..] && Tail(ts[8..]) == ts[9..] && Tail(ts[9..]) == ts[10..]
  {
    Suffixes(ts, 5);
    Suffixes(ts, 6);
    Suffixes(ts, 7);
    Suffixes(ts, 8);
    Suffixes(ts, 9);
  }

  lemma NestedRightGroupsStream2(a: string, b: string, c: string, ts: seq<Token>)
    requires ts == [Op('('), Atom(a), Op('+'), Op('('), Atom(b), Op('*'), Op('('), Atom(c), Op(')'), Op(')'), Op(')')] + [Eof]
    ensures Head(ts[10..]) == Op(')') && Head(ts[11..]) == Eof && Tail(ts[10..]) == ts[11..]
  {
    Suffixes(ts, 10);
    Suffixes(ts, 11);
  }

  lemma NestedRightGroupsFrom0(a: string, b: string, c: string, t0: seq<Token>, t1: seq<Token>, t2: seq<Token>, t3: seq<Token>, t4: seq<Token>, t5: seq<Token>, t6: seq<Token>, t7: seq<Token>, t8: seq<Token>, t9: seq<Token>, t10: seq<Token>, t11: seq<Token>)
    requires Head(t0) == Op('(') && Head(t1) == Atom(a) && Head(t2) == Op('+') && Head(t3) == Op('(') && Head(t4) == Atom(b) && Head(t5) == Op('*') && Head(t6) == Op('(') && Head(t7) == Atom(c) && Head(t8) == Op(')') && Head(t9) == Op(')') && Head(t10) == Op(')') && Head(t11) == Eof && Tail(t0) == t1 && Tail(t1) == t2 && Tail(t2) == t3 && Tail(t3) == t4 && Tail(t4) == t5 && Tail(t5) == t6 && Tail(t6) == t7 && Tail(t7) == t8 && Tail(t8) == t9 && Tail(t9) == t10 && Tail(t10) == t11
    ensures Parse(t0, 0) == Parsed(S("+", [Leaf(a), S("*", [Leaf(b), S(")", [S(")", [S(")", [Leaf(c)])])])])]), t11)
  {
    NestedRightGroupsFrom1(a, b, c, t1, t2, t3, t4, t5, t6, t7, t8, t9, t10, t11);
    NestedRightGroupsLoop11At0(a, b, c, t11);
    GroupThen(t0, t1, 0, S("+", [Leaf(a), S("*", [Leaf(b), S(")", [S(")", [S(")", [Leaf(c)])])])])]), t11, Parsed(S("+", [Leaf(a), S("*", [Leaf(b), S(")", [S(")", [S(")", [Leaf(c)])])])])]), t11));
  }

  lemma NestedRightGroupsText(a: string, b: string, c: string)
    ensures ToString(S("+", [Leaf(a), S("*", [Leaf(b), S(")", [S(")", [S(")", [Leaf(c)])])])])])) == a + " " + (b + " " + (((c + " " + ")") + " " + ")") + " " + ")") + " " + "*") + " " + "+"
  {
    ToStringOfUnary(")", Leaf(c));
    ToStringOfUnary(")", S(")", [Leaf(c)]));
    ToStringOfUnary(")", S(")", [S(")", [Leaf(c)])]));
    ToStringOfBinary("*", Leaf(b), S(")", [S(")", [S(")", [Leaf(c)])])]));
    ToStringOfBinary("+", Leaf(a), S("*", [Leaf(b), S(")", [S(")", [S(")", [Leaf(c)])])])]));
  }

  /** `(3 + (4 * (5)))`: `3 4 5 ) ) ) * +`; the source expects `3 4 5 * +`. */
  lemma NestedRightGroups(a: string, b: string, c: string)
    ensures TokensRenderAs([Op('('), Atom(a), Op('+'), Op('('), Atom(b), Op('*'), Op('('), Atom(c), Op(')'), Op(')'), Op(')')], a + " " + (b + " " + (((c + " " + ")") + " " + ")") + " " + ")") + " " + "*") + " " + "+")
  {
    var t0 := [Op('('), Atom(a), Op('+'), Op('('), Atom(b), Op('*'), Op('('), Atom(c), Op(')'), Op(')'), Op(')')] + [Eof];
    var t1 := t0[1..];
    var t2 := t0[2..];
    var t3 := t0[3..];
    var t4 := t0[4..];
    var t5 := t0[5..];
    var t6 := t0[6..];
    var t7 := t0[7..];
    var t8 := t0[8..];
    var t9 := t0[9..];
    var t10 := t0[10..];
    var t11 := t0[11..];
    NestedRightGroupsStream0(a, b, c, t0);
    NestedRightGroupsStream1(a, b, c, t0);
    NestedRightGroupsStream2(a, b, c, t0);
    NestedRightGroupsFrom0(a, b, c, t0, t1, t2, t3, t4, t5, t6, t7, t8, t9, t10, t11);
    NestedRightGroupsText(a, b, c);
  }

  /** `3 + 4 - 5`: `3 4 + 5 -`. */
  lemma SumsGroupLeft(a: string, b: string, c: string)
    ensures TokensRenderAs([Atom(a), Op('+'), Atom(b), Op('-'), Atom(c)], (a + " " + b + " " + "+") + " " + c + " " + "-")
  {
    var ts := [Atom(a), Op('+'), Atom(b), Op('-'), Atom(c)] + [Eof];
    assert Parse(ts, 0) == Parsed(S("-", [S("+", [Leaf(a), Leaf(b)]), Leaf(c)]), [Eof]) by {
      assert ts == [Atom(a), Op('+'), Atom(b), Op('-'), Atom(c), Eof];
      TableEntries();
      Precedence.InfixGrouping(a, '+', b, '-', c);
    }
    assert ToString(S("-", [S("+", [Leaf(a), Leaf(b)]), Leaf(c)])) == (a + " " + b + " " + "+") + " " + c + " " + "-" by {
      ToStringOfBinary("+", Leaf(a), Leaf(b));
      ToStringOfBinary("-", S("+", [Leaf(a), Leaf(b)]), Leaf(c));
    }
  }

  /** `6 * 7 / 2`: `6 7 * 2 /`. */
  lemma ProductsGroupLeft(a: string, b: string, c: string)
    ensures TokensRenderAs([Atom(a), Op('*'), Atom(b), Op('/'), Atom(c)], (a + " " + b + " " + "*") + " " + c + " " + "/")
  {
    var ts := [Atom(a), Op('*'), Atom(b), Op('/'), Atom(c)] + [Eof];
    assert Parse(ts, 0) == Parsed(S("/", [S("*", [Leaf(a), Leaf(b)]), Leaf(c)]), [Eof]) by {
      assert ts == [Atom(a), Op('*'), Atom(b), Op('/'), Atom(c), Eof];
      TableEntries();
      Precedence.InfixGrouping(a, '*', b, '/', c);
    }
    assert ToString(S("/", [S("*", [Leaf(a), Leaf(b)]), Leaf(c)])) == (a + " " + b + " " + "*") + " " + c + " " + "/" by {
      ToStringOfBinary("*", Leaf(a), Leaf(b));
      ToStringOfBinary("/", S("*", [Leaf(a), Leaf(b)]), Leaf(c));
    }
  }

  /** `(3 + 4`: `3 4 +`; the source expects an exception. */
  lemma UnclosedGroup(a: string, b: string)
    ensures TokensRenderAs([Op('('), Atom(a), Op('+'), Atom(b)], a + " " + b + " " + "+")
  {
    TableEntries();
    var t4: seq<Token> := [Eof];
    var t3 := [Atom(b)] + t4;
    var t2 := [Op('+')] + t3;
    var t1 := [Atom(a)] + t2;
    var t0 := [Op('(')] + t1;
    assert Tail(t0) == t1 && Tail(t1) == t2 && Tail(t2) == t3 && Tail(t3) == t4;
    assert [Op('('), Atom(a), Op('+'), Atom(b)] + [Eof] == t0;
    LoopEnds(Leaf(b), t4, 6);
    AtomThen(t3, t4, 6, b, Parsed(Leaf(b), t4));
    LoopEnds(S("+", [Leaf(a), Leaf(b)]), t4, 0);
    InfixThen(Leaf(a), t2, t3, 0, '+', "+", 6, Leaf(b), t4, Parsed(S("+", [Leaf(a), Leaf(b)]), t4));
    AtomThen(t1, t2, 0, a, Parsed(S("+", [Leaf(a), Leaf(b)]), t4));
    LoopEnds(S("+", [Leaf(a), Leaf(b)]), t4, 0);
    GroupThen(t0, t1, 0, S("+", [Leaf(a), Leaf(b)]), t4, Parsed(S("+", [Leaf(a), Leaf(b)]), t4));
    ToStringOfBinary("+", Leaf(a), Leaf(b));
  }

  /** `3!`: `3 !`. */
  lemma Factorial(a: string)
    ensures TokensRenderAs([Atom(a), Op('!')], a + " " + "!")
  {
    TableEntries();
    var t2: seq<Token> := [Eof];
    var t1 := [Op('!')] + t2;
    var t0 := [Atom(a)] + t1;
    assert Tail(t0) == t1 && Tail(t1) == t2;
    assert [Atom(a), Op('!')] + [Eof] == t0;
    LoopEnds(S("!", [Leaf(a)]), t2, 0);
    PostfixThen(Leaf(a), t1, t2, 0, '!', "!", Parsed(S("!", [Leaf(a)]), t2));
    AtomThen(t0, t1, 0, a, Parsed(S("!", [Leaf(a)]), t2));
    ToStringOfUnary("!", Leaf(a));
  }

  lemma FactorialOfGroupLoop2At0(a: string, b: string, t2: seq<Token>, t3: seq<Token>, t4: seq<Token>, t5: seq<Token>, t6: seq<Token>)
    requires Head(t2) == Op('+') && Head(t3) == Atom(b) && Head(t4) == Op(')') && Head(t5) == Op('!') && Head(t6) == Eof && Tail(t2) == t3 && Tail(t3) == t4 && Tail(t4) == t5 && Tail(t5) == t6
    ensures ParseLoop(Leaf(a), t2, 0) == Parsed(S("+", [Leaf(a), S("!", [S(")", [Leaf(b)])])]), t6)
  {
    TableEntries();
    LoopEnds(S("!", [S(")", [Leaf(b)])]), t6, 6);
    PostfixThen(S(")", [Leaf(b)]), t5, t6, 6, '!', "!", Parsed(S("!", [S(")", [Leaf(b)])]), t6));
    PostfixThen(Leaf(b), t4, t5, 6, ')', ")", Parsed(S("!", [S(")", [Leaf(b)])]), t6));
    AtomThen(t3, t4, 6, b, Parsed(S("!", [S(")", [Leaf(b)])]), t6));
    LoopEnds(S("+", [Leaf(a), S("!", [S(")", [Leaf(b)])])]), t6, 0);
    InfixThen(Leaf(a), t2, t3, 0, '+', "+", 6, S("!", [S(")", [Leaf(b)])]), t6, Parsed(S("+", [Leaf(a), S("!", [S(")", [Leaf(b)])])]), t6));
  }

  lemma FactorialOfGroupStream0(a: string, b: string, ts: seq<Token>)
    requires ts == [Op('('), Atom(a), Op('+'), Atom(b), Op(')'), Op('!')] + [Eof]
    ensures Head(ts) == Op('(') && Head(ts[1..]) == Atom(a) && Head(ts[2..]) == Op('+') && Head(ts[3..]) == Atom(b) && Head(ts[4..]) == Op(')') && Tail(ts) == ts[1..] && Tail(ts[1..]) == ts[2..] && Tail(ts[2..]) == ts[3..] && Tail(ts[3..]) == ts[4..] && Tail(ts[4..]) == ts[5..]
  {
    assert ts[0..] == ts;
    Suffixes(ts, 0);
    Suffixes(ts, 1);
    Suffixes(ts, 2);
    Suffixes(ts, 3);
    Suffixes(ts, 4);
  }

  lemma FactorialOfGroupStream1(a: string, b: string, ts: seq<Token>)
    requires ts == [Op('('), Atom(a), Op('+'), Atom(b), Op(')'), Op('!')] + [Eof]
    ensures Head(ts[5..]) == Op('!') && Head(ts[6..]) == Eof && Tail(ts[5..]) == ts[6..]
  {
    Suffixes(ts, 5);
    Suffixes(ts, 6);
  }

  lemma FactorialOfGroupFrom0(a: string, b: string, t0: seq<Token>, t1: seq<Token>, t2: seq<Token>, t3: seq<Token>, t4: seq<Token>, t5: seq<Token>, t6: seq<Token>)
    requires Head(t0) == Op('(') && Head(t1) == Atom(a) && Head(t2) == Op('+') && Head(t3) == Atom(b) && Head(t4) == Op(')') && Head(t5) == Op('!') && Head(t6) == Eof && Tail(t0) == t1 && Tail(t1) == t2 && Tail(t2) == t3 && Tail(t3) == t4 && Tail(t4) == t5 && Tail(t5) == t6
    ensures Parse(t0, 0) == Parsed(S("+", [Leaf(a), S("!", [S(")", [Leaf(b)])])]), t6)
  {
    FactorialOfGroupLoop2At0(a, b, t2, t3, t4, t5, t6);
    AtomThen(t1, t2, 0, a, Parsed(S("+", [Leaf(a), S("!", [S(")", [Leaf(b)])])]), t6));
    LoopEnds(S("+", [Leaf(a), S("!", [S(")", [Leaf(b)])])]), t6, 0);
    GroupThen(t0, t1, 0, S("+", [Leaf(a), S("!", [S(")", [Leaf(b)])])]), t6, Parsed(S("+", [Leaf(a), S("!", [S(")", [Leaf(b)])])]), t6));
  }

  lemma FactorialOfGroupText(a: string, b: string)
    ensures ToString(S("+", [Leaf(a), S("!", [S(")", [Leaf(b)])])])) == a + " " + ((b + " " + ")") + " " + "!") + " " + "+"
  {
    ToStringOfUnary(")", Leaf(b));
    ToStringOfUnary("!", S(")", [Leaf(b)]));
    ToStringOfBinary("+", Leaf(a), S("!", [S(")", [Leaf(b)])]));
  }

  /** `(4 + 5)!`: `4 5 ) ! +`; the source expects `4 5 + !`. */
  lemma FactorialOfGroup(a: string, b: string)
    ensures TokensRenderAs([Op('('), Atom(a), Op('+'), Atom(b), Op(')'), Op('!')], a + " " + ((b + " " + ")") + " " + "!") + " " + "+")
  {
    var t0 := [Op('('), Atom(a), Op('+'), Atom(b), Op(')'), Op('!')] + [Eof];
    var t1 := t0[1..];
    var t2 := t0[2..];
    var t3 := t0[3..];
    var t4 := t0[4..];
    var t5 := t0[5..];
    var t6 := t0[6..];
    FactorialOfGroupStream0(a, b, t0);
    FactorialOfGroupStream1(a, b, t0);
    FactorialOfGroupFrom0(a, b, t0, t1, t2, t3, t4, t5, t6);
    FactorialOfGroupText(a, b);
  }

  lemma TernaryConditionalLoop1At0(a: string, b: string, c: string, t1: seq<Token>, t2: seq<Token>, t3: seq<Token>, t4: seq<Token>, t5: seq<Token>)
    requires Head(t1) == Op('?') && Head(t2) == Atom(b) && Head(t3) == Op(':') && Head(t4) == Atom(c) && Head(t5) == Eof && Tail(t1) == t2 && Tail(t2) == t3 && Tail(t3) == t4 && Tail(t4) == t5
    ensures ParseLoop(Leaf(a), t1, 0) == Parsed(S("?", [Leaf(a), Leaf(b), S(":", [Leaf(c)])]), t5)
  {
    TableEntries();
    LoopStops(Leaf(b), t3, 0, ':');
    AtomThen(t2, t3, 0, b, Parsed(Leaf(b), t3));
    LoopEnds(Leaf(c), t5, -1);
    AtomThen(t4, t5, -1, c, Parsed(Leaf(c), t5));
    LoopEnds(S(":", [Leaf(c)]), t5, 3);
    PrefixThen(t3, t4, 3, ':', ":", -1, Leaf(c), t5, Parsed(S(":", [Leaf(c)]), t5));
    LoopEnds(S("?", [Leaf(a), Leaf(b), S(":", [Leaf(c)])]), t5, 0);
    TernaryThen(Leaf(a), t1, t2, 0, Leaf(b), t3, S(":", [Leaf(c)]), t5, Parsed(S("?", [Leaf(a), Leaf(b), S(":", [Leaf(c)])]), t5));
  }

  lemma TernaryConditionalText(a: string, b: string, c: string)
    ensures ToString(S("?", [Leaf(a), Leaf(b), S(":", [Leaf(c)])])) == a + " " + b + " " + (c + " " + ":") + " " + "?"
  {
    ToStringOfUnary(":", Leaf(c));
    ToStringOfTernary("?", Leaf(a), Leaf(b), S(":", [Leaf(c)]));
  }

  /** `a ? b : c`: `a b c : ?`. */
  lemma TernaryConditional(a: string, b: string, c: string)
    ensures TokensRenderAs([Atom(a), Op('?'), Atom(b), Op(':'), Atom(c)], a + " " + b + " " + (c + " " + ":") + " " + "?")
  {
    var t5: seq<Token> := [Eof];
    var t4 := [Atom(c)] + t5;
    var t3 := [Op(':')] + t4;
    var t2 := [Atom(b)] + t3;
    var t1 := [Op('?')] + t2;
    var t0 := [Atom(a)] + t1;
    assert Tail(t0) == t1;
    assert [Atom(a), Op('?'), Atom(b), Op(':'), Atom(c)] + [Eof] == t0;
    TernaryConditionalLoop1At0(a, b, c, t1, t2, t3, t4, t5);
    AtomThen(t0, t1, 0, a, Parsed(S("?", [Leaf(a), Leaf(b), S(":", [Leaf(c)])]), t5));
    TernaryConditionalText(a, b, c);
  }

  /** `a = b = c`: `a b c = =`. */
  lemma AssignmentGroupsRight(a: string, b: string, c: string)
    ensures TokensRenderAs([Atom(a), Op('='), Atom(b), Op('='), Atom(c)], a + " " + (b + " " + c + " " + "=") + " " + "=")
  {
    var ts := [Atom(a), Op('='), Atom(b), Op('='), Atom(c)] + [Eof];
    assert Parse(ts, 0) == Parsed(S("=", [Leaf(a), S("=", [Leaf(b), Leaf(c)])]), [Eof]) by {
      assert ts == [Atom(a), Op('='), Atom(b), Op('='), Atom(c), Eof];
      TableEntries();
      Precedence.InfixGrouping(a, '=', b, '=', c);
    }
    assert ToString(S("=", [Leaf(a), S("=", [Leaf(b), Leaf(c)])])) == a + " " + (b + " " + c + " " + "=") + " " + "=" by {
      ToStringOfBinary("=", Leaf(b), Leaf(c));
      ToStringOfBinary("=", Leaf(a), S("=", [Leaf(b), Leaf(c)]));
    }
  }

  /** `a.b.c`: `a b c . .`. */
  lemma MemberAccessGroupsRight(a: string, b: string, c: string)
    ensures TokensRenderAs([Atom(a), Op('.'), Atom(b), Op('.'), Atom(c)], a + " " + (b + " " + c + " " + ".") + " " + ".")
  {
    var ts := [Atom(a), Op('.'), Atom(b), Op('.'), Atom(c)] + [Eof];
    assert Parse(ts, 0) == Parsed(S(".", [Leaf(a), S(".", [Leaf(b), Leaf(c)])]), [Eof]) by {
      assert ts == [Atom(a), Op('.'), Atom(b), Op('.'), Atom(c), Eof];
      TableEntries();
      Precedence.InfixGrouping(a, '.', b, '.', c);
    }
    assert ToString(S(".", [Leaf(a), S(".", [Leaf(b), Leaf(c)])])) == a + " " + (b + " " + c + " " + ".") + " " + "." by {
      ToStringOfBinary(".", Leaf(b), Leaf(c));
      ToStringOfBinary(".", Leaf(a), S(".", [Leaf(b), Leaf(c)]));
    }
  }

  /** `3 (`: `3`. */
  lemma TrailingTokensIgnored(a: string)
    ensures TokensRenderAs([Atom(a), Op('(')], a)
  {
    TableEntries();
    var t2: seq<Token> := [Eof];
    var t1 := [Op('(')] + t2;
    var t0 := [Atom(a)] + t1;
    assert Tail(t0) == t1;
    assert [Atom(a), Op('(')] + [Eof] == t0;
    LoopStops(Leaf(a), t1, 0, '(');
    AtomThen(t0, t1, 0, a, Parsed(Leaf(a), t1));
  }

  /** `456 789` never returns; the source expects `456 789`. */
  lemma OperandsWithoutOperator(a: string, b: string)
    ensures Observed(Parse([Atom(a), Atom(b)] + [Eof], 0)) == Hangs
  {
    var t2: seq<Token> := [Eof];
    var t1 := [Atom(b)] + t2;
    var t0 := [Atom(a)] + t1;
    assert Tail(t0) == t1;
    assert [Atom(a), Atom(b)] + [Eof] == t0;
    assert ParseLoop(Leaf(a), t1, 0) == Spins(t1) by { LoopSpins(Leaf(a), t1, 0); }
    assert Parse(t0, 0) == Spins(t1) by { PrimaryAtom(t0, 0, a); }
  }

  /** `)3 + 4(` never returns; the source expects an exception. */
  lemma MisplacedParentheses(a: string, b: string)
    ensures Observed(Parse([Op(')'), Atom(a), Op('+'), Atom(b), Op('(')] + [Eof], 0)) == Hangs
  {
    var t5: seq<Token> := [Eof];
    var t4 := [Op('(')] + t5;
    var t3 := [Atom(b)] + t4;
    var t2 := [Op('+')] + t3;
    var t1 := [Atom(a)] + t2;
    var t0 := [Op(')')] + t1;
    assert Tail(t0) == t1 && Tail(t1) == t2 && Tail(t2) == t3;
    assert [Op(')'), Atom(a), Op('+'), Atom(b), Op('(')] + [Eof] == t0;
    assert ParseLoop(S("+", [Leaf(a)]), t3, -1) == Spins(t3) by { LoopSpins(S("+", [Leaf(a)]), t3, -1); }
    assert ParseLoop(Leaf(a), t2, -1) == Spins(t3) by { LoopPostfix(Leaf(a), t2, -1, '+'); }
    assert Parse(t1, -1) == Spins(t3) by { PrimaryAtom(t1, -1, a); }
    assert Parse(t0, 0) == Spins(t3) by { PrimaryOp(t0, 0, ')'); }
  }

  /** `*3+4` never returns. */
  lemma UnknownPrefixThenInfix(a: string, b: string)
    ensures Observed(Parse([Op('*'), Atom(a), Op('+'), Atom(b)] + [Eof], 0)) == Hangs
  {
    var t4: seq<Token> := [Eof];
    var t3 := [Atom(b)] + t4;
    var t2 := [Op('+')] + t3;
    var t1 := [Atom(a)] + t2;
    var t0 := [Op('*')] + t1;
    assert Tail(t0) == t1 && Tail(t1) == t2 && Tail(t2) == t3;
    assert [Op('*'), Atom(a), Op('+'), Atom(b)] + [Eof] == t0;
    assert ParseLoop(S("+", [Leaf(a)]), t3, -1) == Spins(t3) by { LoopSpins(S("+", [Leaf(a)]), t3, -1); }
    assert ParseLoop(Leaf(a), t2, -1) == Spins(t3) by { LoopPostfix(Leaf(a), t2, -1, '+'); }
    assert Parse(t1, -1) == Spins(t3) by { PrimaryAtom(t1, -1, a); }
    assert Parse(t0, 0) == Spins(t3) by { PrimaryOp(t0, 0, '*'); }
  }

  /** `+` throws. */
  lemma LoneOperator()
    ensures Observed(Parse([Op('+')] + [Eof], 0)) == UnexpectedToken
  {
    var t1: seq<Token> := [Eof];
    var t0 := [Op('+')] + t1;
    assert Tail(t0) == t1;
    assert [Op('+')] + [Eof] == t0;
    assert Parse(t1, 9) == Unexpected(t1) by { PrimaryEof(t1, 9); }
    assert Parse(t0, 0) == Unexpected(t1) by { PrimaryOp(t0, 0, '+'); }
  }

  /** The empty input throws. */
  lemma EmptyInput()
    ensures Observed(Parse([] + [Eof], 0)) == UnexpectedToken
  {
    var t0: seq<Token> := [Eof];
    assert [] + [Eof] == t0;
    assert Parse(t0, 0) == Unexpected(t0) by { PrimaryEof(t0, 0); }
  }
}
