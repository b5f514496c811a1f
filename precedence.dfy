/** How the binding powers decide the grouping of short expressions, for any
    operand texts and any operators of the given kinds: precedence and
    associativity of the infix operators, prefix and postfix operators
    against infix ones, the ternary `?`, operators nobody declared, and the
    parentheses as the tables treat them. */
module Precedence {
  import opened Tokens
  import opened BindingPower
  import opened Syntax
  import opened Pratt

  /** What the tables give a binary operator: no postfix power, and infix
      powers of at least 1 on both sides. */
  lemma BinaryPowers(c: char)
    requires IsBinaryOperator(c)
    ensures PostfixBindingPower(c) == -1 && c != '?'
    ensures InfixBindingPower(c).0 >= 1 && InfixBindingPower(c).1 >= 1
  {
  }

  /** An operand directly before `Eof` parses to a leaf, at any power. */
  lemma OperandThenEof(x: string, minBp: int)
    ensures Parse([Atom(x), Eof], minBp) == Parsed(Leaf(x), [Eof])
  {
    assert Tail([Atom(x), Eof]) == [Eof];
  }

  /** `a o b`: one binary operator takes its two operands, at any of the
      operators the infix table knows other than `?`. */
  lemma SingleInfix(a: string, o: char, b: string)
    requires IsBinaryOperator(o)
    ensures Parse([Atom(a), Op(o), Atom(b), Eof], 0) == Parsed(S([o], [Leaf(a), Leaf(b)]), [Eof])
  {
    var t3: seq<Token> := [Eof];
    var t2 := [Atom(b)] + t3;
    var t1 := [Op(o)] + t2;
    var ts := [Atom(a)] + t1;
    assert Tail(ts) == t1 && Tail(t1) == t2 && Tail(t2) == t3;
    assert ts == [Atom(a), Op(o), Atom(b), Eof];
    BinaryPowers(o);
    OperandThenEof(b, InfixBindingPower(o).1);
    PrimaryAtom(ts, 0, a);
    LoopBinary(Leaf(a), t1, 0, o);
    LoopEnds(S([o], [Leaf(a), Leaf(b)]), t3, 0);
  }

  /** `a o1 b o2 c`: the right operator is taken first exactly when its left
      power reaches the left operator's right power. So `*` and `/` bind
      tighter than `+` and `-`, operators of one level group to the left
      (right power above left power), and `=` and `.` group to the right. */
  lemma InfixGrouping(a: string, o1: char, b: string, o2: char, c: string)
    requires IsBinaryOperator(o1) && IsBinaryOperator(o2)
    ensures Parse([Atom(a), Op(o1), Atom(b), Op(o2), Atom(c), Eof], 0) ==
      Parsed(
        if InfixBindingPower(o2).0 >= InfixBindingPower(o1).1
        then S([o1], [Leaf(a), S([o2], [Leaf(b), Leaf(c)])])
        else S([o2], [S([o1], [Leaf(a), Leaf(b)]), Leaf(c)]),
        [Eof])
  {
    var (l1, r1) := InfixBindingPower(o1);
    var (l2, r2) := InfixBindingPower(o2);
    var t5: seq<Token> := [Eof];
    var t4 := [Atom(c)] + t5;
    var t3 := [Op(o2)] + t4;
    var t2 := [Atom(b)] + t3;
    var t1 := [Op(o1)] + t2;
    var ts := [Atom(a)] + t1;
    assert Tail(ts) == t1 && Tail(t1) == t2 && Tail(t2) == t3 && Tail(t3) == t4 && Tail(t4) == t5;
    assert ts == [Atom(a), Op(o1), Atom(b), Op(o2), Atom(c), Eof];
    BinaryPowers(o1);
    BinaryPowers(o2);
    OperandThenEof(c, r1);
    OperandThenEof(c, r2);
    PrimaryAtom(ts, 0, a);
    PrimaryAtom(t2, r1, b);
    if l2 >= r1 {
      LoopBinary(Leaf(b), t3, r1, o2);
      LoopBinary(Leaf(a), t1, 0, o1);
    } else {
      LoopStops(Leaf(b), t3, r1, o2);
      LoopBinary(Leaf(a), t1, 0, o1);
      LoopBinary(S([o1], [Leaf(a), Leaf(b)]), t3, 0, o2);
    }
  }

  /** `p x o y` with a prefix `+` or `-`: the prefix operator takes the whole
      infix expression only when the infix operator binds tighter than its
      power 9, which only `.` does. */
  lemma PrefixGrouping(p: char, x: string, o: char, y: string)
    requires (p == '+' || p == '-') && IsBinaryOperator(o)
    ensures Parse([Op(p), Atom(x), Op(o), Atom(y), Eof], 0) ==
      Parsed(
        if InfixBindingPower(o).0 >= PrefixBindingPower(p)
        then S([p], [S([o], [Leaf(x), Leaf(y)])])
        else S([o], [S([p], [Leaf(x)]), Leaf(y)]),
        [Eof])
  {
    var (l, r) := InfixBindingPower(o);
    var t4: seq<Token> := [Eof];
    var t3 := [Atom(y)] + t4;
    var t2 := [Op(o)] + t3;
    var t1 := [Atom(x)] + t2;
    var ts := [Op(p)] + t1;
    assert Tail(ts) == t1 && Tail(t1) == t2 && Tail(t2) == t3 && Tail(t3) == t4;
    assert ts == [Op(p), Atom(x), Op(o), Atom(y), Eof];
    BinaryPowers(o);
    OperandThenEof(y, r);
    PrimaryOp(ts, 0, p);
    PrimaryAtom(t1, 9, x);
    if l >= 9 {
      LoopBinary(Leaf(x), t2, 9, o);
    } else {
      LoopStops(Leaf(x), t2, 9, o);
      LoopBinary(S([p], [Leaf(x)]), t2, 0, o);
    }
  }

  /** `a o b q` with a postfix `q`: the postfix operator applies to `b` alone
      when its power reaches the infix operator's right power, and to the
      whole `a o b` otherwise (only `.` has a right power above 12). */
  lemma PostfixGrouping(a: string, o: char, b: string, q: char)
    requires IsBinaryOperator(o) && IsPostfixOperator(q)
    ensures Parse([Atom(a), Op(o), Atom(b), Op(q), Eof], 0) ==
      Parsed(
        if PostfixBindingPower(q) >= InfixBindingPower(o).1
        then S([o], [Leaf(a), S([q], [Leaf(b)])])
        else S([q], [S([o], [Leaf(a), Leaf(b)])]),
        [Eof])
  {
    var (l, r) := InfixBindingPower(o);
    var t4: seq<Token> := [Eof];
    var t3 := [Op(q)] + t4;
    var t2 := [Atom(b)] + t3;
    var t1 := [Op(o)] + t2;
    var ts := [Atom(a)] + t1;
    assert Tail(ts) == t1 && Tail(t1) == t2 && Tail(t2) == t3 && Tail(t3) == t4;
    assert ts == [Atom(a), Op(o), Atom(b), Op(q), Eof];
    BinaryPowers(o);
    PrimaryAtom(ts, 0, a);
    PrimaryAtom(t2, r, b);
    if PostfixBindingPower(q) >= r {
      LoopPostfix(Leaf(b), t3, r, q);
      LoopBinary(Leaf(a), t1, 0, o);
    } else {
      LoopStops(Leaf(b), t3, r, q);
      LoopBinary(Leaf(a), t1, 0, o);
      LoopPostfix(S([o], [Leaf(a), Leaf(b)]), t3, 0, q);
    }
  }

  /** `c ? t : e`: the middle operand is parsed from power 0 and stops at `:`,
      which no table knows; `:` then acts as an unknown prefix operator in
      front of the last operand, so the third child is the node `:` over `e`. */
  lemma TernaryGrouping(c: string, t: string, e: string)
    ensures Parse([Atom(c), Op('?'), Atom(t), Op(':'), Atom(e), Eof], 0) ==
      Parsed(S("?", [Leaf(c), Leaf(t), S(":", [Leaf(e)])]), [Eof])
  {
    var t3: seq<Token> := [Op(':'), Atom(e), Eof];
    var t2 := [Atom(t)] + t3;
    var t1 := [Op('?')] + t2;
    var ts := [Atom(c)] + t1;
    assert Tail(ts) == t1 && Tail(t1) == t2;
    assert ts == [Atom(c), Op('?'), Atom(t), Op(':'), Atom(e), Eof];
    UnknownPrefix(':', e, 3);
    assert Parse(t2, 0) == Parsed(Leaf(t), t3) by {
      assert Tail(t2) == t3;
      PrimaryAtom(t2, 0, t);
      LoopStops(Leaf(t), t3, 0, ':');
    }
    PrimaryAtom(ts, 0, c);
    LoopTernary(Leaf(c), t1, 0);
  }

  /** Below power 0 every operator passes the postfix test, since every
      postfix power is -1 or more: the loop wraps the left operand in any
      operator that comes next, whatever the operator is. */
  lemma EveryOperatorIsPostfixBelowZero(lhs: S, c: char, ts: seq<Token>, minBp: int)
    requires minBp <= -1
    ensures ParseLoop(lhs, [Op(c)] + ts, minBp) == ParseLoop(S([c], [lhs]), ts, minBp)
  {
    assert Tail([Op(c)] + ts) == ts;
  }

  /** An operator no prefix table knows is not rejected: it parses its operand
      from power -1 and becomes a one-child node. */
  lemma UnknownPrefix(c: char, x: string, minBp: int)
    requires !IsPrefixOperator(c)
    ensures Parse([Op(c), Atom(x), Eof], minBp) == Parsed(S([c], [Leaf(x)]), [Eof])
  {
    var ts := [Op(c), Atom(x), Eof];
    assert Tail(ts) == [Atom(x), Eof];
    OperandThenEof(x, -1);
    PrimaryOp(ts, minBp, c);
  }

  /** Because the operand of an unknown prefix operator is parsed from -1,
      the operator after it is read as postfix, and the operand after that
      is met as a lookahead: `*3+4` never returns. */
  lemma UnknownPrefixSpins(c: char, x: string, o: char, y: string, minBp: int)
    requires !IsPrefixOperator(c)
    ensures Parse([Op(c), Atom(x), Op(o), Atom(y), Eof], minBp) == Spins([Atom(y), Eof])
  {
    var t3: seq<Token> := [Atom(y), Eof];
    var t2 := [Op(o)] + t3;
    var t1 := [Atom(x)] + t2;
    var ts := [Op(c)] + t1;
    assert Tail(ts) == t1 && Tail(t1) == t2;
    assert ts == [Op(c), Atom(x), Op(o), Atom(y), Eof];
    PrimaryOp(ts, minBp, c);
    PrimaryAtom(t1, -1, x);
    EveryOperatorIsPostfixBelowZero(Leaf(x), o, t3, -1);
  }

  /** `k` opening parentheses. */
  function Opens(k: nat): seq<Token> {
    if k == 0 then [] else [Op('(')] + Opens(k - 1)
  }

  /** `n` closing parentheses. */
  function Closes(n: nat): seq<Token> {
    if n == 0 then [] else [Op(')')] + Closes(n - 1)
  }

  /** `t` wrapped in `n` postfix `)` nodes. */
  function Closed(n: nat, t: S): S {
    if n == 0 then t else S(")", [Closed(n - 1, t)])
  }

  /** The last `)` closes first: `Closed(n + 1, t)` is `Closed(n, t)` wrapped once more. */
  lemma {:induction false} ClosedOuter(n: nat, t: S)
    ensures Closed(n + 1, t) == Closed(n, S(")", [t]))
    decreases n
  {
    if n > 0 {
      ClosedOuter(n - 1, t);
    }
  }

  /** A run of `)` after a complete operand: each one is absorbed as a postfix
      operator of power 12, at any power up to 12. */
  lemma {:induction false} ClosesAreAbsorbed(n: nat, t: S, minBp: int)
    requires minBp <= 12
    ensures ParseLoop(t, Closes(n) + [Eof], minBp) == Parsed(Closed(n, t), [Eof])
    decreases n
  {
    if n == 0 {
      assert Closes(0) + [Eof] == [Eof];
    } else {
      var ts := Closes(n) + [Eof];
      assert ts == [Op(')')] + (Closes(n - 1) + [Eof]);
      assert Tail(ts) == Closes(n - 1) + [Eof];
      LoopPostfix(t, ts, minBp, ')');
      ClosesAreAbsorbed(n - 1, S(")", [t]), minBp);
      ClosedOuter(n - 1, t);
    }
  }

  /** `((…(x)…))`: the opening parentheses add nothing to the tree and every
      closing one becomes a postfix node, however many of each there are.
      `(((3)))` therefore serialises as `3 ) ) )`, not `3`. */
  lemma {:induction false} Parenthesised(k: nat, x: string, n: nat, minBp: int)
    requires minBp <= 12
    ensures Parse(Opens(k) + [Atom(x)] + Closes(n) + [Eof], minBp) == Parsed(Closed(n, Leaf(x)), [Eof])
    decreases k
  {
    if k == 0 {
      var ts := [Atom(x)] + (Closes(n) + [Eof]);
      assert Opens(0) + [Atom(x)] + Closes(n) + [Eof] == ts;
      assert Tail(ts) == Closes(n) + [Eof];
      PrimaryAtom(ts, minBp, x);
      ClosesAreAbsorbed(n, Leaf(x), minBp);
    } else {
      var inner := Opens(k - 1) + [Atom(x)] + Closes(n) + [Eof];
      var ts := Opens(k) + [Atom(x)] + Closes(n) + [Eof];
      assert ts == [Op('(')] + inner;
      assert Tail(ts) == inner;
      Parenthesised(k - 1, x, n, 0);
      PrimaryOp(ts, minBp, '(');
    }
  }
}
