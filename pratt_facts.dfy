/** What `expr_bp` guarantees about the trees it builds and the tokens it
    consumes, proved about the functions `Parse` and `ParseLoop` that the
    procedure `ExprBp` is verified against. */
module PrattFacts {
  import opened Tokens
  import opened Lexing
  import opened BindingPower
  import opened Syntax
  import opened Pratt

  /** The texts of the `Atom` tokens of `ts`, in order. */
  function AtomTexts(ts: seq<Token>): seq<string> {
    if ts == [] then [] else (if ts[0].Atom? then [ts[0].text] else []) + AtomTexts(ts[1..])
  }

  lemma {:induction false} AtomTextsAppend(a: seq<Token>, b: seq<Token>)
    ensures AtomTexts(a + b) == AtomTexts(a) + AtomTexts(b)
    decreases |a|
  {
    if a == [] {
      assert a + b == b;
    } else {
      AtomTextsAppend(a[1..], b);
      assert (a + b)[1..] == a[1..] + b;
    }
  }

  lemma LeavesOfUnary(h: string, a: S)
    ensures Leaves(S(h, [a])) == Leaves(a)
  {
    assert RestLeaves([a]) == Leaves(a) + RestLeaves([]);
  }

  lemma LeavesOfBinary(h: string, a: S, b: S)
    ensures Leaves(S(h, [a, b])) == Leaves(a) + Leaves(b)
  {
    assert [a, b][1..] == [b];
    assert RestLeaves([b]) == Leaves(b) + RestLeaves([]);
  }

  lemma LeavesOfTernary(h: string, a: S, b: S, c: S)
    ensures Leaves(S(h, [a, b, c])) == Leaves(a) + Leaves(b) + Leaves(c)
  {
    assert [a, b, c][1..] == [b, c];
    assert [b, c][1..] == [c];
    assert RestLeaves([a, b, c]) == Leaves(a) + RestLeaves([b, c]);
    assert RestLeaves([b, c]) == Leaves(b) + RestLeaves([c]);
    assert RestLeaves([c]) == Leaves(c) + RestLeaves([]);
  }

  // ---------------------------------------------------------------------
  // The leaves of the tree are the consumed atoms, in lexing order. Since a
  // call stops at a suffix of its stream (`ParseStopsWithin`), "the leaves
  // followed by the atoms still unread are all the atoms" says exactly that.

  /** The leaves of a parsed tree, read left to right, are the `Atom` tokens the call consumed, in order. */
  lemma {:induction false} ParseFringe(ts: seq<Token>, minBp: int)
    ensures var st := Parse(ts, minBp);
      st.Parsed? ==> Leaves(st.tree) + AtomTexts(st.rest) == AtomTexts(ts)
    decreases |ts|, 0
  {
    match Head(ts)
    case Eof =>
    case Atom(s) =>
      LoopFringe(S(s, []), Tail(ts), minBp);
    case Op(c) =>
      var inner := Parse(Tail(ts), if c == '(' then 0 else PrefixBindingPower(c));
      ParseFringe(Tail(ts), if c == '(' then 0 else PrefixBindingPower(c));
      if inner.Parsed? {
        var lhs := if c == '(' then inner.tree else S([c], [inner.tree]);
        LeavesOfUnary([c], inner.tree);
        LoopFringe(lhs, inner.rest, minBp);
      }
  }

  lemma {:induction false} LoopFringe(lhs: S, ts: seq<Token>, minBp: int)
    ensures var st := ParseLoop(lhs, ts, minBp);
      st.Parsed? ==> Leaves(st.tree) + AtomTexts(st.rest) == Leaves(lhs) + AtomTexts(ts)
    decreases |ts|, 1
  {
    match Head(ts)
    case Eof =>
    case Atom(_) =>
    case Op(c) =>
      if PostfixBindingPower(c) >= minBp {
        LoopPostfix(lhs, ts, minBp, c);
        PostfixLeaves([c], lhs, ts);
        LoopFringe(S([c], [lhs]), Tail(ts), minBp);
      } else if InfixBindingPower(c).0 >= minBp && c != '?' {
        var first := Parse(Tail(ts), InfixBindingPower(c).1);
        LoopBinary(lhs, ts, minBp, c);
        ParseFringe(Tail(ts), InfixBindingPower(c).1);
        if first.Parsed? {
          BinaryLeaves([c], lhs, first.tree, ts, first.rest);
          LoopFringe(S([c], [lhs, first.tree]), first.rest, minBp);
        }
      } else if InfixBindingPower(c).0 >= minBp {
        TernaryFringe(lhs, ts, minBp);
      }
  }

  lemma {:induction false} TernaryFringe(lhs: S, ts: seq<Token>, minBp: int)
    requires Head(ts) == Op('?') && PostfixBindingPower('?') < minBp && InfixBindingPower('?').0 >= minBp
    ensures var st := ParseLoop(lhs, ts, minBp);
      st.Parsed? ==> Leaves(st.tree) + AtomTexts(st.rest) == Leaves(lhs) + AtomTexts(ts)
    decreases |ts|, 0
  {
    var first := Parse(Tail(ts), 0);
    var second := if first.Parsed? then Parse(first.rest, 3) else first;
    if first.Parsed? && second.Parsed? {
      var t := S(['?'], [lhs, first.tree, second.tree]);
      assert ParseLoop(lhs, ts, minBp) == ParseLoop(t, second.rest, minBp) by {
        LoopTernary(lhs, ts, minBp);
      }
      ParseFringe(Tail(ts), 0);
      ParseFringe(first.rest, 3);
      TernaryLeaves(lhs, first.tree, second.tree, ts, first.rest, second.rest);
      LoopFringe(t, second.rest, minBp);
    } else {
      LoopTernary(lhs, ts, minBp);
    }
  }

  lemma PostfixLeaves(h: string, lhs: S, ts: seq<Token>)
    requires Head(ts).Op?
    ensures Leaves(S(h, [lhs])) + AtomTexts(Tail(ts)) == Leaves(lhs) + AtomTexts(ts)
  {
    LeavesOfUnary(h, lhs);
    AtomTextsSkipsOperator(ts);
  }

  lemma BinaryLeaves(h: string, lhs: S, a: S, ts: seq<Token>, r1: seq<Token>)
    requires Head(ts).Op?
    requires Leaves(a) + AtomTexts(r1) == AtomTexts(Tail(ts))
    ensures Leaves(S(h, [lhs, a])) + AtomTexts(r1) == Leaves(lhs) + AtomTexts(ts)
  {
    LeavesOfBinary(h, lhs, a);
    AtomTextsSkipsOperator(ts);
    Reassociate(Leaves(lhs), Leaves(a), AtomTexts(r1));
  }

  lemma TernaryLeaves(lhs: S, a: S, b: S, ts: seq<Token>, r1: seq<Token>, r2: seq<Token>)
    requires Head(ts) == Op('?')
    requires Leaves(a) + AtomTexts(r1) == AtomTexts(Tail(ts))
    requires Leaves(b) + AtomTexts(r2) == AtomTexts(r1)
    ensures Leaves(S(['?'], [lhs, a, b])) + AtomTexts(r2) == Leaves(lhs) + AtomTexts(ts)
  {
    LeavesOfTernary(['?'], lhs, a, b);
    AtomTextsSkipsOperator(ts);
    var l, x, y, z := Leaves(lhs), Leaves(a), Leaves(b), AtomTexts(r2);
    Reassociate(l + x, y, z);
    Reassociate(l, x, y + z);
  }

  lemma AtomTextsSkipsOperator(ts: seq<Token>)
    requires Head(ts).Op?
    ensures AtomTexts(ts) == AtomTexts(Tail(ts))
  {
    assert ts != [] && !ts[0].Atom? && Tail(ts) == ts[1..];
    assert AtomTexts(ts) == [] + AtomTexts(ts[1..]);
  }

  // ---------------------------------------------------------------------
  // The shape of the trees.

  /** A tree as `expr_bp` can build it from lexed tokens: an operand has no
      children and is labelled with an atom's text; a prefix or postfix node
      has one child; an infix node two, labelled with one of the binary
      operators; only `?` has three. */
  predicate WellShaped(t: S)
    decreases t
  {
    (if |t.rest| == 0 then IsAtomText(t.head)
     else if |t.rest| == 1 then |t.head| == 1 && IsOpChar(t.head[0])
     else if |t.rest| == 2 then |t.head| == 1 && IsBinaryOperator(t.head[0])
     else |t.rest| == 3 && t.head == "?")
    && forall i :: 0 <= i < |t.rest| ==> WellShaped(t.rest[i])
  }

  /** In a well-shaped tree a node is a leaf exactly when its label is an operand. */
  lemma LeafIffAtom(t: S)
    requires WellShaped(t)
    ensures t.rest == [] <==> IsAtomText(t.head)
    ensures |t.rest| <= 3
  {
  }

  lemma TailIsTokenStream(ts: seq<Token>)
    requires IsTokenStream(ts)
    ensures IsTokenStream(Tail(ts))
  {
    if ts != [] {
      assert forall k :: 0 <= k < |ts| - 1 ==> ts[1..][k] == ts[k + 1];
    }
  }

  /** Parsing a stream of lexemes builds a well-shaped tree and leaves a
      stream of lexemes behind. */
  lemma {:induction false} ParseShape(ts: seq<Token>, minBp: int)
    requires IsTokenStream(ts)
    ensures var st := Parse(ts, minBp);
      st.Parsed? ==> WellShaped(st.tree) && IsTokenStream(st.rest)
    decreases |ts|, 0
  {
    TailIsTokenStream(ts);
    match Head(ts)
    case Eof =>
    case Atom(s) =>
      assert IsLexeme(ts[0]);
      LoopShape(S(s, []), Tail(ts), minBp);
    case Op(c) =>
      assert IsLexeme(ts[0]);
      var inner := Parse(Tail(ts), if c == '(' then 0 else PrefixBindingPower(c));
      ParseShape(Tail(ts), if c == '(' then 0 else PrefixBindingPower(c));
      if inner.Parsed? {
        var lhs := if c == '(' then inner.tree else S([c], [inner.tree]);
        LoopShape(lhs, inner.rest, minBp);
      }
  }

  lemma {:induction false} LoopShape(lhs: S, ts: seq<Token>, minBp: int)
    requires IsTokenStream(ts) && WellShaped(lhs)
    ensures var st := ParseLoop(lhs, ts, minBp);
      st.Parsed? ==> WellShaped(st.tree) && IsTokenStream(st.rest)
    decreases |ts|, 1
  {
    TailIsTokenStream(ts);
    match Head(ts)
    case Eof =>
    case Atom(_) =>
    case Op(c) =>
      assert IsLexeme(ts[0]);
      if PostfixBindingPower(c) >= minBp {
        LoopPostfix(lhs, ts, minBp, c);
        LoopShape(S([c], [lhs]), Tail(ts), minBp);
      } else if InfixBindingPower(c).0 >= minBp && c != '?' {
        assert IsBinaryOperator(c);
        var first := Parse(Tail(ts), InfixBindingPower(c).1);
        LoopBinary(lhs, ts, minBp, c);
        ParseShape(Tail(ts), InfixBindingPower(c).1);
        if first.Parsed? {
          LoopShape(S([c], [lhs, first.tree]), first.rest, minBp);
        }
      } else if InfixBindingPower(c).0 >= minBp {
        TernaryShape(lhs, ts, minBp);
      }
  }

  lemma {:induction false} TernaryShape(lhs: S, ts: seq<Token>, minBp: int)
    requires IsTokenStream(ts) && WellShaped(lhs)
    requires Head(ts) == Op('?') && PostfixBindingPower('?') < minBp && InfixBindingPower('?').0 >= minBp
    ensures var st := ParseLoop(lhs, ts, minBp);
      st.Parsed? ==> WellShaped(st.tree) && IsTokenStream(st.rest)
    decreases |ts|, 0
  {
    var first := Parse(Tail(ts), 0);
    var second := if first.Parsed? then Parse(first.rest, 3) else first;
    LoopTernary(lhs, ts, minBp);
    if first.Parsed? && second.Parsed? {
      TailIsTokenStream(ts);
      ParseShape(Tail(ts), 0);
      ParseShape(first.rest, 3);
      LoopShape(S(['?'], [lhs, first.tree, second.tree]), second.rest, minBp);
    }
  }

  // ---------------------------------------------------------------------
  // Where a call stops.

  /** The loop of `expr_bp` returns only at `Eof` or at an operator that binds
      no tighter than `minBp` as postfix or as infix: it ignores whatever follows. */
  predicate StopsBefore(rest: seq<Token>, minBp: int) {
    Head(rest) == Eof
    || (Head(rest).Op? && PostfixBindingPower(Head(rest).sym) < minBp
        && InfixBindingPower(Head(rest).sym).0 < minBp)
  }

  predicate EndsWithEof(ts: seq<Token>) {
    ts != [] && ts[|ts| - 1] == Eof
  }

  /** A tree is returned only before `Eof` or a weaker operator, and the
      stop point never passes the final `Eof` of a stream. */
  lemma {:induction false} ParseStopsAt(ts: seq<Token>, minBp: int)
    ensures var st := Parse(ts, minBp);
      (st.Parsed? ==> StopsBefore(st.rest, minBp))
      && (EndsWithEof(ts) ==> EndsWithEof(StopPoint(st)))
    decreases |ts|, 0
  {
    match Head(ts)
    case Eof =>
    case Atom(s) =>
      LoopStopsAt(S(s, []), Tail(ts), minBp);
    case Op(c) =>
      var inner := Parse(Tail(ts), if c == '(' then 0 else PrefixBindingPower(c));
      ParseStopsAt(Tail(ts), if c == '(' then 0 else PrefixBindingPower(c));
      if inner.Parsed? {
        var lhs := if c == '(' then inner.tree else S([c], [inner.tree]);
        LoopStopsAt(lhs, inner.rest, minBp);
      }
  }

  lemma {:induction false} LoopStopsAt(lhs: S, ts: seq<Token>, minBp: int)
    ensures var st := ParseLoop(lhs, ts, minBp);
      (st.Parsed? ==> StopsBefore(st.rest, minBp))
      && (EndsWithEof(ts) ==> EndsWithEof(StopPoint(st)))
    decreases |ts|, 1
  {
    match Head(ts)
    case Eof =>
    case Atom(_) =>
    case Op(c) =>
      if PostfixBindingPower(c) >= minBp {
        LoopPostfix(lhs, ts, minBp, c);
        LoopStopsAt(S([c], [lhs]), Tail(ts), minBp);
      } else if InfixBindingPower(c).0 >= minBp && c != '?' {
        var first := Parse(Tail(ts), InfixBindingPower(c).1);
        LoopBinary(lhs, ts, minBp, c);
        ParseStopsAt(Tail(ts), InfixBindingPower(c).1);
        if first.Parsed? {
          LoopStopsAt(S([c], [lhs, first.tree]), first.rest, minBp);
        }
      } else if InfixBindingPower(c).0 >= minBp {
        TernaryStopsAt(lhs, ts, minBp);
      }
  }

  lemma {:induction false} TernaryStopsAt(lhs: S, ts: seq<Token>, minBp: int)
    requires Head(ts) == Op('?') && PostfixBindingPower('?') < minBp && InfixBindingPower('?').0 >= minBp
    ensures var st := ParseLoop(lhs, ts, minBp);
      (st.Parsed? ==> StopsBefore(st.rest, minBp))
      && (EndsWithEof(ts) ==> EndsWithEof(StopPoint(st)))
    decreases |ts|, 0
  {
    var first := Parse(Tail(ts), 0);
    var second := if first.Parsed? then Parse(first.rest, 3) else first;
    LoopTernary(lhs, ts, minBp);
    ParseStopsAt(Tail(ts), 0);
    if first.Parsed? {
      ParseStopsAt(first.rest, 3);
      if second.Parsed? {
        LoopStopsAt(S(['?'], [lhs, first.tree, second.tree]), second.rest, minBp);
      }
    }
  }

  // ---------------------------------------------------------------------
  // `expr` on a whole input.

  /** What `expr` can do with an input: throw only when it runs out of input
      while it needs an operand; spin only on an operand that follows a
      complete operand; otherwise build a well-shaped tree of the atoms it
      read, in order, stopping before `Eof` or before an operator neither the
      postfix nor the infix table knows, and ignoring the tokens after it. */
  lemma ExprOutcomes(input: string)
    ensures var st := ParseInput(input);
      (st.Unexpected? ==> st.at == [Eof])
      && (st.Spins? ==> Head(st.at).Atom?)
      && (st.Parsed? ==>
            WellShaped(st.tree) && st.rest != [] && StopsBefore(st.rest, 0)
            && Leaves(st.tree) + AtomTexts(st.rest) == AtomTexts(Lex(input)))
  {
    var lexed := Lex(input);
    var ts := lexed + [Eof];
    LexedInput(input);
    var st := Parse(ts, 0);
    ParseShape(ts, 0);
    ParseStopsAt(ts, 0);
    ParseStopsWithin(ts, 0);
    if st.Unexpected? {
      OnlyFinalEof(input, st.at);
    }
    if st.Parsed? {
      ParseFringe(ts, 0);
      AtomTextsAppend(lexed, [Eof]);
      assert AtomTexts([Eof]) == [];
      assert lexed + [] == lexed;
    }
  }

  /** The lexer's buffer holds lexemes and one `Eof`, at the end: every
      token before the last is a lexeme, so no other `Eof` occurs. */
  lemma LexedInput(input: string)
    ensures IsTokenStream(Lex(input) + [Eof]) && EndsWithEof(Lex(input) + [Eof])
    ensures forall k :: 0 <= k < |Lex(input)| ==> IsLexeme((Lex(input) + [Eof])[k])
  {
    var lexed := Lex(input);
    var ts := lexed + [Eof];
    LexYieldsLexemes(input);
    forall k | 0 <= k < |ts|
      ensures ts[k] == Eof || IsLexeme(ts[k])
    {
      if k < |lexed| { assert ts[k] == lexed[k]; }
    }
  }

  /** The only non-empty suffix of the buffer that starts with `Eof` is the final `Eof`. */
  lemma OnlyFinalEof(input: string, at: seq<Token>)
    requires IsSuffix(at, Lex(input) + [Eof]) && EndsWithEof(at) && Head(at) == Eof
    ensures at == [Eof]
  {
    LexYieldsLexemes(input);
  }
}
