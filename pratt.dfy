/** The Pratt parser `expr_bp` and its entry point `expr`.

    `Parse` and `ParseLoop` say, as functions of the remaining token stream,
    what one call of `expr_bp` does: `Parse` is the primary step, `ParseLoop`
    the `while (true)` loop that extends the left operand. `ExprBp` and
    `ExprLoop` are the procedure itself, split the same way and running over
    the shared `Lexer`, and are proved to compute exactly what they say. */
module Pratt {
  import opened Tokens
  import opened Lexing
  import opened BindingPower
  import opened Syntax

  /** How one call of `expr_bp` ends, with the token stream it leaves.
      `Parsed`: it returns `tree`, and `rest` is still to be read.
      `Unexpected`: it throws "Unexpected token" on reading the `Eof` at the front of `at`.
      `Spins`: its loop meets the `Atom` at the front of `at` as lookahead;
      the source neither consumes it nor leaves the loop, so it never returns. */
  datatype Step = Parsed(tree: S, rest: seq<Token>) | Unexpected(at: seq<Token>) | Spins(at: seq<Token>)

  /** What a caller of `expr_bp` can observe: a tree, the exception, or no return. */
  datatype Outcome = Built(tree: S) | UnexpectedToken | Hangs

  function Observed(st: Step): Outcome {
    match st
    case Parsed(t, _) => Built(t)
    case Unexpected(_) => UnexpectedToken
    case Spins(_) => Hangs
  }

  /** The stream where the step stopped: what is left after a return, the
      stream just before the failing read, or the stream the loop spins on. */
  function StopPoint(st: Step): seq<Token> {
    match st
    case Parsed(_, rest) => rest
    case Unexpected(at) => at
    case Spins(at) => at
  }

  /** The buffer the lexer holds once the step is over; the failing read has consumed its `Eof`. */
  function Remaining(st: Step): seq<Token> {
    if st.Unexpected? then Tail(st.at) else StopPoint(st)
  }

  predicate IsSuffix(r: seq<Token>, ts: seq<Token>) {
    |r| <= |ts| && r == ts[|ts| - |r|..]
  }

  /** A step over `ts` stops somewhere inside `ts`, and a failure stops exactly
      where its cause is: an `Eof` read as an operand, or an `Atom` lookahead. */
  predicate StopsWithin(st: Step, ts: seq<Token>) {
    IsSuffix(StopPoint(st), ts)
    && (st.Unexpected? ==> Head(st.at) == Eof)
    && (st.Spins? ==> Head(st.at).Atom?)
  }

  lemma SuffixTrans(a: seq<Token>, b: seq<Token>, c: seq<Token>)
    requires IsSuffix(a, b) && IsSuffix(b, c)
    ensures IsSuffix(a, c)
  {
    assert c[|c| - |b|..][|b| - |a|..] == c[|c| - |a|..];
  }

  /** One call `expr_bp(lexer, minBp)` over the stream `ts`: read a primary
      operand, then extend it in `ParseLoop`. A call that returns has consumed
      at least one token. The branches follow eval.cpp: `Eof` throws
      (153-155); an `Atom` becomes a leaf (145-146); `(` parses its contents
      at power 0 and leaves the `)` unread (147-148); any other `Op` parses
      its operand at its prefix power and wraps it (149-152). */
  function Parse(ts: seq<Token>, minBp: int): (st: Step)
    ensures st.Parsed? ==> |st.rest| < |ts|
    decreases |ts|, 1
  {
    match Head(ts)
    case Eof => Unexpected(ts)
    case Atom(s) => ParseLoop(S(s, []), Tail(ts), minBp)
    case Op(c) =>
      var inner := Parse(Tail(ts), if c == '(' then 0 else PrefixBindingPower(c));
      if inner.Parsed? then
        ParseLoop(if c == '(' then inner.tree else S([c], [inner.tree]), inner.rest, minBp)
      else
        inner
  }

  /** The `while (true)` loop of `expr_bp` with left operand `lhs`. A loop
      that returns consumes nothing beyond `ts`. The branches follow
      eval.cpp: an `Eof` lookahead breaks (158-160); a postfix operator strong
      enough is consumed and wraps the tree (162-168); an infix operator too
      weak breaks (170-172); `?` reads a middle operand at power 0 and a right
      one (176-180); any other operator reads one right operand (181-184). An
      `Atom` lookahead matches no case, so the source loops forever without
      reading; here that is `Spins` (157-186). */
  function ParseLoop(lhs: S, ts: seq<Token>, minBp: int): (st: Step)
    ensures st.Parsed? ==> |st.rest| <= |ts|
    decreases |ts|, 0
  {
    match Head(ts)
    case Eof => Parsed(lhs, ts)
    case Atom(_) => Spins(ts)
    case Op(c) =>
      if PostfixBindingPower(c) >= minBp then
        ParseLoop(S([c], [lhs]), Tail(ts), minBp)
      else
        var (l, r) := InfixBindingPower(c);
        if l < minBp then Parsed(lhs, ts)
        else
          var first := Parse(Tail(ts), if c == '?' then 0 else r);
          if !first.Parsed? then first
          else if c != '?' then
            ParseLoop(S([c], [lhs, first.tree]), first.rest, minBp)
          else
            var second := Parse(first.rest, r);
            if !second.Parsed? then second
            else ParseLoop(S([c], [lhs, first.tree, second.tree]), second.rest, minBp)
  }

  /** Every call stops inside the stream it was given, and its two ways of
      not returning a tree sit exactly at their cause: the exception at an
      `Eof` read as an operand, the endless loop at an `Atom` lookahead. */
  lemma {:induction false} ParseStopsWithin(ts: seq<Token>, minBp: int)
    ensures StopsWithin(Parse(ts, minBp), ts)
    decreases |ts|, 1
  {
    match Head(ts)
    case Eof =>
    case Atom(s) =>
      LoopStopsWithin(S(s, []), Tail(ts), minBp);
      SuffixTrans(StopPoint(ParseLoop(S(s, []), Tail(ts), minBp)), Tail(ts), ts);
    case Op(c) =>
      var inner := Parse(Tail(ts), if c == '(' then 0 else PrefixBindingPower(c));
      ParseStopsWithin(Tail(ts), if c == '(' then 0 else PrefixBindingPower(c));
      SuffixTrans(StopPoint(inner), Tail(ts), ts);
      if inner.Parsed? {
        var lhs := if c == '(' then inner.tree else S([c], [inner.tree]);
        LoopStopsWithin(lhs, inner.rest, minBp);
        SuffixTrans(StopPoint(ParseLoop(lhs, inner.rest, minBp)), inner.rest, ts);
      }
  }

  lemma {:induction false} LoopStopsWithin(lhs: S, ts: seq<Token>, minBp: int)
    ensures StopsWithin(ParseLoop(lhs, ts, minBp), ts)
    decreases |ts|, 0
  {
    match Head(ts)
    case Eof =>
      assert ts[|ts| - |ts|..] == ts;
    case Atom(_) =>
      assert ts[|ts| - |ts|..] == ts;
    case Op(c) =>
      if PostfixBindingPower(c) >= minBp {
        LoopStopsWithin(S([c], [lhs]), Tail(ts), minBp);
        SuffixTrans(StopPoint(ParseLoop(S([c], [lhs]), Tail(ts), minBp)), Tail(ts), ts);
      } else {
        var (l, r) := InfixBindingPower(c);
        if l < minBp {
          assert ts[|ts| - |ts|..] == ts;
        } else {
          var first := Parse(Tail(ts), if c == '?' then 0 else r);
          ParseStopsWithin(Tail(ts), if c == '?' then 0 else r);
          SuffixTrans(StopPoint(first), Tail(ts), ts);
          if first.Parsed? && c != '?' {
            var next := S([c], [lhs, first.tree]);
            LoopStopsWithin(next, first.rest, minBp);
            SuffixTrans(StopPoint(ParseLoop(next, first.rest, minBp)), first.rest, ts);
          } else if first.Parsed? {
            var second := Parse(first.rest, r);
            ParseStopsWithin(first.rest, r);
            SuffixTrans(StopPoint(second), first.rest, ts);
            if second.Parsed? {
              var next := S([c], [lhs, first.tree, second.tree]);
              LoopStopsWithin(next, second.rest, minBp);
              SuffixTrans(StopPoint(ParseLoop(next, second.rest, minBp)), second.rest, ts);
            }
          }
        }
      }
  }

  // One-step unfoldings of `Parse` and `ParseLoop`, one per branch of `expr_bp`.

  lemma PrimaryEof(ts: seq<Token>, minBp: int)
    requires Head(ts) == Eof
    ensures Parse(ts, minBp) == Unexpected(ts)
  {
  }

  lemma PrimaryAtom(ts: seq<Token>, minBp: int, s: string)
    requires Head(ts) == Atom(s)
    ensures Parse(ts, minBp) == ParseLoop(S(s, []), Tail(ts), minBp)
  {
  }

  lemma PrimaryOp(ts: seq<Token>, minBp: int, c: char)
    requires Head(ts) == Op(c)
    ensures var inner := Parse(Tail(ts), if c == '(' then 0 else PrefixBindingPower(c));
      Parse(ts, minBp) ==
        if inner.Parsed? then ParseLoop(if c == '(' then inner.tree else S([c], [inner.tree]), inner.rest, minBp)
        else inner
  {
  }

  lemma LoopEnds(lhs: S, ts: seq<Token>, minBp: int)
    requires Head(ts) == Eof
    ensures ParseLoop(lhs, ts, minBp) == Parsed(lhs, ts)
  {
  }

  lemma LoopSpins(lhs: S, ts: seq<Token>, minBp: int)
    requires Head(ts).Atom?
    ensures ParseLoop(lhs, ts, minBp) == Spins(ts)
  {
  }

  lemma LoopPostfix(lhs: S, ts: seq<Token>, minBp: int, c: char)
    requires Head(ts) == Op(c) && PostfixBindingPower(c) >= minBp
    ensures ParseLoop(lhs, ts, minBp) == ParseLoop(S([c], [lhs]), Tail(ts), minBp)
  {
  }

  lemma LoopStops(lhs: S, ts: seq<Token>, minBp: int, c: char)
    requires Head(ts) == Op(c) && PostfixBindingPower(c) < minBp && InfixBindingPower(c).0 < minBp
    ensures ParseLoop(lhs, ts, minBp) == Parsed(lhs, ts)
  {
  }

  lemma LoopBinary(lhs: S, ts: seq<Token>, minBp: int, c: char)
    requires Head(ts) == Op(c) && PostfixBindingPower(c) < minBp && InfixBindingPower(c).0 >= minBp && c != '?'
    ensures var rhs := Parse(Tail(ts), InfixBindingPower(c).1);
      ParseLoop(lhs, ts, minBp) ==
        if rhs.Parsed? then ParseLoop(S([c], [lhs, rhs.tree]), rhs.rest, minBp) else rhs
  {
  }

  lemma LoopTernary(lhs: S, ts: seq<Token>, minBp: int)
    requires Head(ts) == Op('?') && PostfixBindingPower('?') < minBp && InfixBindingPower('?').0 >= minBp
    ensures var mhs := Parse(Tail(ts), 0);
      ParseLoop(lhs, ts, minBp) ==
        if !mhs.Parsed? then mhs
        else
          var rhs := Parse(mhs.rest, InfixBindingPower('?').1);
          if rhs.Parsed? then ParseLoop(S(['?'], [lhs, mhs.tree, rhs.tree]), rhs.rest, minBp) else rhs
  {
  }

  /** `expr_bp(lexer, minBp)`: reads one primary operand, then runs the
      loop that extends it (`ExprLoop`). */
  method ExprBp(lexer: Lexer, minBp: int) returns (r: Outcome)
    modifies lexer
    ensures r == Observed(Parse(old(lexer.Pending()), minBp))
    ensures lexer.Pending() == Remaining(Parse(old(lexer.Pending()), minBp))
    decreases |lexer.tokens|, 1
  {
    ghost var ts := lexer.Pending();
    var token := lexer.Next();
    var lhs: S;
    if token.Atom? {
      PrimaryAtom(ts, minBp, token.text);
      lhs := S(token.text, []);
    } else if token.Op? && token.sym == '(' {
      PrimaryOp(ts, minBp, '(');
      var inner := ExprBp(lexer, 0);
      if !inner.Built? {
        return inner;
      }
      lhs := inner.tree;
    } else if token.Op? {
      PrimaryOp(ts, minBp, token.sym);
      var rBp := PrefixBindingPower(token.sym);
      var rhs := ExprBp(lexer, rBp);
      if !rhs.Built? {
        return rhs;
      }
      lhs := S([token.sym], [rhs.tree]);
    } else {
      return UnexpectedToken;
    }
    r := ExprLoop(lexer, lhs, minBp);
  }

  /** The `while (true)` loop of `expr_bp(lexer, minBp)` with left operand
      `operand`: absorbs postfix and infix operators whose left power reaches
      `minBp`, and returns the operand it has built. */
  method ExprLoop(lexer: Lexer, operand: S, minBp: int) returns (r: Outcome)
    modifies lexer
    ensures r == Observed(ParseLoop(operand, old(lexer.Pending()), minBp))
    ensures lexer.Pending() == Remaining(ParseLoop(operand, old(lexer.Pending()), minBp))
    decreases |lexer.tokens|, 0
  {
    ghost var ts := lexer.Pending();
    var lhs := operand;
    while true
      invariant ParseLoop(operand, ts, minBp) == ParseLoop(lhs, lexer.Pending(), minBp)
      decreases |lexer.tokens|
    {
      ghost var here := lexer.Pending();
      var lookahead := lexer.Peek();
      if lookahead.Eof? {
        LoopEnds(lhs, here, minBp);
        break;
      }
      if lookahead.Atom? {
        // The source's loop has no case for an Atom: it re-reads it forever.
        LoopSpins(lhs, here, minBp);
        return Hangs;
      }
      var c := lookahead.sym;
      var lBp := PostfixBindingPower(c);
      if lBp >= minBp {
        LoopPostfix(lhs, here, minBp, c);
        var consumed := lexer.Next();
        lhs := S([c], [lhs]);
        continue;
      }
      var bp := InfixBindingPower(c);
      if bp.0 < minBp {
        LoopStops(lhs, here, minBp, c);
        break;
      }
      var consumed := lexer.Next();
      if c == '?' {
        LoopTernary(lhs, here, minBp);
        var mhs := ExprBp(lexer, 0);
        if !mhs.Built? {
          return mhs;
        }
        var rhs := ExprBp(lexer, bp.1);
        if !rhs.Built? {
          return rhs;
        }
        lhs := S([c], [lhs, mhs.tree, rhs.tree]);
      } else {
        LoopBinary(lhs, here, minBp, c);
        var rhs := ExprBp(lexer, bp.1);
        if !rhs.Built? {
          return rhs;
        }
        lhs := S([c], [lhs, rhs.tree]);
      }
    }
    return Built(lhs);
  }

  /** The result of `expr(input)`: parse the whole lexed input at binding power 0. */
  function ParseInput(input: string): (st: Step)
    ensures StopsWithin(st, Lex(input) + [Eof])
  {
    ParseStopsWithin(Lex(input) + [Eof], 0);
    Parse(Lex(input) + [Eof], 0)
  }

  /** `expr(input)`: lexes `input` into a fresh lexer and parses it at binding power 0. */
  method Expr(input: string) returns (r: Outcome)
    ensures r == Observed(ParseInput(input))
  {
    var lexer := new Lexer(input);
    r := ExprBp(lexer, 0);
  }
}
