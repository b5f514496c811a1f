/** The lexer: the token sequence an input string denotes (`Lex`), and the
    `Lexer` object of eval.cpp that materialises it into a buffer and hands
    the tokens out one at a time through `Next` and `Peek`. */
module Lexing {
  import opened Tokens

  /** Length of the maximal run of decimal digits at the front of `s`. */
  function DigitRun(s: string): (n: nat)
    ensures n <= |s|
    ensures forall k :: 0 <= k < n ==> IsDigit(s[k])
    ensures n == |s| || !IsDigit(s[n])
  {
    if s != [] && IsDigit(s[0]) then 1 + DigitRun(s[1..]) else 0
  }

  /** A run of digits that cannot be extended is the one `DigitRun` measures. */
  lemma DigitRunUnique(s: string, n: nat)
    requires n <= |s|
    requires forall k :: 0 <= k < n ==> IsDigit(s[k])
    requires n == |s| || !IsDigit(s[n])
    ensures DigitRun(s) == n
  {
  }

  /** The tokens of `s` in input order, without the final `Eof`: whitespace is
      skipped, a maximal digit run is one `Atom`, any other alphanumeric
      character is a one-character `Atom`, anything else a one-character `Op`.
      Every token takes at least one character, so there are at most `|s|`. */
  function Lex(s: string): (ts: seq<Token>)
    ensures |ts| <= |s|
    decreases |s|
  {
    if s == [] then []
    else if IsSpace(s[0]) then Lex(s[1..])
    else if IsDigit(s[0]) then
      var n := DigitRun(s);
      [Atom(s[..n])] + Lex(s[n..])
    else if IsAlnum(s[0]) then [Atom([s[0]])] + Lex(s[1..])
    else [Op(s[0])] + Lex(s[1..])
  }

  /** Every token `Lex` produces is an atom or operator of the forms the
      lexer allows, and none is `Eof`. */
  lemma {:induction false} LexYieldsLexemes(s: string)
    ensures forall k :: 0 <= k < |Lex(s)| ==> IsLexeme(Lex(s)[k])
    decreases |s|
  {
    if s == [] {
    } else if IsSpace(s[0]) {
      LexYieldsLexemes(s[1..]);
    } else if IsDigit(s[0]) {
      var n := DigitRun(s);
      LexYieldsLexemes(s[n..]);
      assert AllDigits(s[..n]);
    } else {
      LexYieldsLexemes(s[1..]);
    }
  }

  /** The token texts of `ts`, concatenated in order. */
  function Texts(ts: seq<Token>): string {
    if ts == [] then "" else Value(ts[0]) + Texts(ts[1..])
  }

  /** `s` with every whitespace character removed. */
  function RemoveSpace(s: string): string {
    if s == [] then "" else (if IsSpace(s[0]) then "" else [s[0]]) + RemoveSpace(s[1..])
  }

  lemma {:induction false} RemoveSpaceOfSolidPrefix(s: string, n: nat)
    requires n <= |s|
    requires forall k :: 0 <= k < n ==> !IsSpace(s[k])
    ensures RemoveSpace(s) == s[..n] + RemoveSpace(s[n..])
  {
    if n > 0 {
      RemoveSpaceOfSolidPrefix(s[1..], n - 1);
      assert s[1..][n - 1..] == s[n..];
      assert [s[0]] + s[1..][..n - 1] == s[..n];
    }
  }

  /** Lexing loses no character but whitespace: the token texts, read in
      order, spell the input with its whitespace removed. */
  lemma {:induction false} LexKeepsText(s: string)
    ensures Texts(Lex(s)) == RemoveSpace(s)
    decreases |s|
  {
    if s == [] {
    } else if IsSpace(s[0]) {
      LexKeepsText(s[1..]);
    } else if IsDigit(s[0]) {
      var n := DigitRun(s);
      LexKeepsText(s[n..]);
      assert ([Atom(s[..n])] + Lex(s[n..]))[1..] == Lex(s[n..]);
      RemoveSpaceOfSolidPrefix(s, n);
    } else {
      var t := if IsAlnum(s[0]) then Atom([s[0]]) else Op(s[0]);
      LexKeepsText(s[1..]);
      assert ([t] + Lex(s[1..]))[1..] == Lex(s[1..]);
    }
  }

  /** No token comes from whitespace alone: an input lexes to no token
      exactly when it is all whitespace. */
  lemma {:induction false} LexEmptyIffBlank(s: string)
    ensures Lex(s) == [] <==> forall k :: 0 <= k < |s| ==> IsSpace(s[k])
    decreases |s|
  {
    if s != [] && IsSpace(s[0]) {
      LexEmptyIffBlank(s[1..]);
      assert forall k :: 1 <= k < |s| ==> s[k] == s[1..][k - 1];
    }
  }

  /** Two texts lex independently unless a digit run would straddle the seam. */
  predicate DigitSeam(a: string, b: string) {
    a != [] && b != [] && IsDigit(a[|a| - 1]) && IsDigit(b[0])
  }

  lemma DigitRunAppend(a: string, b: string)
    requires a != [] && !DigitSeam(a, b)
    ensures DigitRun(a + b) == DigitRun(a)
  {
    var m := DigitRun(a);
    if m == |a| && b != [] {
      assert IsDigit(a[|a| - 1]);
    }
    DigitRunUnique(a + b, m);
  }

  /** Dropping a prefix of `a` keeps `a`'s last character, so no seam appears. */
  lemma NoDigitSeamAfter(a: string, b: string, n: nat)
    requires n <= |a| && !DigitSeam(a, b)
    ensures !DigitSeam(a[n..], b)
  {
    if n < |a| {
      assert a[n..][|a[n..]| - 1] == a[|a| - 1];
    }
  }

  /** Lexing a concatenation is concatenating the lexings, provided no digit
      run crosses the boundary: this is what makes a digit `Atom` maximal and
      what makes whitespace a separator that leaves no token behind. */
  lemma {:induction false} LexAppend(a: string, b: string)
    requires !DigitSeam(a, b)
    ensures Lex(a + b) == Lex(a) + Lex(b)
    decreases |a|, 1
  {
    if a == [] {
      assert a + b == b;
    } else if IsDigit(a[0]) {
      LexAppendDigitRun(a, b);
    } else {
      LexAppendChar(a, b);
    }
  }

  /** The tokens a character other than a digit contributes on its own:
      none for whitespace, one otherwise. */
  function CharTokens(c: char): seq<Token> {
    if IsSpace(c) then [] else [if IsAlnum(c) then Atom([c]) else Op(c)]
  }

  lemma LexCons(s: string)
    requires s != [] && !IsDigit(s[0])
    ensures Lex(s) == CharTokens(s[0]) + Lex(s[1..])
  {
  }

  lemma Reassociate<T>(x: seq<T>, y: seq<T>, z: seq<T>)
    ensures x + (y + z) == (x + y) + z
  {
  }

  /** `LexAppend` when `a` starts with a character other than a digit. */
  lemma {:induction false} LexAppendChar(a: string, b: string)
    requires a != [] && !IsDigit(a[0]) && !DigitSeam(a, b)
    ensures Lex(a + b) == Lex(a) + Lex(b)
    decreases |a|, 0
  {
    var ab := a + b;
    assert ab[0] == a[0];
    assert ab[1..] == a[1..] + b;
    NoDigitSeamAfter(a, b, 1);
    LexAppend(a[1..], b);
    LexCons(a);
    LexCons(ab);
    Reassociate(CharTokens(a[0]), Lex(a[1..]), Lex(b));
  }

  lemma LexConsDigits(s: string)
    requires s != [] && IsDigit(s[0])
    ensures Lex(s) == [Atom(s[..DigitRun(s)])] + Lex(s[DigitRun(s)..])
  {
  }

  /** `LexAppend` when `a` starts with a digit run. */
  lemma {:induction false} LexAppendDigitRun(a: string, b: string)
    requires a != [] && IsDigit(a[0]) && !DigitSeam(a, b)
    ensures Lex(a + b) == Lex(a) + Lex(b)
    decreases |a|, 0
  {
    var ab := a + b;
    var n := DigitRun(a);
    DigitRunAppend(a, b);
    assert ab[0] == a[0];
    assert ab[..n] == a[..n];
    assert ab[n..] == a[n..] + b;
    NoDigitSeamAfter(a, b, n);
    LexAppend(a[n..], b);
    LexConsDigits(a);
    LexConsDigits(ab);
    Reassociate([Atom(a[..n])], Lex(a[n..]), Lex(b));
  }

  /** Maximal munch: a digit run followed by anything but a digit is one `Atom`. */
  lemma DigitRunIsOneAtom(d: string, rest: string)
    requires |d| > 0 && AllDigits(d)
    requires rest == [] || !IsDigit(rest[0])
    ensures Lex(d + rest) == [Atom(d)] + Lex(rest)
  {
    DigitRunUnique(d, |d|);
    assert d[..|d|] == d;
    assert Lex(d[|d|..]) == [];
    LexAppend(d, rest);
  }

  /** Whitespace between two texts produces no token of its own. */
  lemma SpaceSeparates(a: string, w: string, b: string)
    requires |w| > 0 && forall k :: 0 <= k < |w| ==> IsSpace(w[k])
    ensures Lex(a + w + b) == Lex(a) + Lex(b)
  {
    LexEmptyIffBlank(w);
    assert !IsDigit(w[0]) && !IsDigit(w[|w| - 1]);
    LexAppend(a, w);
    assert (a + w)[|a + w| - 1] == w[|w| - 1];
    LexAppend(a + w, b);
    assert Lex(a) + [] == Lex(a);
  }

  lemma LexSkipsSpace(s: string, i: nat)
    requires i < |s| && IsSpace(s[i])
    ensures Lex(s[i..]) == Lex(s[i + 1..])
  {
    assert s[i..][1..] == s[i + 1..];
  }

  /** One more token scanned: a character other than a digit or whitespace
      at `i` is the next token of what is left. */
  lemma ScanChar(s: string, acc: seq<Token>, i: nat)
    requires i < |s| && !IsSpace(s[i]) && !IsDigit(s[i])
    requires acc + Lex(s[i..]) == Lex(s)
    ensures (acc + [if IsAlnum(s[i]) then Atom([s[i]]) else Op(s[i])]) + Lex(s[i + 1..]) == Lex(s)
  {
    assert s[i..][1..] == s[i + 1..];
    LexCons(s[i..]);
    Reassociate(acc, CharTokens(s[i]), Lex(s[i + 1..]));
  }

  lemma LexDigitRunAt(s: string, i: nat, j: nat)
    requires i < j <= |s|
    requires forall k :: i <= k < j ==> IsDigit(s[k])
    requires j == |s| || !IsDigit(s[j])
    ensures Lex(s[i..]) == [Atom(s[i..j])] + Lex(s[j..])
  {
    var rest := s[i..];
    DigitRunUnique(rest, j - i);
    assert rest[..j - i] == s[i..j];
    assert rest[j - i..] == s[j..];
    LexConsDigits(rest);
  }

  /** One more token scanned: the digit run `s[i..j]`, which cannot be
      extended, is the next token of what is left. */
  lemma ScanDigits(s: string, acc: seq<Token>, i: nat, j: nat)
    requires i < j <= |s|
    requires forall k :: i <= k < j ==> IsDigit(s[k])
    requires j == |s| || !IsDigit(s[j])
    requires acc + Lex(s[i..]) == Lex(s)
    ensures (acc + [Atom(s[i..j])]) + Lex(s[j..]) == Lex(s)
  {
    LexDigitRunAt(s, i, j);
    Reassociate(acc, [Atom(s[i..j])], Lex(s[j..]));
  }

  /** The reverse of `s`: the `std::reverse` the lexer applies to its buffer. */
  function Reversed<T>(s: seq<T>): (r: seq<T>)
    ensures |r| == |s|
    ensures forall k :: 0 <= k < |s| ==> r[k] == s[|s| - 1 - k]
  {
    if s == [] then [] else [s[|s| - 1]] + Reversed(s[..|s| - 1])
  }

  /** Reversing twice gives back the original order. */
  lemma ReversedTwice<T>(s: seq<T>)
    ensures Reversed(Reversed(s)) == s
  {
    assert forall k :: 0 <= k < |s| ==> Reversed(Reversed(s))[k] == s[k];
  }

  /** Once the whole input is scanned, the accumulated tokens are all of them. */
  lemma ScanFinished(s: string, acc: seq<Token>, i: nat)
    requires i == |s|
    requires acc + Lex(s[i..]) == Lex(s)
    ensures acc == Lex(s)
  {
    assert s[i..] == [];
    assert acc + [] == acc;
  }

  /** The token buffer of eval.cpp's `Lexer`. */
  class Lexer {
    /** The tokens not yet handed out, stored back to front as in the source's
        vector: the next token is the last element. */
    var tokens: seq<Token>

    /** The tokens not yet handed out, in the order `Next` delivers them. */
    ghost function Pending(): seq<Token>
      reads this
    {
      Reversed(tokens)
    }

    /** Scans `input` once, left to right, then appends `Eof` and reverses the buffer. */
    constructor (input: string)
      ensures Pending() == Lex(input) + [Eof]
    {
      var acc: seq<Token> := [];
      var i := 0;
      while i < |input|
        invariant 0 <= i <= |input|
        invariant acc + Lex(input[i..]) == Lex(input)
      {
        if IsSpace(input[i]) {
          LexSkipsSpace(input, i);
          i := i + 1;
        } else if IsDigit(input[i]) {
          var start := i;
          while i < |input| && IsDigit(input[i])
            invariant start <= i <= |input|
            invariant forall k :: start <= k < i ==> IsDigit(input[k])
          {
            i := i + 1;
          }
          ScanDigits(input, acc, start, i);
          acc := acc + [Atom(input[start..i])];
        } else if IsAlnum(input[i]) {
          ScanChar(input, acc, i);
          acc := acc + [Atom([input[i]])];
          i := i + 1;
        } else {
          ScanChar(input, acc, i);
          acc := acc + [Op(input[i])];
          i := i + 1;
        }
      }
      var all := acc + [Eof];
      tokens := Reversed(all);
      ScanFinished(input, acc, i);
      ReversedTwice(all);
    }

    /** Hands out the next token and drops it from the buffer; `Eof` once the buffer is empty. */
    method Next() returns (t: Token)
      modifies this
      ensures t == Head(old(Pending()))
      ensures Pending() == Tail(old(Pending()))
    {
      if |tokens| == 0 {
        return Eof;
      }
      ghost var before := Pending();
      t := tokens[|tokens| - 1];
      tokens := tokens[..|tokens| - 1];
      assert Pending() == before[1..];
    }

    /** Reads the next token without consuming it; `Eof` once the buffer is empty. */
    method Peek() returns (t: Token)
      ensures t == Head(Pending())
    {
      if |tokens| == 0 {
        return Eof;
      }
      t := tokens[|tokens| - 1];
    }
  }
}
