/** Characters and tokens of the expression language.

    The character classes are the C locale's `isspace`, `isdigit` and
    `isalnum`, restricted to ASCII. */
module Tokens {

  /** Space, horizontal tab, line feed, vertical tab, form feed, carriage
      return: in code points, the space and the run from 9 to 13. */
  predicate IsSpace(c: char)
    ensures IsSpace(c) <==> c == ' ' || 9 <= c as int <= 13
  {
    c == ' ' || c == '\t' || c == '\n' || c == '\U{B}' || c == '\U{C}' || c == '\r'
  }

  /** A decimal digit: a character whose distance from `'0'` is below ten.
      No digit is whitespace, so the scan's digit test only sees what its
      whitespace test let through. */
  predicate IsDigit(c: char)
    ensures IsDigit(c) <==> 0 <= c as int - '0' as int < 10
    ensures IsDigit(c) ==> !IsSpace(c)
  {
    '0' <= c <= '9'
  }

  predicate IsAlpha(c: char) {
    'A' <= c <= 'Z' || 'a' <= c <= 'z'
  }

  /** A digit or an ASCII letter; never whitespace. */
  predicate IsAlnum(c: char)
    ensures IsAlnum(c) ==> !IsSpace(c)
  {
    IsDigit(c) || IsAlpha(c)
  }

  predicate AllDigits(s: string) {
    forall k :: 0 <= k < |s| ==> IsDigit(s[k])
  }

  /** A token: an operand, a one-character operator, or the end-of-input sentinel.
      The source keeps the operator as a one-character string; here it is the character. */
  datatype Token = Atom(text: string) | Op(sym: char) | Eof

  /** The token's text as the source stores it in `Token::value` (empty for `Eof`). */
  function Value(t: Token): string {
    match t
    case Atom(s) => s
    case Op(c) => [c]
    case Eof => ""
  }

  /** The text of an operand: a non-empty digit run or a single letter. */
  predicate IsAtomText(s: string) {
    (|s| > 0 && AllDigits(s)) || (|s| == 1 && IsAlpha(s[0]))
  }

  /** An operator character: neither whitespace nor alphanumeric. */
  predicate IsOpChar(c: char) {
    !IsSpace(c) && !IsAlnum(c)
  }

  /** What the lexer can hand out besides `Eof`. */
  predicate IsLexeme(t: Token) {
    match t
    case Atom(s) => IsAtomText(s)
    case Op(c) => IsOpChar(c)
    case Eof => false
  }

  /** A stream as the parser can meet it: lexemes, or `Eof`. */
  predicate IsTokenStream(ts: seq<Token>) {
    forall k :: 0 <= k < |ts| ==> ts[k] == Eof || IsLexeme(ts[k])
  }

  /** The token the cursor reads next from a stream in delivery order; `Eof` once it is empty. */
  function Head(ts: seq<Token>): Token {
    if ts == [] then Eof else ts[0]
  }

  /** The stream after one token is consumed; consuming from an empty stream leaves it empty. */
  function Tail(ts: seq<Token>): seq<Token> {
    if ts == [] then [] else ts[1..]
  }
}
