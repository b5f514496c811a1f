/** The three binding-power tables the Pratt parser consults. A power of -1
    means the character has no entry in that table. */
module BindingPower {

  /** The characters the infix table knows. */
  predicate IsInfixOperator(c: char) {
    c == '=' || c == '?' || c == '+' || c == '-' || c == '*' || c == '/' || c == '.'
  }

  /** The infix operators that take two operands (`?` takes three). */
  predicate IsBinaryOperator(c: char) {
    IsInfixOperator(c) && c != '?'
  }

  /** The characters the prefix table knows. */
  predicate IsPrefixOperator(c: char) {
    c == '+' || c == '-' || c == '('
  }

  /** The characters the postfix table knows. */
  predicate IsPostfixOperator(c: char) {
    c == '!' || c == '[' || c == ')'
  }

  /** Left and right binding power of `op` used as an infix operator. */
  function InfixBindingPower(op: char): (bp: (int, int))
    ensures bp == (-1, -1) <==> !IsInfixOperator(op)
    ensures bp != (-1, -1) ==> 0 < bp.0 && 0 < bp.1
    ensures op == '=' || op == '?' || op == '.' ==> bp.0 > bp.1
    ensures op == '+' || op == '-' || op == '*' || op == '/' ==> bp.0 < bp.1
  {
    match op
    case '=' => (2, 1)
    case '?' => (4, 3)
    case '+' => (5, 6)
    case '-' => (5, 6)
    case '*' => (7, 8)
    case '/' => (7, 8)
    case '.' => (14, 13)
    case _ => (-1, -1)
  }

  /** Right binding power of `op` used as a prefix operator. */
  function PrefixBindingPower(op: char): (bp: int)
    ensures bp == -1 <==> !IsPrefixOperator(op)
    ensures bp != -1 ==> bp > 0
  {
    match op
    case '+' => 9
    case '-' => 9
    case '(' => 15
    case _ => -1
  }

  /** Left binding power of `op` used as a postfix operator. */
  function PostfixBindingPower(op: char): (bp: int)
    ensures bp == -1 <==> !IsPostfixOperator(op)
    ensures bp != -1 ==> bp > 0
  {
    match op
    case '!' => 11
    case '[' => 11
    case ')' => 12
    case _ => -1
  }
}
