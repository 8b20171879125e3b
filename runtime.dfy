/** Run-time values, errors and the operators of the Solar language. */
module Runtime {
  import opened Lexer

  /** A value: a number or a string.  Numbers are exact reals; the source's
      IEEE-754 doubles are not modelled. */
  datatype Value = Num(n: real) | Str(s: string)

  /** What the cursor finds: a token, or the end of the token sequence
      (where the source reads `undefined`). */
  datatype Found = Tok(t: Token) | End

  /** The errors the interpreter throws (solar-interpreter.js:59, 75, 93,
      135, 142, 189, 238, 241, 263), plus two that the source does not have
      because it coerces instead (see README). */
  datatype Error =
    | AlreadyDeclared(name: string)
    | NotDeclared(name: string)
    | UnexpectedToken(found: Found)
    | UnexpectedInExpression(found: Found)
    | UnknownOperator(operator: Found)
    | Expected(wanted: Token, found: Found)
    | NotDefined(name: string)
    | WrongArity(name: string, params: nat)
    | DivisionByZero
    | TypeMismatch(symbol: Token)

  datatype Result<T> = Ok(value: T) | Err(error: Error)

  /** How a statement, a block or a whole run ends: normally, with a thrown
      error, or without reaching an end within the step budget. */
  datatype Outcome = Done | Failed(error: Error) | OutOfFuel

  // ---------------------------------------------------------------------
  // Text

  /** A found token as a template literal shows it. */
  function Describe(f: Found): string
  {
    match f
    case Tok(t) => t
    case End => "undefined"
  }

  function DigitChar(d: nat): (c: char)
    requires d < 10
    ensures IsDigit(c) && DigitValue(c) == d
  {
    "0123456789"[d]
  }

  /** The decimal numeral of `n`, without leading zeros. */
  function NatToString(n: nat): (r: string)
    ensures |r| > 0 && AllDigits(r)
    ensures |r| > 1 ==> r[0] != '0'
    decreases n
  {
    if n < 10 then [DigitChar(n)] else NatToString(n / 10) + [DigitChar(n % 10)]
  }

  /** At most `k` decimal digits of the fraction `f`. */
  function FractionDigits(f: real, k: nat): (r: string)
    requires 0.0 <= f < 1.0
    ensures AllDigits(r) && |r| <= k
    decreases k
  {
    if k == 0 || f == 0.0 then ""
    else
      var d := (f * 10.0).Floor;
      assert 0 <= d < 10;
      [DigitChar(d)] + FractionDigits(f * 10.0 - d as real, k - 1)
  }

  /** The decimal text of a number: the integer part, and for a number that
      is not whole a point and up to twenty fraction digits. */
  function NumToString(r: real): string
  {
    if r < 0.0 then "-" + Magnitude(-r) else Magnitude(r)
  }

  function Magnitude(m: real): string
    requires m >= 0.0
  {
    var i := m.Floor;
    NatToString(i) + if m == i as real then "" else "." + FractionDigits(m - i as real, 20)
  }

  /** `value + '\n'` in `parsePrintStatement`: the text of a value. */
  function Render(v: Value): string
  {
    match v
    case Num(n) => NumToString(n)
    case Str(s) => s
  }

  /** The message of an error, as the source's template literals build it;
      each one is a sentence, opening with a capital and closing with a
      period. */
  function Message(e: Error): (m: string)
    ensures |m| > 0 && 'A' <= m[0] <= 'Z' && m[|m| - 1] == '.'
  {
    match e
    case AlreadyDeclared(name) => "Variable \"" + name + "\" is already declared."
    case NotDeclared(name) => "Variable \"" + name + "\" is not declared."
    case UnexpectedToken(f) => "Unexpected token \"" + Describe(f) + "\"."
    case UnexpectedInExpression(f) => "Unexpected token \"" + Describe(f) + "\" in expression."
    case UnknownOperator(f) => "Unknown operator \"" + Describe(f) + "\" in condition."
    case Expected(t, f) => "Expected \"" + t + "\" but found \"" + Describe(f) + "\"."
    case NotDefined(name) => "Function \"" + name + "\" is not defined."
    case WrongArity(name, k) => "Function \"" + name + "\" expects " + NatToString(k) + " arguments."
    case DivisionByZero => "Division by zero."
    case TypeMismatch(op) => "Operator \"" + op + "\" needs two numbers or, for \"+\", two strings."
  }

  // ---------------------------------------------------------------------
  // Operators

  datatype ArithOp = Add | Sub | Mul | Div

  function OpText(op: ArithOp): Token
  {
    match op
    case Add => "+"
    case Sub => "-"
    case Mul => "*"
    case Div => "/"
  }

  /** `value += next`, `-=`, `*=`, `/=` on operands of the same kind. */
  function Apply(op: ArithOp, a: Value, b: Value): (r: Result<Value>)
    ensures r.Ok? <==> (a.Num? && b.Num? && !(op == Div && b.n == 0.0)) || (op == Add && a.Str? && b.Str?)
    ensures r.Ok? && a.Num? ==> r.value.Num?
    ensures r.Ok? && a.Str? ==> r.value == Str(a.s + b.s)
  {
    match (a, b)
    case (Num(x), Num(y)) =>
      (match op
       case Add => Ok(Num(x + y))
       case Sub => Ok(Num(x - y))
       case Mul => Ok(Num(x * y))
       case Div => if y == 0.0 then Err(DivisionByZero) else Ok(Num(x / y)))
    case (Str(x), Str(y)) => if op == Add then Ok(Str(x + y)) else Err(TypeMismatch(OpText(op)))
    case _ => Err(TypeMismatch(OpText(op)))
  }

  /** JavaScript's `<` on strings: the first differing character decides,
      and a proper prefix comes first. */
  predicate Precedes(a: string, b: string)
    decreases |a|
  {
    if a == [] then b != []
    else if b == [] then false
    else if a[0] != b[0] then a[0] < b[0]
    else Precedes(a[1..], b[1..])
  }

  /** `Precedes` is a strict total order on strings. */
  lemma {:induction false} PrecedesOrder(a: string, b: string)
    ensures !Precedes(a, a)
    ensures !(Precedes(a, b) && Precedes(b, a))
    ensures a != b ==> Precedes(a, b) || Precedes(b, a)
    decreases |a|
  {
    if a != [] && b != [] && a[0] == b[0] {
      PrecedesOrder(a[1..], b[1..]);
      assert a == [a[0]] + a[1..] && b == [b[0]] + b[1..];
    } else if a != [] {
      PrecedesOrder(a[1..], a[1..]);
    }
  }

  lemma {:induction false} PrecedesTransitive(a: string, b: string, c: string)
    requires Precedes(a, b) && Precedes(b, c)
    ensures Precedes(a, c)
    decreases |a|
  {
    if a != [] && a[0] == b[0] && b[0] == c[0] {
      PrecedesTransitive(a[1..], b[1..], c[1..]);
    }
  }

  /** The switch of `parseCondition`: strict equality for `==` and `!=`,
      ordering of two numbers or two strings for the other four. */
  function Compare(op: Found, a: Value, b: Value): (r: Result<bool>)
    ensures op == Tok("==") ==> r == Ok(a == b)
    ensures op == Tok("!=") ==> r == Ok(a != b)
    ensures a.Num? && b.Num? ==>
      && (op == Tok("<") ==> r == Ok(a.n < b.n))
      && (op == Tok(">") ==> r == Ok(b.n < a.n))
      && (op == Tok("<=") ==> r == Ok(a.n < b.n || a.n == b.n))
      && (op == Tok(">=") ==> r == Ok(b.n < a.n || a.n == b.n))
    ensures a.Str? && b.Str? ==>
      && (op == Tok("<") ==> r == Ok(Precedes(a.s, b.s)))
      && (op == Tok(">") ==> r == Ok(Precedes(b.s, a.s)))
      && (op == Tok("<=") ==> r == Ok(Precedes(a.s, b.s) || a.s == b.s))
      && (op == Tok(">=") ==> r == Ok(Precedes(b.s, a.s) || a.s == b.s))
    ensures op in {Tok("<"), Tok(">"), Tok("<="), Tok(">=")} && a.Num? != b.Num? ==> r == Err(TypeMismatch(op.t))
    ensures op !in {Tok("=="), Tok("!="), Tok("<"), Tok(">"), Tok("<="), Tok(">=")} ==> r == Err(UnknownOperator(op))
  {
    if op == Tok("==") then Ok(a == b)
    else if op == Tok("!=") then Ok(a != b)
    else if op in {Tok("<"), Tok(">"), Tok("<="), Tok(">=")} then
      match (a, b)
      case (Num(x), Num(y)) =>
        Ok(if op == Tok("<") then x < y else if op == Tok(">") then x > y
           else if op == Tok("<=") then x <= y else x >= y)
      case (Str(x), Str(y)) =>
        PrecedesOrder(x, y);
        Ok(if op == Tok("<") then Precedes(x, y) else if op == Tok(">") then Precedes(y, x)
           else if op == Tok("<=") then !Precedes(y, x) else !Precedes(x, y))
      case _ => Err(TypeMismatch(op.t))
    else Err(UnknownOperator(op))
  }
}
