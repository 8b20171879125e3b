/** Properties of expression and condition evaluation: precedence,
    associativity, the cases of a factor, and the order in which a
    condition looks at its parts. */
module ExpressionFacts {
  import opened Lexer
  import opened Runtime
  import opened Semantics
  import LexerFacts

  /** The cursor at `i` is not at one of the four arithmetic operators, so
      both operator loops stop there. */
  predicate StopsAt(tokens: seq<Token>, i: nat)
  {
    At(tokens, i) !in {Tok("+"), Tok("-"), Tok("*"), Tok("/")}
  }

  // ---------------------------------------------------------------------
  // Factors

  /** The four kinds of factor: a number literal is its value, a string
      literal is its text without the quotes, an identifier is its binding
      (or an error), and `(` starts a parenthesised expression that must
      be closed by `)`. */
  lemma FactorCases(tokens: seq<Token>, vars: map<string, Value>, pos: nat)
    requires pos < |tokens|
    ensures var t := tokens[pos]; var r := Factor(tokens, vars, pos);
      && (IsNumber(t) ==> r == Parsed(Ok(Num(NumberValue(t))), pos + 1))
      && (!IsNumber(t) && IsString(t) ==> r == Parsed(Ok(Str(Unquote(t))), pos + 1))
      && (IsIdentifier(t) && t in vars ==> r == Parsed(Ok(vars[t]), pos + 1))
      && (IsIdentifier(t) && t !in vars ==> r == Parsed(Err(NotDeclared(t)), pos + 1))
      && (t == "(" ==>
            var e := Expression(tokens, vars, pos + 1);
            r == if e.result.Err? then e
                 else if At(tokens, e.position) == Tok(")") then Parsed(e.result, e.position + 1)
                 else Parsed(Err(Expected(")", At(tokens, e.position))), e.position))
  {
    var t := tokens[pos];
    assert IsIdentifier(t) ==> !IsNumber(t) && !IsString(t) by {
      if IsIdentifier(t) {
        assert !IsDigit(t[0]) && t[0] != '"';
        assert DigitEnd(t, 0) == 0;
      }
    }
    assert !IsNumber("(") && !IsString("(") && !IsIdentifier("(") by {
      assert DigitEnd("(", 0) == 0;
    }
  }

  // ---------------------------------------------------------------------
  // Precedence and associativity

  /** The token at `i` is an operand on its own (a number literal, or a
      variable bound to a number) whose value is `x`. */
  predicate Operand(tokens: seq<Token>, vars: map<string, Value>, i: nat, x: real)
  {
    Factor(tokens, vars, i) == Parsed(Ok(Num(x)), i + 1)
  }

  /** `a + b * c` is `a + (b * c)`. */
  lemma MultiplicationBindsTighter(tokens: seq<Token>, vars: map<string, Value>, pos: nat, a: real, b: real, c: real)
    requires pos + 5 <= |tokens| && StopsAt(tokens, pos + 5)
    requires Operand(tokens, vars, pos, a) && Operand(tokens, vars, pos + 2, b) && Operand(tokens, vars, pos + 4, c)
    requires tokens[pos + 1] == "+" && tokens[pos + 3] == "*"
    ensures Expression(tokens, vars, pos) == Parsed(Ok(Num(a + b * c)), pos + 5)
  {
    FactorLoopStop(tokens, vars, Num(a), pos + 1);
    ProductTerm(tokens, vars, pos + 2, b, c);
    SumOfTerms(tokens, vars, pos, a, b * c, pos + 1, pos + 5);
  }

  /** `a * b + c` is `(a * b) + c`. */
  lemma MultiplicationFirst(tokens: seq<Token>, vars: map<string, Value>, pos: nat, a: real, b: real, c: real)
    requires pos + 5 <= |tokens| && StopsAt(tokens, pos + 5)
    requires Operand(tokens, vars, pos, a) && Operand(tokens, vars, pos + 2, b) && Operand(tokens, vars, pos + 4, c)
    requires tokens[pos + 1] == "*" && tokens[pos + 3] == "+"
    ensures Expression(tokens, vars, pos) == Parsed(Ok(Num(a * b + c)), pos + 5)
  {
    ProductTerm(tokens, vars, pos, a, b);
    FactorLoopStop(tokens, vars, Num(c), pos + 5);
    SumOfTerms(tokens, vars, pos, a * b, c, pos + 3, pos + 5);
  }

  /** `a - b - c` is `(a - b) - c`. */
  lemma SubtractionLeftAssociative(tokens: seq<Token>, vars: map<string, Value>, pos: nat, a: real, b: real, c: real)
    requires pos + 5 <= |tokens| && StopsAt(tokens, pos + 5)
    requires Operand(tokens, vars, pos, a) && Operand(tokens, vars, pos + 2, b) && Operand(tokens, vars, pos + 4, c)
    requires tokens[pos + 1] == "-" && tokens[pos + 3] == "-"
    ensures Expression(tokens, vars, pos) == Parsed(Ok(Num((a - b) - c)), pos + 5)
  {
    FactorLoopStop(tokens, vars, Num(a), pos + 1);
    FactorLoopStop(tokens, vars, Num(b), pos + 3);
    FactorLoopStop(tokens, vars, Num(c), pos + 5);
    TermLoopStep(tokens, vars, Num(a), pos + 1, Sub);
    TermLoopStep(tokens, vars, Num(a - b), pos + 3, Sub);
    TermLoopStop(tokens, vars, Num(a - b - c), pos + 5);
  }

  /** `a / b / c` is `(a / b) / c`, and division by zero is an error. */
  lemma DivisionLeftAssociative(tokens: seq<Token>, vars: map<string, Value>, pos: nat, a: real, b: real, c: real)
    requires pos + 5 <= |tokens| && StopsAt(tokens, pos + 5)
    requires Operand(tokens, vars, pos, a) && Operand(tokens, vars, pos + 2, b) && Operand(tokens, vars, pos + 4, c)
    requires tokens[pos + 1] == "/" && tokens[pos + 3] == "/"
    ensures Expression(tokens, vars, pos)
         == if b == 0.0 then Parsed(Err(DivisionByZero), pos + 3)
            else if c == 0.0 then Parsed(Err(DivisionByZero), pos + 5)
            else Parsed(Ok(Num((a / b) / c)), pos + 5)
  {
    FactorLoopStep(tokens, vars, Num(a), pos + 1, Div);
    if b != 0.0 {
      if c != 0.0 {
        FactorLoopStep(tokens, vars, Num(a / b), pos + 3, Div);
        FactorLoopStop(tokens, vars, Num(a / b / c), pos + 5);
        TermLoopStop(tokens, vars, Num(a / b / c), pos + 5);
      }
    }
  }

  /** Two terms joined by `+` are their sum. */
  lemma SumOfTerms(tokens: seq<Token>, vars: map<string, Value>, pos: nat, x: real, y: real, mid: nat, end: nat)
    requires Term(tokens, vars, pos) == Parsed(Ok(Num(x)), mid)
    requires mid < |tokens| && tokens[mid] == "+"
    requires Term(tokens, vars, mid + 1) == Parsed(Ok(Num(y)), end)
    requires At(tokens, end) != Tok("+") && At(tokens, end) != Tok("-")
    ensures Expression(tokens, vars, pos) == Parsed(Ok(Num(x + y)), end)
  {
    TermLoopStep(tokens, vars, Num(x), mid, Add);
    TermLoopStop(tokens, vars, Num(x + y), end);
  }

  /** `a * b` followed by a token other than `*` and `/` is a whole term. */
  lemma ProductTerm(tokens: seq<Token>, vars: map<string, Value>, pos: nat, a: real, b: real)
    requires pos + 3 <= |tokens| && tokens[pos + 1] == "*"
    requires Operand(tokens, vars, pos, a) && Operand(tokens, vars, pos + 2, b)
    requires At(tokens, pos + 3) != Tok("*") && At(tokens, pos + 3) != Tok("/")
    ensures Term(tokens, vars, pos) == Parsed(Ok(Num(a * b)), pos + 3)
  {
    Product(a, b);
    FactorLoopStep(tokens, vars, Num(a), pos + 1, Mul);
    FactorLoopStop(tokens, vars, Num(a * b), pos + 3);
  }

  /** A number literal is an operand. */
  lemma NumberFactor(tokens: seq<Token>, vars: map<string, Value>, pos: nat)
    requires pos < |tokens| && IsNumber(tokens[pos])
    ensures Operand(tokens, vars, pos, NumberValue(tokens[pos]))
  {
  }

  /** A variable bound to a number is an operand. */
  lemma VariableFactor(tokens: seq<Token>, vars: map<string, Value>, pos: nat)
    requires pos < |tokens| && IsIdentifier(tokens[pos]) && tokens[pos] in vars && vars[tokens[pos]].Num?
    ensures Operand(tokens, vars, pos, vars[tokens[pos]].n)
  {
    FactorCases(tokens, vars, pos);
  }

  /** One turn of the loop of `parseTerm`: an error in the next factor
      ends the term with that error; otherwise the value so far is
      combined with the factor and the loop goes on after the factor. */
  lemma FactorLoopStep(tokens: seq<Token>, vars: map<string, Value>, acc: Value, pos: nat, op: ArithOp)
    requires op == Mul || op == Div
    requires pos < |tokens| && tokens[pos] == OpText(op)
    ensures var f := Factor(tokens, vars, pos + 1);
      f.result.Err? ==> MoreFactors(tokens, vars, acc, pos) == f
    ensures var f := Factor(tokens, vars, pos + 1);
      f.result.Ok? ==>
        var v := Apply(op, acc, f.result.value);
        MoreFactors(tokens, vars, acc, pos)
          == if v.Err? then Parsed(Err(v.error), f.position) else MoreFactors(tokens, vars, v.value, f.position)
  {
  }

  /** The loop of `parseTerm` ends at a token other than `*` and `/`. */
  lemma FactorLoopStop(tokens: seq<Token>, vars: map<string, Value>, acc: Value, pos: nat)
    requires At(tokens, pos) != Tok("*") && At(tokens, pos) != Tok("/")
    ensures MoreFactors(tokens, vars, acc, pos) == Parsed(Ok(acc), pos)
  {
  }

  /** One turn of the loop of `parseExpression`: an error in the next
      term ends the expression with that error; otherwise the value so far
      is combined with the term and the loop goes on after the term. */
  lemma TermLoopStep(tokens: seq<Token>, vars: map<string, Value>, acc: Value, pos: nat, op: ArithOp)
    requires op == Add || op == Sub
    requires pos < |tokens| && tokens[pos] == OpText(op)
    ensures var t := Term(tokens, vars, pos + 1);
      t.result.Err? ==> MoreTerms(tokens, vars, acc, pos) == t
    ensures var t := Term(tokens, vars, pos + 1);
      t.result.Ok? ==>
        var v := Apply(op, acc, t.result.value);
        MoreTerms(tokens, vars, acc, pos)
          == if v.Err? then Parsed(Err(v.error), t.position) else MoreTerms(tokens, vars, v.value, t.position)
  {
  }

  /** The loop of `parseExpression` ends at a token other than `+` and `-`. */
  lemma TermLoopStop(tokens: seq<Token>, vars: map<string, Value>, acc: Value, pos: nat)
    requires At(tokens, pos) != Tok("+") && At(tokens, pos) != Tok("-")
    ensures MoreTerms(tokens, vars, acc, pos) == Parsed(Ok(acc), pos)
  {
  }

  /** The product of two numbers. */
  lemma Product(x: real, y: real)
    ensures Apply(Mul, Num(x), Num(y)) == Ok(Num(x * y))
  {
    var r := Apply(Mul, Num(x), Num(y));
    assert r.Ok?;
    assert r.value == Num(x * y);
  }

  /** `2 + 3 * 4` is 14. */
  lemma PrecedenceExample(vars: map<string, Value>)
    ensures Expression(["2", "+", "3", "*", "4"], vars, 0) == Parsed(Ok(Num(14.0)), 5)
  {
    var e: seq<Token> := ["2", "+", "3", "*", "4"];
    NumberOf(2, e[0]);
    NumberOf(3, e[2]);
    NumberOf(4, e[4]);
    NumberFactor(e, vars, 0);
    NumberFactor(e, vars, 2);
    NumberFactor(e, vars, 4);
    MultiplicationBindsTighter(e, vars, 0, 2.0, 3.0, 4.0);
  }

  /** `10 - 3 - 2` is 5. */
  lemma AssociativityExample(vars: map<string, Value>)
    ensures Expression(["10", "-", "3", "-", "2"], vars, 0) == Parsed(Ok(Num(5.0)), 5)
  {
    var e: seq<Token> := ["10", "-", "3", "-", "2"];
    NumberOf(10, e[0]);
    NumberOf(3, e[2]);
    NumberOf(2, e[4]);
    NumberFactor(e, vars, 0);
    NumberFactor(e, vars, 2);
    NumberFactor(e, vars, 4);
    SubtractionLeftAssociative(e, vars, 0, 10.0, 3.0, 2.0);
  }

  lemma NumberOf(n: nat, t: Token)
    requires t == NatToString(n)
    ensures IsNumber(t) && NumberValue(t) == n as real
  {
    LexerFacts.NumeralRoundTrip(n);
  }

  // ---------------------------------------------------------------------
  // Which errors an expression throws

  /** An error that expression evaluation can throw. */
  predicate ExpressionError(e: Error)
  {
    e.NotDeclared? || e.UnexpectedInExpression? || e.Expected? || e.DivisionByZero? || e.TypeMismatch?
  }

  /** Expressions only throw expression errors; in particular never the
      unknown-operator error of a condition. */
  lemma {:induction false} ExpressionErrors(tokens: seq<Token>, vars: map<string, Value>, pos: nat)
    ensures var r := Expression(tokens, vars, pos); r.result.Err? ==> ExpressionError(r.result.error)
    decreases Rem(tokens, pos), 4
  {
    TermErrors(tokens, vars, pos);
    var t := Term(tokens, vars, pos);
    if t.result.Ok? {
      MoreTermsErrors(tokens, vars, t.result.value, t.position);
    }
  }

  lemma {:induction false} MoreTermsErrors(tokens: seq<Token>, vars: map<string, Value>, acc: Value, pos: nat)
    ensures var r := MoreTerms(tokens, vars, acc, pos); r.result.Err? ==> ExpressionError(r.result.error)
    decreases Rem(tokens, pos), 2
  {
    var op := At(tokens, pos);
    if op == Tok("+") || op == Tok("-") {
      TermErrors(tokens, vars, pos + 1);
      var t := Term(tokens, vars, pos + 1);
      if t.result.Ok? {
        var v := Apply(if op == Tok("+") then Add else Sub, acc, t.result.value);
        if v.Ok? {
          MoreTermsErrors(tokens, vars, v.value, t.position);
        }
      }
    }
  }

  lemma {:induction false} TermErrors(tokens: seq<Token>, vars: map<string, Value>, pos: nat)
    ensures var r := Term(tokens, vars, pos); r.result.Err? ==> ExpressionError(r.result.error)
    decreases Rem(tokens, pos), 3
  {
    FactorErrors(tokens, vars, pos);
    var f := Factor(tokens, vars, pos);
    if f.result.Ok? {
      MoreFactorsErrors(tokens, vars, f.result.value, f.position);
    }
  }

  lemma {:induction false} MoreFactorsErrors(tokens: seq<Token>, vars: map<string, Value>, acc: Value, pos: nat)
    ensures var r := MoreFactors(tokens, vars, acc, pos); r.result.Err? ==> ExpressionError(r.result.error)
    decreases Rem(tokens, pos), 1
  {
    var op := At(tokens, pos);
    if op == Tok("*") || op == Tok("/") {
      FactorErrors(tokens, vars, pos + 1);
      var f := Factor(tokens, vars, pos + 1);
      if f.result.Ok? {
        var v := Apply(if op == Tok("*") then Mul else Div, acc, f.result.value);
        if v.Ok? {
          MoreFactorsErrors(tokens, vars, v.value, f.position);
        }
      }
    }
  }

  lemma {:induction false} FactorErrors(tokens: seq<Token>, vars: map<string, Value>, pos: nat)
    ensures var r := Factor(tokens, vars, pos); r.result.Err? ==> ExpressionError(r.result.error)
    decreases Rem(tokens, pos), 0
  {
    if pos < |tokens| {
      var t := tokens[pos];
      if !IsNumber(t) && !IsString(t) && !IsIdentifier(t) && t == "(" {
        ExpressionErrors(tokens, vars, pos + 1);
      }
    }
  }

  // ---------------------------------------------------------------------
  // Conditions

  /** A condition reports an unknown operator exactly when both operands
      evaluate and the token between them is not one of the six
      comparisons; an operand that throws is reported first, whatever the
      operator token is. */
  lemma ConditionOperatorCheckedLast(tokens: seq<Token>, vars: map<string, Value>, pos: nat)
    ensures var l := Expression(tokens, vars, pos);
      var op := At(tokens, l.position);
      var rt := Expression(tokens, vars, l.position + 1);
      (Condition(tokens, vars, pos).result.Err? && Condition(tokens, vars, pos).result.error.UnknownOperator?)
      <==> l.result.Ok? && rt.result.Ok?
           && op !in {Tok("=="), Tok("!="), Tok("<"), Tok(">"), Tok("<="), Tok(">=")}
  {
    var l := Expression(tokens, vars, pos);
    ExpressionErrors(tokens, vars, pos);
    if l.result.Ok? {
      ExpressionErrors(tokens, vars, l.position + 1);
    }
  }

  /** `==` and `!=` are strict: a number never equals a string, whichever
      side each is on. */
  lemma StrictEquality(tokens: seq<Token>, vars: map<string, Value>, pos: nat)
    ensures var l := Expression(tokens, vars, pos);
      var rt := Expression(tokens, vars, l.position + 1);
      l.result.Ok? && rt.result.Ok? && l.result.value.Num? != rt.result.value.Num? ==>
        (At(tokens, l.position) == Tok("==") ==> Condition(tokens, vars, pos).result == Ok(false))
        && (At(tokens, l.position) == Tok("!=") ==> Condition(tokens, vars, pos).result == Ok(true))
  {
  }
}
