/** What the answer of `runSolarCode` tells its caller.  No token contains
    a space, so no string value does and no printed text does; the output
    of a program therefore never contains a space, while every error answer
    starts with `"Error: "`.  The caller can tell the two apart. */
module AnswerFacts {
  import opened Lexer
  import opened Runtime
  import opened Semantics

  predicate Blankless(s: string)
  {
    forall k :: 0 <= k < |s| ==> s[k] != ' '
  }

  predicate BlanklessValue(v: Value)
  {
    v.Str? ==> Blankless(v.s)
  }

  predicate BlanklessTokens(ts: seq<Token>)
  {
    forall i :: 0 <= i < |ts| ==> Blankless(ts[i])
  }

  predicate BlanklessVars(vars: map<string, Value>)
  {
    forall x :: x in vars ==> BlanklessValue(vars[x])
  }

  /** The fields of an interpreter that started on scanned code: no token,
      no string value, no stored body and no output contains a space. */
  predicate Sound(s: State)
  {
    && BlanklessTokens(s.tokens) && BlanklessVars(s.variables) && Blankless(s.output)
    && forall n :: n in s.functions ==> BlanklessTokens(s.functions[n].body)
  }

  /** An answer of the form `runSolarCode` gives for a thrown error. */
  predicate IsErrorAnswer(a: string)
  {
    |a| >= 7 && a[..7] == "Error: "
  }

  // ---------------------------------------------------------------------
  // The main property

  /** `runSolarCode` answers `"Error: "` and the message exactly when the
      program threw, and the output otherwise; an output never looks like
      an error answer. */
  lemma ErrorAnswerExactlyOnThrow(code: string, fuel: nat)
    requires Answer(code, fuel).Some?
    ensures var a := Answer(code, fuel).value; var r := Interpret(code, fuel);
      && (IsErrorAnswer(a) <==> r.outcome.Failed?)
      && (r.outcome.Failed? ==> a == "Error: " + Message(r.outcome.error))
      && (r.outcome.Done? ==> a == r.state.output)
  {
    var tokens := Tokenize(code);
    ScannedTokensBlankless(tokens);
    assert Sound(Initial(tokens));
    RunSound(Initial(tokens), fuel);
    var r := Interpret(code, fuel);
    if r.outcome.Done? {
      var a := r.state.output;
      if |a| >= 7 {
        assert a[6] != ' ';
        assert "Error: "[6] == ' ';
        assert a[..7][6] == a[6];
      }
    } else {
      var a := "Error: " + Message(r.outcome.error);
      assert a[..7] == "Error: ";
    }
  }

  lemma ScannedTokensBlankless(tokens: seq<Token>)
    requires forall i :: 0 <= i < |tokens| ==> Clean(tokens[i])
    ensures BlanklessTokens(tokens)
  {
    forall i | 0 <= i < |tokens|
      ensures Blankless(tokens[i])
    {
      assert Clean(tokens[i]);
    }
  }

  // ---------------------------------------------------------------------
  // Text

  lemma ConcatBlankless(a: string, b: string)
    requires Blankless(a) && Blankless(b)
    ensures Blankless(a + b)
  {
    forall k | 0 <= k < |a + b|
      ensures (a + b)[k] != ' '
    {
      if k < |a| {
        assert (a + b)[k] == a[k];
      } else {
        assert (a + b)[k] == b[k - |a|];
      }
    }
  }

  lemma DigitsBlankless(ds: string)
    requires AllDigits(ds)
    ensures Blankless(ds)
  {
    forall k | 0 <= k < |ds|
      ensures ds[k] != ' '
    {
      assert IsDigit(ds[k]);
    }
  }

  /** The text `print` writes for a value has no space, given that a string
      value has none. */
  lemma RenderBlankless(v: Value)
    requires BlanklessValue(v)
    ensures Blankless(Render(v))
  {
    if v.Num? {
      if v.n < 0.0 {
        MagnitudeBlankless(-v.n);
        ConcatBlankless("-", Magnitude(-v.n));
      } else {
        MagnitudeBlankless(v.n);
      }
    }
  }

  lemma MagnitudeBlankless(m: real)
    requires m >= 0.0
    ensures Blankless(Magnitude(m))
  {
    var i := m.Floor;
    DigitsBlankless(NatToString(i));
    if m != i as real {
      var f := FractionDigits(m - i as real, 20);
      DigitsBlankless(f);
      ConcatBlankless(".", f);
      ConcatBlankless(NatToString(i), "." + f);
    }
  }

  lemma UnquoteBlankless(t: Token)
    requires Blankless(t)
    ensures Blankless(Unquote(t))
  {
    var r := Unquote(t);
    forall k | 0 <= k < |r|
      ensures r[k] != ' '
    {
      assert r[k] == t[k + 1];
    }
  }

  /** The text `print` appends: the value's text and a newline. */
  lemma AppendLine(output: string, text: string)
    requires Blankless(output) && Blankless(text)
    ensures Blankless(output + text + "\n")
  {
    ConcatBlankless(output, text);
    ConcatBlankless(output + text, "\n");
  }

  // ---------------------------------------------------------------------
  // Values

  lemma ApplyBlankless(op: ArithOp, a: Value, b: Value)
    requires BlanklessValue(a) && BlanklessValue(b)
    ensures var r := Apply(op, a, b); r.Ok? ==> BlanklessValue(r.value)
  {
    if a.Str? && b.Str? {
      ConcatBlankless(a.s, b.s);
    }
  }

  lemma {:induction false} ExpressionBlankless(tokens: seq<Token>, vars: map<string, Value>, pos: nat)
    requires BlanklessTokens(tokens) && BlanklessVars(vars)
    ensures var r := Expression(tokens, vars, pos); r.result.Ok? ==> BlanklessValue(r.result.value)
    decreases Rem(tokens, pos), 4
  {
    TermBlankless(tokens, vars, pos);
    var t := Term(tokens, vars, pos);
    if t.result.Ok? {
      MoreTermsBlankless(tokens, vars, t.result.value, t.position);
    }
  }

  lemma {:induction false} MoreTermsBlankless(tokens: seq<Token>, vars: map<string, Value>, acc: Value, pos: nat)
    requires BlanklessTokens(tokens) && BlanklessVars(vars) && BlanklessValue(acc)
    ensures var r := MoreTerms(tokens, vars, acc, pos); r.result.Ok? ==> BlanklessValue(r.result.value)
    decreases Rem(tokens, pos), 2
  {
    var op := At(tokens, pos);
    if op == Tok("+") || op == Tok("-") {
      TermBlankless(tokens, vars, pos + 1);
      var t := Term(tokens, vars, pos + 1);
      if t.result.Ok? {
        var o := if op == Tok("+") then Add else Sub;
        ApplyBlankless(o, acc, t.result.value);
        var v := Apply(o, acc, t.result.value);
        if v.Ok? {
          MoreTermsBlankless(tokens, vars, v.value, t.position);
        }
      }
    }
  }

  lemma {:induction false} TermBlankless(tokens: seq<Token>, vars: map<string, Value>, pos: nat)
    requires BlanklessTokens(tokens) && BlanklessVars(vars)
    ensures var r := Term(tokens, vars, pos); r.result.Ok? ==> BlanklessValue(r.result.value)
    decreases Rem(tokens, pos), 3
  {
    FactorBlankless(tokens, vars, pos);
    var f := Factor(tokens, vars, pos);
    if f.result.Ok? {
      MoreFactorsBlankless(tokens, vars, f.result.value, f.position);
    }
  }

  lemma {:induction false} MoreFactorsBlankless(tokens: seq<Token>, vars: map<string, Value>, acc: Value, pos: nat)
    requires BlanklessTokens(tokens) && BlanklessVars(vars) && BlanklessValue(acc)
    ensures var r := MoreFactors(tokens, vars, acc, pos); r.result.Ok? ==> BlanklessValue(r.result.value)
    decreases Rem(tokens, pos), 1
  {
    var op := At(tokens, pos);
    if op == Tok("*") || op == Tok("/") {
      FactorBlankless(tokens, vars, pos + 1);
      var f := Factor(tokens, vars, pos + 1);
      if f.result.Ok? {
        var o := if op == Tok("*") then Mul else Div;
        ApplyBlankless(o, acc, f.result.value);
        var v := Apply(o, acc, f.result.value);
        if v.Ok? {
          MoreFactorsBlankless(tokens, vars, v.value, f.position);
        }
      }
    }
  }

  lemma {:induction false} FactorBlankless(tokens: seq<Token>, vars: map<string, Value>, pos: nat)
    requires BlanklessTokens(tokens) && BlanklessVars(vars)
    ensures var r := Factor(tokens, vars, pos); r.result.Ok? ==> BlanklessValue(r.result.value)
    decreases Rem(tokens, pos), 0
  {
    if pos < |tokens| {
      var t := tokens[pos];
      if !IsNumber(t) && IsString(t) {
        UnquoteBlankless(t);
      } else if !IsNumber(t) && !IsString(t) && !IsIdentifier(t) && t == "(" {
        ExpressionBlankless(tokens, vars, pos + 1);
      }
    }
  }

  predicate BlanklessValues(vs: seq<Value>)
  {
    forall i :: 0 <= i < |vs| ==> BlanklessValue(vs[i])
  }

  lemma {:induction false} MoreArgumentsBlankless(tokens: seq<Token>, vars: map<string, Value>, acc: seq<Value>, pos: nat)
    requires BlanklessTokens(tokens) && BlanklessVars(vars) && BlanklessValues(acc)
    ensures var r := MoreArguments(tokens, vars, acc, pos); r.result.Ok? ==> BlanklessValues(r.result.value)
    decreases Rem(tokens, pos)
  {
    if At(tokens, pos) == Tok(",") {
      ExpressionBlankless(tokens, vars, pos + 1);
      var e := Expression(tokens, vars, pos + 1);
      if e.result.Ok? {
        MoreArgumentsBlankless(tokens, vars, acc + [e.result.value], e.position);
      }
    }
  }

  lemma ArgListBlankless(tokens: seq<Token>, vars: map<string, Value>, pos: nat)
    requires BlanklessTokens(tokens) && BlanklessVars(vars)
    ensures var r := ArgList(tokens, vars, pos); r.result.Ok? ==> BlanklessValues(r.result.value)
  {
    if At(tokens, pos) != Tok(")") {
      ExpressionBlankless(tokens, vars, pos);
      var e := Expression(tokens, vars, pos);
      if e.result.Ok? {
        MoreArgumentsBlankless(tokens, vars, [e.result.value], e.position);
      }
    }
  }

  lemma {:induction false} BindBlankless(vars: map<string, Value>, params: seq<Token>, args: seq<Value>)
    requires |params| == |args| && BlanklessVars(vars) && BlanklessValues(args)
    ensures BlanklessVars(Bind(vars, params, args))
    decreases params
  {
    if params != [] {
      BindBlankless(vars[params[0] := args[0]], params[1..], args[1..]);
    }
  }

  // ---------------------------------------------------------------------
  // Statements keep the fields sound

  lemma PrintSound(s: State)
    requires Sound(s)
    ensures Sound(Print(s).state)
  {
    if At(s.tokens, s.position) == Tok("\"") {
      AppendLine(s.output, Unquote("\""));
    } else {
      ExpressionBlankless(s.tokens, s.variables, s.position);
      var e := Expression(s.tokens, s.variables, s.position);
      if e.result.Ok? {
        RenderBlankless(e.result.value);
        AppendLine(s.output, Render(e.result.value));
      }
    }
  }

  lemma LetSound(s: State)
    requires Sound(s)
    ensures Sound(Let(s).state)
  {
    ExpressionBlankless(s.tokens, s.variables, s.position + 2);
  }

  lemma AssignSound(s: State, name: string)
    requires Sound(s)
    ensures Sound(Assign(s, name).state)
  {
    ExpressionBlankless(s.tokens, s.variables, s.position);
  }

  lemma DeclareBodySound(s: State, name: Token, params: seq<Token>)
    requires Sound(s)
    ensures Sound(DeclareBody(s, name, params).state)
  {
  }

  lemma FunctionDeclSound(s: State)
    requires Sound(s)
    ensures Sound(FunctionDecl(s).state)
  {
    if s.position < |s.tokens| && At(s.tokens, s.position + 1) == Tok("(") {
      var ps := ParamList(s.tokens, s.position + 2);
      if ps.result.Ok? {
        DeclareBodySound(s.(position := ps.position), s.tokens[s.position], ps.result.value);
      }
    }
  }

  lemma {:induction false} RunSound(s: State, fuel: nat)
    requires Sound(s)
    ensures Sound(Run(s, fuel).state)
    decreases fuel, 3, Rem(s.tokens, s.position)
  {
    if s.position < |s.tokens| {
      StatementSound(s, fuel);
      var r := Statement(s, fuel);
      if r.outcome.Done? {
        RunSound(r.state, fuel);
      }
    }
  }

  lemma {:induction false} StatementSound(s: State, fuel: nat)
    requires s.position < |s.tokens| && Sound(s)
    ensures Sound(Statement(s, fuel).state)
    decreases fuel, 2, 0
  {
    var t := s.tokens[s.position];
    var s1 := Moved(s, s.position + 1);
    if t == "print" {
      PrintSound(s1);
    } else if t == "let" {
      LetSound(s1);
    } else if t == "if" {
      IfSound(s1, fuel);
    } else if t == "function" {
      FunctionDeclSound(s1);
    } else if IsIdentifier(t) {
      AssignOrCallSound(s, fuel);
    }
  }

  lemma {:induction false} IfSound(s: State, fuel: nat)
    requires Sound(s)
    ensures Sound(If(s, fuel).state)
    decreases fuel, 1, 0
  {
    match Expect(s, "(")
    case Err(_) =>
    case Ok(s1) =>
      var c := Condition(s1.tokens, s1.variables, s1.position);
      var s2 := Moved(s1, c.position);
      if c.result.Ok? {
        match Expect(s2, ")")
        case Err(_) =>
        case Ok(s3) =>
          match Expect(s3, "{")
          case Err(_) =>
          case Ok(s4) =>
            if c.result.value {
              BlockSound(s4, fuel);
            }
      }
  }

  lemma {:induction false} BlockSound(s: State, fuel: nat)
    requires Sound(s)
    ensures Sound(Block(s, fuel).state)
    decreases fuel, 0, 0
  {
    if At(s.tokens, s.position) != Tok("}") && fuel > 0 {
      RunSound(s, fuel - 1);
      var r := Run(s, fuel - 1);
      if r.outcome.Done? {
        BlockSound(r.state, fuel - 1);
      }
    }
  }

  lemma {:induction false} AssignOrCallSound(s: State, fuel: nat)
    requires s.position < |s.tokens| && Sound(s)
    ensures Sound(AssignOrCall(s, fuel).state)
    decreases fuel, 1, 0
  {
    var next := At(s.tokens, s.position + 1);
    if next == Tok("=") {
      assert AssignOrCall(s, fuel) == Assign(Moved(s, s.position + 2), s.tokens[s.position]);
      AssignSound(Moved(s, s.position + 2), s.tokens[s.position]);
    } else if next == Tok("(") {
      CallStatementSound(s, fuel);
    }
  }

  /** The call branch of `parseAssignmentOrFunctionCall`. */
  lemma {:induction false} CallStatementSound(s: State, fuel: nat)
    requires s.position < |s.tokens| && Sound(s)
    requires At(s.tokens, s.position + 1) == Tok("(")
    ensures Sound(AssignOrCall(s, fuel).state)
    decreases fuel, 0, 1
  {
    ArgListBlankless(s.tokens, s.variables, s.position + 2);
    var args := ArgList(s.tokens, s.variables, s.position + 2);
    var r := AssignOrCall(s, fuel);
    if args.result.Err? || At(s.tokens, args.position) != Tok(")") {
      assert r.state == Moved(s, args.position);
    } else if At(s.tokens, args.position + 1) != Tok(";") {
      assert r.state == Moved(s, args.position + 1);
    } else {
      var s4 := Moved(s, args.position + 2);
      assert r == Call(s4, s.tokens[s.position], args.result.value, fuel);
      CallSound(s4, s.tokens[s.position], args.result.value, fuel);
    }
  }

  lemma {:induction false} CallSound(s: State, name: string, args: seq<Value>, fuel: nat)
    requires Sound(s) && BlanklessValues(args)
    ensures Sound(Call(s, name, args, fuel).state)
    decreases fuel, 0, 0
  {
    if name in s.functions && |args| == |s.functions[name].params| && fuel > 0 {
      var f := s.functions[name];
      BindBlankless(s.variables, f.params, args);
      var callee := State(Bind(s.variables, f.params, args), s.functions, s.output, f.body, 0);
      RunSound(callee, fuel - 1);
    }
  }
}
