/** The step budget only decides whether a run finishes, never how: once a
    budget is enough for a statement, a block, a call or a whole run to end
    (normally or with an error), every larger budget ends it the same
    way, with the same fields. */
module FuelFacts {
  import opened Lexer
  import opened Runtime
  import opened Semantics

  lemma {:induction false} RunMonotone(s: State, f: nat, g: nat)
    requires f <= g && Run(s, f).outcome != OutOfFuel
    ensures Run(s, g) == Run(s, f)
    decreases f, 3, Rem(s.tokens, s.position)
  {
    if s.position < |s.tokens| {
      StatementMonotone(s, f, g);
      var r := Statement(s, f);
      if r.outcome.Done? {
        RunMonotone(r.state, f, g);
      }
    }
  }

  lemma {:induction false} StatementMonotone(s: State, f: nat, g: nat)
    requires s.position < |s.tokens|
    requires f <= g && Statement(s, f).outcome != OutOfFuel
    ensures Statement(s, g) == Statement(s, f)
    decreases f, 2, 0
  {
    var t := s.tokens[s.position];
    if t == "print" || t == "let" || t == "function" {
    } else if t == "if" {
      IfMonotone(Moved(s, s.position + 1), f, g);
    } else if IsIdentifier(t) {
      AssignOrCallMonotone(s, f, g);
    }
  }

  lemma {:induction false} IfMonotone(s: State, f: nat, g: nat)
    requires f <= g && If(s, f).outcome != OutOfFuel
    ensures If(s, g) == If(s, f)
    decreases f, 1, 0
  {
    match Expect(s, "(")
    case Err(_) =>
    case Ok(s1) =>
      var c := Condition(s1.tokens, s1.variables, s1.position);
      var s2 := Moved(s1, c.position);
      if c.result.Ok? {
        match Expect(s2, ")")
        case Err(_) =>
        case Ok(s3) =>
          match Expect(s3, "{")
          case Err(_) =>
          case Ok(s4) =>
            if c.result.value {
              BlockMonotone(s4, f, g);
            }
      }
  }

  lemma {:induction false} BlockMonotone(s: State, f: nat, g: nat)
    requires f <= g && Block(s, f).outcome != OutOfFuel
    ensures Block(s, g) == Block(s, f)
    decreases f, 0, 0
  {
    if At(s.tokens, s.position) != Tok("}") {
      RunMonotone(s, f - 1, g - 1);
      var r := Run(s, f - 1);
      if r.outcome.Done? {
        BlockMonotone(r.state, f - 1, g - 1);
      }
    }
  }

  lemma {:induction false} AssignOrCallMonotone(s: State, f: nat, g: nat)
    requires s.position < |s.tokens|
    requires f <= g && AssignOrCall(s, f).outcome != OutOfFuel
    ensures AssignOrCall(s, g) == AssignOrCall(s, f)
    decreases f, 1, 0
  {
    var name := s.tokens[s.position];
    if At(s.tokens, s.position + 1) == Tok("(") {
      var args := ArgList(s.tokens, s.variables, s.position + 2);
      var s2 := Moved(s, args.position);
      if args.result.Ok? {
        match Expect(s2, ")")
        case Err(_) =>
        case Ok(s3) =>
          match Expect(s3, ";")
          case Err(_) =>
          case Ok(s4) =>
            CallMonotone(s4, name, args.result.value, f, g);
      }
    }
  }

  lemma {:induction false} CallMonotone(s: State, name: string, args: seq<Value>, f: nat, g: nat)
    requires f <= g && Call(s, name, args, f).outcome != OutOfFuel
    ensures Call(s, name, args, g) == Call(s, name, args, f)
    decreases f, 0, 0
  {
    if name in s.functions && |args| == |s.functions[name].params| {
      var fn := s.functions[name];
      var callee := State(Bind(s.variables, fn.params, args), s.functions, s.output, fn.body, 0);
      RunMonotone(callee, f - 1, g - 1);
    }
  }

  /** The answer of `runSolarCode` does not depend on the budget once it
      exists. */
  lemma AnswerMonotone(code: string, f: nat, g: nat)
    requires f <= g && Answer(code, f).Some?
    ensures Answer(code, g) == Answer(code, f)
  {
    RunMonotone(Initial(Tokenize(code)), f, g);
  }
}
