/** The meaning of every parse method of solar-interpreter.js, written as
    functions over the interpreter's five fields.  Each function takes the
    fields as they are when the method is entered and returns how the method
    ends together with the fields when it returns or throws; the class in
    interpreter.dfy is proved to compute exactly these results.

    The source parses and executes in one pass and can run forever (a true
    `if` with a non-empty block never returns, and calls can recurse without
    bound), so the statement functions take a step budget `fuel`: a
    function call and each turn of the block loop use one unit, and a run
    whose budget is spent ends with `OutOfFuel`. */
module Semantics {
  import opened Lexer
  import opened Runtime

  /** A stored function: its parameter tokens and its body tokens. */
  datatype Function = Function(params: seq<Token>, body: seq<Token>)

  /** The fields of a `SolarInterpreter` (solar-interpreter.js:4-10). */
  datatype State = State(
    variables: map<string, Value>,
    functions: map<string, Function>,
    output: string,
    tokens: seq<Token>,
    position: nat)

  /** How a statement method ends, and the fields afterwards. */
  datatype Step = Step(outcome: Outcome, state: State)

  /** What an expression method returns (or throws), and the cursor
      afterwards; expressions change nothing else. */
  datatype Parsed<T> = Parsed(result: Result<T>, position: nat)

  /** The fields that `interpret` sets before it parses
      (solar-interpreter.js:13-17). */
  function Initial(tokens: seq<Token>): State
  {
    State(map[], map[], "", tokens, 0)
  }

  /** `this.tokens[i]`, with the end of the sequence made explicit. */
  function At(tokens: seq<Token>, i: nat): (f: Found)
    ensures f.Tok? <==> i < |tokens|
  {
    if i < |tokens| then Tok(tokens[i]) else End
  }

  /** How many tokens are left from `i` on. */
  function Rem(tokens: seq<Token>, i: nat): nat
  {
    if i < |tokens| then |tokens| - i else 0
  }

  function Moved(s: State, position: nat): State
  {
    s.(position := position)
  }

  /** What the source never takes back: print output, declared variable
      names and declared function names. */
  predicate Grows(s: State, t: State)
  {
    s.output <= t.output && s.variables.Keys <= t.variables.Keys && s.functions.Keys <= t.functions.Keys
  }

  /** `expect(token)`: consume `token` or throw (solar-interpreter.js:261-266). */
  function Expect(s: State, token: Token): (r: Result<State>)
    ensures r.Ok? <==> At(s.tokens, s.position) == Tok(token)
    ensures r.Ok? ==> r.value == Moved(s, s.position + 1)
    ensures r.Err? ==> r.error == Expected(token, At(s.tokens, s.position))
  {
    if At(s.tokens, s.position) == Tok(token) then Ok(Moved(s, s.position + 1))
    else Err(Expected(token, At(s.tokens, s.position)))
  }

  // ---------------------------------------------------------------------
  // Expressions (solar-interpreter.js:97-144)

  /** `parseExpression`: terms joined by `+` and `-`, from left to right. */
  function Expression(tokens: seq<Token>, vars: map<string, Value>, pos: nat): (r: Parsed<Value>)
    ensures r.position > pos
    decreases Rem(tokens, pos), 4
  {
    var t := Term(tokens, vars, pos);
    if t.result.Err? then t else MoreTerms(tokens, vars, t.result.value, t.position)
  }

  /** The loop of `parseExpression` once `acc` is the value so far. */
  function MoreTerms(tokens: seq<Token>, vars: map<string, Value>, acc: Value, pos: nat): (r: Parsed<Value>)
    ensures r.position >= pos
    decreases Rem(tokens, pos), 2
  {
    var op := At(tokens, pos);
    if op == Tok("+") || op == Tok("-") then
      var t := Term(tokens, vars, pos + 1);
      if t.result.Err? then t
      else
        var v := Apply(if op == Tok("+") then Add else Sub, acc, t.result.value);
        if v.Err? then Parsed(Err(v.error), t.position) else MoreTerms(tokens, vars, v.value, t.position)
    else Parsed(Ok(acc), pos)
  }

  /** `parseTerm`: factors joined by `*` and `/`, from left to right. */
  function Term(tokens: seq<Token>, vars: map<string, Value>, pos: nat): (r: Parsed<Value>)
    ensures r.position > pos
    decreases Rem(tokens, pos), 3
  {
    var f := Factor(tokens, vars, pos);
    if f.result.Err? then f else MoreFactors(tokens, vars, f.result.value, f.position)
  }

  /** The loop of `parseTerm` once `acc` is the value so far. */
  function MoreFactors(tokens: seq<Token>, vars: map<string, Value>, acc: Value, pos: nat): (r: Parsed<Value>)
    ensures r.position >= pos
    decreases Rem(tokens, pos), 1
  {
    var op := At(tokens, pos);
    if op == Tok("*") || op == Tok("/") then
      var f := Factor(tokens, vars, pos + 1);
      if f.result.Err? then f
      else
        var v := Apply(if op == Tok("*") then Mul else Div, acc, f.result.value);
        if v.Err? then Parsed(Err(v.error), f.position) else MoreFactors(tokens, vars, v.value, f.position)
    else Parsed(Ok(acc), pos)
  }

  /** `parseFactor`: a number, a string literal, a variable or a
      parenthesised expression.  The cursor moves past the first token
      before it is looked at. */
  function Factor(tokens: seq<Token>, vars: map<string, Value>, pos: nat): (r: Parsed<Value>)
    ensures r.position > pos
    decreases Rem(tokens, pos), 0
  {
    match At(tokens, pos)
    case End => Parsed(Err(UnexpectedInExpression(End)), pos + 1)
    case Tok(t) =>
      if IsNumber(t) then Parsed(Ok(Num(NumberValue(t))), pos + 1)
      else if IsString(t) then Parsed(Ok(Str(Unquote(t))), pos + 1)
      else if IsIdentifier(t) then
        if t in vars then Parsed(Ok(vars[t]), pos + 1) else Parsed(Err(NotDeclared(t)), pos + 1)
      else if t == "(" then
        var e := Expression(tokens, vars, pos + 1);
        if e.result.Err? then e
        else if At(tokens, e.position) == Tok(")") then Parsed(e.result, e.position + 1)
        else Parsed(Err(Expected(")", At(tokens, e.position))), e.position)
      else Parsed(Err(UnexpectedInExpression(Tok(t))), pos + 1)
  }

  /** `parseCondition`: the left operand, one operator token, the right
      operand, and only then the operator is looked at
      (solar-interpreter.js:171-191). */
  function Condition(tokens: seq<Token>, vars: map<string, Value>, pos: nat): (r: Parsed<bool>)
    ensures r.position > pos
  {
    var l := Expression(tokens, vars, pos);
    if l.result.Err? then Parsed(Err(l.result.error), l.position)
    else
      var op := At(tokens, l.position);
      var rt := Expression(tokens, vars, l.position + 1);
      if rt.result.Err? then Parsed(Err(rt.result.error), rt.position)
      else Parsed(Compare(op, l.result.value, rt.result.value), rt.position)
  }

  /** The argument list of a call when it does not start with `)`:
      expressions separated by commas (solar-interpreter.js:82-88). */
  function Arguments(tokens: seq<Token>, vars: map<string, Value>, pos: nat): (r: Parsed<seq<Value>>)
    ensures r.position > pos
  {
    var e := Expression(tokens, vars, pos);
    if e.result.Err? then Parsed(Err(e.result.error), e.position)
    else MoreArguments(tokens, vars, [e.result.value], e.position)
  }

  /** The argument list of a call, entered after `(`. */
  function ArgList(tokens: seq<Token>, vars: map<string, Value>, pos: nat): (r: Parsed<seq<Value>>)
    ensures r.position >= pos
  {
    if At(tokens, pos) == Tok(")") then Parsed(Ok([]), pos) else Arguments(tokens, vars, pos)
  }

  function MoreArguments(tokens: seq<Token>, vars: map<string, Value>, acc: seq<Value>, pos: nat): (r: Parsed<seq<Value>>)
    ensures r.position >= pos
    decreases Rem(tokens, pos)
  {
    if At(tokens, pos) == Tok(",") then
      var e := Expression(tokens, vars, pos + 1);
      if e.result.Err? then Parsed(Err(e.result.error), e.position)
      else MoreArguments(tokens, vars, acc + [e.result.value], e.position)
    else Parsed(Ok(acc), pos)
  }

  /** The parameter list of a declaration when it does not start with `)`:
      any tokens separated by commas (solar-interpreter.js:214-220).  A slot
      at the end of the tokens makes the following `expect(')')` throw. */
  function Params(tokens: seq<Token>, pos: nat): (r: Parsed<seq<Token>>)
    ensures r.position > pos
  {
    match At(tokens, pos)
    case End => Parsed(Err(Expected(")", End)), pos + 1)
    case Tok(p) => MoreParams(tokens, [p], pos + 1)
  }

  function MoreParams(tokens: seq<Token>, acc: seq<Token>, pos: nat): (r: Parsed<seq<Token>>)
    ensures r.position >= pos
    decreases Rem(tokens, pos)
  {
    if At(tokens, pos) == Tok(",") then
      match At(tokens, pos + 1)
      case End => Parsed(Err(Expected(")", End)), pos + 2)
      case Tok(p) => MoreParams(tokens, acc + [p], pos + 2)
    else Parsed(Ok(acc), pos)
  }

  /** The brace-counting loop of `skipBlock` and `parseFunctionDeclaration`
      (solar-interpreter.js:203-207 and 225-229): where the cursor stops. */
  function BraceScan(tokens: seq<Token>, pos: nat, depth: nat): (r: nat)
    ensures r >= pos
    ensures pos <= |tokens| ==> r <= |tokens|
    decreases |tokens| - pos
  {
    if depth > 0 && pos < |tokens| then
      var t := tokens[pos];
      BraceScan(tokens, pos + 1, if t == "{" then depth + 1 else if t == "}" then depth - 1 else depth)
    else pos
  }

  /** `skipBlock`, entered just after the `{` that `expect` consumed: it
      steps over one more token without counting it, then counts braces. */
  function SkipBlock(tokens: seq<Token>, pos: nat): (r: nat)
    ensures r > pos
    ensures pos < |tokens| ==> r <= |tokens|
  {
    BraceScan(tokens, pos + 1, 1)
  }

  /** The parameter bindings of `executeFunction`, in parameter order, so
      that a repeated parameter takes its last argument
      (solar-interpreter.js:246-248). */
  function Bind(vars: map<string, Value>, params: seq<Token>, args: seq<Value>): (r: map<string, Value>)
    requires |params| == |args|
    ensures r.Keys == vars.Keys + set p | p in params
    decreases params
  {
    if params == [] then vars else Bind(vars[params[0] := args[0]], params[1..], args[1..])
  }

  // ---------------------------------------------------------------------
  // Statements

  /** `parsePrintStatement`, entered after `print`
      (solar-interpreter.js:146-157). */
  function Print(s: State): (r: Step)
    ensures Grows(s, r.state) && r.state.tokens == s.tokens
    ensures r.outcome.Done? ==> r.state.position > s.position
  {
    if At(s.tokens, s.position) == Tok("\"") then
      var s1 := Moved(s, s.position + 1);
      match Expect(s1, ";")
      case Err(e) => Step(Failed(e), s1)
      case Ok(s2) => Step(Done, s2.(output := s2.output + Unquote("\"") + "\n"))
    else
      var e := Expression(s.tokens, s.variables, s.position);
      var s1 := Moved(s, e.position);
      if e.result.Err? then Step(Failed(e.result.error), s1)
      else
        match Expect(s1, ";")
        case Err(err) => Step(Failed(err), s1)
        case Ok(s2) => Step(Done, s2.(output := s2.output + Render(e.result.value) + "\n"))
  }

  /** `parseVariableDeclaration`, entered after `let`
      (solar-interpreter.js:56-65). */
  function Let(s: State): (r: Step)
    ensures Grows(s, r.state) && r.state.tokens == s.tokens
    ensures r.outcome.Done? ==> r.state.position > s.position
  {
    match At(s.tokens, s.position)
    case End => Step(Failed(Expected("=", End)), Moved(s, s.position + 1))
    case Tok(name) =>
      var s1 := Moved(s, s.position + 1);
      if name in s.variables then Step(Failed(AlreadyDeclared(name)), s1)
      else
        match Expect(s1, "=")
        case Err(err) => Step(Failed(err), s1)
        case Ok(s2) =>
          var e := Expression(s2.tokens, s2.variables, s2.position);
          var s3 := Moved(s2, e.position);
          if e.result.Err? then Step(Failed(e.result.error), s3)
          else
            match Expect(s3, ";")
            case Err(err) => Step(Failed(err), s3)
            case Ok(s4) => Step(Done, s4.(variables := s4.variables[name := e.result.value]))
  }

  /** The assignment branch of `parseAssignmentOrFunctionCall`, entered
      after `=` (solar-interpreter.js:70-77): the expression and the `;` come
      before the check that `name` is declared. */
  function Assign(s: State, name: string): (r: Step)
    ensures Grows(s, r.state) && r.state.tokens == s.tokens
    ensures r.outcome.Done? ==> r.state.position > s.position
  {
    var e := Expression(s.tokens, s.variables, s.position);
    var s2 := Moved(s, e.position);
    if e.result.Err? then Step(Failed(e.result.error), s2)
    else
      match Expect(s2, ";")
      case Err(err) => Step(Failed(err), s2)
      case Ok(s3) =>
        if name !in s.variables then Step(Failed(NotDeclared(name)), s3)
        else Step(Done, s3.(variables := s3.variables[name := e.result.value]))
  }

  /** `parseAssignmentOrFunctionCall`, entered at the identifier
      (solar-interpreter.js:67-95). */
  function AssignOrCall(s: State, fuel: nat): (r: Step)
    requires s.position < |s.tokens|
    ensures Grows(s, r.state)
    ensures r.outcome.Done? ==> r.state.tokens == s.tokens && r.state.position > s.position
    decreases fuel, 1, 0
  {
    var name := s.tokens[s.position];
    var s1 := Moved(s, s.position + 1);
    var next := At(s.tokens, s1.position);
    if next == Tok("=") then Assign(Moved(s, s1.position + 1), name)
    else if next == Tok("(") then
      var args := ArgList(s.tokens, s.variables, s1.position + 1);
      var s2 := Moved(s, args.position);
      if args.result.Err? then Step(Failed(args.result.error), s2)
      else
        match Expect(s2, ")")
        case Err(err) => Step(Failed(err), s2)
        case Ok(s3) =>
          match Expect(s3, ";")
          case Err(err) => Step(Failed(err), s3)
          case Ok(s4) => Call(s4, name, args.result.value, fuel)
    else Step(Failed(UnexpectedToken(next)), s1)
  }

  /** `executeFunction` (solar-interpreter.js:235-259): the body runs on
      the caller's variables with the parameters bound; when it returns,
      the caller's variables, tokens and cursor come back, while the output
      and the function table keep what the body did.  A body that throws
      leaves the fields as the throw found them. */
  function Call(s: State, name: string, args: seq<Value>, fuel: nat): (r: Step)
    ensures Grows(s, r.state)
    ensures r.outcome.Done? ==> r.state.tokens == s.tokens && r.state.position == s.position
                                && r.state.variables == s.variables
    decreases fuel, 0, 0
  {
    if name !in s.functions then Step(Failed(NotDefined(name)), s)
    else
      var f := s.functions[name];
      if |args| != |f.params| then Step(Failed(WrongArity(name, |f.params|)), s)
      else if fuel == 0 then Step(OutOfFuel, s)
      else
        var callee := State(Bind(s.variables, f.params, args), s.functions, s.output, f.body, 0);
        var r := Run(callee, fuel - 1);
        if r.outcome.Done? then
          Step(Done, r.state.(variables := s.variables, tokens := s.tokens, position := s.position))
        else r
  }

  /** `parseIfStatement`, entered after `if` (solar-interpreter.js:159-169). */
  function If(s: State, fuel: nat): (r: Step)
    ensures Grows(s, r.state)
    ensures r.outcome.Done? ==> r.state.tokens == s.tokens && r.state.position > s.position
    decreases fuel, 1, 0
  {
    match Expect(s, "(")
    case Err(err) => Step(Failed(err), s)
    case Ok(s1) =>
      var c := Condition(s1.tokens, s1.variables, s1.position);
      var s2 := Moved(s1, c.position);
      if c.result.Err? then Step(Failed(c.result.error), s2)
      else
        match Expect(s2, ")")
        case Err(err) => Step(Failed(err), s2)
        case Ok(s3) =>
          match Expect(s3, "{")
          case Err(err) => Step(Failed(err), s3)
          case Ok(s4) =>
            if c.result.value then Block(s4, fuel)
            else Step(Done, Moved(s4, SkipBlock(s4.tokens, s4.position)))
  }

  /** `parseBlock` (solar-interpreter.js:193-198): run `parse` until the
      cursor is at a `}`, then step over it.  Each turn of the loop costs one
      unit of fuel. */
  function Block(s: State, fuel: nat): (r: Step)
    ensures Grows(s, r.state)
    ensures r.outcome.Done? ==> r.state.tokens == s.tokens && r.state.position > s.position
    decreases fuel, 0, 0
  {
    if At(s.tokens, s.position) == Tok("}") then Step(Done, Moved(s, s.position + 1))
    else if fuel == 0 then Step(OutOfFuel, s)
    else
      var r := Run(s, fuel - 1);
      if !r.outcome.Done? then r else Block(r.state, fuel - 1)
  }

  /** `parseFunctionDeclaration`, entered after `function`
      (solar-interpreter.js:210-233): name, `(`, parameters, then the body. */
  function FunctionDecl(s: State): (r: Step)
    ensures Grows(s, r.state) && r.state.tokens == s.tokens
    ensures r.outcome.Done? ==> r.state.position > s.position
  {
    match At(s.tokens, s.position)
    case End => Step(Failed(Expected("(", End)), Moved(s, s.position + 1))
    case Tok(name) =>
      var s1 := Moved(s, s.position + 1);
      match Expect(s1, "(")
      case Err(err) => Step(Failed(err), s1)
      case Ok(s2) =>
        var ps := ParamList(s.tokens, s2.position);
        if ps.result.Err? then Step(Failed(ps.result.error), Moved(s2, ps.position))
        else DeclareBody(Moved(s2, ps.position), name, ps.result.value)
  }

  /** The parameter list of a declaration, entered after `(`. */
  function ParamList(tokens: seq<Token>, pos: nat): (r: Parsed<seq<Token>>)
    ensures r.position >= pos
  {
    if At(tokens, pos) == Tok(")") then Parsed(Ok([]), pos) else Params(tokens, pos)
  }

  /** The end of `parseFunctionDeclaration`, entered at the `)` that closes
      the parameters.  The body is not looked at beyond counting braces;
      when the tokens end before the braces balance, the body loses its last
      token, as `slice(bodyStart, position - 1)` does. */
  function DeclareBody(s: State, name: Token, params: seq<Token>): (r: Step)
    ensures Grows(s, r.state) && r.state.tokens == s.tokens
    ensures r.outcome.Done? ==> r.state.position > s.position
  {
    match Expect(s, ")")
    case Err(err) => Step(Failed(err), s)
    case Ok(s4) =>
      match Expect(s4, "{")
      case Err(err) => Step(Failed(err), s4)
      case Ok(s5) =>
        var start := s5.position;
        var stop := BraceScan(s.tokens, start, 1);
        var body := if stop - 1 >= start then s.tokens[start..stop - 1] else [];
        Step(Done, Moved(s5, stop).(functions := s5.functions[name := Function(params, body)]))
  }

  /** `parseStatement`, the closure inside `parse`
      (solar-interpreter.js:29-49): keywords first, then identifiers; any
      other token is stepped over. */
  function Statement(s: State, fuel: nat): (r: Step)
    requires s.position < |s.tokens|
    ensures Grows(s, r.state)
    ensures r.outcome.Done? ==> r.state.tokens == s.tokens && r.state.position > s.position
    decreases fuel, 2, 0
  {
    var t := s.tokens[s.position];
    var s1 := Moved(s, s.position + 1);
    if t == "print" then Print(s1)
    else if t == "let" then Let(s1)
    else if t == "if" then If(s1, fuel)
    else if t == "function" then FunctionDecl(s1)
    else if IsIdentifier(t) then AssignOrCall(s, fuel)
    else Step(Done, s1)
  }

  /** `parse` (solar-interpreter.js:28-54): statements until the cursor
      reaches the end of the current token sequence. */
  function Run(s: State, fuel: nat): (r: Step)
    ensures Grows(s, r.state)
    ensures r.outcome.Done? ==> r.state.tokens == s.tokens && r.state.position >= s.position
                                && r.state.position >= |s.tokens|
    decreases fuel, 3, Rem(s.tokens, s.position)
  {
    if s.position >= |s.tokens| then Step(Done, s)
    else
      var r := Statement(s, fuel);
      if !r.outcome.Done? then r else Run(r.state, fuel)
  }

  // ---------------------------------------------------------------------
  // Entry points

  /** `interpret(code)` (solar-interpreter.js:12-20). */
  function Interpret(code: string, fuel: nat): (r: Step)
    ensures r.outcome.Done? ==> r.state.tokens == Tokenize(code) && r.state.position >= |r.state.tokens|
  {
    Run(Initial(Tokenize(code)), fuel)
  }

  /** `runSolarCode(code)` (solar-interpreter.js:283-290): the output, or
      `"Error: "` and the message; `None` when the budget runs out first. */
  function Answer(code: string, fuel: nat): (r: Option<string>)
    ensures r.Some? <==> Interpret(code, fuel).outcome != OutOfFuel
  {
    var r := Interpret(code, fuel);
    match r.outcome
    case Done => Some(r.state.output)
    case Failed(e) => Some("Error: " + Message(e))
    case OutOfFuel => None
  }
}
