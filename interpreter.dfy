/** The `SolarInterpreter` class of solar-interpreter.js and the entry point
    `runSolarCode`.  The class keeps the source's five fields and updates
    them in place, method by method; every method is proved to end exactly
    as the matching function of module Semantics says, fields included. */
module Solar {
  import opened Lexer
  import opened Runtime
  import opened Semantics

  class Interpreter {
    var variables: map<string, Value>
    var functions: map<string, Function>
    var output: string
    var tokens: seq<Token>
    var position: nat

    /** `constructor()` (solar-interpreter.js:4-10). */
    constructor ()
      ensures Snapshot() == Initial([])
    {
      variables := map[];
      functions := map[];
      output := "";
      tokens := [];
      position := 0;
    }

    /** The five fields as one value. */
    function Snapshot(): State
      reads this
    {
      State(variables, functions, output, tokens, position)
    }

    /** `this.tokens[this.position]` */
    function Current(): Found
      reads this
    {
      At(tokens, position)
    }

    /** `interpret(code)`: reset every field, scan, parse
        (solar-interpreter.js:12-20). */
    method Interpret(code: string, fuel: nat) returns (o: Outcome)
      modifies this
      ensures Step(o, Snapshot()) == Semantics.Interpret(code, fuel)
    {
      variables := map[];
      functions := map[];
      output := "";
      tokens := Tokenize(code);
      position := 0;
      o := Parse(fuel);
    }

    /** `parse()` (solar-interpreter.js:28-54). */
    method Parse(fuel: nat) returns (o: Outcome)
      modifies this
      ensures Step(o, Snapshot()) == Run(old(Snapshot()), fuel)
      decreases fuel, 3
    {
      while position < |tokens|
        invariant Run(Snapshot(), fuel) == Run(old(Snapshot()), fuel)
        decreases |tokens| - position
      {
        o := ParseStatement(fuel);
        if !o.Done? {
          return;
        }
      }
      o := Done;
    }

    /** The `parseStatement` closure of `parse` (solar-interpreter.js:29-49). */
    method ParseStatement(fuel: nat) returns (o: Outcome)
      requires position < |tokens|
      modifies this
      ensures Step(o, Snapshot()) == Statement(old(Snapshot()), fuel)
      decreases fuel, 2
    {
      var token := tokens[position];
      if token == "print" {
        position := position + 1;
        o := ParsePrintStatement();
      } else if token == "let" {
        position := position + 1;
        o := ParseVariableDeclaration();
      } else if token == "if" {
        position := position + 1;
        o := ParseIfStatement(fuel);
      } else if token == "function" {
        position := position + 1;
        o := ParseFunctionDeclaration();
      } else if IsIdentifier(token) {
        o := ParseAssignmentOrFunctionCall(fuel);
      } else {
        position := position + 1;
        o := Done;
      }
    }

    /** `parseVariableDeclaration()` (solar-interpreter.js:56-65). */
    method ParseVariableDeclaration() returns (o: Outcome)
      modifies this`position, this`variables
      ensures Step(o, Snapshot()) == Let(old(Snapshot()))
    {
      var varName := Current();
      position := position + 1;
      if varName.Tok? && varName.t in variables {
        return Failed(AlreadyDeclared(varName.t));
      }
      o := Expect("=");
      if !o.Done? {
        return;
      }
      var value := ParseExpression();
      if value.Err? {
        return Failed(value.error);
      }
      o := Expect(";");
      if !o.Done? {
        return;
      }
      variables := variables[varName.t := value.value];
    }

    /** `parseAssignmentOrFunctionCall()` (solar-interpreter.js:67-95). */
    method ParseAssignmentOrFunctionCall(fuel: nat) returns (o: Outcome)
      requires position < |tokens|
      modifies this
      ensures Step(o, Snapshot()) == AssignOrCall(old(Snapshot()), fuel)
      decreases fuel, 1, 1
    {
      var name := tokens[position];
      position := position + 1;
      if Current() == Tok("=") {
        position := position + 1;
        o := ParseAssignment(name);
      } else if Current() == Tok("(") {
        position := position + 1;
        o := ParseCall(name, fuel, old(Snapshot()));
      } else {
        o := Failed(UnexpectedToken(Current()));
      }
    }

    /** The call branch of `parseAssignmentOrFunctionCall`
        (solar-interpreter.js:78-91), entered after `(`; `s` is the state
        at the name. */
    method ParseCall(name: string, fuel: nat, ghost s: State) returns (o: Outcome)
      requires s.position < |s.tokens| && name == s.tokens[s.position]
      requires At(s.tokens, s.position + 1) == Tok("(") && Snapshot() == Moved(s, s.position + 2)
      modifies this
      ensures Step(o, Snapshot()) == AssignOrCall(s, fuel)
      decreases fuel, 1, 0
    {
      var args := ParseArguments();
      ghost var a := ArgList(s.tokens, s.variables, s.position + 2);
      assert args == a.result && Snapshot() == Moved(s, a.position);
      if args.Err? {
        return Failed(args.error);
      }
      o := Expect(")");
      if !o.Done? {
        return;
      }
      assert Snapshot() == Moved(s, a.position + 1);
      o := Expect(";");
      if !o.Done? {
        return;
      }
      assert Snapshot() == Moved(s, a.position + 2);
      o := ExecuteFunction(name, args.value, fuel);
    }

    /** The assignment branch of `parseAssignmentOrFunctionCall`
        (solar-interpreter.js:70-77), entered after `=`. */
    method ParseAssignment(name: string) returns (o: Outcome)
      modifies this`position, this`variables
      ensures Step(o, Snapshot()) == Assign(old(Snapshot()), name)
    {
      var value := ParseExpression();
      if value.Err? {
        return Failed(value.error);
      }
      o := Expect(";");
      if !o.Done? {
        return;
      }
      if name !in variables {
        return Failed(NotDeclared(name));
      }
      variables := variables[name := value.value];
    }

    /** The argument list of `parseAssignmentOrFunctionCall`
        (solar-interpreter.js:81-89), entered after `(`. */
    method ParseArguments() returns (r: Result<seq<Value>>)
      modifies this`position
      ensures Parsed(r, position) == ArgList(tokens, variables, old(position))
    {
      var args: seq<Value> := [];
      if Current() != Tok(")") {
        var first := ParseExpression();
        if first.Err? {
          return Err(first.error);
        }
        args := [first.value];
        while Current() == Tok(",")
          invariant MoreArguments(tokens, variables, args, position) == ArgList(tokens, variables, old(position))
          decreases Rem(tokens, position)
        {
          position := position + 1;
          var next := ParseExpression();
          if next.Err? {
            return Err(next.error);
          }
          args := args + [next.value];
        }
      }
      return Ok(args);
    }

    /** `parseExpression()` (solar-interpreter.js:97-109). */
    method ParseExpression() returns (r: Result<Value>)
      modifies this`position
      ensures Parsed(r, position) == Expression(tokens, variables, old(position))
      decreases Rem(tokens, position), 4
    {
      r := ParseTerm();
      if r.Err? {
        return;
      }
      r := ParseMoreTerms(r.value);
    }

    /** The loop of `parseExpression` (solar-interpreter.js:99-107), once
        `value` holds the first term. */
    method ParseMoreTerms(value: Value) returns (r: Result<Value>)
      modifies this`position
      ensures Parsed(r, position) == MoreTerms(tokens, variables, value, old(position))
      decreases Rem(tokens, position), 2
    {
      var acc := value;
      while Current() == Tok("+") || Current() == Tok("-")
        invariant position >= old(position)
        invariant MoreTerms(tokens, variables, acc, position) == MoreTerms(tokens, variables, value, old(position))
        decreases Rem(tokens, position)
      {
        var operator := tokens[position];
        position := position + 1;
        var nextTerm := ParseTerm();
        if nextTerm.Err? {
          return nextTerm;
        }
        var v := Apply(if operator == "+" then Add else Sub, acc, nextTerm.value);
        if v.Err? {
          return Err(v.error);
        }
        acc := v.value;
      }
      r := Ok(acc);
    }

    /** `parseTerm()` (solar-interpreter.js:111-123). */
    method ParseTerm() returns (r: Result<Value>)
      modifies this`position
      ensures Parsed(r, position) == Term(tokens, variables, old(position))
      decreases Rem(tokens, position), 3
    {
      r := ParseFactor();
      if r.Err? {
        return;
      }
      r := ParseMoreFactors(r.value);
    }

    /** The loop of `parseTerm` (solar-interpreter.js:113-121), once `value`
        holds the first factor. */
    method ParseMoreFactors(value: Value) returns (r: Result<Value>)
      modifies this`position
      ensures Parsed(r, position) == MoreFactors(tokens, variables, value, old(position))
      decreases Rem(tokens, position), 1
    {
      var acc := value;
      while Current() == Tok("*") || Current() == Tok("/")
        invariant position >= old(position)
        invariant MoreFactors(tokens, variables, acc, position) == MoreFactors(tokens, variables, value, old(position))
        decreases Rem(tokens, position)
      {
        var operator := tokens[position];
        position := position + 1;
        var nextFactor := ParseFactor();
        if nextFactor.Err? {
          return nextFactor;
        }
        var v := Apply(if operator == "*" then Mul else Div, acc, nextFactor.value);
        if v.Err? {
          return Err(v.error);
        }
        acc := v.value;
      }
      r := Ok(acc);
    }

    /** `parseFactor()` (solar-interpreter.js:125-144). */
    method ParseFactor() returns (r: Result<Value>)
      modifies this`position
      ensures Parsed(r, position) == Factor(tokens, variables, old(position))
      decreases Rem(tokens, position), 0
    {
      var token := Current();
      position := position + 1;
      if token == End {
        return Err(UnexpectedInExpression(End));
      }
      var t := token.t;
      if IsNumber(t) {
        r := Ok(Num(NumberValue(t)));
      } else if IsString(t) {
        r := Ok(Str(Unquote(t)));
      } else if IsIdentifier(t) {
        if t in variables {
          r := Ok(variables[t]);
        } else {
          r := Err(NotDeclared(t));
        }
      } else if t == "(" {
        r := ParseExpression();
        if r.Err? {
          return;
        }
        var closed := Expect(")");
        if !closed.Done? {
          r := Err(closed.error);
        }
      } else {
        r := Err(UnexpectedInExpression(token));
      }
    }

    /** `parsePrintStatement()` (solar-interpreter.js:146-157). */
    method ParsePrintStatement() returns (o: Outcome)
      modifies this`position, this`output
      ensures Step(o, Snapshot()) == Print(old(Snapshot()))
    {
      if Current() == Tok("\"") {
        var value := tokens[position];
        position := position + 1;
        o := Expect(";");
        if !o.Done? {
          return;
        }
        output := output + Unquote(value) + "\n";
      } else {
        var value := ParseExpression();
        if value.Err? {
          return Failed(value.error);
        }
        o := Expect(";");
        if !o.Done? {
          return;
        }
        output := output + Render(value.value) + "\n";
      }
    }

    /** `parseIfStatement()` (solar-interpreter.js:159-169). */
    method ParseIfStatement(fuel: nat) returns (o: Outcome)
      modifies this
      ensures Step(o, Snapshot()) == If(old(Snapshot()), fuel)
      decreases fuel, 1
    {
      o := Expect("(");
      if !o.Done? {
        return;
      }
      var condition := ParseCondition();
      if condition.Err? {
        return Failed(condition.error);
      }
      o := Expect(")");
      if !o.Done? {
        return;
      }
      o := Expect("{");
      if !o.Done? {
        return;
      }
      if condition.value {
        o := ParseBlock(fuel);
      } else {
        SkipBlock();
      }
    }

    /** `parseCondition()` (solar-interpreter.js:171-191). */
    method ParseCondition() returns (r: Result<bool>)
      modifies this`position
      ensures Parsed(r, position) == Condition(tokens, variables, old(position))
    {
      var left := ParseExpression();
      if left.Err? {
        return Err(left.error);
      }
      var operator := Current();
      position := position + 1;
      var right := ParseExpression();
      if right.Err? {
        return Err(right.error);
      }
      r := Compare(operator, left.value, right.value);
    }

    /** `parseBlock()` (solar-interpreter.js:193-198); each turn of the loop
        costs one unit of fuel. */
    method ParseBlock(fuel: nat) returns (o: Outcome)
      modifies this
      ensures Step(o, Snapshot()) == Block(old(Snapshot()), fuel)
      decreases fuel, 0
    {
      var budget: nat := fuel;
      while Current() != Tok("}")
        invariant budget <= fuel
        invariant Block(Snapshot(), budget) == Block(old(Snapshot()), fuel)
        decreases budget
      {
        if budget == 0 {
          return OutOfFuel;
        }
        o := Parse(budget - 1);
        if !o.Done? {
          return;
        }
        budget := budget - 1;
      }
      position := position + 1;
      o := Done;
    }

    /** `skipBlock()` (solar-interpreter.js:200-208). */
    method SkipBlock()
      modifies this`position
      ensures position == Semantics.SkipBlock(tokens, old(position))
    {
      var braceCount: nat := 1;
      position := position + 1;
      while braceCount > 0 && position < |tokens|
        invariant BraceScan(tokens, position, braceCount) == Semantics.SkipBlock(tokens, old(position))
        decreases |tokens| - position
      {
        var token := tokens[position];
        position := position + 1;
        if token == "{" {
          braceCount := braceCount + 1;
        } else if token == "}" {
          braceCount := braceCount - 1;
        }
      }
    }

    /** `parseFunctionDeclaration()` (solar-interpreter.js:210-233). */
    method ParseFunctionDeclaration() returns (o: Outcome)
      modifies this`position, this`functions
      ensures Step(o, Snapshot()) == FunctionDecl(old(Snapshot()))
    {
      var funcName := Current();
      position := position + 1;
      o := Expect("(");
      if !o.Done? {
        return;
      }
      var params := ParseParameters();
      if params.Err? {
        o := Failed(params.error);
        return;
      }
      o := DeclareFunction(funcName.t, params.value);
    }

    /** The end of `parseFunctionDeclaration` (solar-interpreter.js:221-232):
        the closing `)`, the `{`, the body and the new entry. */
    method DeclareFunction(funcName: Token, params: seq<Token>) returns (o: Outcome)
      modifies this`position, this`functions
      ensures Step(o, Snapshot()) == DeclareBody(old(Snapshot()), funcName, params)
    {
      o := Expect(")");
      if !o.Done? {
        return;
      }
      o := Expect("{");
      if !o.Done? {
        return;
      }
      var bodyStart := position;
      ScanBody();
      var bodyEnd := position - 1;
      var bodyTokens := if bodyEnd >= bodyStart then tokens[bodyStart..bodyEnd] else [];
      functions := functions[funcName := Function(params, bodyTokens)];
    }

    /** The parameter list of `parseFunctionDeclaration`
        (solar-interpreter.js:213-220), entered after `(`.  A slot read at
        the end of the tokens is reported as the following `expect(')')`
        reports it. */
    method ParseParameters() returns (r: Result<seq<Token>>)
      modifies this`position
      ensures Parsed(r, position) == ParamList(tokens, old(position))
    {
      var params: seq<Token> := [];
      if Current() != Tok(")") {
        var first := Current();
        position := position + 1;
        if first == End {
          return Err(Expected(")", End));
        }
        params := [first.t];
        while Current() == Tok(",")
          invariant MoreParams(tokens, params, position) == ParamList(tokens, old(position))
          decreases Rem(tokens, position)
        {
          position := position + 1;
          var next := Current();
          position := position + 1;
          if next == End {
            return Err(Expected(")", End));
          }
          params := params + [next.t];
        }
      }
      return Ok(params);
    }

    /** The brace-counting loop of `parseFunctionDeclaration`
        (solar-interpreter.js:224-229), entered just after the `{`. */
    method ScanBody()
      modifies this`position
      ensures position == BraceScan(tokens, old(position), 1)
    {
      var braceCount: nat := 1;
      while braceCount > 0 && position < |tokens|
        invariant BraceScan(tokens, position, braceCount) == BraceScan(tokens, old(position), 1)
        decreases |tokens| - position
      {
        var token := tokens[position];
        position := position + 1;
        if token == "{" {
          braceCount := braceCount + 1;
        } else if token == "}" {
          braceCount := braceCount - 1;
        }
      }
    }

    /** `executeFunction(name, args)` (solar-interpreter.js:235-259). */
    method ExecuteFunction(name: string, args: seq<Value>, fuel: nat) returns (o: Outcome)
      modifies this
      ensures Step(o, Snapshot()) == Call(old(Snapshot()), name, args, fuel)
      decreases fuel, 0
    {
      if name !in functions {
        return Failed(NotDefined(name));
      }
      var func := functions[name];
      if |args| != |func.params| {
        return Failed(WrongArity(name, |func.params|));
      }
      if fuel == 0 {
        return OutOfFuel;
      }
      var oldVariables := variables;
      BindParameters(func.params, args);
      var oldTokens := tokens;
      var oldPosition := position;
      tokens := func.body;
      position := 0;
      o := Parse(fuel - 1);
      if !o.Done? {
        return;
      }
      variables := oldVariables;
      tokens := oldTokens;
      position := oldPosition;
    }

    /** The parameter loop of `executeFunction`
        (solar-interpreter.js:246-248). */
    method BindParameters(params: seq<Token>, args: seq<Value>)
      requires |params| == |args|
      modifies this`variables
      ensures variables == Bind(old(variables), params, args)
    {
      for i := 0 to |params|
        invariant Bind(variables, params[i..], args[i..]) == Bind(old(variables), params, args)
      {
        variables := variables[params[i] := args[i]];
      }
    }

    /** `expect(token)` (solar-interpreter.js:261-266); `Done` when the
        token was there and has been consumed. */
    method Expect(token: Token) returns (o: Outcome)
      modifies this`position
      ensures match Semantics.Expect(old(Snapshot()), token)
              case Ok(s) => o == Done && Snapshot() == s
              case Err(e) => o == Failed(e) && position == old(position)
    {
      if Current() != Tok(token) {
        return Failed(Expected(token, Current()));
      }
      position := position + 1;
      o := Done;
    }
  }

  /** `runSolarCode(code)` (solar-interpreter.js:283-290), on an
      interpreter of its own. */
  method RunSolarCode(code: string, fuel: nat) returns (answer: Option<string>)
    ensures answer == Answer(code, fuel)
  {
    var interpreter := new Interpreter();
    var o := interpreter.Interpret(code, fuel);
    match o
    case Done =>
      answer := Some(interpreter.output);
    case Failed(e) =>
      answer := Some("Error: " + Message(e));
    case OutOfFuel =>
      answer := None;
  }
}
