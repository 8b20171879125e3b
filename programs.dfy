/** Small Solar programs, written as the token sequences the scanner makes
    of them, and what running them does. */
module Programs {
  import opened Lexer
  import opened Runtime
  import opened Semantics
  import ExpressionFacts
  import StatementFacts
  import LexerFacts

  /** An expression that is a single factor followed by a token that is
      not an operator. */
  lemma SingleFactor(tokens: seq<Token>, vars: map<string, Value>, pos: nat)
    requires Factor(tokens, vars, pos).result.Ok?
    requires ExpressionFacts.StopsAt(tokens, Factor(tokens, vars, pos).position)
    ensures Expression(tokens, vars, pos) == Factor(tokens, vars, pos)
  {
    var f := Factor(tokens, vars, pos);
    ExpressionFacts.FactorLoopStop(tokens, vars, f.result.value, f.position);
    ExpressionFacts.TermLoopStop(tokens, vars, f.result.value, f.position);
  }

  /** A numeral on its own as an expression. */
  lemma NumeralExpression(tokens: seq<Token>, vars: map<string, Value>, pos: nat, n: nat)
    requires pos < |tokens| && tokens[pos] == NatToString(n)
    requires ExpressionFacts.StopsAt(tokens, pos + 1)
    ensures Expression(tokens, vars, pos) == Parsed(Ok(Num(n as real)), pos + 1)
  {
    LexerFacts.NumeralRoundTrip(n);
    ExpressionFacts.NumberFactor(tokens, vars, pos);
    SingleFactor(tokens, vars, pos);
  }

  /** `print e;` for an expression `e` that evaluates. */
  lemma PrintStep(s: State)
    requires At(s.tokens, s.position) != Tok("\"")
    requires var e := Expression(s.tokens, s.variables, s.position);
      e.result.Ok? && At(s.tokens, e.position) == Tok(";")
    ensures var e := Expression(s.tokens, s.variables, s.position);
      Print(s) == Step(Done, s.(position := e.position + 1, output := s.output + Render(e.result.value) + "\n"))
  {
  }

  /** A statement that returns normally, and the run goes on after it. */
  lemma RunStep(s: State, fuel: nat)
    requires s.position < |s.tokens| && Statement(s, fuel).outcome.Done?
    ensures Run(s, fuel) == Run(Statement(s, fuel).state, fuel)
  {
  }

  /** A statement that throws, and the run stops with it. */
  lemma RunStops(s: State, fuel: nat)
    requires s.position < |s.tokens| && !Statement(s, fuel).outcome.Done?
    ensures Run(s, fuel) == Statement(s, fuel)
  {
  }

  lemma RunEnd(s: State, fuel: nat)
    requires s.position >= |s.tokens|
    ensures Run(s, fuel) == Step(Done, s)
  {
  }

  /** Which statement function the statement at the cursor goes to. */
  lemma Dispatch(s: State, fuel: nat)
    requires s.position < |s.tokens|
    ensures var t := s.tokens[s.position]; var s1 := s.(position := s.position + 1);
      && (t == "print" ==> Statement(s, fuel) == Print(s1))
      && (t == "let" ==> Statement(s, fuel) == Let(s1))
      && (t == "if" ==> Statement(s, fuel) == If(s1, fuel))
      && (t == "function" ==> Statement(s, fuel) == FunctionDecl(s1))
      && (t != "print" && t != "let" && t != "if" && t != "function" && IsIdentifier(t) ==>
            Statement(s, fuel) == AssignOrCall(s, fuel))
  {
  }

  // ---------------------------------------------------------------------
  // print 2 + 3 * 4;

  function PrecedenceTokens(): seq<Token>
  {
    ["print", "2", "+", "3", "*", "4", ";"]
  }

  /** `print 2 + 3 * 4;` prints `14`. */
  lemma PrecedenceProgram(fuel: nat)
    ensures var p := PrecedenceTokens();
      Run(Initial(p), fuel) == Step(Done, State(map[], map[], "14\n", p, 7))
  {
    var p := PrecedenceTokens();
    PrecedenceExpression();
    FourteenText();
    var s0 := Initial(p);
    PrintStep(Moved(s0, 1));
    assert p[0] == "print";
    RunStep(s0, fuel);
    RunEnd(State(map[], map[], "14\n", p, 7), fuel);
  }

  lemma PrecedenceExpression()
    ensures Expression(PrecedenceTokens(), map[], 1) == Parsed(Ok(Num(14.0)), 6)
  {
    var p := PrecedenceTokens();
    ExpressionFacts.NumberOf(2, p[1]);
    ExpressionFacts.NumberOf(3, p[3]);
    ExpressionFacts.NumberOf(4, p[5]);
    ExpressionFacts.NumberFactor(p, map[], 1);
    ExpressionFacts.NumberFactor(p, map[], 3);
    ExpressionFacts.NumberFactor(p, map[], 5);
    ExpressionFacts.MultiplicationBindsTighter(p, map[], 1, 2.0, 3.0, 4.0);
  }

  lemma FourteenText()
    ensures Render(Num(14.0)) == "14"
  {
    LexerFacts.WholeNumberText(14);
    assert NatToString(14) == "14";
  }

  // ---------------------------------------------------------------------
  // print " ;

  function LoneQuoteTokens(): seq<Token>
  {
    ["print", "\"", ";"]
  }

  /** `print " ;` prints an empty line. */
  lemma LoneQuoteProgram(fuel: nat)
    ensures var p := LoneQuoteTokens();
      Run(Initial(p), fuel) == Step(Done, State(map[], map[], "\n", p, 3))
  {
    var p := LoneQuoteTokens();
    var s0 := Initial(p);
    StatementFacts.LoneQuotePrint(Moved(s0, 1));
    assert p[0] == "print";
    RunStep(s0, fuel);
    RunEnd(State(map[], map[], "\n", p, 3), fuel);
  }

  // ---------------------------------------------------------------------
  // foo();

  function UndefinedCallTokens(): seq<Token>
  {
    ["foo", "(", ")", ";"]
  }

  /** Calling a function that was never declared throws, after the `;`,
      and nothing is printed. */
  lemma UndefinedCallProgram(fuel: nat)
    ensures var p := UndefinedCallTokens();
      Run(Initial(p), fuel) == Step(Failed(NotDefined("foo")), State(map[], map[], "", p, 4))
  {
    var p := UndefinedCallTokens();
    var s0 := Initial(p);
    assert IsIdentifier(p[0]);
    assert AssignOrCall(s0, fuel) == Step(Failed(NotDefined("foo")), State(map[], map[], "", p, 4));
  }

  // ---------------------------------------------------------------------
  // let x = n; print x;

  /** `let x = n; print x;` prints the numeral `n` back as it was
      written, for any name `x` and any natural number `n`. */
  lemma LetPrintProgram(x: Token, n: nat, fuel: nat)
    requires IsIdentifier(x)
    ensures var p := ["let", x, "=", NatToString(n), ";", "print", x, ";"];
      Run(Initial(p), fuel) == Step(Done, State(map[x := Num(n as real)], map[], NatToString(n) + "\n", p, 8))
  {
    var p := ["let", x, "=", NatToString(n), ";", "print", x, ";"];
    var vars := map[x := Num(n as real)];
    LetStep(p, x, n, fuel);
    RunStep(Initial(p), fuel);
    PrintVariableStep(p, x, n, fuel);
    RunStep(State(vars, map[], "", p, 5), fuel);
    RunEnd(State(vars, map[], NatToString(n) + "\n", p, 8), fuel);
  }

  /** The program shape `let x = n; print x;`, token by token. */
  predicate IsLetPrint(p: seq<Token>, x: Token, n: nat)
  {
    |p| == 8 && p[0] == "let" && p[1] == x && p[2] == "=" && p[3] == NatToString(n) && p[4] == ";"
    && p[5] == "print" && p[6] == x && p[7] == ";"
  }

  lemma LetStep(p: seq<Token>, x: Token, n: nat, fuel: nat)
    requires IsLetPrint(p, x, n)
    ensures Statement(Initial(p), fuel) == Step(Done, State(map[x := Num(n as real)], map[], "", p, 5))
  {
    var s0 := Initial(p);
    NumeralExpression(p, map[], 3, n);
    assert Let(Moved(s0, 1)) == Step(Done, State(map[x := Num(n as real)], map[], "", p, 5));
  }

  lemma PrintVariableStep(p: seq<Token>, x: Token, n: nat, fuel: nat)
    requires IsIdentifier(x) && IsLetPrint(p, x, n)
    ensures var vars := map[x := Num(n as real)];
      Statement(State(vars, map[], "", p, 5), fuel) == Step(Done, State(vars, map[], NatToString(n) + "\n", p, 8))
  {
    var vars := map[x := Num(n as real)];
    var s1 := State(vars, map[], "", p, 5);
    ExpressionFacts.VariableFactor(p, vars, 6);
    SingleFactor(p, vars, 6);
    PrintStep(Moved(s1, 6));
    LexerFacts.WholeNumberText(n);
  }

  // ---------------------------------------------------------------------
  // let x = 1; let x = 2;

  function RedeclarationTokens(): seq<Token>
  {
    ["let", "x", "=", "1", ";", "let", "x", "=", "2", ";"]
  }

  lemma FirstDeclaration()
    ensures var p := RedeclarationTokens();
      Let(Moved(Initial(p), 1)) == Step(Done, State(map["x" := Num(1.0)], map[], "", p, 5))
  {
    var p := RedeclarationTokens();
    assert NatToString(1) == p[3];
    NumeralExpression(p, map[], 3, 1);
  }

  /** Declaring a name twice throws at the second `let`, before its
      expression, and the first binding stays. */
  lemma RedeclarationProgram(fuel: nat)
    ensures var p := RedeclarationTokens();
      Run(Initial(p), fuel) == Step(Failed(AlreadyDeclared("x")), State(map["x" := Num(1.0)], map[], "", p, 7))
  {
    var p := RedeclarationTokens();
    var s0 := Initial(p);
    var vars := map["x" := Num(1.0)];
    FirstDeclaration();
    RunStep(s0, fuel);
    var s1 := State(vars, map[], "", p, 5);
    StatementFacts.LetRedeclared(Moved(s1, 6));
    assert Statement(s1, fuel) == Step(Failed(AlreadyDeclared("x")), State(vars, map[], "", p, 7));
    RunStops(s1, fuel);
  }

  // ---------------------------------------------------------------------
  // if (1 == 2) { print "a"; } print "b";

  function FalseIfTokens(): seq<Token>
  {
    ["if", "(", "1", "==", "2", ")", "{", "print", "\"a\"", ";", "}", "print", "\"b\"", ";"]
  }

  lemma OneIsNotTwo(p: seq<Token>, pos: nat)
    requires pos + 3 < |p| && p[pos] == "1" && p[pos + 1] == "==" && p[pos + 2] == "2" && p[pos + 3] == ")"
    ensures Condition(p, map[], pos) == Parsed(Ok(false), pos + 3)
  {
    assert NatToString(1) == p[pos];
    assert NatToString(2) == p[pos + 2];
    NumeralExpression(p, map[], pos, 1);
    NumeralExpression(p, map[], pos + 2, 2);
  }

  /** A false condition skips the block, and the statement after it runs. */
  lemma FalseIfProgram(fuel: nat)
    ensures var p := FalseIfTokens();
      Run(Initial(p), fuel) == Step(Done, State(map[], map[], "b\n", p, 14))
  {
    var p := FalseIfTokens();
    FalseIfSkipsOver(p, fuel);
    RunStep(Initial(p), fuel);
    PrintB(p, 11, map[], map[], fuel);
    RunStep(State(map[], map[], "", p, 11), fuel);
    RunEnd(State(map[], map[], "b\n", p, 14), fuel);
  }

  lemma FalseIfSkipsOver(p: seq<Token>, fuel: nat)
    requires |p| >= 11 && p[0] == "if" && p[1] == "(" && p[2] == "1" && p[3] == "==" && p[4] == "2" && p[5] == ")"
    requires p[6] == "{" && p[8] != "{" && p[8] != "}" && p[9] != "{" && p[9] != "}" && p[10] == "}"
    ensures Statement(Initial(p), fuel) == Step(Done, State(map[], map[], "", p, 11))
  {
    var s0 := Initial(p);
    OneIsNotTwo(p, 2);
    assert SkipBlock(p, 7) == 11 by {
      ScanPlain(p, 8, 10);
    }
    StatementFacts.FalseIf(s0.(position := 1), fuel);
    Dispatch(s0, fuel);
  }

  lemma PrintB(p: seq<Token>, pos: nat, vars: map<string, Value>, functions: map<string, Function>, fuel: nat)
    requires pos + 2 < |p| && p[pos] == "print" && p[pos + 1] == "\"b\"" && p[pos + 2] == ";"
    ensures Statement(State(vars, functions, "", p, pos), fuel) == Step(Done, State(vars, functions, "b\n", p, pos + 3))
  {
    var s1 := State(vars, functions, "", p, pos);
    assert IsString(p[pos + 1]) && !IsNumber(p[pos + 1]) && Unquote(p[pos + 1]) == "b";
    SingleFactor(p, vars, pos + 1);
    PrintStep(s1.(position := pos + 1));
    Dispatch(s1, fuel);
  }

  // ---------------------------------------------------------------------
  // if (1 == 2) { } print "b";

  function EmptyFalseBlockTokens(): seq<Token>
  {
    ["if", "(", "1", "==", "2", ")", "{", "}", "print", "\"b\"", ";"]
  }

  /** An empty block under a false condition swallows the rest of the
      program: `skipBlock` steps over its `}` without counting it and then
      looks for a `}` that never comes, so nothing is printed. */
  lemma EmptyFalseBlockProgram(fuel: nat)
    ensures var p := EmptyFalseBlockTokens();
      Run(Initial(p), fuel) == Step(Done, State(map[], map[], "", p, 11))
  {
    var p := EmptyFalseBlockTokens();
    EmptyFalseBlockSkips(p, fuel);
    RunStep(Initial(p), fuel);
    RunEnd(State(map[], map[], "", p, 11), fuel);
  }

  lemma EmptyFalseBlockSkips(p: seq<Token>, fuel: nat)
    requires |p| == 11 && p[0] == "if" && p[1] == "(" && p[2] == "1" && p[3] == "==" && p[4] == "2" && p[5] == ")"
    requires p[6] == "{" && forall k :: 8 <= k < 11 ==> p[k] != "{" && p[k] != "}"
    ensures Statement(Initial(p), fuel) == Step(Done, State(map[], map[], "", p, 11))
  {
    var s0 := Initial(p);
    OneIsNotTwo(p, 2);
    assert SkipBlock(p, 7) == 11 by {
      assert BraceScan(p, 10, 1) == 11;
      assert BraceScan(p, 9, 1) == 11;
    }
    StatementFacts.FalseIf(s0.(position := 1), fuel);
    Dispatch(s0, fuel);
  }

  // ---------------------------------------------------------------------
  // function add(a, b) { let r = a + b; print r; } add(2, 3);

  function AddTokens(): seq<Token>
  {
    ["function", "add", "(", "a", ",", "b", ")", "{", "let", "r", "=", "a", "+", "b", ";", "print", "r", ";", "}",
     "add", "(", "2", ",", "3", ")", ";"]
  }

  /** The tokens of `let r = a + b; print r;`. */
  predicate IsAddBody(b: seq<Token>)
  {
    |b| == 10 && b[0] == "let" && b[1] == "r" && b[2] == "=" && b[3] == "a" && b[4] == "+" && b[5] == "b"
    && b[6] == ";" && b[7] == "print" && b[8] == "r" && b[9] == ";"
  }

  /** The declaration stores the two parameters and the body between the
      braces. */
  lemma AddDeclaration(p: seq<Token>, fuel: nat)
    requires |p| > 18 && p[0] == "function" && p[1] == "add" && p[2] == "(" && p[3] == "a" && p[4] == ","
    requires p[5] == "b" && p[6] == ")" && p[7] == "{" && p[18] == "}"
    requires forall k :: 8 <= k < 18 ==> p[k] != "{" && p[k] != "}"
    ensures Statement(Initial(p), fuel)
         == Step(Done, State(map[], map["add" := Function(["a", "b"], p[8..18])], "", p, 19))
  {
    var s0 := Initial(p);
    assert MoreParams(p, ["a", "b"], 6) == Parsed(Ok(["a", "b"]), 6);
    assert ["a"] + ["b"] == ["a", "b"];
    assert MoreParams(p, ["a"], 4) == MoreParams(p, ["a", "b"], 6);
    assert ParamList(p, 3) == Parsed(Ok(["a", "b"]), 6);
    ScanPlain(p, 8, 18);
    Dispatch(s0, fuel);
    assert FunctionDecl(s0.(position := 1)) == DeclareBody(s0.(position := 6), "add", ["a", "b"]);
  }

  /** Over tokens that are not braces the count does not change. */
  lemma {:induction false} ScanPlain(p: seq<Token>, i: nat, j: nat)
    requires i <= j < |p| && p[j] == "}"
    requires forall k :: i <= k < j ==> p[k] != "{" && p[k] != "}"
    ensures BraceScan(p, i, 1) == j + 1
    decreases j - i
  {
    if i < j {
      ScanPlain(p, i + 1, j);
    }
  }

  /** `let r = a + b;` on `a = 2, b = 3`. */
  lemma AddLet(b: seq<Token>, functions: map<string, Function>, fuel: nat)
    requires IsAddBody(b)
    ensures var vars := map["a" := Num(2.0), "b" := Num(3.0)];
      Statement(State(vars, functions, "", b, 0), fuel)
        == Step(Done, State(vars["r" := Num(5.0)], functions, "", b, 7))
  {
    var vars := map["a" := Num(2.0), "b" := Num(3.0)];
    var s0 := State(vars, functions, "", b, 0);
    ExpressionFacts.VariableFactor(b, vars, 3);
    ExpressionFacts.VariableFactor(b, vars, 5);
    SingleTerm(b, vars, 3);
    SingleTerm(b, vars, 5);
    ExpressionFacts.SumOfTerms(b, vars, 3, 2.0, 3.0, 4, 6);
    Dispatch(s0, fuel);
  }

  /** `print r;` on `r = 5`. */
  lemma AddPrint(b: seq<Token>, vars: map<string, Value>, functions: map<string, Function>, fuel: nat)
    requires IsAddBody(b) && "r" in vars && vars["r"] == Num(5.0)
    ensures Statement(State(vars, functions, "", b, 7), fuel) == Step(Done, State(vars, functions, "5\n", b, 10))
  {
    var s1 := State(vars, functions, "", b, 7);
    ExpressionFacts.VariableFactor(b, vars, 8);
    SingleFactor(b, vars, 8);
    PrintStep(s1.(position := 8));
    LexerFacts.WholeNumberText(5);
    Dispatch(s1, fuel);
  }

  /** The body of `add` on `a = 2, b = 3` declares `r` and prints `5`. */
  lemma AddBodyRun(b: seq<Token>, functions: map<string, Function>, fuel: nat)
    requires IsAddBody(b)
    ensures var vars := map["a" := Num(2.0), "b" := Num(3.0)];
      Run(State(vars, functions, "", b, 0), fuel)
        == Step(Done, State(vars["r" := Num(5.0)], functions, "5\n", b, 10))
  {
    var vars := map["a" := Num(2.0), "b" := Num(3.0)];
    var vars' := vars["r" := Num(5.0)];
    AddLet(b, functions, fuel);
    RunStep(State(vars, functions, "", b, 0), fuel);
    AddPrint(b, vars', functions, fuel);
    RunStep(State(vars', functions, "", b, 7), fuel);
    RunEnd(State(vars', functions, "5\n", b, 10), fuel);
  }

  /** A term that is a single factor followed by a token that is not `*`
      or `/`. */
  lemma SingleTerm(tokens: seq<Token>, vars: map<string, Value>, pos: nat)
    requires Factor(tokens, vars, pos).result.Ok?
    requires var q := Factor(tokens, vars, pos).position; At(tokens, q) != Tok("*") && At(tokens, q) != Tok("/")
    ensures Term(tokens, vars, pos) == Factor(tokens, vars, pos)
  {
    var f := Factor(tokens, vars, pos);
    ExpressionFacts.FactorLoopStop(tokens, vars, f.result.value, f.position);
  }

  /** The arguments `2, 3)`. */
  lemma TwoArguments(p: seq<Token>, pos: nat)
    requires pos + 3 < |p| && p[pos] == "2" && p[pos + 1] == "," && p[pos + 2] == "3" && p[pos + 3] == ")"
    ensures ArgList(p, map[], pos) == Parsed(Ok([Num(2.0), Num(3.0)]), pos + 3)
  {
    assert NatToString(2) == p[pos];
    assert NatToString(3) == p[pos + 2];
    NumeralExpression(p, map[], pos, 2);
    NumeralExpression(p, map[], pos + 2, 3);
    assert MoreArguments(p, map[], [Num(2.0), Num(3.0)], pos + 3) == Parsed(Ok([Num(2.0), Num(3.0)]), pos + 3);
    assert [Num(2.0)] + [Num(3.0)] == [Num(2.0), Num(3.0)];
    assert MoreArguments(p, map[], [Num(2.0)], pos + 1) == MoreArguments(p, map[], [Num(2.0), Num(3.0)], pos + 3);
  }

  /** Running `add` on `2, 3` from a caller with no variables. */
  lemma AddCallRuns(p: seq<Token>, b: seq<Token>, fuel: nat)
    requires fuel >= 1 && IsAddBody(b)
    ensures var functions := map["add" := Function(["a", "b"], b)];
      Call(State(map[], functions, "", p, 26), "add", [Num(2.0), Num(3.0)], fuel)
        == Step(Done, State(map[], functions, "5\n", p, 26))
  {
    var functions := map["add" := Function(["a", "b"], b)];
    assert Bind(map[], ["a", "b"], [Num(2.0), Num(3.0)]) == map["a" := Num(2.0), "b" := Num(3.0)];
    AddBodyRun(b, functions, fuel - 1);
  }

  /** The call `add(2, 3);` prints `5` and leaves no variable behind. */
  lemma AddCall(p: seq<Token>, b: seq<Token>, fuel: nat)
    requires fuel >= 1 && IsAddBody(b)
    requires |p| == 26 && p[19] == "add" && p[20] == "(" && p[21] == "2" && p[22] == "," && p[23] == "3"
    requires p[24] == ")" && p[25] == ";"
    ensures var functions := map["add" := Function(["a", "b"], b)];
      Statement(State(map[], functions, "", p, 19), fuel) == Step(Done, State(map[], functions, "5\n", p, 26))
  {
    var functions := map["add" := Function(["a", "b"], b)];
    var s := State(map[], functions, "", p, 19);
    TwoArguments(p, 21);
    AddCallRuns(p, b, fuel);
    StatementFacts.CallChecksFunctionLast(s, fuel);
    Dispatch(s, fuel);
  }

  /** The program shape the lemmas above need. */
  predicate IsAddProgram(p: seq<Token>)
  {
    |p| == 26 && p[0] == "function" && p[1] == "add" && p[2] == "(" && p[3] == "a" && p[4] == ","
    && p[5] == "b" && p[6] == ")" && p[7] == "{" && p[18] == "}" && IsAddBody(p[8..18])
    && p[19] == "add" && p[20] == "(" && p[21] == "2" && p[22] == "," && p[23] == "3" && p[24] == ")" && p[25] == ";"
  }

  lemma AddTokensShape()
    ensures IsAddProgram(AddTokens())
  {
    var p := AddTokens();
    assert p[8..18] == ["let", "r", "=", "a", "+", "b", ";", "print", "r", ";"];
  }

  lemma AddProgramRuns(p: seq<Token>, fuel: nat)
    requires fuel >= 1 && IsAddProgram(p)
    ensures Run(Initial(p), fuel) == Step(Done, State(map[], map["add" := Function(["a", "b"], p[8..18])], "5\n", p, 26))
  {
    var functions := map["add" := Function(["a", "b"], p[8..18])];
    var b := p[8..18];
    assert forall k :: 8 <= k < 18 ==> p[k] == b[k - 8];
    AddDeclaration(p, fuel);
    RunStep(Initial(p), fuel);
    AddCall(p, b, fuel);
    RunStep(State(map[], functions, "", p, 19), fuel);
    RunEnd(State(map[], functions, "5\n", p, 26), fuel);
  }

  /** `function add(a, b) { let r = a + b; print r; } add(2, 3);` prints
      `5`; the body's `r` is gone after the call. */
  lemma AddProgram(fuel: nat)
    requires fuel >= 1
    ensures var p := AddTokens();
      Run(Initial(p), fuel) == Step(Done, State(map[], map["add" := Function(["a", "b"], p[8..18])], "5\n", p, 26))
  {
    AddTokensShape();
    AddProgramRuns(AddTokens(), fuel);
  }
}
