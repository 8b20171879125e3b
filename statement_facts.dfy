/** Properties of the statements: declarations, assignment, `if` and its
    blocks, function declarations and calls. */
module StatementFacts {
  import opened Lexer
  import opened Runtime
  import opened Semantics

  // ---------------------------------------------------------------------
  // Statement dispatch

  /** A token that is neither a keyword nor an identifier is stepped over
      and changes nothing else. */
  lemma StrayTokenSkipped(s: State, fuel: nat)
    requires s.position < |s.tokens|
    requires var t := s.tokens[s.position];
      t != "print" && t != "let" && t != "if" && t != "function" && !IsIdentifier(t)
    ensures Statement(s, fuel) == Step(Done, s.(position := s.position + 1))
  {
  }

  // ---------------------------------------------------------------------
  // print

  /** `print` of a lone double quote (the scanner keeps one when a quote
      has no partner) takes the string branch and, since `slice(1, -1)` of
      a one-character token is empty, prints an empty line; without the `;`
      right after it, it fails there. */
  lemma LoneQuotePrint(s: State)
    requires At(s.tokens, s.position) == Tok("\"")
    ensures At(s.tokens, s.position + 1) == Tok(";") ==>
      Print(s) == Step(Done, s.(position := s.position + 2, output := s.output + "\n"))
    ensures At(s.tokens, s.position + 1) != Tok(";") ==>
      Print(s) == Step(Failed(Expected(";", At(s.tokens, s.position + 1))), s.(position := s.position + 1))
  {
  }

  // ---------------------------------------------------------------------
  // `let` and assignment

  /** `let` looks up the name before it evaluates anything: a name that is
      already bound fails at once and leaves every field but the cursor as
      it was. */
  lemma LetRedeclared(s: State)
    requires s.position < |s.tokens| && s.tokens[s.position] in s.variables
    ensures Let(s) == Step(Failed(AlreadyDeclared(s.tokens[s.position])), s.(position := s.position + 1))
  {
  }

  /** `let name = e;` succeeds exactly when the name is unbound, `=`
      follows it, `e` evaluates and `;` follows `e`; then the name is bound
      to the value of `e`, the cursor is past the `;`, and nothing else
      changes. */
  lemma LetDone(s: State)
    ensures var r := Let(s);
      var e := Expression(s.tokens, s.variables, s.position + 2);
      && (r.outcome.Done? <==>
            s.position < |s.tokens| && s.tokens[s.position] !in s.variables
            && At(s.tokens, s.position + 1) == Tok("=")
            && e.result.Ok? && At(s.tokens, e.position) == Tok(";"))
      && (r.outcome.Done? ==>
            r.state == s.(variables := s.variables[s.tokens[s.position] := e.result.value],
                          position := e.position + 1))
  {
  }

  /** An assignment evaluates its expression and requires the `;` before
      it looks at the name: when the expression throws, or the `;` is
      missing, that is the error whether or not the name is declared. */
  lemma AssignChecksNameLast(s: State, name: string)
    ensures var e := Expression(s.tokens, s.variables, s.position);
      && (e.result.Err? ==> Assign(s, name) == Step(Failed(e.result.error), s.(position := e.position)))
      && (e.result.Ok? && At(s.tokens, e.position) != Tok(";") ==>
            Assign(s, name) == Step(Failed(Expected(";", At(s.tokens, e.position))), s.(position := e.position)))
      && (e.result.Ok? && At(s.tokens, e.position) == Tok(";") && name !in s.variables ==>
            Assign(s, name) == Step(Failed(NotDeclared(name)), s.(position := e.position + 1)))
  {
  }

  /** A successful assignment overwrites the one binding and keeps the set
      of declared names. */
  lemma AssignDone(s: State, name: string)
    ensures var r := Assign(s, name);
      var e := Expression(s.tokens, s.variables, s.position);
      && (r.outcome.Done? <==> e.result.Ok? && At(s.tokens, e.position) == Tok(";") && name in s.variables)
      && (r.outcome.Done? ==>
            r.state == s.(variables := s.variables[name := e.result.value], position := e.position + 1)
            && r.state.variables.Keys == s.variables.Keys)
  {
  }

  // ---------------------------------------------------------------------
  // Brace counting

  /** How a token changes the brace count. */
  function Delta(t: Token): int
  {
    if t == "{" then 1 else if t == "}" then -1 else 0
  }

  /** The net change of the brace count over a run of tokens. */
  function Net(ts: seq<Token>): int
  {
    if ts == [] then 0 else Delta(ts[0]) + Net(ts[1..])
  }

  lemma NetFront(tokens: seq<Token>, i: nat, k: nat)
    requires i < k <= |tokens|
    ensures Net(tokens[i..k]) == Delta(tokens[i]) + Net(tokens[i + 1..k])
  {
    assert tokens[i..k][0] == tokens[i];
    assert tokens[i..k][1..] == tokens[i + 1..k];
  }

  /** The count `d + Net(tokens[pos..k])` stays positive for every `k`
      in `pos < k < stop`. */
  predicate OpenUntil(tokens: seq<Token>, pos: nat, d: int, stop: nat)
    requires pos <= stop <= |tokens|
  {
    forall k :: pos < k < stop ==> d + Net(tokens[pos..k]) > 0
  }

  /** Where the brace-counting loop stops, starting at `pos` with count
      `d`: at the end of the tokens while the count has stayed positive,
      or just past the `}` that first brings the count to zero. */
  lemma {:induction false} BraceScanStops(tokens: seq<Token>, pos: nat, d: nat)
    requires d > 0 && pos <= |tokens|
    ensures var r := BraceScan(tokens, pos, d);
      pos <= r <= |tokens| && OpenUntil(tokens, pos, d, r)
      && ((r == |tokens| && d + Net(tokens[pos..r]) > 0)
          || (pos < r && d + Net(tokens[pos..r]) == 0 && tokens[r - 1] == "}"))
    decreases |tokens| - pos
  {
    if pos < |tokens| {
      var t := tokens[pos];
      var d' := if t == "{" then d + 1 else if t == "}" then d - 1 else d;
      assert d' == d + Delta(t);
      forall k | pos < k <= |tokens|
        ensures d + Net(tokens[pos..k]) == d' + Net(tokens[pos + 1..k])
      {
        NetFront(tokens, pos, k);
      }
      assert tokens[pos + 1..pos + 1] == [];
      if d' > 0 {
        BraceScanStops(tokens, pos + 1, d');
      }
    }
  }

  /** The loop stops just past a closing brace `m` when the count first
      reaches zero there. */
  lemma ScanFindsMatch(tokens: seq<Token>, pos: nat, d: nat, m: nat)
    requires d > 0 && pos <= m < |tokens|
    requires d + Net(tokens[pos..m + 1]) == 0 && OpenUntil(tokens, pos, d, m + 1)
    ensures BraceScan(tokens, pos, d) == m + 1
  {
    BraceScanStops(tokens, pos, d);
  }

  /** `skipBlock`, entered after the `{`: the token there is stepped over
      without being counted, then the cursor stops just past the `}` that
      brings the count from one to zero, or at the end of the tokens. */
  lemma SkipBlockStops(tokens: seq<Token>, p: nat)
    ensures var r := SkipBlock(tokens, p);
      && (p >= |tokens| ==> r == p + 1)
      && (p < |tokens| ==>
            p + 1 <= r <= |tokens| && OpenUntil(tokens, p + 1, 1, r)
            && ((r == |tokens| && 1 + Net(tokens[p + 1..r]) > 0)
                || (p + 1 < r && 1 + Net(tokens[p + 1..r]) == 0 && tokens[r - 1] == "}")))
  {
    if p < |tokens| {
      BraceScanStops(tokens, p + 1, 1);
    }
  }

  // ---------------------------------------------------------------------
  // `if`

  /** An `if` whose condition is false skips its block: output, variables,
      functions and tokens are as they were, and the cursor is where
      `skipBlock` leaves it. */
  lemma FalseIf(s: State, fuel: nat)
    requires At(s.tokens, s.position) == Tok("(")
    requires var c := Condition(s.tokens, s.variables, s.position + 1);
      c.result == Ok(false) && At(s.tokens, c.position) == Tok(")") && At(s.tokens, c.position + 1) == Tok("{")
    ensures var c := Condition(s.tokens, s.variables, s.position + 1);
      If(s, fuel) == Step(Done, s.(position := SkipBlock(s.tokens, c.position + 2)))
  {
  }

  /** `parseBlock` never returns once the cursor is not at `}`: each turn
      runs `parse` to the end of the tokens, where no `}` is found again. */
  lemma {:induction false} BlockNeverReturns(s: State, fuel: nat)
    requires At(s.tokens, s.position) != Tok("}")
    ensures Block(s, fuel).outcome != Done
    decreases fuel
  {
    if fuel > 0 {
      var r := Run(s, fuel - 1);
      if r.outcome.Done? {
        assert At(r.state.tokens, r.state.position) == End;
        BlockNeverReturns(r.state, fuel - 1);
      }
    }
  }

  /** An `if` whose condition is true and whose block is not empty never
      returns normally: whatever the budget, it runs out or a later
      statement throws. */
  lemma TrueIfNeverReturns(s: State, fuel: nat)
    requires At(s.tokens, s.position) == Tok("(")
    requires var c := Condition(s.tokens, s.variables, s.position + 1);
      c.result == Ok(true) && At(s.tokens, c.position) == Tok(")") && At(s.tokens, c.position + 1) == Tok("{")
      && At(s.tokens, c.position + 2) != Tok("}")
    ensures If(s, fuel).outcome != Done
  {
    var c := Condition(s.tokens, s.variables, s.position + 1);
    BlockNeverReturns(s.(position := c.position + 2), fuel);
  }

  /** An `if` whose condition is true and whose block is empty steps over
      the block and changes nothing else. */
  lemma TrueIfEmptyBlock(s: State, fuel: nat)
    requires At(s.tokens, s.position) == Tok("(")
    requires var c := Condition(s.tokens, s.variables, s.position + 1);
      c.result == Ok(true) && At(s.tokens, c.position) == Tok(")") && At(s.tokens, c.position + 1) == Tok("{")
      && At(s.tokens, c.position + 2) == Tok("}")
    ensures var c := Condition(s.tokens, s.variables, s.position + 1);
      If(s, fuel) == Step(Done, s.(position := c.position + 3))
  {
  }

  // ---------------------------------------------------------------------
  // Function declarations

  /** A declaration whose braces balance stores the parameters and exactly
      the tokens strictly between `{` and its matching `}` under the name,
      replacing any earlier entry, leaves the cursor just past that `}`,
      and runs nothing. */
  lemma DeclarationBalanced(s: State, name: Token, params: seq<Token>, m: nat)
    requires At(s.tokens, s.position) == Tok(")") && At(s.tokens, s.position + 1) == Tok("{")
    requires s.position + 2 <= m < |s.tokens|
    requires 1 + Net(s.tokens[s.position + 2..m + 1]) == 0 && OpenUntil(s.tokens, s.position + 2, 1, m + 1)
    ensures DeclareBody(s, name, params)
         == Step(Done, s.(position := m + 1,
                          functions := s.functions[name := Function(params, s.tokens[s.position + 2..m])]))
  {
    ScanFindsMatch(s.tokens, s.position + 2, 1, m);
  }

  /** When the braces never balance, the cursor goes to the end of the
      tokens and the stored body loses the last token. */
  lemma DeclarationUnbalanced(s: State, name: Token, params: seq<Token>)
    requires At(s.tokens, s.position) == Tok(")") && At(s.tokens, s.position + 1) == Tok("{")
    requires OpenUntil(s.tokens, s.position + 2, 1, |s.tokens|)
    requires 1 + Net(s.tokens[s.position + 2..]) > 0
    ensures var start := s.position + 2; var stop := |s.tokens|;
      DeclareBody(s, name, params)
        == Step(Done, s.(position := stop,
                         functions := s.functions[name := Function(params,
                           if stop - 1 >= start then s.tokens[start..stop - 1] else [])]))
  {
    var start := s.position + 2;
    assert Expect(s, ")") == Ok(s.(position := s.position + 1));
    assert Expect(s.(position := s.position + 1), "{") == Ok(s.(position := start));
    var r := BraceScan(s.tokens, start, 1);
    BraceScanStops(s.tokens, start, 1);
    assert r == |s.tokens|;
  }

  // ---------------------------------------------------------------------
  // Parameter lists

  /** The tokens from `pos` on hold `items` separated by commas, the token
      after the last item is not a comma, and `stop` is its index. */
  predicate Listed(tokens: seq<Token>, pos: nat, items: seq<Token>, stop: nat)
    decreases |items|
  {
    && |items| > 0
    && At(tokens, pos) == Tok(items[0])
    && if |items| == 1 then At(tokens, pos + 1) != Tok(",") && stop == pos + 1
       else At(tokens, pos + 1) == Tok(",") && Listed(tokens, pos + 2, items[1..], stop)
  }

  /** The loop of the parameter list, entered just after the first item,
      collects the remaining items and stops where the list ends. */
  lemma {:induction false} MoreParamsListed(tokens: seq<Token>, acc: seq<Token>, pos: nat, items: seq<Token>, stop: nat)
    requires Listed(tokens, pos, items, stop)
    ensures MoreParams(tokens, acc, pos + 1) == Parsed(Ok(acc + items[1..]), stop)
    decreases |items|
  {
    if |items| == 1 {
      assert acc + items[1..] == acc;
    } else {
      var rest := items[1..];
      MoreParamsListed(tokens, acc + [items[1]], pos + 2, rest, stop);
      assert acc + [items[1]] + rest[1..] == acc + items[1..];
    }
  }

  /** Conversely, whatever the loop returns normally is the items so far
      followed by a list laid out from the last of them. */
  lemma {:induction false} MoreParamsShape(tokens: seq<Token>, acc: seq<Token>, pos: nat)
    requires pos >= 1 && |acc| > 0 && At(tokens, pos - 1) == Tok(acc[|acc| - 1])
    ensures var r := MoreParams(tokens, acc, pos);
      r.result.Ok? ==> |acc| <= |r.result.value| && r.result.value[..|acc|] == acc
                       && Listed(tokens, pos - 1, r.result.value[|acc| - 1..], r.position)
    decreases Rem(tokens, pos)
  {
    if At(tokens, pos) == Tok(",") {
      match At(tokens, pos + 1)
      case End =>
      case Tok(p) =>
        MoreParamsShape(tokens, acc + [p], pos + 2);
        var r := MoreParams(tokens, acc, pos);
        if r.result.Ok? {
          var v := r.result.value;
          assert v[..|acc|] == v[..|acc| + 1][..|acc|];
          assert v[|acc| - 1..][1..] == v[|acc|..];
        }
    } else {
      assert acc[|acc| - 1..] == [acc[|acc| - 1]];
    }
  }

  /** The parameters of a declaration are exactly the tokens laid out
      after `(`: none for `()`, and otherwise `p0 , p1 , ... pn`, read up
      to the first position without a comma, whatever tokens the `pi` are. */
  lemma ParamListReads(tokens: seq<Token>, pos: nat, items: seq<Token>, stop: nat)
    ensures At(tokens, pos) == Tok(")") ==> ParamList(tokens, pos) == Parsed(Ok([]), pos)
    ensures At(tokens, pos) != Tok(")") ==>
      (ParamList(tokens, pos) == Parsed(Ok(items), stop) <==> Listed(tokens, pos, items, stop))
  {
    if At(tokens, pos) != Tok(")") && pos < |tokens| {
      var p := tokens[pos];
      if Listed(tokens, pos, items, stop) {
        MoreParamsListed(tokens, [p], pos, items, stop);
        assert [p] + items[1..] == items;
      }
      MoreParamsShape(tokens, [p], pos + 1);
      var r := ParamList(tokens, pos);
      if r.result.Ok? {
        assert r.result.value[0..] == r.result.value;
      }
    }
  }

  /** A whole declaration, from the keyword `function`: the name, `(`, the
      parameter tokens up to `)`, and a body whose braces balance.  It
      stores exactly those parameters and the tokens strictly between `{`
      and its matching `}`, and runs nothing. */
  lemma DeclarationStores(s: State, fuel: nat, name: Token, params: seq<Token>, close: nat, m: nat)
    requires At(s.tokens, s.position) == Tok("function")
    requires At(s.tokens, s.position + 1) == Tok(name) && At(s.tokens, s.position + 2) == Tok("(")
    requires if params == [] then close == s.position + 3
             else params[0] != ")" && Listed(s.tokens, s.position + 3, params, close)
    requires At(s.tokens, close) == Tok(")") && At(s.tokens, close + 1) == Tok("{")
    requires close + 2 <= m < |s.tokens|
    requires 1 + Net(s.tokens[close + 2..m + 1]) == 0 && OpenUntil(s.tokens, close + 2, 1, m + 1)
    ensures Statement(s, fuel)
         == Step(Done, s.(position := m + 1,
                          functions := s.functions[name := Function(params, s.tokens[close + 2..m])]))
  {
    ParamListReads(s.tokens, s.position + 3, params, close);
    DeclarationBalanced(s.(position := close), name, params, m);
  }

  // ---------------------------------------------------------------------
  // Calls

  /** The parameters of a call are bound in order, so a repeated parameter
      takes the last of its arguments, and every other variable keeps its
      value. */
  lemma {:induction false} BindLookup(vars: map<string, Value>, params: seq<Token>, args: seq<Value>, k: string)
    requires |params| == |args|
    ensures k !in params && k in vars ==> Bind(vars, params, args)[k] == vars[k]
    ensures forall i :: 0 <= i < |params| && params[i] == k && k !in params[i + 1..] ==>
              Bind(vars, params, args)[k] == args[i]
    decreases params
  {
    if params != [] {
      var vars' := vars[params[0] := args[0]];
      BindLookup(vars', params[1..], args[1..], k);
      forall i | 0 <= i < |params| && params[i] == k && k !in params[i + 1..]
        ensures Bind(vars, params, args)[k] == args[i]
      {
        if i > 0 {
          assert params[1..][i - 1] == k && params[1..][i - 1 + 1..] == params[i + 1..];
          assert args[1..][i - 1] == args[i];
        } else {
          assert k !in params[1..];
        }
      }
    }
  }

  /** A call returns normally exactly when the function is defined, the
      argument count matches, there is budget left and the body runs to
      its end; the body starts on the caller's variables with the
      parameters bound, and afterwards the caller's variables, tokens and
      cursor are back while the output and the function table keep what
      the body did. */
  lemma CallDone(s: State, name: string, args: seq<Value>, fuel: nat)
    ensures var r := Call(s, name, args, fuel);
      && (name !in s.functions ==> r == Step(Failed(NotDefined(name)), s))
      && (name in s.functions && |args| != |s.functions[name].params| ==>
            r == Step(Failed(WrongArity(name, |s.functions[name].params|)), s))
      && (name in s.functions && |args| == |s.functions[name].params| && fuel > 0 ==>
            var f := s.functions[name];
            var body := Run(State(Bind(s.variables, f.params, args), s.functions, s.output, f.body, 0), fuel - 1);
            r.outcome == body.outcome
            && (body.outcome.Done? ==>
                  r.state == State(s.variables, body.state.functions, body.state.output, s.tokens, s.position)))
  {
  }

  /** A call statement evaluates its arguments and requires `)` and `;`
      before it looks the function up. */
  lemma CallChecksFunctionLast(s: State, fuel: nat)
    requires s.position < |s.tokens| && At(s.tokens, s.position + 1) == Tok("(")
    ensures var name := s.tokens[s.position];
      var a := ArgList(s.tokens, s.variables, s.position + 2);
      && (a.result.Err? ==> AssignOrCall(s, fuel) == Step(Failed(a.result.error), s.(position := a.position)))
      && (a.result.Ok? && At(s.tokens, a.position) != Tok(")") ==>
            AssignOrCall(s, fuel) == Step(Failed(Expected(")", At(s.tokens, a.position))), s.(position := a.position)))
      && (a.result.Ok? && At(s.tokens, a.position) == Tok(")") && At(s.tokens, a.position + 1) != Tok(";") ==>
            AssignOrCall(s, fuel) == Step(Failed(Expected(";", At(s.tokens, a.position + 1))), s.(position := a.position + 1)))
      && (a.result.Ok? && At(s.tokens, a.position) == Tok(")") && At(s.tokens, a.position + 1) == Tok(";") ==>
            AssignOrCall(s, fuel) == Call(s.(position := a.position + 2), name, a.result.value, fuel))
  {
    var a := ArgList(s.tokens, s.variables, s.position + 2);
    var s2 := s.(position := a.position);
    assert Moved(s, a.position) == s2;
    if a.result.Err? {
      assert AssignOrCall(s, fuel) == Step(Failed(a.result.error), s2);
    } else if At(s.tokens, a.position) != Tok(")") {
      assert Expect(s2, ")") == Err(Expected(")", At(s.tokens, a.position)));
    } else {
      var s3 := s.(position := a.position + 1);
      assert Expect(s2, ")") == Ok(s3);
      if At(s.tokens, a.position + 1) != Tok(";") {
        assert Expect(s3, ";") == Err(Expected(";", At(s.tokens, a.position + 1)));
      } else {
        assert Expect(s3, ";") == Ok(s.(position := a.position + 2));
      }
    }
  }

  // ---------------------------------------------------------------------
  // Argument lists

  /** The tokens from `pos` on hold expressions with the values `vals`,
      separated by commas, the token after the last one is not a comma, and
      `stop` is its index. */
  predicate Evaluates(tokens: seq<Token>, vars: map<string, Value>, pos: nat, vals: seq<Value>, stop: nat)
    decreases |vals|
  {
    && |vals| > 0
    && var e := Expression(tokens, vars, pos);
       && e.result == Ok(vals[0])
       && if |vals| == 1 then At(tokens, e.position) != Tok(",") && stop == e.position
          else At(tokens, e.position) == Tok(",") && Evaluates(tokens, vars, e.position + 1, vals[1..], stop)
  }

  /** The loop of the argument list, entered after the first expression,
      appends the values of the later ones in order. */
  lemma {:induction false} MoreArgumentsEvaluates(tokens: seq<Token>, vars: map<string, Value>, acc: seq<Value>,
                                                  pos: nat, vals: seq<Value>, stop: nat)
    requires Evaluates(tokens, vars, pos, vals, stop)
    ensures MoreArguments(tokens, vars, acc + [vals[0]], Expression(tokens, vars, pos).position)
         == Parsed(Ok(acc + vals), stop)
    decreases |vals|
  {
    var e := Expression(tokens, vars, pos);
    if |vals| == 1 {
      assert acc + [vals[0]] == acc + vals;
    } else {
      var rest := vals[1..];
      MoreArgumentsEvaluates(tokens, vars, acc + [vals[0]], e.position + 1, rest, stop);
      assert acc + [vals[0]] + rest == acc + vals;
    }
  }

  /** Conversely, whatever the loop returns normally is the values so far
      followed by the values of a comma-separated run of expressions that
      starts with the expression of the last of them. */
  lemma {:induction false} MoreArgumentsShape(tokens: seq<Token>, vars: map<string, Value>, acc: seq<Value>,
                                              pos: nat, p0: nat)
    requires |acc| > 0 && Expression(tokens, vars, p0) == Parsed(Ok(acc[|acc| - 1]), pos)
    ensures var r := MoreArguments(tokens, vars, acc, pos);
      r.result.Ok? ==> |acc| <= |r.result.value| && r.result.value[..|acc|] == acc
                       && Evaluates(tokens, vars, p0, r.result.value[|acc| - 1..], r.position)
    decreases Rem(tokens, pos)
  {
    if At(tokens, pos) == Tok(",") {
      var e := Expression(tokens, vars, pos + 1);
      if e.result.Ok? {
        MoreArgumentsShape(tokens, vars, acc + [e.result.value], e.position, pos + 1);
        var r := MoreArguments(tokens, vars, acc, pos);
        if r.result.Ok? {
          var v := r.result.value;
          assert v[..|acc|] == v[..|acc| + 1][..|acc|];
          assert v[|acc| - 1..][1..] == v[|acc|..];
        }
      }
    } else {
      assert acc[|acc| - 1..] == [acc[|acc| - 1]];
    }
  }

  /** The arguments of a call are the values of the expressions after `(`,
      evaluated from left to right: none for `()`, and otherwise one value
      per comma-separated expression, up to the first position without a
      comma. */
  lemma ArgListReads(tokens: seq<Token>, vars: map<string, Value>, pos: nat, vals: seq<Value>, stop: nat)
    ensures At(tokens, pos) == Tok(")") ==> ArgList(tokens, vars, pos) == Parsed(Ok([]), pos)
    ensures At(tokens, pos) != Tok(")") ==>
      (ArgList(tokens, vars, pos) == Parsed(Ok(vals), stop) <==> Evaluates(tokens, vars, pos, vals, stop))
  {
    if At(tokens, pos) != Tok(")") {
      var e := Expression(tokens, vars, pos);
      if e.result.Ok? {
        if Evaluates(tokens, vars, pos, vals, stop) {
          MoreArgumentsEvaluates(tokens, vars, [], pos, vals, stop);
          assert [] + [vals[0]] == [vals[0]] && [] + vals == vals;
        }
        MoreArgumentsShape(tokens, vars, [e.result.value], e.position, pos);
        var r := ArgList(tokens, vars, pos);
        if r.result.Ok? {
          assert r.result.value[0..] == r.result.value;
        }
      }
    }
  }

  /** A call statement whose arguments evaluate, followed by `)` and `;`,
      calls the function with those values, in the order written. */
  lemma CallStatementEvaluates(s: State, fuel: nat, vals: seq<Value>, close: nat)
    requires s.position < |s.tokens| && At(s.tokens, s.position + 1) == Tok("(")
    requires if vals == [] then close == s.position + 2
             else At(s.tokens, s.position + 2) != Tok(")") && Evaluates(s.tokens, s.variables, s.position + 2, vals, close)
    requires At(s.tokens, close) == Tok(")") && At(s.tokens, close + 1) == Tok(";")
    ensures AssignOrCall(s, fuel) == Call(s.(position := close + 2), s.tokens[s.position], vals, fuel)
  {
    ArgListReads(s.tokens, s.variables, s.position + 2, vals, close);
    CallChecksFunctionLast(s, fuel);
  }
}
