# Solar interpreter in Dafny

This project models `solar-interpreter.js` in Dafny. That file is a tree-walking interpreter for Solar, a tiny language with the following statements:

- `let` declarations and assignments;
- `print`;
- `if` with one comparison;
- function declarations and calls.

The interpreter parses and runs in one pass over a token sequence. It works on the five fields of one `SolarInterpreter` object:

- the variable map;
- the function table;
- the output text;
- the current token sequence;
- the cursor.

The model has four layers:

- **Lexer** (`lexer.dfy`). `tokenize` is built on `String.prototype.split` with a capturing regular expression followed by a filter. The model is a hand-written scanner that reproduces that split exactly:
  - at each position, the whitespace, the alternatives in the expression's order, and the trailing whitespace;
  - the unmatched text between matches kept as a piece of its own;
  - then the filter, which drops empty pieces and pieces containing whitespace.
- **Runtime** (`runtime.dfy`):
  - values (`Num | Str`), the thrown errors and their message texts;
  - the four arithmetic operators;
  - the comparison switch of `parseCondition`;
  - the text `print` appends for a value.
- **Semantics** (`semantics.dfy`). There is one pure function per parse method. Each takes the five fields as a `State` and returns:
  - how the method ended: normally, with a thrown error, or out of budget;
  - the fields as they are afterwards, exactly as the source leaves them, including after a throw.

  Loops that count nothing (`parseBlock`) and calls that recurse without bound (`executeFunction`) spend a step budget `fuel`.
- **Solar** (`interpreter.dfy`). The class `Interpreter` keeps the source's five fields and updates them in place, one method per source method (the loops of `parse`, `parseExpression`, `parseTerm`, the argument and parameter loops, the brace-counting loops, and the parameter binding are `while`/`for` loops). Each method is proved to end exactly as the matching Semantics function says. `RunSolarCode` is `runSolarCode`.

The properties live in six files:

- `lexer_facts.dfy`: the filter, single lexemes, unmatched text kept as a piece (a lone `=` in `w = 42`), string literals with whitespace, and numerals;
- `expression_facts.dfy`: precedence, associativity, factors, errors and conditions;
- `statement_facts.dfy`:
  - `print` of a lone quote, `let`, assignment and stray tokens;
  - brace counting, `if`, and the block that never returns;
  - declarations and calls, with the parameter and argument lists they read;
- `programs.dfy`: small whole programs, written as the token sequences the scanner makes from them;
- `fuel_facts.dfy`: the step budget decides only whether a run finishes, never how. A budget that is enough for a run to end gives the same outcome and the same fields as every larger budget;
- `answer_facts.dfy`: the answer of `runSolarCode`. No token the scanner makes contains a space, so no string value, stored function body or printed text does either. An answer therefore starts with `"Error: "` exactly when the program threw.

Some behaviours of the source are kept as written, and proved:

- A true `if` whose block is not empty never returns normally. `parseBlock` calls `parse`, and `parse` runs to the end of the whole token sequence, where no `}` is found again.
- `skipBlock` steps over the token after `{` without counting it. So under a false condition, an empty block `{ }` swallows the rest of the program.
- A function body whose braces never balance loses its last token.
- `print "` (a lone quote token) prints an empty line, because `slice(1, -1)` of a one-character token is empty.
- An assignment evaluates its expression and requires its `;` before it checks that the name is declared.
- A call evaluates its arguments and requires `)` and `;` before it looks the function up.
- A condition evaluates both operands before it rejects an unknown operator.

## Model

| member | source | states |
|---|---|---|
| Lexer.Tokenize | solar-interpreter.js:22-26 | every token the scanner emits is non-empty and contains no whitespace |
| Lexer.Keep | solar-interpreter.js:25 | the filter keeps only pieces that are non-empty and contain no whitespace, and never more pieces than there were |
| LexerFacts.KeepSelects | solar-interpreter.js:25 | every kept piece is one of the pieces, every clean piece is kept, and each is kept exactly as often as it occurs |
| LexerFacts.KeepAppend | solar-interpreter.js:25 | the filter works piece by piece and keeps the order: filtering two runs of pieces gives the two filtered runs one after the other |
| Lexer.IsIdentifier | solar-interpreter.js:276-278 | an identifier is a token the scanner can emit, and it is neither a number nor a string |
| Lexer.IsString | solar-interpreter.js:272-274 | a string token is its unquoted text, which holds no quote, put back between two quotes |
| Lexer.IsNumber | solar-interpreter.js:268-270 | a number token is a token the scanner can emit, starts with a digit, and is never a string |
| Lexer.MatchAt | solar-interpreter.js:24 | a match at `q` lies inside the text, starts at or after `q` and captures a non-empty lexeme |
| Lexer.LexemeEnd | solar-interpreter.js:24 | a lexeme found by the alternatives never starts with whitespace |
| Lexer.SpaceEnd | solar-interpreter.js:24 | `\s*` consumes the longest run of whitespace |
| Lexer.WordEnd | solar-interpreter.js:24 | `[A-Za-z0-9_]*` consumes the longest run of identifier characters |
| Lexer.DigitEnd | solar-interpreter.js:24 | `\d*` consumes the longest run of digits |
| Lexer.QuoteFrom | solar-interpreter.js:24 | `[^"]*` stops at the first double quote or the end |
| Lexer.Pieces | solar-interpreter.js:25 | split always yields at least one piece |
| Lexer.Unquote | solar-interpreter.js:130 | `slice(1, -1)` drops exactly the first and the last character |
| Lexer.NumberValue | solar-interpreter.js:128 | a number literal has a non-negative value |
| LexerFacts.TokenizeIdentifier | solar-interpreter.js:22-26 | an identifier on its own scans to exactly that one token |
| LexerFacts.TokenizeNumber | solar-interpreter.js:22-26 | a number literal on its own scans to exactly that one token |
| LexerFacts.SpacedLiteralScansToNothing | solar-interpreter.js:24-25 | a quoted literal with whitespace inside scans to no token at all: it is captured whole, not cut at the whitespace, and then dropped |
| LexerFacts.WordMatch | solar-interpreter.js:24 | an identifier that opens the text is matched whole, together with the whitespace after it |
| LexerFacts.LoneEqualsUnmatched | solar-interpreter.js:24 | the expression does not match at a lone `=` (one not followed by `=` or `>`) |
| LexerFacts.DigitsMatch | solar-interpreter.js:24 | whitespace followed by digits up to the end of the text is one match capturing the digits |
| LexerFacts.UnmatchedKept | solar-interpreter.js:24-25 | text the expression does not match is still a piece of the split: an identifier followed by a lone `=` scans to the identifier and `=` |
| LexerFacts.AssignmentText | solar-interpreter.js:22-26 | the text `w = 42` scans to the three tokens `w`, `=` and `42`, the `=` coming from the unmatched text between two matches |
| LexerFacts.AssignmentPieces | solar-interpreter.js:24-25 | the split of `w = 42` is the empty text before `w`, `w`, the unmatched `=`, the number, and the empty rest |
| LexerFacts.ValuePieces | solar-interpreter.js:24-25 | from a lone `=` followed by a blank and digits, the split yields `=`, the digits and an empty rest |
| LexerFacts.NumeralRoundTrip | solar-interpreter.js:127-128 | the decimal numeral of a natural number is a number token whose value is that number |
| LexerFacts.WholeNumberText | solar-interpreter.js:155 | a whole number prints as its decimal numeral with no fraction |
| LexerFacts.NumeralPrintsAsWritten | solar-interpreter.js:128-155 | a numeral literal read and printed gives back the same text |
| Runtime.NatToString | solar-interpreter.js:155 | the printed integer part is a non-empty run of digits without leading zeros |
| Runtime.FractionDigits | solar-interpreter.js:155 | the printed fraction is at most the given number of digits |
| Runtime.Apply | solar-interpreter.js:102-120 | an operator succeeds exactly on two numbers (except division by zero) or `+` on two strings; numbers give a number, strings concatenate |
| Runtime.Message | solar-interpreter.js:59-263 | every error message is a sentence that opens with a capital letter and ends with a period |
| Runtime.Compare | solar-interpreter.js:175-190 | `==`/`!=` are strict equality and inequality of values; `<`, `>`, `<=`, `>=` order two numbers numerically and two strings lexicographically (`<=` is "less or equal", `>=` "greater or equal"), a number against a string is a type error, and any other operator is an unknown-operator error |
| Runtime.PrecedesOrder | solar-interpreter.js:183-189 | string order is irreflexive, asymmetric and total on distinct strings |
| Runtime.PrecedesTransitive | solar-interpreter.js:183-189 | string order is transitive |
| Semantics.At | solar-interpreter.js:30 | the cursor finds a token exactly when it is inside the sequence |
| Semantics.Expect | solar-interpreter.js:261-266 | `expect` succeeds exactly at the wanted token and then moves the cursor by one; otherwise it reports the wanted and the found token |
| Semantics.Expression | solar-interpreter.js:97-109 | an expression consumes at least one token |
| Semantics.MoreTerms | solar-interpreter.js:99-107 | the `+`/`-` loop never moves the cursor back |
| Semantics.Term | solar-interpreter.js:111-123 | a term consumes at least one token |
| Semantics.MoreFactors | solar-interpreter.js:113-121 | the `*`/`/` loop never moves the cursor back |
| Semantics.Factor | solar-interpreter.js:125-144 | a factor consumes at least one token |
| Semantics.Condition | solar-interpreter.js:171-191 | a condition consumes at least one token |
| Semantics.ArgList | solar-interpreter.js:81-88 | the argument list never moves the cursor back; what it reads is stated by `StatementFacts.ArgListReads` |
| Semantics.ParamList | solar-interpreter.js:213-220 | the parameter list never moves the cursor back; what it reads is stated by `StatementFacts.ParamListReads` |
| Semantics.SkipBlock | solar-interpreter.js:200-208 | `skipBlock` always moves the cursor forward, and not past the end when it starts inside the tokens |
| Semantics.BraceScan | solar-interpreter.js:225-229 | the brace-counting loop never moves the cursor back nor past the end of the tokens |
| Semantics.Bind | solar-interpreter.js:246-248 | binding the parameters declares exactly the caller's names plus the parameter names |
| Semantics.Let | solar-interpreter.js:56-65 | the output and the name sets only grow, the tokens stay, and a normal return moves the cursor forward |
| Semantics.Assign | solar-interpreter.js:69-77 | an assignment never takes back output or names and keeps the tokens; a normal return moves the cursor forward |
| Semantics.AssignOrCall | solar-interpreter.js:67-95 | an assignment or call statement never takes back output or names; a normal return keeps the tokens and moves the cursor forward |
| Semantics.If | solar-interpreter.js:159-169 | an `if` never takes back output or names; a normal return keeps the tokens and moves the cursor forward |
| Semantics.Block | solar-interpreter.js:193-198 | a block never takes back output or names; a normal return keeps the tokens and moves the cursor past the `}` |
| Semantics.FunctionDecl | solar-interpreter.js:210-233 | a declaration never takes back output or names and keeps the tokens; a normal return moves the cursor forward |
| Semantics.DeclareBody | solar-interpreter.js:221-232 | storing the body never takes back output or names and keeps the tokens; a normal return moves the cursor forward |
| Semantics.Statement | solar-interpreter.js:29-49 | a statement never takes back output or names; a normal return keeps the tokens and moves the cursor forward |
| Semantics.Print | solar-interpreter.js:146-157 | the output only grows, the tokens stay, and a normal return moves the cursor forward |
| Semantics.Call | solar-interpreter.js:235-259 | a call that returns normally restores the caller's variables, tokens and cursor exactly, and the output and function table only grow |
| Semantics.Interpret | solar-interpreter.js:12-20 | a run that ends normally has scanned exactly the given code and consumed all of its tokens |
| Semantics.Answer | solar-interpreter.js:283-290 | there is an answer exactly when the run ends, normally or with an error, within the budget |
| Semantics.Run | solar-interpreter.js:28-54 | a run that returns normally leaves the tokens as they were and the cursor at or past their end; the output only grows |
| Solar.Interpreter.constructor | solar-interpreter.js:4-10 | all five fields start empty |
| Solar.Interpreter.Interpret | solar-interpreter.js:12-20 | resets the fields, scans and parses, ending as `Semantics.Interpret` says |
| Solar.Interpreter.Parse | solar-interpreter.js:28-54 | the statement loop ends as `Run` says, fields included |
| Solar.Interpreter.ParseStatement | solar-interpreter.js:29-49 | the dispatch ends as `Statement` says |
| Solar.Interpreter.ParseVariableDeclaration | solar-interpreter.js:56-65 | ends as `Let` says |
| Solar.Interpreter.ParseAssignmentOrFunctionCall | solar-interpreter.js:67-95 | ends as `AssignOrCall` says |
| Solar.Interpreter.ParseAssignment | solar-interpreter.js:70-77 | ends as `Assign` says |
| Solar.Interpreter.ParseCall | solar-interpreter.js:78-91 | entered after `(`, ends as `AssignOrCall` says for the call statement that started at the name |
| Solar.Interpreter.ParseArguments | solar-interpreter.js:81-88 | the argument loop returns the values and cursor `ArgList` says |
| Solar.Interpreter.ParseExpression | solar-interpreter.js:97-109 | returns the value and cursor `Expression` says |
| Solar.Interpreter.ParseMoreTerms | solar-interpreter.js:99-107 | the `+`/`-` loop ends as `MoreTerms` says |
| Solar.Interpreter.ParseTerm | solar-interpreter.js:111-123 | returns the value and cursor `Term` says |
| Solar.Interpreter.ParseMoreFactors | solar-interpreter.js:113-121 | the `*`/`/` loop ends as `MoreFactors` says |
| Solar.Interpreter.ParseFactor | solar-interpreter.js:125-144 | returns the value and cursor `Factor` says |
| Solar.Interpreter.ParsePrintStatement | solar-interpreter.js:146-157 | ends as `Print` says |
| Solar.Interpreter.ParseIfStatement | solar-interpreter.js:159-169 | ends as `If` says |
| Solar.Interpreter.ParseCondition | solar-interpreter.js:171-191 | returns the truth value and cursor `Condition` says |
| Solar.Interpreter.ParseBlock | solar-interpreter.js:193-198 | ends as `Block` says |
| Solar.Interpreter.SkipBlock | solar-interpreter.js:200-208 | leaves the cursor where `Semantics.SkipBlock` says and changes no other field |
| Solar.Interpreter.ParseFunctionDeclaration | solar-interpreter.js:210-233 | ends as `FunctionDecl` says |
| Solar.Interpreter.ParseParameters | solar-interpreter.js:213-220 | the parameter loop returns the names and cursor `ParamList` says |
| Solar.Interpreter.DeclareFunction | solar-interpreter.js:221-232 | ends as `DeclareBody` says |
| Solar.Interpreter.ScanBody | solar-interpreter.js:224-229 | the brace-counting loop stops where `BraceScan` says |
| Solar.Interpreter.ExecuteFunction | solar-interpreter.js:235-259 | ends as `Call` says, including the restored fields |
| Solar.Interpreter.BindParameters | solar-interpreter.js:246-248 | the binding loop leaves the variables `Bind` says |
| Solar.Interpreter.Expect | solar-interpreter.js:261-266 | moves the cursor or fails as `Semantics.Expect` says |
| Solar.RunSolarCode | solar-interpreter.js:283-290 | the answer is the output, or `"Error: "` and the message, as `Answer` says |
| ExpressionFacts.FactorCases | solar-interpreter.js:125-144 | a factor is a number literal's value, a string literal without its quotes, the binding of an identifier (an error if unbound), or a parenthesised expression |
| ExpressionFacts.FactorLoopStep | solar-interpreter.js:113-120 | at `*` or `/`, an error in the next factor ends the term with that error; otherwise the value so far is combined with the factor (an error stops there, at the factor's end) and the loop goes on after the factor |
| ExpressionFacts.FactorLoopStop | solar-interpreter.js:113-122 | at any other token the loop ends with the value so far and the cursor where it was |
| ExpressionFacts.TermLoopStep | solar-interpreter.js:99-106 | at `+` or `-`, an error in the next term ends the expression with that error; otherwise the value so far is combined with the term and the loop goes on after the term |
| ExpressionFacts.TermLoopStop | solar-interpreter.js:99-108 | at any other token the loop ends with the value so far and the cursor where it was |
| ExpressionFacts.MultiplicationBindsTighter | solar-interpreter.js:97-123 | `a + b * c` is `a + (b * c)` |
| ExpressionFacts.MultiplicationFirst | solar-interpreter.js:97-123 | `a * b + c` is `(a * b) + c` |
| ExpressionFacts.SubtractionLeftAssociative | solar-interpreter.js:97-109 | `a - b - c` is `(a - b) - c` |
| ExpressionFacts.DivisionLeftAssociative | solar-interpreter.js:111-123 | `a / b / c` is `(a / b) / c`, with division by zero reported where the divisor is |
| ExpressionFacts.PrecedenceExample | solar-interpreter.js:97-144 | `2 + 3 * 4` is 14 |
| ExpressionFacts.AssociativityExample | solar-interpreter.js:97-144 | `10 - 3 - 2` is 5 |
| ExpressionFacts.ExpressionErrors | solar-interpreter.js:97-144 | an expression throws only undeclared-variable, unexpected-token, expected-token, division and type errors |
| ExpressionFacts.ConditionOperatorCheckedLast | solar-interpreter.js:171-191 | an unknown operator is reported exactly when both operands evaluate and the operator is none of the six comparisons |
| ExpressionFacts.StrictEquality | solar-interpreter.js:176-179 | a number never equals a string under `==`, and always differs under `!=`, whichever side each is on |
| StatementFacts.StrayTokenSkipped | solar-interpreter.js:46-48 | a token that is neither a keyword nor an identifier is stepped over and nothing else changes |
| StatementFacts.LoneQuotePrint | solar-interpreter.js:148-151 | `print` of a lone quote prints an empty line when `;` follows, and fails at the missing `;` otherwise |
| StatementFacts.LetRedeclared | solar-interpreter.js:57-60 | `let` of a bound name fails before evaluating anything and leaves every field but the cursor unchanged |
| StatementFacts.LetDone | solar-interpreter.js:56-65 | `let` succeeds exactly when the name is unbound, `=` follows, the expression evaluates and `;` follows; then only that name is bound anew and the cursor is past `;` |
| StatementFacts.AssignChecksNameLast | solar-interpreter.js:70-76 | an expression error or a missing `;` is reported before an undeclared name |
| StatementFacts.AssignDone | solar-interpreter.js:70-77 | an assignment succeeds exactly when the expression evaluates, `;` follows and the name is declared; then only that name changes and the set of names stays |
| StatementFacts.BraceScanStops | solar-interpreter.js:225-229 | the loop stops at the end of the tokens while the count stays positive, or just past the `}` that first brings it to zero |
| StatementFacts.ScanFindsMatch | solar-interpreter.js:225-229 | the loop stops just past the `}` that first brings the count to zero |
| StatementFacts.SkipBlockStops | solar-interpreter.js:200-208 | `skipBlock` steps over the token after `{` uncounted, then stops just past the `}` that brings the count from one to zero, or at the end |
| StatementFacts.FalseIf | solar-interpreter.js:159-168 | a false `if` changes only the cursor, which ends where `skipBlock` leaves it |
| StatementFacts.BlockNeverReturns | solar-interpreter.js:193-198 | once the cursor is not at `}`, `parseBlock` never returns normally |
| StatementFacts.TrueIfNeverReturns | solar-interpreter.js:159-198 | a true `if` with a non-empty block never returns normally |
| StatementFacts.TrueIfEmptyBlock | solar-interpreter.js:159-198 | a true `if` with an empty block steps over it and changes nothing else |
| StatementFacts.DeclarationBalanced | solar-interpreter.js:221-232 | entered at the `)` that closes the parameters, with balanced braces: stores the given parameters and exactly the tokens between `{` and its matching `}`, replaces any earlier entry, puts the cursor past that `}`, and runs nothing |
| StatementFacts.MoreParamsListed | solar-interpreter.js:216-219 | the parameter loop collects the remaining comma-separated tokens in order and stops at the first position without a comma |
| StatementFacts.MoreParamsShape | solar-interpreter.js:216-219 | whatever the parameter loop returns is such a comma-separated run of tokens |
| StatementFacts.ParamListReads | solar-interpreter.js:213-220 | `()` gives no parameters; otherwise the list read is exactly `p0 , p1 , ... pn` up to the first position without a comma, in both directions |
| StatementFacts.DeclarationStores | solar-interpreter.js:210-233 | from the keyword `function`: a declaration with balanced braces stores, under its name, exactly the parameter tokens between `(` and `)` and the body tokens between `{` and its matching `}` |
| StatementFacts.DeclarationUnbalanced | solar-interpreter.js:224-231 | with unbalanced braces the cursor goes to the end and the stored body loses its last token |
| StatementFacts.BindLookup | solar-interpreter.js:246-248 | each parameter is bound to its last argument, and every other variable keeps its value |
| StatementFacts.CallDone | solar-interpreter.js:235-259 | a call fails on an undefined function or a wrong argument count; otherwise it runs the body on the caller's variables with the parameters bound and, when the body returns, restores variables, tokens and cursor while keeping output and functions |
| StatementFacts.MoreArgumentsEvaluates | solar-interpreter.js:83-86 | the argument loop appends the values of the later comma-separated expressions in order |
| StatementFacts.MoreArgumentsShape | solar-interpreter.js:83-86 | whatever the argument loop returns is the values of such a run of expressions |
| StatementFacts.ArgListReads | solar-interpreter.js:81-88 | `()` gives no arguments; otherwise the values are exactly those of the comma-separated expressions, from left to right, in both directions |
| StatementFacts.CallStatementEvaluates | solar-interpreter.js:78-91 | a call statement whose arguments evaluate, with `)` and `;` after them, calls the function with those values in the order written |
| StatementFacts.CallChecksFunctionLast | solar-interpreter.js:78-91 | argument errors, a missing `)` and a missing `;` are reported before the function is looked up |
| Programs.PrecedenceProgram | solar-interpreter.js:146-157 | `print 2 + 3 * 4;` prints `14` |
| Programs.LoneQuoteProgram | solar-interpreter.js:146-157 | `print " ;` prints an empty line |
| Programs.UndefinedCallProgram | solar-interpreter.js:235-239 | `foo();` fails with an undefined-function error and prints nothing |
| Programs.LetPrintProgram | solar-interpreter.js:56-157 | `let x = n; print x;` prints the numeral `n` as written |
| Programs.RedeclarationProgram | solar-interpreter.js:56-60 | the second `let x` fails before its expression, and `x` keeps its first value |
| Programs.FalseIfProgram | solar-interpreter.js:159-208 | `if (1 == 2) { print "a"; } print "b";` prints only `b` |
| Programs.EmptyFalseBlockProgram | solar-interpreter.js:200-208 | `if (1 == 2) { } print "b";` prints nothing: the empty block swallows the rest |
| Programs.AddProgram | solar-interpreter.js:210-259 | declaring `add(a, b)` and calling `add(2, 3)` prints `5` and leaves no variable behind |
| FuelFacts.RunMonotone | solar-interpreter.js:28-54 | once a budget lets `parse` end, normally or by a throw, every larger budget gives the same outcome and the same fields |
| FuelFacts.StatementMonotone | solar-interpreter.js:29-49 | the same for one statement |
| FuelFacts.IfMonotone | solar-interpreter.js:159-191 | the same for an `if` statement |
| FuelFacts.BlockMonotone | solar-interpreter.js:193-198 | the same for `parseBlock` |
| FuelFacts.AssignOrCallMonotone | solar-interpreter.js:67-95 | the same for an assignment or call statement |
| FuelFacts.CallMonotone | solar-interpreter.js:235-259 | the same for `executeFunction` |
| FuelFacts.AnswerMonotone | solar-interpreter.js:283-290 | once a budget gives `runSolarCode` an answer, every larger budget gives the same answer |
| AnswerFacts.ErrorAnswerExactlyOnThrow | solar-interpreter.js:283-290 | the answer starts with `"Error: "` if and only if the program threw; after a throw it is `"Error: "` and the message, otherwise it is the output |
| AnswerFacts.ScannedTokensBlankless | solar-interpreter.js:25 | no token kept by the filter contains a space |
| AnswerFacts.RenderBlankless | solar-interpreter.js:155 | the text of a number has no space, nor does that of a string without one |
| AnswerFacts.MagnitudeBlankless | solar-interpreter.js:155 | the digits, and the point, of a non-negative number contain no space |
| AnswerFacts.UnquoteBlankless | solar-interpreter.js:130 | stripping the quotes from a token without a space leaves a text without a space |
| AnswerFacts.ApplyBlankless | solar-interpreter.js:102-120 | an operator applied to values without a space yields a value without a space |
| AnswerFacts.ExpressionBlankless | solar-interpreter.js:97-109 | over tokens and variables without a space, an expression's value has no space |
| AnswerFacts.MoreTermsBlankless | solar-interpreter.js:99-107 | the same for the `+`/`-` loop, starting from a value without a space |
| AnswerFacts.TermBlankless | solar-interpreter.js:111-123 | the same for a term |
| AnswerFacts.MoreFactorsBlankless | solar-interpreter.js:113-121 | the same for the `*`/`/` loop |
| AnswerFacts.FactorBlankless | solar-interpreter.js:125-144 | the same for a factor: a numeral, a quoted string, a variable or a parenthesised expression |
| AnswerFacts.MoreArgumentsBlankless | solar-interpreter.js:83-86 | the argument loop adds only values without a space |
| AnswerFacts.ArgListBlankless | solar-interpreter.js:81-88 | every argument of a call has no space |
| AnswerFacts.BindBlankless | solar-interpreter.js:246-248 | binding such arguments to the parameters keeps every variable's value free of spaces |
| AnswerFacts.PrintSound | solar-interpreter.js:146-157 | `print` keeps every token, value, body and the output free of spaces |
| AnswerFacts.LetSound | solar-interpreter.js:56-65 | the same for `let` |
| AnswerFacts.AssignSound | solar-interpreter.js:69-77 | the same for an assignment |
| AnswerFacts.DeclareBodySound | solar-interpreter.js:221-232 | the same for storing a function body |
| AnswerFacts.FunctionDeclSound | solar-interpreter.js:210-233 | the same for a function declaration |
| AnswerFacts.RunSound | solar-interpreter.js:28-54 | the same for `parse`, on every budget, also after a throw |
| AnswerFacts.StatementSound | solar-interpreter.js:29-49 | the same for one statement |
| AnswerFacts.IfSound | solar-interpreter.js:159-191 | the same for an `if` statement |
| AnswerFacts.BlockSound | solar-interpreter.js:193-198 | the same for `parseBlock` |
| AnswerFacts.AssignOrCallSound | solar-interpreter.js:67-95 | the same for an assignment or call statement |
| AnswerFacts.CallStatementSound | solar-interpreter.js:78-91 | the same for a call statement |
| AnswerFacts.CallSound | solar-interpreter.js:235-259 | the same for `executeFunction` |


## Left out

- IEEE-754 doubles. `Num` holds an exact `real`.
  - `parseFloat` is the exact decimal value of the literal.
  - `print` of a number writes the integer part and at most 20 fraction digits. It does not use JavaScript's shortest round-trip conversion or exponent notation.
- Division by zero is the error `DivisionByZero`, where JavaScript yields `Infinity` or `NaN`.
- Dynamic coercions are errors (`TypeMismatch`), where JavaScript coerces:
  - `+` of a number and a string;
  - `-`, `*`, `/` on strings;
  - `<`, `>`, `<=`, `>=` on a number and a string.
- Runtime.Compare: `<` on two strings compares code points, not UTF-16 code units.
- `isNumber` is the number pattern `\d+\.?\d*`. `!isNaN` also takes tokens such as `Infinity`, which the model treats as identifiers.
- Prototype lookups on plain objects are not modelled. Variables and functions are Dafny maps, so a name such as `toString` is never bound before it is declared.
- Reads past the end of the tokens are an explicit `End`, shown as `undefined` in messages:
  - a factor at the end is `UnexpectedInExpression(End)`, where the source reports the variable `undefined` as not declared;
  - `let` at the end fails with the `=` expectation, where the source would look up a variable named `undefined`.
- The regular-expression engine is replaced by a scanner that follows the expression alternative by alternative.
- Concrete scans of whole literal programs are not stated. The example programs start from their token sequences.
- The shared global interpreter of `runSolarCode` is not modelled. Each call starts from the reset that `interpret` performs anyway.
- Non-termination is a step budget. A call and each turn of `parseBlock` spend one unit. `OutOfFuel` (and `None` from `RunSolarCode`) stands for "has not finished within the budget". Host stack exhaustion is not modelled.
