# A verified model of a small scripting-language interpreter

The system is a tree-walking interpreter for a tiny JavaScript-hosted language. It has
four parts:

- **Lexer** (`lexer.js`). A cursor over the source text. Each call of `next` skips blanks
  (space, `\r` and `\n`) and looks the text up in an operator table, three characters
  first, then two, then one. Failing that, it takes a maximal digit run (`NUMBER`) or a
  maximal letter run (`KEYWORD` or `IDENTIFIER`). A character that matches nothing yields
  `null`. At or past the end it yields an `EOF` token.
- **Parser** (`parser.js`). Recursive descent with one token of lookahead, held in the
  `current` field.
  - Binary expressions climb an eight-level, left-associative ladder. From tightest to
    loosest it is multiplicative, additive, shift, `&`, `|`, `^`, `&&`, `||`.
  - Statement lists, parameter lists and argument lists are loops.
  - A failed construction is a `null` child.
- **Tree** (`ast.js`). Each node kind has an `execute` method that runs against the
  interpreter.
  - A scope pushes a context, runs its statements and pops the context.
  - A function body stops at its first `return` node.
  - A call pushes a fresh context on top of the caller's stack, so scoping is dynamic.
  - Assignment always writes into the innermost context.
  - A binary expression runs both operands, left before right, and then applies the
    operator.
- **Interpreter** (`interpreter.js`). A stack of contexts, innermost first, and a
  history of the popped ones. Name lookup returns the first *truthy* binding, so a
  binding of `0` is passed over.

The model has one Dafny module per part of the pipeline:

| module | file | contents |
|---|---|---|
| `Lexer` | `lexer.dfy` | The specification functions `NextToken` and `Scan`, and the class `Lexer`, whose `pos` field its methods advance; each method is proved to compute the specification function. |
| `Ast` | `ast.dfy` | The node and value datatypes, literal parsing, and the operators. `+ - *` work on unbounded integers; the bitwise operators wrap to 32-bit two's complement. |
| `Contexts` | `contexts.dfy` | The interpreter state as a value: push, pop, the current context and lookup. |
| `Evaluation` | `evaluation.dfy` | The `execute` methods as functions on that state, with fuel bounding call depth, and the lemmas about them. |
| `Interpreting` | `interpreter.dfy` | The class `Interpreter`, with the context stack and the history as fields changed in place; its `execute` methods are proved to compute the `Evaluation` functions. |
| `Parsing` | `parser.dfy` | The parse steps as functions over the token stream and a position in it, and the lemmas about them. |
| `ParserObject` | `parser_object.dfy` | The class `Parser`, which holds the lexer and the `current` token; each of its methods is proved to compute the function of `Parsing` with the same name. |

A parse step ends in one of three ways:

- `Parsed(value, next)`: it built a value and stopped before token `next`;
- `Crashed`: it read the kind of the lexer's `null`, which throws `TypeError`;
- `Diverged`: a statement loop made a pass without consuming a token, after which the
  loop repeats forever.

A run ends in one of four ways: `Normal(value)`, `Crash` (a `TypeError`), `OutOfFuel`, or
`NotModelled`.

Where the documented behaviour and the code differ, the model follows the code:

- There are no error values for an unbound identifier, an arity mismatch or division by
  zero. The code marks those checks as TODO and does nothing there. It has no token for
  `/` or `%` at all.
- Lookup of a name with no truthy binding gives `null`, and calling `null` throws.
- Call arguments run *inside* the callee's new context, after it is pushed. A later
  argument therefore sees the parameter an earlier one has bound.
- `run` pushes no context with a native `println`.
- `true`, `false` and `null` become a `Value` whose text is NaN, and the parser does not
  consume them.
- The parser never builds a `return` node. Since `return` is a keyword token, a body such
  as `{ return a + b }` makes the body loop go round forever without consuming anything.
- Where the ladder order is concerned, the code's order is the one modelled: `|` binds
  tighter than `^`. The source's comment listing the levels (parser.js:185-187) puts `^`
  above `|`.

## Model

| member | source | states |
|---|---|---|
| `Lexer.RunEnd` | lexer.js:109-112 | The end of the maximal run of matching characters: every character before it matches, and the one at it does not (or the text has ended). |
| `Lexer.Slice` | lexer.js:55 | `slice` clamped by the end of the text: a prefix of what follows `from`, of the requested width where the text allows. |
| `Lexer.TokenKind` | lexer.js:1-24 | An operator is one or two punctuation characters, and no operator has kind EOF, NUMBER or IDENTIFIER. |
| `Lexer.TokenKindIsTable` | lexer.js:1-24 | The character lookup finds exactly the operator table's entries, with their kinds. |
| `Lexer.TableKey` | lexer.js:20-23 | The first character of a two-character operator is itself an operator. |
| `Lexer.TableToken` | lexer.js:76-85 | The lookup of one width: absent exactly when the sliced text is not an operator; otherwise a token of the table's kind, starting at the cursor, whose length is the length of its text. |
| `Lexer.NextToken` | lexer.js:88-133 | `next`: the cursor never moves back; EOF comes exactly from a cursor at or past the end; any other token is the text it covers, and the cursor stops right after it; a failure skips only blanks. |
| `Lexer.LookupToken` | lexer.js:94-104 | The three lookups, widest first: a token found is not EOF, starts at the cursor and covers its text. |
| `Lexer.RunToken` | lexer.js:106-132 | A digit run or a letter run: a NUMBER, KEYWORD or IDENTIFIER token covering a non-empty stretch, or no token and no movement. |
| `Lexer.EofIsSticky` | lexer.js:89-90 | At or past the end, `next` returns an EOF token at the cursor and leaves the cursor put, so it keeps returning it. |
| `Lexer.LongestMatch` | lexer.js:94-100 | A two-character operator after the blanks wins over its one-character prefix. |
| `Lexer.NumberToken` | lexer.js:106-115 | After the blanks, a digit starts a NUMBER holding the maximal digit run. |
| `Lexer.WordToken` | lexer.js:117-129 | After the blanks, a letter starts a maximal letter run, which is a KEYWORD exactly when it is one of the six keywords and an IDENTIFIER otherwise; a digit ends it. |
| `Lexer.NoTokenIff` | lexer.js:92-132 | Before the end, `next` yields nothing exactly when, after the blanks, the text has ended or its character is not an operator, a digit or a letter. |
| `Lexer.TabYieldsNoToken` | lexer.js:49-52 | A tab is not a blank: it yields no token. |
| `Lexer.SlashYieldsNoToken` | lexer.js:1-24 | `/` is not an operator: it yields no token. |
| `Lexer.TrailingBlanksYieldNoToken` | lexer.js:89-92 | Blanks that run to the end yield no token rather than EOF, because the end test comes before the skip. |
| `Lexer.TableTokenAsWritten` | lexer.js:54-63 | The lookup as written: its token always has the full width as its length, even where the slice was cut short by the end. |
| `Lexer.NextTokenAsWritten` | lexer.js:88-133 | `next` as written: the cursor never moves back, EOF comes from a cursor at the end, and any other token moves the cursor forward. |
| `Lexer.AsWrittenOvershoots` | lexer.js:54-63 | As written, a `)` at the very end gets length 3 and moves the cursor past the end; the corrected lookup gives length 1 and stops at the end. |
| `Lexer.AsWrittenAgrees` | lexer.js:54-85 | Both lookups give tokens of the same kind, text and start. Their cursors differ exactly when the whole rest of the text after the blanks is an operator, and then the written one has gone past the end. |
| `Lexer.Scan` | lexer.js:88-133 | The tokens of repeated `next` calls up to EOF or a failure; a stream ending at EOF reports the end of the text. |
| `Lexer.ScanAsWritten` | lexer.js:54-133 | Definition: the tokens of repeated `next` calls with the lookups as written, up to EOF or a failure. Its properties are in `Lexer.AsWrittenStreamAgrees`. |
| `Lexer.ScanCoversText` | lexer.js:106-128 | Every token of a scan covers its own text inside the input, and no two tokens overlap. |
| `Lexer.ScanWordText` | lexer.js:106-129 | Every NUMBER or IDENTIFIER token of a scan starts with a digit or a letter. |
| `Lexer.AsWrittenStreamAgrees` | lexer.js:54-85 | The streams of the written and the corrected lookups have the same kinds and texts, and both end at EOF or both fail. |
| `Lexer.Lexer.constructor` | lexer.js:38-41 | A new lexer over the input, with its cursor at 0. |
| `Lexer.Lexer.Consume` | lexer.js:87 | `consume` moves the cursor one place. |
| `Lexer.Lexer.SkipWhiteSpace` | lexer.js:49-52 | The skip loop stops at the end of the run of blanks. |
| `Lexer.Lexer.ConsumeTableToken` | lexer.js:54-85 | One `consume_*_token` method: it returns the table lookup of its width and moves the cursor past the token found, or leaves it put. |
| `Lexer.Lexer.ConsumeRun` | lexer.js:107-112 | A digit or letter loop: it collects exactly the maximal run, and the cursor stops after it. |
| `Lexer.Lexer.ConsumeLookup` | lexer.js:94-104 | The three lookups in sequence compute `LookupToken`, and the cursor moves past the token found. |
| `Lexer.Lexer.ConsumeRunToken` | lexer.js:106-132 | The digit and letter branches compute `RunToken`. |
| `Lexer.Lexer.Next` | lexer.js:88-133 | `next` on the object returns the token that `NextToken` gives for the old cursor, and the cursor ends where `NextToken` says. |
| `Ast.Truthy` | interpreter.js:26 | Definition: JavaScript truthiness on the model's values, where a non-zero number and a function object are truthy and 0, NaN, `undefined` and `null` are not. Its properties are in `Ast.LogicalOperators` and `Contexts.ResolveFindsFirstTruthy`. |
| `Ast.ParseInt` | ast.js:117-119 | Definition: `parseInt` as the base-10 value of the leading digit run, or NaN without one. Its properties are in `Ast.ParseIntOfDigits` and `Ast.ParseIntRoundTrip`. |
| `Ast.DecimalRoundTrip` | ast.js:117-119 | Reading back the decimal digits of a number gives the number. |
| `Ast.ParseIntOfDigits` | ast.js:117-119 | `parseInt` of a string of digits is the number those digits denote. |
| `Ast.ParseIntRoundTrip` | ast.js:117-119 | `parseInt` of the decimal text of `n` is `n`. |
| `Ast.Wrap32` | ast.js:158-171 | Wrap-around into the signed 32-bit range: the result is in range and equal to the input modulo 2^32. |
| `Ast.ToInt32` | ast.js:158-171 | `ToInt32` always gives a signed 32-bit integer. |
| `Ast.ToNumber` | ast.js:143-171 | Definition: the numeric conversion the operators apply, where `null` is 0 and `undefined`, NaN and a function object give NaN. Its properties are in `Ast.NullAndUndefinedInArithmetic` and `Ast.BitwiseResultsAreInt32`. |
| `Ast.ShiftCount` | ast.js:158-162 | The shift count is less than 32. |
| `Ast.BitOp` | ast.js:164-171 | Bitwise combination of the `n` low bits is below 2^n. |
| `Ast.Bitwise` | ast.js:164-171 | `&`, `^` and `|` always give a signed 32-bit integer. |
| `Ast.BitOpCommutes` | ast.js:164-171 | Bit-by-bit combination is symmetric in its operands. |
| `Ast.BitOpIdentities` | ast.js:164-171 | On `n` bits, and with all ones, or with zero and xor with zero change nothing. |
| `Ast.BitOpBits` | ast.js:164-171 | Bit `k` of the combination is the operator applied to bit `k` of each operand. |
| `Ast.BitsDetermine` | ast.js:164-171 | Two numbers of `n` bits with the same bits are equal, so `BitOpBits` fixes the value of every combination. |
| `Ast.BitOpSelfInverse` | ast.js:167-168 | A bit pattern xor itself is zero. |
| `Ast.Wrap32OfInt32` | ast.js:158-171 | Wrapping leaves a signed 32-bit integer unchanged. |
| `Ast.UnsignedRoundTrip` | ast.js:164-171 | A signed 32-bit integer survives the trip through its unsigned bit pattern. |
| `Ast.Arithmetic` | ast.js:143-156 | Definition: `*`, `+` and `-` on the converted operands, NaN when either is NaN. Its properties are in `Ast.NullAndUndefinedInArithmetic`. |
| `Ast.ShiftRight` | ast.js:161-162 | Definition: `>>` as repeated halving rounded toward minus infinity. Its properties are in `Ast.ShiftRightStaysInRange` and `Ast.ShiftRightExample`. |
| `Ast.ApplyOperator` | ast.js:142-178 | Definition: the operator switch of `BinaryExpression.execute`, with `NotModelled` (`None`) for `/`, `%` and `+` on a function object. Its properties are in `Ast.LogicalOperators`, `Ast.BitwiseResultsAreInt32`, `Ast.Int32Operands` and the example lemmas that follow. |
| `Ast.LogicalOperators` | ast.js:173-177 | `&&` and `||` return one of their operands, and that operand is truthy exactly when the conjunction (disjunction) of the operands' truthiness holds. |
| `Ast.BitwiseResultsAreInt32` | ast.js:158-171 | `<<`, `>>`, `&`, `^` and `|` always give a signed 32-bit number. |
| `Ast.ShiftRightStaysInRange` | ast.js:161-162 | `>>` keeps the sign, moves toward minus infinity and never past 0. |
| `Ast.ShiftCountModulo32` | ast.js:158-162 | Shifting by `n + 32` is shifting by `n`. |
| `Ast.BitwiseIdentities` | ast.js:164-171 | `x & -1`, `x \| 0` and `x ^ 0` give back a 32-bit `x`. |
| `Ast.XorSelf` | ast.js:167-168 | `x ^ x` is 0. |
| `Ast.BitwiseCommutes` | ast.js:164-171 | `&`, `\|` and `^` are commutative. |
| `Ast.AndExample` | ast.js:164-165 | `5 & 3` is 1. |
| `Ast.XorExample` | ast.js:167-168 | `6 ^ 3` is 5. |
| `Ast.OrExample` | ast.js:170-171 | `-8 \| 3` is -5. |
| `Ast.Int32Operands` | ast.js:164-171 | On signed 32-bit operands, `&`, `^` and `\|` combine the operands' two's complement bit patterns and read the result back as signed. |
| `Ast.ShiftLeftWraps` | ast.js:158-159 | `1 << 31` wraps to -2^31. |
| `Ast.ShiftLeftCount` | ast.js:158-159 | `1 << 33` is 2: only the count's low five bits are used. |
| `Ast.ShiftRightExample` | ast.js:161-162 | `-5 >> 1` is -3: the shift rounds toward minus infinity. |
| `Ast.NullAndUndefinedInArithmetic` | ast.js:152-153 | `null` counts as 0 and `undefined` as NaN in `+`, and NaN times 0 is NaN. |
| `Contexts.Current` | interpreter.js:9-11 | The current context is the innermost one, and there is none when the stack is empty. |
| `Contexts.Push` | interpreter.js:13-15 | A fresh empty context goes in front; the older contexts keep their order and the history is unchanged. |
| `Contexts.Pop` | interpreter.js:17-21 | The innermost context is removed and appended to the history (an empty stack appends `undefined`); the other contexts stay, in order. |
| `Contexts.SetCurrent` | ast.js:66 | `current_execution_context().set`: binds the name in the innermost context only, keeps the depth, the outer contexts and the history, and fails exactly when the stack is empty. |
| `Contexts.Resolve` | interpreter.js:23-30 | Definition: the lookup loop over the contexts, innermost first, returning the first truthy binding or `null`. Its properties are in `Contexts.ResolveFindsFirstTruthy` and the lemmas after it. |
| `Contexts.ResolveFindsFirstTruthy` | interpreter.js:23-30 | Lookup finds a value exactly when some context binds the name truthily; it is the innermost such binding; otherwise it is `null`. |
| `Contexts.ResolveIsABinding` | interpreter.js:23-30 | A value found by lookup is bound to the name in some context. |
| `Contexts.PushThenPop` | interpreter.js:13-21 | A push followed by a pop restores the stack exactly and records one empty context. |
| `Contexts.CurrentShadows` | interpreter.js:23-30 | A truthy binding in the current context shadows every outer one. |
| `Contexts.SetThenResolve` | interpreter.js:23-30 | After a truthy value is bound in the current context, lookup of that name finds it. |
| `Contexts.FalsyBindingIsSkipped` | interpreter.js:26 | A binding to 0 is passed over: lookup answers what the outer contexts say. |
| `Evaluation.Exec` | ast.js:58-190 | Definition: the `execute` method of each node kind as a function on the interpreter state, with fuel for calls. Its properties are in `Evaluation.ExecFrame` and the lemmas that follow. |
| `Evaluation.Invoke` | ast.js:43-55 | Definition: `FunctionObject.execute`, which pushes a context, binds the arguments, runs the body and pops; calling a non-function throws. Its properties are in `Evaluation.InvokeFrame` and `Evaluation.CalleeSeesCallerBindings`. |
| `Evaluation.BindArguments` | ast.js:48-50 | Definition: the argument loop, which runs each argument in the callee's context and binds it to the parameter at its position. Its properties are in `Evaluation.BindFrame`, `Evaluation.BindLiteralArguments` and `Evaluation.LaterArgumentsSeeEarlierParams`. |
| `Evaluation.ExecBody` | ast.js:26-33 | Definition: the body loop, which stops at the first `return` node and gives its value. Its properties are in `Evaluation.BodyFrame` and `Evaluation.ReturnEndsBody`. |
| `Evaluation.ExecStatements` | ast.js:13-15 | Definition: the statement loop of a scope. Its properties are in `Evaluation.StatementsFrame`. |
| `Evaluation.ExecScope` | ast.js:11-17 | Definition: push, the statement loop, then pop. Its properties are in `Evaluation.ScopeRestoresStack`. |
| `Evaluation.Run` | interpreter.js:32-34 | Definition: `run` executes the tree, and a missing tree throws. Its properties are in `Evaluation.RunLeavesStackEmpty`. |
| `Evaluation.ExecFrame` | ast.js:58-190 | Running any node only ever appends to the history. A node that ends normally keeps the stack depth and every context but the current one. |
| `Evaluation.InvokeFrame` | ast.js:43-55 | A call that returns leaves the caller's whole stack exactly as it was. |
| `Evaluation.BindFrame` | ast.js:47-50 | Binding arguments only changes the current context. |
| `Evaluation.BodyFrame` | ast.js:26-33 | A function body pushes and pops nothing of its own. |
| `Evaluation.StatementsFrame` | ast.js:13-15 | The statements of a scope keep the depth and the outer contexts. |
| `Evaluation.ScopeRestoresStack` | ast.js:11-17 | A scope pushes exactly one context and pops it: a run that ends normally restores the stack, and the context recorded last in the history is the scope's own, as its statements left it. |
| `Evaluation.RunLeavesStackEmpty` | interpreter.js:32-34 | A fresh interpreter that runs a program to its end is left with an empty stack. |
| `Evaluation.CallRestoresStack` | ast.js:92-98 | A call expression that returns leaves every context of the caller as it was. |
| `Evaluation.CallOfNonFunctionCrashes` | ast.js:93-97 | Calling anything but a function object, an unbound name included, throws and changes nothing. |
| `Evaluation.VariableDeclarationIsItsInit` | ast.js:107-109 | A declaration has exactly the effect of its initializer, and its value is `undefined`. |
| `Evaluation.FunctionDeclarationBindsCurrent` | ast.js:65-67 | A function declaration binds its name to a function object in the current context only, and throws exactly when there is no context. |
| `Evaluation.AssignmentWritesCurrent` | ast.js:76-83 | An assignment runs its right-hand side first. It then binds the target in the current context, whichever context held the name; the outer contexts are unchanged. |
| `Evaluation.BinaryRunsBothOperands` | ast.js:139-179 | Both operands run, left before right, with no short circuit even for `&&` and `\|\|`. A failure of either is the expression's failure, and the right operand starts from the state the left one left. |
| `Evaluation.LiteralValue` | ast.js:117-119 | A literal of digits runs to the base-10 number it spells and changes nothing. |
| `Evaluation.ReturnEndsBody` | ast.js:26-33 | Statements after a body's first `return` node never run: the body ends as if that node were its last statement. |
| `Evaluation.BindLiteralArguments` | ast.js:47-50 | With literal arguments, binding runs normally and changes only the current context: each parameter holds the argument at its own position (the last one wins when a name repeats), and every other name keeps its old binding or stays unbound. |
| `Evaluation.LaterArgumentsSeeEarlierParams` | ast.js:47-50 | Arguments run inside the callee's context in order: with parameters `a, b` and arguments `n, a`, both parameters end up bound to `n`. |
| `Evaluation.CalleeSeesCallerBindings` | ast.js:43-55 | Scoping is dynamic: a function returning `x` answers what `x` resolves to in the caller's stack. |
| `Interpreting.Interpreter.constructor` | interpreter.js:2-7 | A new interpreter has an empty stack, an empty history and no tree. |
| `Interpreting.Interpreter.CurrentExecutionContext` | interpreter.js:9-11 | `current_execution_context` is the innermost context, and there is none on an empty stack. |
| `Interpreting.Interpreter.AppendNewExecutionContext` | interpreter.js:13-15 | `append_new_execution_context` changes the fields as `Push` does. |
| `Interpreting.Interpreter.PopCurrentExecutionContext` | interpreter.js:17-21 | `pop_current_execution_context` changes the fields as `Pop` does. |
| `Interpreting.Interpreter.SetInCurrent` | ast.js:82 | `set` on the current context succeeds exactly when there is one and then changes the fields as `SetCurrent` does; otherwise nothing changes. |
| `Interpreting.Interpreter.ResolveIdentifier` | interpreter.js:23-30 | The lookup loop returns what `Resolve` gives, the first truthy binding, and changes no field. |
| `Interpreting.Interpreter.Execute` | ast.js:58-190 | `execute` of each node kind ends and leaves the fields as `Exec` says. |
| `Interpreting.Interpreter.ExecuteCall` | ast.js:43-55 | `FunctionObject.execute` ends and leaves the fields as `Invoke` says. |
| `Interpreting.Interpreter.ExecuteArguments` | ast.js:48-50 | The argument loop ends and leaves the fields as `BindArguments` says. |
| `Interpreting.Interpreter.ExecuteFunctionBody` | ast.js:26-33 | `FunctionBody.execute` ends and leaves the fields as `ExecBody` says. |
| `Interpreting.Interpreter.ExecuteScope` | ast.js:11-17 | `ScopeNode.execute` ends and leaves the fields as `ExecScope` says. |
| `Interpreting.Interpreter.Run` | interpreter.js:32-34 | `run` executes the tree once, as `Evaluation.Run` says; a missing tree throws. |
| `Parsing.Cur` | parser.js:25 | Past the last token the current token is EOF, or the lexer's `null` when the stream failed. |
| `Parsing.ParseFactor` | parser.js:207-223 | A seed is returned as it is. Otherwise a number is consumed and becomes a `Value` of its text, an identifier is consumed and becomes an `Identifier` of its name; anything else is `null` and consumes nothing; a `null` token throws. |
| `Parsing.ParseLevel` | parser.js:225-390 | No level moves back or consumes past the end of the stream, and from a seed without a `return` node none builds one. |
| `Parsing.ParseOperand` | parser.js:233 | The right operand of level `k`, the level below without a seed: it stays within the stream and builds no `return` node. Its contents are in `Parsing.OperandShape` and `Parsing.OperandYield`. |
| `Parsing.LevelLoop` | parser.js:228-243 | No level loop moves back or consumes past the end of the stream, and from a left operand without a `return` node none builds one. |
| `Parsing.ParseBinary` | parser.js:392-394 | `parse_binary_expression`, the loosest level with its seed: it stays within the stream and builds no `return` node from a seed without one. Its contents are in `Parsing.BinaryYield` and `Parsing.PrimaryDispatch`. |
| `Parsing.ParsePrimary` | parser.js:404-432 | No primary expression moves back or consumes past the end, and none builds a `return` node. |
| `Parsing.ParseCall` | parser.js:111-115 | A call expression stays within the stream and holds no `return` node. |
| `Parsing.ParseArguments` | parser.js:117-137 | An argument list stays within the stream, and none of its arguments holds a `return` node. |
| `Parsing.ArgumentsLoop` | parser.js:122-136 | An argument list keeps the arguments collected so far, in order, as its prefix, and consumes nothing past the end. |
| `Parsing.ParseAssignment` | parser.js:396-402 | What it builds is an assignment to the given name, with no `return` node in it. |
| `Parsing.ParseVariableDeclaration` | parser.js:56-68 | What it builds is a variable declaration, with no `return` node in it. |
| `Parsing.ParseFunctionBody` | parser.js:434-465 | The statements and declarations of a parsed body hold no `return` node. |
| `Parsing.ParamsLoop` | parser.js:154-172 | The parameter loop stays within the stream. What it collects is in `Parsing.ParamsInOrder`, `Parsing.ParamListParses` and `Parsing.ParamsRejects`. |
| `Parsing.BodyLoop` | parser.js:440-464 | The body loop stays within the stream, and the statements and declarations it builds hold no `return` node. Its lists are in `Parsing.BodyLoopIsConsistent`. |
| `Parsing.ParseFunctionDeclaration` | parser.js:139-178 | What it builds is a function declaration, with no `return` node in it. |
| `Parsing.ParseExpressionStatement` | parser.js:95-109 | An expression statement is a call or an assignment. |
| `Parsing.StatementStep` | parser.js:75-89 | One pass of a statement loop stays within the stream and adds no `return` node. What it files is in `Parsing.StepIsConsistent`. |
| `Parsing.StatementListLoop` | parser.js:73-92 | The program loop stays within the stream, and the lists it builds hold no `return` node. Its lists are in `Parsing.ListLoopIsConsistent`. |
| `Parsing.ParseStatementList` | parser.js:70-93 | The statements and declarations of the program hold no `return` node. |
| `Parsing.Parse` | parser.js:20-93 | The program the parser builds from the text holds no `return` node. |
| `Parsing.LevelOf` | parser.js:4-17 | Every supported operator has a place on the ladder, and the level named there is the operator's. |
| `Parsing.NamesLevelIsLevelOf` | parser.js:231 | A token names level `k` exactly when its operator sits at place `k`. |
| `Parsing.LevelShape` | parser.js:225-390 | What level `k` builds has the ladder's shape from level `k` down: precedence together with left associativity. A seed becomes the leftmost operand. |
| `Parsing.OperandShape` | parser.js:233 | An operand of level `k` holds only operators strictly tighter than `k`. |
| `Parsing.LoopShape` | parser.js:228-243 | The fold keeps the ladder's shape and keeps the first operand leftmost. |
| `Parsing.LevelFoldsIffNamed` | parser.js:229-239 | A level folds the current token exactly when the token's operator names that level; otherwise it returns its operand and consumes nothing. |
| `Parsing.FailedOperandDropsOperator` | parser.js:232-236 | When the right operand fails, the operator is consumed and dropped and the loop goes on with the same left operand. |
| `Parsing.LevelYield` | parser.js:225-390 | Level `k` builds a tree whose numbers, identifiers and operators, read left to right, are the seed's followed by the texts of the tokens it consumed, less the operators it dropped. Without a seed it builds a tree exactly when the first token is a number or an identifier, and otherwise consumes nothing. |
| `Parsing.OperandYield` | parser.js:233 | The same for an operand: a tree exactly when it starts at a number or an identifier, whose texts are those of the kept tokens it consumes. |
| `Parsing.LoopYield` | parser.js:228-243 | The fold appends to its left operand's texts those of the tokens it consumes: each operator it keeps and its right operand, and nothing of an operator whose operand fails. |
| `Parsing.BinaryYield` | parser.js:392-394 | `parse_binary_expression` with a leaf seed builds a tree whose texts are the seed's followed by the kept tokens. |
| `Parsing.PrimaryYield` | parser.js:404-426 | A number or identifier before an operator token becomes a tree whose texts are those of the kept tokens it consumes, starting with it; when no operator is dropped, they are the texts of every token it consumes, in order. |
| `Parsing.KeptTextsAll` | parser.js:225-243 | When no consumed token is dropped, the kept texts are the texts of all the tokens, in order. |
| `Parsing.ScannedLeavesAreNotOperators` | lexer.js:106-129 | No NUMBER or IDENTIFIER token the lexer makes has an operator's text, so the streams it produces meet the condition the yield lemmas ask for. |
| `Parsing.LoopStopsAtEof` | parser.js:229-231 | At the EOF a level's fold returns its left operand. |
| `Parsing.LevelsAboveEof` | parser.js:392-394 | A level whose result ends at the EOF hands it unchanged through every looser level. |
| `Parsing.FoldStep` | parser.js:231-236 | When the current token names the level and the operand parses, the fold goes on with the combined expression after the operand. |
| `Parsing.LoopDeclines` | parser.js:229-239 | When the current token does not name the level, the fold returns its left operand without consuming. |
| `Parsing.NumberFactor` | parser.js:209-213 | A number token as a multiplicative operand becomes a `Value` of its text, and is consumed. |
| `Parsing.NumberOperand` | parser.js:225-226 | A number token as an additive operand becomes the left operand of the multiplicative fold. |
| `Parsing.PrecedenceExample` | parser.js:225-394 | The tokens of `2 + 3 * 4` parse as `2 + (3 * 4)`. |
| `Parsing.ProductOperand` | parser.js:225-242 | In `2 + 3 * 4`, the right operand of `+` is `3 * 4`. |
| `Parsing.AssociativityExample` | parser.js:225-394 | The tokens of `10 - 3 - 2` parse as `(10 - 3) - 2`. |
| `Parsing.BinaryKindsAreOperators` | parser.js:38-54 | The token kinds that `is_binary_op` accepts are exactly those of the supported operators that have a token. |
| `Parsing.DivisionHasNoToken` | parser.js:5-7 | `/` and `%` have no token, so no expression ever holds them. |
| `Parsing.PrimaryDispatch` | parser.js:404-426 | An identifier before `(` is a call of that name. An identifier or number before an operator token is the leftmost operand of a well-shaped binary expression. Otherwise it stands alone. |
| `Parsing.VariableDeclarationShape` | parser.js:56-68 | `var x = e` becomes a declaration of `x` whose initializer assigns `x` the primary expression `e`. Without `=`, the initializer is `null`. |
| `Parsing.StepIsConsistent` | parser.js:75-89 | One pass of a statement loop files exactly its `var` and `fun` entries under the declarations, in the order it adds them to the statements. |
| `Parsing.ListLoopIsConsistent` | parser.js:73-90 | The program loop keeps its declaration list equal to the declaration entries of its statements. |
| `Parsing.DeclarationsOfProgram` | parser.js:70-93 | The program's declaration list is exactly its `var` and `fun` statements, failed ones included, in source order. |
| `Parsing.BodyLoopIsConsistent` | parser.js:440-458 | The same holds of the body loop. |
| `Parsing.DeclarationsOfBody` | parser.js:434-465 | The same holds of every function body. |
| `Parsing.ParamsInOrder` | parser.js:154-172 | The parameter loop accepts only parameter lists: the names it collects are identifiers the tokens spell out, in order, separated by commas. |
| `Parsing.ParamListParses` | parser.js:154-172 | Conversely, the loop collects exactly the names of a parameter list, in order, and stops after its `)`. |
| `Parsing.ParamsRejects` | parser.js:156-163 | A parameter that is not an identifier, or anything but `,` or `)` after a parameter, makes the declaration `null`. |
| `Parsing.ArgumentsReject` | parser.js:126-127 | Anything but `,` or `)` after an argument makes the argument list `null`. |
| `Parsing.Starts` | parser.js:22-29 | One cursor position per token of the stream, and one more for the call that ends it. |
| `Parsing.ScanIsSynced` | parser.js:22-29 | Calling `next` from the cursor before each token yields that token and the cursor before the following one; past the last it yields the stream's end. |
| `Parsing.ScanIsForward` | lexer.js:106-128 | The tokens of a scan are never EOF and start at strictly increasing positions. |
| `Parsing.CurrentTokenMoves` | parser.js:73-90 | Different positions of such a stream hold different current tokens, so a pass has consumed something exactly when `current` changed. |
| `ParserObject.Parser.constructor` | parser.js:20-23 | The parser over an input holds a fresh lexer, at position 0 of the stream the lexer yields, with the first token current. |
| `ParserObject.Parser.Consume` | parser.js:26-29 | `consume` makes the next token of the stream current and keeps the lexer in step. |
| `ParserObject.Parser.ParseFactor` | parser.js:207-223 | `parse_factor` on the object returns, throws and consumes as `ParseFactor` says. |
| `ParserObject.Parser.ParseLevel` | parser.js:225-390 | Each `parse_<level>_expression` returns, throws and consumes as `ParseLevel` says. |
| `ParserObject.Parser.ParseLevelLoop` | parser.js:228-243 | The `while(true)` fold of a level returns, throws and consumes as `LevelLoop` says. |
| `ParserObject.Parser.ParseOperand` | parser.js:233 | The right operand of a level is parsed as `ParseOperand` says. |
| `ParserObject.Parser.ParseBinary` | parser.js:392-394 | `parse_binary_expression` is the loosest level with its seed. |
| `ParserObject.Parser.ParsePrimary` | parser.js:404-432 | `parse_primary_expression` returns, throws and consumes as `ParsePrimary` says. |
| `ParserObject.Parser.ParseCall` | parser.js:111-115 | `parse_call_expression` yields a call of the name with the argument list, as `ParseCall` says. |
| `ParserObject.Parser.ParseArguments` | parser.js:117-137 | `parse_arguments` returns, throws and consumes as `ParseArguments` says. |
| `ParserObject.Parser.ParseArgumentList` | parser.js:122-136 | The argument loop returns, throws and consumes as `ArgumentsLoop` says. |
| `ParserObject.Parser.ParseAssignment` | parser.js:396-402 | `parse_assignment_expression` returns, throws and consumes as `ParseAssignment` says. |
| `ParserObject.Parser.ParseVariableDeclaration` | parser.js:56-68 | `parse_variable_declaration` returns, throws and consumes as `ParseVariableDeclaration` says. |
| `ParserObject.Parser.ParseFunctionDeclaration` | parser.js:139-178 | `parse_function_declaration` returns, throws, loops and consumes as `ParseFunctionDeclaration` says. |
| `ParserObject.Parser.ParseParameters` | parser.js:154-172 | The parameter loop collects names as `ParamsLoop` says. |
| `ParserObject.Parser.ParseFunctionBody` | parser.js:434-465 | `parse_function_body` returns, throws, loops and consumes as `ParseFunctionBody` says. It reports the loop as soon as a pass consumes nothing. |
| `ParserObject.Parser.ParseStatementStep` | parser.js:75-89 | One pass of a statement loop adds to the lists and consumes as `StatementStep` says. |
| `ParserObject.Parser.ParseExpressionStatement` | parser.js:95-109 | `parse_expression_statement` returns, throws and consumes as `ParseExpressionStatement` says. |
| `ParserObject.Parser.ParseStatementList` | parser.js:70-93 | `parse_statement_list` returns, throws, loops and consumes as `StatementListLoop` says. It reports the loop as soon as a pass consumes nothing. |
| `ParserObject.ParseProgram` | parser.js:20-93 | A new parser's `parse_statement_list` returns the tree `Parse` gives, throws exactly when `Parse` crashes, and reports the loop exactly when `Parse` diverges. |

## Left out

- `index.js`: reading the file named on the command line, exiting, and printing the input and the final state. This is I/O.
- `NativeFunction` (ast.js:192-205): it only prints, and nothing ever binds it.
- The empty `AST` class (ast.js:1-3) and the grammar comments (parser.js:180-206, 468-497) hold no behaviour.
- The `is_*` predicates of the parser and the lexer are modelled as predicates without contracts. The parse functions and methods use them directly.
- `/` and `%` (ast.js:146-150): the model gives `NotModelled`. No token produces them, and their results are fractions.
- `+` with a function object (ast.js:153): the model gives `NotModelled`. JavaScript would concatenate strings.
- Numbers are unbounded integers. The model of `+`, `-` and `*` assumes no result leaves the range in which double-precision numbers are exact (2^53).
- `parseInt` is modelled for the texts a `Value` can hold: a digit string, or the NaN text of the boolean/null branch. Leading blanks and signs are not modelled.
- An argument past the last parameter is run, but the model does not record the binding `ast.js` makes under the key `undefined`. No name lookup can reach that key.
- Evaluation carries fuel, which bounds the depth of nested calls. Since the JavaScript code has no such bound, `OutOfFuel` stands in for a stack overflow.
- Where the statement loops of `parser.js` would spin forever, the parser object's methods stop and report `Looped`.
- The eight `parse_<level>_expression` methods are one method `ParseLevel`, with the level `k` as a parameter. Each level's `while(true)` fold is its own method, `ParseLevelLoop`.
- The parameter loop of `parse_function_declaration` is its own method, `ParseParameters`, and the argument loop of `parse_arguments` is `ParseArgumentList`.
- The statement pass shared by `parse_statement_list` and `parse_function_body` is one method, `ParseStatementStep`.
- The `execute` methods of the node classes are methods of the `Interpreter` class, since they only change the interpreter's fields.
- The operator table is a map, and the lookup of the specification functions is the character match `TokenKind`, proved equal to it.
- `Lexer.NextToken`: models the corrected table lookup, in which a token's length is the length of its text, so the cursor stops at the end of the input. What `next` does as written is `Lexer.NextTokenAsWritten`. The parser cannot tell the two apart, by `Lexer.AsWrittenStreamAgrees`.
- `Lexer.LookupToken`: the three lookups of the corrected `next`, not of the code as written (see `Lexer.NextToken`).
- `Lexer.Scan`: the stream of the corrected `next`; the stream as written is `Lexer.ScanAsWritten`, with the same kinds, texts and ending.
- `Lexer.Lexer.ConsumeTableToken`: the corrected `consume_*_token`, which moves the cursor by the length of the text found, not by the full width.
- `Lexer.Lexer.ConsumeLookup`: the three corrected lookups in sequence.
- `Lexer.Lexer.Next`: the corrected `next`. Its class invariant `Valid` keeps the cursor within the input, which the code as written breaks.
- `Parsing.ArgumentsLoop`: states only that collected arguments stay in order as a prefix of the result. It gives no full characterisation of argument lists like the one `ParamList` gives of parameters.

## Findings

| source | as written | input that shows it | evidently intended | confidence | as-written member | corrected member |
|---|---|---|---|---|---|---|
| lexer.js:54-85 | Each table lookup gives its token the full width as its length and moves the cursor by that width, even when `slice` was cut short by the end of the input. Since the table has two-character operators and no three-character ones, only the three-character lookup can succeed on a cut-short slice: it does so when what is left after the blanks is an operator of one or two characters. | The input `)`: the three-character lookup slices `)`, finds it in the table, and returns a token of length 3, leaving the cursor at 3 in a one-character text. | A token's length is the length of its text, and the cursor stops right after it. | not executed | `Lexer.AsWrittenOvershoots` | `Lexer.TableToken` |
