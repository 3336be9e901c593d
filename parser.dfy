/** The parser: recursive descent over the token stream, one token of lookahead. The
    functions here say what each parse step yields from the stream and a position in it;
    the `Parser` class at the end is the object of `parser.js`, which pulls tokens from
    the lexer one at a time, and its methods are proved to do what these functions say. */
module Parsing {
  import opened Wrappers
  import opened Lexer
  import opened Ast

  /** Operator text to precedence level. */
  const SUPPORTED_OP: map<string, string> := map[
    "*" := "MULTIPLICATIVE",
    "/" := "MULTIPLICATIVE",
    "%" := "MULTIPLICATIVE",
    "+" := "ADDITIVE",
    "-" := "ADDITIVE",
    "<<" := "BITWISE_SHIFT",
    ">>" := "BITWISE_SHIFT",
    "&" := "BITWISE_AND",
    "^" := "BITWISE_XOR",
    "|" := "BITWISE_OR",
    "&&" := "LOGICAL_AND",
    "||" := "LOGICAL_OR"
  ]

  /** The precedence ladder as the code climbs it, tightest first: each level takes its
      operands from the level before it. `|` sits below `^`. */
  const LEVELS: seq<string> := [
    "MULTIPLICATIVE", "ADDITIVE", "BITWISE_SHIFT", "BITWISE_AND",
    "BITWISE_OR", "BITWISE_XOR", "LOGICAL_AND", "LOGICAL_OR"
  ]

  const TOP: nat := 7

  /** The token kinds after which a primary expression continues as a binary expression.
      There is no token for `/` or `%`. */
  const BINARY_OP_KINDS: set<string> := {
    "PLUS", "MINES", "STAR", "BITWISE_AND", "BITWISE_OR", "BITWISE_XOR",
    "SHIFT_LEFT", "SHIFT_RIGHT", "LOGICAL_OR", "LOGICAL_AND"
  }

  /** The result of a parse step: the value built and the position after it; the
      `TypeError` of reading the kind of the lexer's `null`; or a loop of `parser.js`
      that goes round without consuming anything, and so never ends. */
  datatype PResult<T> = Parsed(value: T, next: nat) | Crashed | Diverged

  /** What one pass of a statement loop adds to the statement and declaration lists. */
  datatype Lists = Lists(statements: seq<Option<Node>>, declarations: seq<Option<Node>>)

  /** The current token at position `i`: past the last token the lexer keeps answering EOF,
      or its `null` if it stopped at a character nothing matches. */
  function Cur(s: Stream, i: nat): (t: Option<Token>)
    ensures i >= |s.toks| ==> (t.Some? <==> s.end.AtEof?)
    ensures i >= |s.toks| && t.Some? ==> t.value.kind == "EOF" && t.value.value == ""
  {
    if i < |s.toks| then Some(s.toks[i])
    else match s.end
      case AtEof(p) => Some(EofToken(p))
      case Invalid => None
  }

  /** The current token is there and has kind `kind`. */
  predicate KindIs(s: Stream, i: nat, kind: string)
  {
    Cur(s, i).Some? && Cur(s, i).value.kind == kind
  }

  /** The current token is the keyword `word`. */
  predicate KeywordIs(s: Stream, i: nat, word: string)
  {
    KindIs(s, i, "KEYWORD") && Cur(s, i).value.value == word
  }

  /** A token the parser consumes is never the EOF the stream ends with. */
  lemma ConsumedIsAToken(s: Stream, i: nat, kind: string)
    requires KindIs(s, i, kind) && kind != "EOF"
    ensures i < |s.toks|
  {
  }

  /** A child the parser stores: missing, or free of `ReturnExpression`. */
  predicate Clean(o: Option<Node>)
  {
    o.None? || NoReturn(o.value)
  }

  predicate AllClean(items: seq<Option<Node>>)
  {
    forall k :: 0 <= k < |items| ==> Clean(items[k])
  }

  predicate ListsClean(l: Lists)
  {
    AllClean(l.statements) && AllClean(l.declarations)
  }

  /** The level a token names, when it names one. */
  predicate NamesLevel(t: Token, k: nat)
    requires k <= TOP
  {
    t.value in SUPPORTED_OP && SUPPORTED_OP[t.value] == LEVELS[k]
  }

  // ----- The precedence ladder -----

  /** `parse_factor`: the seed if there is one, else a number or an identifier. */
  function ParseFactor(s: Stream, i: nat, seed: Option<Node>): (r: PResult<Option<Node>>)
    requires i <= |s.toks|
    ensures r.Parsed? ==> i <= r.next <= |s.toks|
    ensures seed.Some? ==> r == Parsed(seed, i)
    ensures seed.None? ==> (r.Crashed? <==> Cur(s, i).None?)
    ensures seed.None? && r.Parsed? && r.value.Some? ==>
              r.next == i + 1 && (KindIs(s, i, "NUMBER") || KindIs(s, i, "IDENTIFIER"))
    ensures seed.None? && r.Parsed? && r.value.Some? ==>
              r.value.value == if KindIs(s, i, "NUMBER") then Value(s.toks[i].value) else Identifier(s.toks[i].value)
    ensures seed.None? && r.Parsed? && r.value.None? ==> r.next == i
    ensures Clean(seed) && r.Parsed? ==> Clean(r.value)
  {
    if seed.Some? then Parsed(seed, i)
    else if Cur(s, i).None? then Crashed
    else if KindIs(s, i, "NUMBER") then Parsed(Some(Value(s.toks[i].value)), i + 1)
    else if KindIs(s, i, "IDENTIFIER") then Parsed(Some(Identifier(s.toks[i].value)), i + 1)
    else Parsed(None, i)
  }

  /** `parse_<level>_expression(seed)` for the level `k` of the ladder: the operand the
      level below yields, then the level's own loop. */
  function ParseLevel(s: Stream, i: nat, k: nat, seed: Option<Node>): (r: PResult<Option<Node>>)
    requires i <= |s.toks| && k <= TOP
    ensures r.Parsed? ==> i <= r.next <= |s.toks|
    ensures Clean(seed) && r.Parsed? ==> Clean(r.value)
    decreases |s.toks| - i, k, 2
  {
    var lhs := if k == 0 then ParseFactor(s, i, seed) else ParseLevel(s, i, k - 1, seed);
    match lhs
    case Parsed(l, j) => LevelLoop(s, j, k, l)
    case Crashed => Crashed
    case Diverged => Diverged
  }

  /** An operand of level `k`: the level below, without a seed. */
  function ParseOperand(s: Stream, i: nat, k: nat): (r: PResult<Option<Node>>)
    requires i <= |s.toks| && k <= TOP
    ensures r.Parsed? ==> i <= r.next <= |s.toks|
    ensures r.Parsed? ==> Clean(r.value)
    decreases |s.toks| - i, k, 0
  {
    if k == 0 then ParseFactor(s, i, None) else ParseLevel(s, i, k - 1, None)
  }

  /** The `while(true)` loop of level `k` with left operand `lhs`: while the token names
      level `k`, it is consumed and the next operand parsed; when that operand fails the
      operator is dropped and `lhs` kept. */
  function LevelLoop(s: Stream, i: nat, k: nat, lhs: Option<Node>): (r: PResult<Option<Node>>)
    requires i <= |s.toks| && k <= TOP
    ensures r.Parsed? ==> i <= r.next <= |s.toks|
    ensures Clean(lhs) && r.Parsed? ==> Clean(r.value)
    decreases |s.toks| - i, k, 1
  {
    if lhs.None? then Parsed(None, i)
    else if Cur(s, i).None? || !NamesLevel(Cur(s, i).value, k) then Parsed(lhs, i)
    else
      var op := s.toks[i].value;
      match ParseOperand(s, i + 1, k)
      case Parsed(rhs, j) =>
        if rhs.None? then LevelLoop(s, j, k, lhs)
        else LevelLoop(s, j, k, Some(BinaryExpression(op, lhs.value, rhs.value)))
      case Crashed => Crashed
      case Diverged => Diverged
  }

  /** `parse_binary_expression(first_item)`: the whole ladder, seeded. */
  function ParseBinary(s: Stream, i: nat, seed: Option<Node>): (r: PResult<Option<Node>>)
    requires i <= |s.toks|
    ensures r.Parsed? ==> i <= r.next <= |s.toks|
    ensures Clean(seed) && r.Parsed? ==> Clean(r.value)
  {
    ParseLevel(s, i, TOP, seed)
  }

  // ----- Primary expressions, calls and arguments -----

  /** `parse_primary_expression`: an identifier (a call when `(` follows, the left operand
      of a binary expression when an operator follows), a number (alike, without the
      call), or a boolean or `null`, which `parser.js` turns into a literal NaN without
      consuming the token. Anything else gives nothing. */
  function ParsePrimary(s: Stream, i: nat): (r: PResult<Option<Node>>)
    requires i <= |s.toks|
    ensures r.Parsed? ==> i <= r.next <= |s.toks|
    ensures r.Parsed? ==> Clean(r.value)
    decreases |s.toks| - i, 2
  {
    if Cur(s, i).None? then Crashed
    else if KindIs(s, i, "IDENTIFIER") then
      var id := s.toks[i].value;
      if Cur(s, i + 1).None? then Crashed
      else if KindIs(s, i + 1, "OPEN_PARENT_BRACKET") then ParseCall(s, i + 1, id)
      else if Cur(s, i + 1).value.kind in BINARY_OP_KINDS then ParseBinary(s, i + 1, Some(Identifier(id)))
      else Parsed(Some(Identifier(id)), i + 1)
    else if KindIs(s, i, "NUMBER") then
      var text := s.toks[i].value;
      if Cur(s, i + 1).None? then Crashed
      else if Cur(s, i + 1).value.kind in BINARY_OP_KINDS then ParseBinary(s, i + 1, Some(Value(text)))
      else Parsed(Some(Value(text)), i + 1)
    else if KeywordIs(s, i, "true") || KeywordIs(s, i, "false") || KeywordIs(s, i, "null") then
      Parsed(Some(Value("NaN")), i)
    else
      Parsed(None, i)
  }

  /** `parse_call_expression(identifier)`: a call node, whatever the arguments gave. */
  function ParseCall(s: Stream, i: nat, id: string): (r: PResult<Option<Node>>)
    requires i <= |s.toks|
    ensures r.Parsed? ==> i <= r.next <= |s.toks|
    ensures r.Parsed? ==> Clean(r.value)
    decreases |s.toks| - i, 1
  {
    match ParseArguments(s, i)
    case Parsed(args, j) => Parsed(Some(CallExpression(id, args)), j)
    case Crashed => Crashed
    case Diverged => Diverged
  }

  /** `parse_arguments`: `(`, then primaries separated by commas, then `)`. */
  function ParseArguments(s: Stream, i: nat): (r: PResult<Option<Arguments>>)
    requires i <= |s.toks|
    ensures r.Parsed? ==> i <= r.next <= |s.toks|
    ensures r.Parsed? && r.value.Some? ==> AllClean(r.value.value.items)
    decreases |s.toks| - i, 0
  {
    if Cur(s, i).None? then Crashed
    else if !KindIs(s, i, "OPEN_PARENT_BRACKET") then Parsed(None, i)
    else ArgumentsLoop(s, i + 1, [])
  }

  /** The loop of `parse_arguments` with the arguments collected so far. */
  function ArgumentsLoop(s: Stream, i: nat, items: seq<Option<Node>>): (r: PResult<Option<Arguments>>)
    requires i <= |s.toks|
    ensures r.Parsed? ==> i <= r.next <= |s.toks|
    ensures r.Parsed? && r.value.Some? ==> items <= r.value.value.items
    ensures AllClean(items) && r.Parsed? && r.value.Some? ==> AllClean(r.value.value.items)
    decreases |s.toks| - i, 3
  {
    if Cur(s, i).None? then Crashed
    else if KindIs(s, i, "CLOSE_PARENT_BRACKET") then Parsed(Some(Arguments(items)), i + 1)
    else
      match ParsePrimary(s, i)
      case Parsed(arg, j) =>
        var items' := items + [arg];
        if Cur(s, j).None? then Crashed
        else if KindIs(s, j, "COMMA") then ArgumentsLoop(s, j + 1, items')
        else if KindIs(s, j, "CLOSE_PARENT_BRACKET") then Parsed(Some(Arguments(items')), j + 1)
        else Parsed(None, j)
      case Crashed => Crashed
      case Diverged => Diverged
  }

  /** `parse_assignment_expression(identifier)`: `=` and a primary expression. */
  function ParseAssignment(s: Stream, i: nat, id: string): (r: PResult<Option<Node>>)
    requires i <= |s.toks|
    ensures r.Parsed? ==> i <= r.next <= |s.toks|
    ensures r.Parsed? && r.value.Some? ==> r.value.value.AssignmentExpression? && r.value.value.target == id
    ensures r.Parsed? ==> Clean(r.value)
  {
    if Cur(s, i).None? then Crashed
    else if !KindIs(s, i, "EQUAL") then Parsed(None, i)
    else
      match ParsePrimary(s, i + 1)
      case Parsed(rhs, j) => Parsed(Some(AssignmentExpression(id, rhs)), j)
      case Crashed => Crashed
      case Diverged => Diverged
  }

  // ----- Statements -----

  /** `parse_variable_declaration`: `var`, an identifier, and the assignment that may
      follow. */
  function ParseVariableDeclaration(s: Stream, i: nat): (r: PResult<Option<Node>>)
    requires i <= |s.toks|
    ensures r.Parsed? ==> i <= r.next <= |s.toks|
    ensures r.Parsed? && r.value.Some? ==> r.value.value.VariableDeclaration?
    ensures r.Parsed? ==> Clean(r.value)
  {
    if Cur(s, i).None? then Crashed
    else if !KeywordIs(s, i, "var") then Parsed(None, i)
    else if Cur(s, i + 1).None? then Crashed
    else if !KindIs(s, i + 1, "IDENTIFIER") then Parsed(None, i + 1)
    else
      var id := s.toks[i + 1].value;
      match ParseAssignment(s, i + 2, id)
      case Parsed(init, j) => Parsed(Some(VariableDeclaration(id, init)), j)
      case Crashed => Crashed
      case Diverged => Diverged
  }

  /** The parameter loop of `parse_function_declaration`, with the names collected so far. */
  function ParamsLoop(s: Stream, i: nat, names: seq<string>): (r: PResult<Option<seq<string>>>)
    requires i <= |s.toks|
    ensures r.Parsed? ==> i <= r.next <= |s.toks|
    decreases |s.toks| - i
  {
    if Cur(s, i).None? then Crashed
    else if KindIs(s, i, "CLOSE_PARENT_BRACKET") then Parsed(Some(names), i + 1)
    else if !KindIs(s, i, "IDENTIFIER") then Parsed(None, i)
    else
      var names' := names + [s.toks[i].value];
      if Cur(s, i + 1).None? then Crashed
      else if KindIs(s, i + 1, "COMMA") then ParamsLoop(s, i + 2, names')
      else if KindIs(s, i + 1, "CLOSE_PARENT_BRACKET") then Parsed(Some(names'), i + 2)
      else Parsed(None, i + 1)
  }

  /** `parse_function_declaration`: `fun`, a name, a parameter list and a body. */
  function ParseFunctionDeclaration(s: Stream, i: nat): (r: PResult<Option<Node>>)
    requires i <= |s.toks|
    ensures r.Parsed? ==> i <= r.next <= |s.toks|
    ensures r.Parsed? && r.value.Some? ==> r.value.value.FunctionDeclaration?
    ensures r.Parsed? ==> Clean(r.value)
    decreases |s.toks| - i, 0
  {
    if Cur(s, i).None? then Crashed
    else if !KeywordIs(s, i, "fun") then Parsed(None, i)
    else if Cur(s, i + 1).None? then Crashed
    else if !KindIs(s, i + 1, "IDENTIFIER") then Parsed(None, i + 1)
    else
      var name := s.toks[i + 1].value;
      if Cur(s, i + 2).None? then Crashed
      else if !KindIs(s, i + 2, "OPEN_PARENT_BRACKET") then Parsed(None, i + 2)
      else
        match ParamsLoop(s, i + 3, [])
        case Parsed(params, j) =>
          if params.None? then Parsed(None, j)
          else
            (match ParseFunctionBody(s, j)
             case Parsed(body, k) => Parsed(Some(FunctionDeclaration(name, params.value, body)), k)
             case Crashed => Crashed
             case Diverged => Diverged)
        case Crashed => Crashed
        case Diverged => Diverged
  }

  /** `parse_function_body`: `{`, statements, `}`. */
  function ParseFunctionBody(s: Stream, i: nat): (r: PResult<Option<FunctionBody>>)
    requires i <= |s.toks|
    ensures r.Parsed? ==> i <= r.next <= |s.toks|
    ensures r.Parsed? && r.value.Some? ==> AllClean(r.value.value.statements) && AllClean(r.value.value.declaration)
    decreases |s.toks| - i, 0
  {
    if Cur(s, i).None? then Crashed
    else if !KindIs(s, i, "OPEN_CURLY_BRACKET") then Parsed(None, i)
    else BodyLoop(s, i + 1, Lists([], []))
  }

  /** The loop of `parse_function_body`: statements until `}`. */
  function BodyLoop(s: Stream, i: nat, acc: Lists): (r: PResult<Option<FunctionBody>>)
    requires i <= |s.toks|
    ensures r.Parsed? ==> i <= r.next <= |s.toks|
    ensures ListsClean(acc) && r.Parsed? && r.value.Some? ==> AllClean(r.value.value.statements) && AllClean(r.value.value.declaration)
    decreases |s.toks| - i, 2
  {
    if Cur(s, i).None? then Crashed
    else if KindIs(s, i, "CLOSE_CURLY_BRACKET") then
      Parsed(Some(FunctionBody(acc.declarations, acc.statements)), i + 1)
    else
      match StatementStep(s, i)
      case Parsed(step, j) =>
        if j == i then Diverged
        else BodyLoop(s, j, Lists(acc.statements + step.statements, acc.declarations + step.declarations))
      case Crashed => Crashed
      case Diverged => Diverged
  }

  /** One pass of a statement loop: a variable declaration if the token is `var`, then a
      function declaration if the token is then `fun`, then an expression statement. Each
      declaration goes to both lists, failed or not; the expression only when it parsed. */
  function StatementStep(s: Stream, i: nat): (r: PResult<Lists>)
    requires i <= |s.toks|
    ensures r.Parsed? ==> i <= r.next <= |s.toks|
    ensures r.Parsed? ==> ListsClean(r.value)
    decreases |s.toks| - i, 1
  {
    if Cur(s, i).None? then Crashed
    else
      var v := if KeywordIs(s, i, "var") then ParseVariableDeclaration(s, i) else Parsed(None, i);
      match v
      case Parsed(varDecl, j) =>
        var afterVar := if KeywordIs(s, i, "var") then Lists([varDecl], [varDecl]) else Lists([], []);
        if Cur(s, j).None? then Crashed
        else
          var f := if KeywordIs(s, j, "fun") then ParseFunctionDeclaration(s, j) else Parsed(None, j);
          (match f
           case Parsed(funDecl, k) =>
             var afterFun :=
               if KeywordIs(s, j, "fun") then Lists(afterVar.statements + [funDecl], afterVar.declarations + [funDecl])
               else afterVar;
             (match ParseExpressionStatement(s, k)
              case Parsed(expr, m) =>
                Parsed(if expr.Some? then Lists(afterFun.statements + [expr], afterFun.declarations) else afterFun, m)
              case Crashed => Crashed
              case Diverged => Diverged)
           case Crashed => Crashed
           case Diverged => Diverged)
      case Crashed => Crashed
      case Diverged => Diverged
  }

  /** `parse_expression_statement`: an identifier, then a call or an assignment. */
  function ParseExpressionStatement(s: Stream, i: nat): (r: PResult<Option<Node>>)
    requires i <= |s.toks|
    ensures r.Parsed? ==> i <= r.next <= |s.toks|
    ensures r.Parsed? && r.value.Some? ==> r.value.value.CallExpression? || r.value.value.AssignmentExpression?
    ensures r.Parsed? ==> Clean(r.value)
  {
    if Cur(s, i).None? then Crashed
    else if !KindIs(s, i, "IDENTIFIER") then Parsed(None, i)
    else
      var id := s.toks[i].value;
      if Cur(s, i + 1).None? then Crashed
      else if KindIs(s, i + 1, "OPEN_PARENT_BRACKET") then ParseCall(s, i + 1, id)
      else if KindIs(s, i + 1, "EQUAL") then ParseAssignment(s, i + 1, id)
      else Parsed(None, i + 1)
  }

  /** The loop of `parse_statement_list`: statements until EOF. */
  function StatementListLoop(s: Stream, i: nat, acc: Lists): (r: PResult<ScopeNode>)
    requires i <= |s.toks|
    ensures r.Parsed? ==> i <= r.next <= |s.toks|
    ensures ListsClean(acc) && r.Parsed? ==> AllClean(r.value.statements) && AllClean(r.value.declaration)
    decreases |s.toks| - i
  {
    if Cur(s, i).None? then Crashed
    else if KindIs(s, i, "EOF") then Parsed(ScopeNode(acc.declarations, acc.statements), i)
    else
      match StatementStep(s, i)
      case Parsed(step, j) =>
        if j == i then Diverged
        else StatementListLoop(s, j, Lists(acc.statements + step.statements, acc.declarations + step.declarations))
      case Crashed => Crashed
      case Diverged => Diverged
  }

  /** `parse_statement_list` from the first token. */
  function ParseStatementList(s: Stream): (r: PResult<ScopeNode>)
    ensures r.Parsed? ==> AllClean(r.value.statements) && AllClean(r.value.declaration)
  {
    StatementListLoop(s, 0, Lists([], []))
  }

  /** The whole front end: the program text to its tree, which holds no
      `ReturnExpression`. */
  function Parse(input: string): (r: PResult<ScopeNode>)
    ensures r.Parsed? ==> AllClean(r.value.statements) && AllClean(r.value.declaration)
  {
    ParseStatementList(Scan(input, 0))
  }

  // ----- The shape of binary expressions -----

  /** The position on the ladder of an operator's level, 0 the tightest. */
  function LevelOf(op: string): (k: nat)
    requires op in SUPPORTED_OP
    ensures k <= TOP && LEVELS[k] == SUPPORTED_OP[op]
  {
    var name := SUPPORTED_OP[op];
    if name == "MULTIPLICATIVE" then 0
    else if name == "ADDITIVE" then 1
    else if name == "BITWISE_SHIFT" then 2
    else if name == "BITWISE_AND" then 3
    else if name == "BITWISE_OR" then 4
    else if name == "BITWISE_XOR" then 5
    else if name == "LOGICAL_AND" then 6
    else 7
  }

  /** A token names level `k` exactly when its operator sits at position `k`. */
  lemma NamesLevelIsLevelOf(t: Token, k: nat)
    requires k <= TOP
    ensures NamesLevel(t, k) <==> t.value in SUPPORTED_OP && LevelOf(t.value) == k
  {
  }

  predicate Leaf(n: Node)
  {
    n.Value? || n.Identifier?
  }

  /** `n` is what the ladder builds from level `k` down: numbers and identifiers joined by
      operators of level at most `k`, where the left operand of an operator holds operators
      no looser than it and the right operand only strictly tighter ones. This is
      precedence together with left associativity. */
  predicate Shaped(n: Node, k: int)
  {
    match n
    case BinaryExpression(op, l, r) =>
      op in SUPPORTED_OP && LevelOf(op) <= k && Shaped(l, LevelOf(op)) && Shaped(r, LevelOf(op) - 1)
    case _ => Leaf(n)
  }

  /** The leftmost operand of a binary expression. */
  function Leftmost(n: Node): Node
  {
    if n.BinaryExpression? then Leftmost(n.left) else n
  }

  lemma {:induction false} ShapedWeakens(n: Node, k: int, k': int)
    requires Shaped(n, k) && k <= k'
    ensures Shaped(n, k')
  {
  }

  predicate LeafOrNone(seed: Option<Node>)
  {
    seed.None? || Leaf(seed.value)
  }

  /** What level `k` of the ladder builds is shaped for level `k`; a seed is its leftmost
      operand. */
  lemma {:induction false} LevelShape(s: Stream, i: nat, k: nat, seed: Option<Node>)
    requires i <= |s.toks| && k <= TOP && LeafOrNone(seed)
    ensures var r := ParseLevel(s, i, k, seed);
            r.Parsed? && r.value.Some? ==> Shaped(r.value.value, k)
    ensures var r := ParseLevel(s, i, k, seed);
            seed.Some? && r.Parsed? ==> r.value.Some? && Leftmost(r.value.value) == seed.value
    decreases |s.toks| - i, k, 2
  {
    var lhs := if k == 0 then ParseFactor(s, i, seed) else ParseLevel(s, i, k - 1, seed);
    if k > 0 {
      LevelShape(s, i, k - 1, seed);
    }
    if lhs.Parsed? {
      if lhs.value.Some? {
        ShapedWeakens(lhs.value.value, k - 1, k);
      }
      LoopShape(s, lhs.next, k, lhs.value);
    }
  }

  lemma {:induction false} OperandShape(s: Stream, i: nat, k: nat)
    requires i <= |s.toks| && k <= TOP
    ensures var r := ParseOperand(s, i, k);
            r.Parsed? && r.value.Some? ==> Shaped(r.value.value, k - 1)
    decreases |s.toks| - i, k, 0
  {
    if k > 0 {
      LevelShape(s, i, k - 1, None);
    }
  }

  lemma {:induction false} LoopShape(s: Stream, i: nat, k: nat, lhs: Option<Node>)
    requires i <= |s.toks| && k <= TOP
    requires lhs.Some? ==> Shaped(lhs.value, k)
    ensures var r := LevelLoop(s, i, k, lhs);
            r.Parsed? && r.value.Some? ==> Shaped(r.value.value, k)
    ensures var r := LevelLoop(s, i, k, lhs);
            lhs.Some? && r.Parsed? ==> r.value.Some? && Leftmost(r.value.value) == Leftmost(lhs.value)
    decreases |s.toks| - i, k, 1
  {
    if lhs.Some? && Cur(s, i).Some? && NamesLevel(Cur(s, i).value, k) {
      var op := s.toks[i].value;
      OperandShape(s, i + 1, k);
      match ParseOperand(s, i + 1, k)
      case Parsed(rhs, j) =>
        if rhs.None? {
          LoopShape(s, j, k, lhs);
        } else {
          NamesLevelIsLevelOf(s.toks[i], k);
          LoopShape(s, j, k, Some(BinaryExpression(op, lhs.value, rhs.value)));
        }
      case Crashed =>
      case Diverged =>
    }
  }

  /** A level folds the current token exactly when the token names that level; otherwise
      it hands its left operand back without consuming anything. */
  lemma LevelFoldsIffNamed(s: Stream, i: nat, k: nat, lhs: Node)
    requires i <= |s.toks| && k <= TOP
    ensures LevelLoop(s, i, k, Some(lhs)) == Parsed(Some(lhs), i) <==>
              !(Cur(s, i).Some? && NamesLevel(Cur(s, i).value, k))
  {
  }

  /** When the right operand of an operator fails, the operator is consumed and dropped and
      the loop goes on with the same left operand. */
  lemma FailedOperandDropsOperator(s: Stream, i: nat, k: nat, lhs: Node)
    requires i <= |s.toks| && k <= TOP
    requires Cur(s, i).Some? && NamesLevel(Cur(s, i).value, k)
    requires ParseOperand(s, i + 1, k).Parsed? && ParseOperand(s, i + 1, k).value.None?
    ensures LevelLoop(s, i, k, Some(lhs)) == LevelLoop(s, ParseOperand(s, i + 1, k).next, k, Some(lhs))
  {
  }

  // ----- What the ladder keeps of the tokens -----

  /** The texts of a tree's numbers, identifiers and operators, left to right. */
  function Yield(n: Node): seq<string>
  {
    match n
    case Value(t) => [t]
    case Identifier(x) => [x]
    case BinaryExpression(op, l, r) => Yield(l) + [op] + Yield(r)
    case _ => []
  }

  function SeedYield(seed: Option<Node>): seq<string>
  {
    if seed.Some? then Yield(seed.value) else []
  }

  /** The token is one `parse_factor` turns into a node. */
  predicate IsLeafKind(s: Stream, p: nat)
  {
    KindIs(s, p, "NUMBER") || KindIs(s, p, "IDENTIFIER")
  }

  /** No number or identifier token carries an operator's text, as no token the lexer
      makes does. */
  predicate LeavesAreNotOperators(s: Stream)
  {
    forall p :: 0 <= p < |s.toks| && (s.toks[p].kind == "NUMBER" || s.toks[p].kind == "IDENTIFIER") ==>
      s.toks[p].value !in SUPPORTED_OP
  }

  /** Every operator's text starts with a punctuation character. */
  lemma OperatorsArePunctuation(v: string)
    requires v in SUPPORTED_OP
    ensures |v| > 0 && PunctuationChar(v[0])
  {
  }

  /** The streams the lexer produces meet `LeavesAreNotOperators`. */
  lemma ScannedLeavesAreNotOperators(input: string, pos: nat)
    ensures LeavesAreNotOperators(Scan(input, pos))
  {
    var s := Scan(input, pos);
    ScanWordText(input, pos);
    forall p | 0 <= p < |s.toks| && (s.toks[p].kind == "NUMBER" || s.toks[p].kind == "IDENTIFIER")
      ensures s.toks[p].value !in SUPPORTED_OP
    {
      if s.toks[p].value in SUPPORTED_OP {
        OperatorsArePunctuation(s.toks[p].value);
      }
    }
  }

  /** A consumed token the tree keeps: a number or an identifier, or an operator whose
      right operand starts with one. An operator followed by anything else is dropped. */
  predicate Kept(s: Stream, p: nat)
  {
    IsLeafKind(s, p) || IsLeafKind(s, p + 1)
  }

  /** The texts of the kept tokens in `[i, j)`, in order. */
  function KeptTexts(s: Stream, i: nat, j: nat): seq<string>
    requires i <= j <= |s.toks|
    decreases j - i
  {
    if i == j then [] else (if Kept(s, i) then [s.toks[i].value] else []) + KeptTexts(s, i + 1, j)
  }

  lemma {:induction false} KeptAppend(s: Stream, i: nat, m: nat, j: nat)
    requires i <= m <= j <= |s.toks|
    ensures KeptTexts(s, i, m) + KeptTexts(s, m, j) == KeptTexts(s, i, j)
    decreases m - i
  {
    if i < m {
      KeptAppend(s, i + 1, m, j);
    }
  }

  /** Level `k` keeps every token it consumes except the operators it drops: the tree's
      texts are the seed's followed by the kept tokens. Without a seed it builds a tree
      exactly when the first token is a number or an identifier, and otherwise consumes
      nothing. */
  lemma {:induction false} LevelYield(s: Stream, i: nat, k: nat, seed: Option<Node>)
    requires i <= |s.toks| && k <= TOP && LeavesAreNotOperators(s)
    ensures var r := ParseLevel(s, i, k, seed);
            seed.None? && r.Parsed? ==> (r.value.Some? <==> IsLeafKind(s, i))
    ensures var r := ParseLevel(s, i, k, seed);
            r.Parsed? && r.value.None? ==> r.next == i
    ensures var r := ParseLevel(s, i, k, seed);
            r.Parsed? && r.value.Some? ==> Yield(r.value.value) == SeedYield(seed) + KeptTexts(s, i, r.next)
    decreases |s.toks| - i, k, 2
  {
    var lhs := if k == 0 then ParseFactor(s, i, seed) else ParseLevel(s, i, k - 1, seed);
    if k > 0 {
      LevelYield(s, i, k - 1, seed);
    } else if seed.None? && lhs.Parsed? && lhs.value.Some? {
      KeptLeaf(s, i);
    }
    assert lhs.Parsed? && lhs.value.Some? ==> Yield(lhs.value.value) == SeedYield(seed) + KeptTexts(s, i, lhs.next);
    if lhs.Parsed? {
      LoopYield(s, lhs.next, k, lhs.value);
      var r := LevelLoop(s, lhs.next, k, lhs.value);
      if lhs.value.Some? && r.Parsed? {
        KeptChain(s, i, lhs.next, r.next, SeedYield(seed), Yield(lhs.value.value), Yield(r.value.value));
      }
    }
  }

  lemma KeptChain(s: Stream, i: nat, j: nat, n: nat, texts: seq<string>, a: seq<string>, b: seq<string>)
    requires i <= j <= n <= |s.toks|
    requires a == texts + KeptTexts(s, i, j) && b == a + KeptTexts(s, j, n)
    ensures b == texts + KeptTexts(s, i, n)
  {
    KeptAppend(s, i, j, n);
  }

  lemma KeptLeaf(s: Stream, i: nat)
    requires i < |s.toks| && IsLeafKind(s, i)
    ensures KeptTexts(s, i, i + 1) == [s.toks[i].value]
  {
    assert KeptTexts(s, i + 1, i + 1) == [];
  }

  lemma {:induction false} OperandYield(s: Stream, i: nat, k: nat)
    requires i <= |s.toks| && k <= TOP && LeavesAreNotOperators(s)
    ensures var r := ParseOperand(s, i, k);
            r.Parsed? ==> (r.value.Some? <==> IsLeafKind(s, i))
    ensures var r := ParseOperand(s, i, k);
            r.Parsed? && r.value.None? ==> r.next == i
    ensures var r := ParseOperand(s, i, k);
            r.Parsed? && r.value.Some? ==> Yield(r.value.value) == KeptTexts(s, i, r.next)
    decreases |s.toks| - i, k, 0
  {
    if k > 0 {
      LevelYield(s, i, k - 1, None);
    }
  }

  lemma {:induction false} LoopYield(s: Stream, i: nat, k: nat, lhs: Option<Node>)
    requires i <= |s.toks| && k <= TOP && LeavesAreNotOperators(s)
    ensures lhs.None? ==> LevelLoop(s, i, k, lhs) == Parsed(None, i)
    ensures var r := LevelLoop(s, i, k, lhs);
            r.Parsed? && r.value.None? ==> r.next == i
    ensures var r := LevelLoop(s, i, k, lhs);
            lhs.Some? && r.Parsed? ==>
              r.value.Some? && Yield(r.value.value) == Yield(lhs.value) + KeptTexts(s, i, r.next)
    decreases |s.toks| - i, k, 1
  {
    if lhs.Some? && Cur(s, i).Some? && NamesLevel(Cur(s, i).value, k) {
      var op := s.toks[i].value;
      OperandYield(s, i + 1, k);
      var o := ParseOperand(s, i + 1, k);
      if o.Parsed? {
        var l' := if o.value.None? then lhs else Some(BinaryExpression(op, lhs.value, o.value.value));
        assert LevelLoop(s, i, k, lhs) == LevelLoop(s, o.next, k, l');
        LoopYield(s, o.next, k, l');
        var r := LevelLoop(s, o.next, k, l');
        if r.Parsed? {
          if o.value.None? {
            DroppedOperator(s, i, r.next);
          } else {
            KeptOperator(s, i, o.next, r.next, Yield(lhs.value), Yield(o.value.value), Yield(r.value.value));
          }
        }
      }
    }
  }

  /** An operator whose right operand does not start with a number or an identifier adds
      nothing. */
  lemma DroppedOperator(s: Stream, i: nat, n: nat)
    requires i + 1 <= n <= |s.toks| && LeavesAreNotOperators(s)
    requires s.toks[i].value in SUPPORTED_OP && !IsLeafKind(s, i + 1)
    ensures KeptTexts(s, i, n) == KeptTexts(s, i + 1, n)
  {
  }

  /** An operator followed by a right operand with texts `b`, then texts from `j` to `n`. */
  lemma KeptOperator(s: Stream, i: nat, j: nat, n: nat, a: seq<string>, b: seq<string>, c: seq<string>)
    requires i + 1 <= j <= n <= |s.toks| && IsLeafKind(s, i + 1)
    requires b == KeptTexts(s, i + 1, j) && c == a + [s.toks[i].value] + b + KeptTexts(s, j, n)
    ensures c == a + KeptTexts(s, i, n)
  {
    KeptAppend(s, i + 1, j, n);
  }

  /** When every consumed token is kept, the kept texts are all the tokens' texts. */
  lemma {:induction false} KeptTextsAll(s: Stream, i: nat, j: nat)
    requires i <= j <= |s.toks|
    requires forall p :: i <= p < j ==> Kept(s, p)
    ensures |KeptTexts(s, i, j)| == j - i
    ensures forall q :: 0 <= q < j - i ==> KeptTexts(s, i, j)[q] == s.toks[i + q].value
    decreases j - i
  {
    if i < j {
      KeptTextsAll(s, i + 1, j);
    }
  }

  /** `parse_primary_expression` on a number or an identifier followed by an operator
      token: the tree's texts are those of the kept tokens it consumes, the first
      included; when it drops no operator, they are the texts of all the tokens it
      consumes, in order. */
  lemma PrimaryYield(s: Stream, i: nat)
    requires i < |s.toks| && LeavesAreNotOperators(s) && IsLeafKind(s, i)
    requires Cur(s, i + 1).Some? && Cur(s, i + 1).value.kind in BINARY_OP_KINDS
    ensures var r := ParsePrimary(s, i);
            r.Parsed? ==> r.value.Some? && Yield(r.value.value) == KeptTexts(s, i, r.next)
    ensures var r := ParsePrimary(s, i);
            r.Parsed? && (forall p :: i <= p < r.next ==> Kept(s, p)) ==>
              r.value.Some? && |Yield(r.value.value)| == r.next - i &&
              forall q :: 0 <= q < r.next - i ==> Yield(r.value.value)[q] == s.toks[i + q].value
  {
    var leaf := if KindIs(s, i, "IDENTIFIER") then Identifier(s.toks[i].value) else Value(s.toks[i].value);
    var b := ParseBinary(s, i + 1, Some(leaf));
    assert ParsePrimary(s, i) == b;
    BinaryYield(s, i + 1, leaf);
    if b.Parsed? {
      assert KeptTexts(s, i, b.next) == [s.toks[i].value] + KeptTexts(s, i + 1, b.next);
      if forall p :: i <= p < b.next ==> Kept(s, p) {
        KeptTextsAll(s, i, b.next);
      }
    }
  }

  /** The whole ladder seeded with a number or an identifier: the seed's text, then the
      kept tokens. */
  lemma BinaryYield(s: Stream, i: nat, leaf: Node)
    requires i <= |s.toks| && LeavesAreNotOperators(s) && Leaf(leaf)
    ensures var r := ParseBinary(s, i, Some(leaf));
            r.Parsed? ==> r.value.Some? && Yield(r.value.value) == Yield(leaf) + KeptTexts(s, i, r.next)
  {
    LevelShape(s, i, TOP, Some(leaf));
    LevelYield(s, i, TOP, Some(leaf));
  }

  /** At the EOF every level hands its left operand back. */
  lemma LoopStopsAtEof(s: Stream, i: nat, k: nat, lhs: Option<Node>)
    requires i == |s.toks| && k <= TOP && s.end.AtEof?
    ensures LevelLoop(s, i, k, lhs) == Parsed(lhs, i)
  {
    assert "" !in SUPPORTED_OP;
  }

  /** A level that reaches the EOF gives its result to every level above it. */
  lemma {:induction false} LevelsAboveEof(s: Stream, i: nat, k: nat, seed: Option<Node>, x: Option<Node>)
    requires i <= |s.toks| && k <= TOP && s.end.AtEof?
    requires ParseLevel(s, i, k, seed) == Parsed(x, |s.toks|)
    ensures ParseBinary(s, i, seed) == Parsed(x, |s.toks|)
    decreases TOP - k
  {
    if k < TOP {
      LoopStopsAtEof(s, |s.toks|, k + 1, x);
      LevelsAboveEof(s, i, k + 1, seed, x);
    }
  }

  function Num(text: string, at: nat): Token
  {
    Token("NUMBER", text, at, |text|)
  }

  /** The tokens of `2 + 3 * 4`. */
  function SumOfProduct(): Stream
  {
    Stream([Num("2", 0), Token("PLUS", "+", 2, 1), Num("3", 4), Token("STAR", "*", 6, 1), Num("4", 8)], AtEof(9))
  }

  /** `2 + 3 * 4` is `2 + (3 * 4)`: `*` binds tighter than `+`. */
  lemma PrecedenceExample()
    ensures ParsePrimary(SumOfProduct(), 0) ==
              Parsed(Some(BinaryExpression("+", Value("2"), BinaryExpression("*", Value("3"), Value("4")))), 5)
  {
    var s := SumOfProduct();
    var times := BinaryExpression("*", Value("3"), Value("4"));
    var plus := Some(BinaryExpression("+", Value("2"), times));
    ProductOperand();
    // 2 + (3 * 4) at the additive level, after the multiplicative one hands 2 back
    LoopDeclines(s, 1, 0, Some(Value("2")));
    FoldStep(s, 1, 1, Value("2"), times, 5);
    LoopStopsAtEof(s, 5, 1, plus);
    LevelsAboveEof(s, 1, 1, Some(Value("2")), plus);
  }

  /** `3 * 4`, the right operand of `+`. */
  lemma ProductOperand()
    ensures ParseOperand(SumOfProduct(), 2, 1) == Parsed(Some(BinaryExpression("*", Value("3"), Value("4"))), 5)
  {
    var s := SumOfProduct();
    var times := BinaryExpression("*", Value("3"), Value("4"));
    NumberOperand(s, 2, 1);
    NumberFactor(s, 4);
    FoldStep(s, 3, 0, Value("3"), Value("4"), 5);
    LoopStopsAtEof(s, 5, 0, Some(times));
  }

  /** The tokens of `10 - 3 - 2`. */
  function Differences(): Stream
  {
    Stream([Num("10", 0), Token("MINES", "-", 3, 1), Num("3", 5), Token("MINES", "-", 7, 1), Num("2", 9)], AtEof(10))
  }

  /** `10 - 3 - 2` is `(10 - 3) - 2`: operators of one level associate to the left. */
  lemma AssociativityExample()
    ensures ParsePrimary(Differences(), 0) ==
              Parsed(Some(BinaryExpression("-", BinaryExpression("-", Value("10"), Value("3")), Value("2"))), 5)
  {
    var s := Differences();
    var first := BinaryExpression("-", Value("10"), Value("3"));
    var second := Some(BinaryExpression("-", first, Value("2")));
    LoopDeclines(s, 1, 0, Some(Value("10")));
    NumberOperand(s, 2, 1);
    LoopDeclines(s, 3, 0, Some(Value("3")));
    FoldStep(s, 1, 1, Value("10"), Value("3"), 3);
    NumberOperand(s, 4, 1);
    LoopStopsAtEof(s, 5, 0, Some(Value("2")));
    FoldStep(s, 3, 1, first, Value("2"), 5);
    LoopStopsAtEof(s, 5, 1, second);
    LevelsAboveEof(s, 1, 1, Some(Value("10")), second);
  }

  /** A level whose operator is the current token folds it with the right operand. */
  lemma FoldStep(s: Stream, i: nat, k: nat, lhs: Node, rhs: Node, j: nat)
    requires i < |s.toks| && k <= TOP && NamesLevel(s.toks[i], k)
    requires ParseOperand(s, i + 1, k) == Parsed(Some(rhs), j)
    ensures LevelLoop(s, i, k, Some(lhs)) == LevelLoop(s, j, k, Some(BinaryExpression(s.toks[i].value, lhs, rhs)))
  {
  }

  /** A level whose operator is not the current token hands its left operand back. */
  lemma LoopDeclines(s: Stream, i: nat, k: nat, lhs: Option<Node>)
    requires i < |s.toks| && k <= TOP && !NamesLevel(s.toks[i], k)
    ensures LevelLoop(s, i, k, lhs) == Parsed(lhs, i)
  {
  }

  /** A number as the operand of the multiplicative level. */
  lemma NumberFactor(s: Stream, i: nat)
    requires i < |s.toks| && s.toks[i].kind == "NUMBER"
    ensures ParseOperand(s, i, 0) == Parsed(Some(Value(s.toks[i].value)), i + 1)
  {
  }

  /** A number as the operand of the additive level, before the multiplicative loop. */
  lemma NumberOperand(s: Stream, i: nat, k: nat)
    requires i < |s.toks| && k == 1 && s.toks[i].kind == "NUMBER"
    ensures ParseOperand(s, i, k) == LevelLoop(s, i + 1, 0, Some(Value(s.toks[i].value)))
  {
  }

  /** The tokens that continue a primary expression as a binary one are those of the
      supported operators; `/` and `%` have no token at all. */
  lemma BinaryKindsAreOperators(v: string)
    requires v in TOKENS
    ensures TOKENS[v] in BINARY_OP_KINDS <==> v in SUPPORTED_OP
  {
  }

  lemma DivisionHasNoToken()
    ensures "/" !in TOKENS && "%" !in TOKENS
  {
  }

  /** `parse_primary_expression` by what follows the first token: an identifier before `(`
      is a call; an identifier or number before an operator token is the leftmost operand of
      a well-shaped binary expression; otherwise it stands alone. */
  lemma PrimaryDispatch(s: Stream, i: nat)
    requires i < |s.toks| && Cur(s, i + 1).Some?
    ensures var r := ParsePrimary(s, i);
            KindIs(s, i, "IDENTIFIER") && KindIs(s, i + 1, "OPEN_PARENT_BRACKET") && r.Parsed? ==>
              r.value.Some? && r.value.value.CallExpression? && r.value.value.name == s.toks[i].value
    ensures var r := ParsePrimary(s, i);
            var leaf := if KindIs(s, i, "IDENTIFIER") then Identifier(s.toks[i].value) else Value(s.toks[i].value);
            (KindIs(s, i, "IDENTIFIER") || KindIs(s, i, "NUMBER")) && Cur(s, i + 1).value.kind in BINARY_OP_KINDS &&
            r.Parsed? ==>
              r.value.Some? && Leftmost(r.value.value) == leaf && Shaped(r.value.value, TOP)
    ensures var r := ParsePrimary(s, i);
            var leaf := if KindIs(s, i, "IDENTIFIER") then Identifier(s.toks[i].value) else Value(s.toks[i].value);
            (KindIs(s, i, "IDENTIFIER") || KindIs(s, i, "NUMBER")) && Cur(s, i + 1).value.kind !in BINARY_OP_KINDS &&
            !KindIs(s, i + 1, "OPEN_PARENT_BRACKET") ==>
              r == Parsed(Some(leaf), i + 1)
  {
    if KindIs(s, i, "IDENTIFIER") || KindIs(s, i, "NUMBER") {
      var leaf := if KindIs(s, i, "IDENTIFIER") then Identifier(s.toks[i].value) else Value(s.toks[i].value);
      LevelShape(s, i + 1, TOP, Some(leaf));
    }
  }

  // ----- Declarations and lists -----

  /** `var x = e` becomes a declaration of `x` whose initializer assigns `x` the primary
      expression `e`; without `=` the initializer is missing. */
  lemma VariableDeclarationShape(s: Stream, i: nat)
    requires i + 2 <= |s.toks| && KeywordIs(s, i, "var") && KindIs(s, i + 1, "IDENTIFIER")
    ensures var x := s.toks[i + 1].value;
            KindIs(s, i + 2, "EQUAL") && ParsePrimary(s, i + 3).Parsed? ==>
              var p := ParsePrimary(s, i + 3);
              ParseVariableDeclaration(s, i) == Parsed(Some(VariableDeclaration(x, Some(AssignmentExpression(x, p.value)))), p.next)
    ensures var x := s.toks[i + 1].value;
            Cur(s, i + 2).Some? && !KindIs(s, i + 2, "EQUAL") ==>
              ParseVariableDeclaration(s, i) == Parsed(Some(VariableDeclaration(x, None)), i + 2)
  {
  }

  /** An entry that a statement loop files under the declarations as well. */
  predicate IsDeclarationEntry(e: Option<Node>)
  {
    e.None? || e.value.VariableDeclaration? || e.value.FunctionDeclaration?
  }

  /** The declaration entries of a statement list, in order. */
  function Declarations(statements: seq<Option<Node>>): (d: seq<Option<Node>>)
    ensures |d| <= |statements|
    ensures forall k :: 0 <= k < |d| ==> IsDeclarationEntry(d[k])
  {
    if statements == [] then []
    else (if IsDeclarationEntry(statements[0]) then [statements[0]] else []) + Declarations(statements[1..])
  }

  lemma {:induction false} DeclarationsAppend(a: seq<Option<Node>>, b: seq<Option<Node>>)
    ensures Declarations(a + b) == Declarations(a) + Declarations(b)
  {
    if a != [] {
      assert (a + b)[0] == a[0];
      assert (a + b)[1..] == a[1..] + b;
      DeclarationsAppend(a[1..], b);
    } else {
      assert a + b == b;
    }
  }

  predicate Consistent(l: Lists)
  {
    l.declarations == Declarations(l.statements)
  }

  /** One pass of a statement loop files under the declarations exactly its declaration
      entries, in the order it adds them to the statements. */
  lemma StepIsConsistent(s: Stream, i: nat)
    requires i <= |s.toks|
    ensures StatementStep(s, i).Parsed? ==> Consistent(StatementStep(s, i).value)
  {
    if Cur(s, i).Some? {
      var v := if KeywordIs(s, i, "var") then ParseVariableDeclaration(s, i) else Parsed(None, i);
      if v.Parsed? {
        var afterVar := if KeywordIs(s, i, "var") then Lists([v.value], [v.value]) else Lists([], []);
        if KeywordIs(s, i, "var") {
          ConsistentExtend(Lists([], []), v.value);
        }
        var j := v.next;
        if Cur(s, j).Some? {
          var f := if KeywordIs(s, j, "fun") then ParseFunctionDeclaration(s, j) else Parsed(None, j);
          if f.Parsed? {
            var afterFun :=
              if KeywordIs(s, j, "fun") then Lists(afterVar.statements + [f.value], afterVar.declarations + [f.value])
              else afterVar;
            if KeywordIs(s, j, "fun") {
              ConsistentExtend(afterVar, f.value);
            }
            var e := ParseExpressionStatement(s, f.next);
            if e.Parsed? && e.value.Some? {
              ConsistentExtend(afterFun, e.value);
            }
          }
        }
      }
    }
  }

  /** Appending one entry keeps the declarations in step with the statements. */
  lemma ConsistentExtend(l: Lists, e: Option<Node>)
    requires Consistent(l)
    ensures Consistent(Lists(l.statements + [e], l.declarations + if IsDeclarationEntry(e) then [e] else []))
  {
    DeclarationsAppend(l.statements, [e]);
    assert [e][1..] == [];
  }

  lemma {:induction false} ListLoopIsConsistent(s: Stream, i: nat, acc: Lists)
    requires i <= |s.toks| && Consistent(acc)
    ensures StatementListLoop(s, i, acc).Parsed? ==>
              StatementListLoop(s, i, acc).value.declaration == Declarations(StatementListLoop(s, i, acc).value.statements)
    decreases |s.toks| - i
  {
    if Cur(s, i).Some? && !KindIs(s, i, "EOF") {
      StepIsConsistent(s, i);
      match StatementStep(s, i)
      case Parsed(step, j) =>
        if j != i {
          DeclarationsAppend(acc.statements, step.statements);
          ListLoopIsConsistent(s, j, Lists(acc.statements + step.statements, acc.declarations + step.declarations));
        }
      case Crashed =>
      case Diverged =>
    }
  }

  /** The program's declaration list is exactly its statement list's declaration entries:
      every `var` and `fun` statement, parsed or failed, in source order. */
  lemma DeclarationsOfProgram(s: Stream)
    ensures ParseStatementList(s).Parsed? ==>
              ParseStatementList(s).value.declaration == Declarations(ParseStatementList(s).value.statements)
  {
    ListLoopIsConsistent(s, 0, Lists([], []));
  }

  lemma {:induction false} BodyLoopIsConsistent(s: Stream, i: nat, acc: Lists)
    requires i <= |s.toks| && Consistent(acc)
    ensures var r := BodyLoop(s, i, acc);
            r.Parsed? && r.value.Some? ==> r.value.value.declaration == Declarations(r.value.value.statements)
    decreases |s.toks| - i
  {
    if Cur(s, i).Some? && !KindIs(s, i, "CLOSE_CURLY_BRACKET") {
      StepIsConsistent(s, i);
      match StatementStep(s, i)
      case Parsed(step, j) =>
        if j != i {
          DeclarationsAppend(acc.statements, step.statements);
          BodyLoopIsConsistent(s, j, Lists(acc.statements + step.statements, acc.declarations + step.declarations));
        }
      case Crashed =>
      case Diverged =>
    }
  }

  /** The same holds of every function body. */
  lemma DeclarationsOfBody(s: Stream, i: nat)
    requires i <= |s.toks|
    ensures var r := ParseFunctionBody(s, i);
            r.Parsed? && r.value.Some? ==> r.value.value.declaration == Declarations(r.value.value.statements)
  {
    if Cur(s, i).Some? && KindIs(s, i, "OPEN_CURLY_BRACKET") {
      BodyLoopIsConsistent(s, i + 1, Lists([], []));
    }
  }

  /** A parameter list from token `i` on, through its `)`, which ends at `next`: the names
      `ps`, each an identifier token, separated by commas, with an optional comma after the
      last one. */
  predicate ParamList(s: Stream, i: nat, ps: seq<string>, next: nat)
    decreases |ps|
  {
    if ps == [] then KindIs(s, i, "CLOSE_PARENT_BRACKET") && next == i + 1
    else
      && KindIs(s, i, "IDENTIFIER") && Cur(s, i).value.value == ps[0]
      && ((|ps| == 1 && KindIs(s, i + 1, "CLOSE_PARENT_BRACKET") && next == i + 2) ||
          (KindIs(s, i + 1, "COMMA") && ParamList(s, i + 2, ps[1..], next)))
  }

  /** The parameter loop accepts exactly the parameter lists: what it collects after
      `names` is a list the tokens spell out, ending where the loop stops. */
  lemma {:induction false} ParamsInOrder(s: Stream, i: nat, names: seq<string>)
    requires i <= |s.toks|
    ensures var r := ParamsLoop(s, i, names);
            r.Parsed? && r.value.Some? ==>
              names <= r.value.value && ParamList(s, i, r.value.value[|names|..], r.next)
    decreases |s.toks| - i
  {
    var r := ParamsLoop(s, i, names);
    if r.Parsed? && r.value.Some? && KindIs(s, i, "IDENTIFIER") {
      var names' := names + [s.toks[i].value];
      var ps := r.value.value;
      if KindIs(s, i + 1, "COMMA") {
        assert r == ParamsLoop(s, i + 2, names');
        ParamsInOrder(s, i + 2, names');
        assert ps[|names|..][1..] == ps[|names'|..];
      } else {
        assert ps[|names|..] == [s.toks[i].value];
      }
    } else if r.Parsed? && r.value.Some? {
      assert r.value.value[|names|..] == [];
    }
  }

  /** Conversely, from a parameter list the loop collects exactly its names. */
  lemma {:induction false} ParamListParses(s: Stream, i: nat, ps: seq<string>, next: nat, names: seq<string>)
    requires i <= |s.toks| && ParamList(s, i, ps, next)
    ensures ParamsLoop(s, i, names) == Parsed(Some(names + ps), next)
    decreases |ps|
  {
    if ps != [] {
      assert Cur(s, i) == Some(s.toks[i]);
      if |ps| == 1 && KindIs(s, i + 1, "CLOSE_PARENT_BRACKET") {
        assert ps == [ps[0]];
      } else {
        ParamListParses(s, i + 2, ps[1..], next, names + [ps[0]]);
        assert names + [ps[0]] + ps[1..] == names + ps;
      }
    } else {
      assert names + ps == names;
    }
  }

  /** A parameter list fails, giving `null`, at a parameter that is not an identifier and
      at anything but `,` or `)` after a parameter. */
  lemma ParamsRejects(s: Stream, i: nat, names: seq<string>)
    requires i < |s.toks|
    ensures Cur(s, i).Some? && !KindIs(s, i, "CLOSE_PARENT_BRACKET") && !KindIs(s, i, "IDENTIFIER") ==>
              ParamsLoop(s, i, names) == Parsed(None, i)
    ensures KindIs(s, i, "IDENTIFIER") && Cur(s, i + 1).Some? &&
            !KindIs(s, i + 1, "COMMA") && !KindIs(s, i + 1, "CLOSE_PARENT_BRACKET") ==>
              ParamsLoop(s, i, names) == Parsed(None, i + 1)
  {
  }

  /** An argument list fails, giving `null`, when anything but `,` or `)` follows an
      argument. */
  lemma ArgumentsReject(s: Stream, i: nat, items: seq<Option<Node>>)
    requires i < |s.toks| && !KindIs(s, i, "CLOSE_PARENT_BRACKET")
    requires ParsePrimary(s, i).Parsed?
    ensures var j := ParsePrimary(s, i).next;
            Cur(s, j).Some? && !KindIs(s, j, "COMMA") && !KindIs(s, j, "CLOSE_PARENT_BRACKET") ==>
              ArgumentsLoop(s, i, items) == Parsed(None, j)
  {
  }

  // ----- What the parser object needs of the stream -----

  /** Where the lexer's cursor stands before each call of `next` while it produces
      `Scan(input, pos)`: one position per token, and one for the call that ends the stream. */
  ghost function Starts(input: string, pos: nat): (c: seq<nat>)
    ensures |c| == |Scan(input, pos).toks| + 1 && c[0] == pos
    decreases Remaining(input, pos)
  {
    if pos >= |input| then [pos]
    else
      var r := NextToken(input, pos);
      if r.token.None? then [pos] else [pos] + Starts(input, r.pos)
  }

  /** What `next` answers from the cursor before token `j` of `s`: token `j` and the cursor
      before the following one, or, past the last token, the end of `s`. */
  ghost predicate AnswersAt(s: Stream, starts: seq<nat>, j: nat, r: Lexed)
    requires |starts| == |s.toks| + 1 && j < |starts|
  {
    if j < |s.toks| then r == Lexed(Some(s.toks[j]), starts[j + 1])
    else match s.end
      case AtEof(p) => r == Lexed(Some(EofToken(p)), p)
      case Invalid => r.token.None?
  }

  /** Calling `next` from `starts[j]` yields what `s` holds at `j`. */
  ghost predicate Synced(input: string, s: Stream, starts: seq<nat>)
  {
    && |starts| == |s.toks| + 1
    && forall j {:trigger NextToken(input, starts[j])} :: 0 <= j < |starts| ==>
         AnswersAt(s, starts, j, NextToken(input, starts[j]))
  }

  /** The stream of a scan is in step with the cursor positions of the lexer producing it. */
  lemma {:induction false} ScanIsSynced(input: string, pos: nat)
    ensures Synced(input, Scan(input, pos), Starts(input, pos))
    decreases Remaining(input, pos)
  {
    if Scan(input, pos).toks != [] {
      var r := ScanStep(input, pos);
      ScanIsSynced(input, r.pos);
      assert Starts(input, pos) == [pos] + Starts(input, r.pos);
      SyncedCons(input, pos, Scan(input, pos), Starts(input, pos), Scan(input, r.pos), Starts(input, r.pos));
    } else {
      ScanEndIsSynced(input, pos);
    }
  }

  /** A scan without tokens: the one call of `next` already ends the stream. */
  lemma ScanEndIsSynced(input: string, pos: nat)
    requires Scan(input, pos).toks == []
    ensures Synced(input, Scan(input, pos), Starts(input, pos))
  {
    var c := Starts(input, pos);
    assert c == [pos];
    assert AnswersAt(Scan(input, pos), c, 0, NextToken(input, c[0]));
  }

  /** A stream in step with its positions stays in step when one more token, the answer of
      `next` at `pos`, is put in front. */
  lemma SyncedCons(input: string, pos: nat, s: Stream, c: seq<nat>, s': Stream, c': seq<nat>)
    requires Synced(input, s', c')
    requires s.toks != [] && s.toks[1..] == s'.toks && s.end == s'.end && c == [pos] + c'
    requires NextToken(input, pos) == Lexed(Some(s.toks[0]), c'[0])
    ensures Synced(input, s, c)
  {
    forall j | 0 <= j < |c| ensures AnswersAt(s, c, j, NextToken(input, c[j])) {
      if j > 0 {
        assert c[j] == c'[j - 1];
        assert AnswersAt(s', c', j - 1, NextToken(input, c'[j - 1]));
        if j < |s.toks| {
          assert s.toks[j] == s'.toks[j - 1] && c[j + 1] == c'[j];
        }
      }
    }
  }

  /** The tokens of a stream are not EOF and start at strictly increasing positions. */
  ghost predicate Forward(toks: seq<Token>)
  {
    toks != [] ==>
      && toks[0].kind != "EOF"
      && (|toks| > 1 ==> toks[0].startPos < toks[1].startPos)
      && Forward(toks[1..])
  }

  /** Every scan moves forward. */
  lemma {:induction false} ScanIsForward(input: string, pos: nat)
    ensures Forward(Scan(input, pos).toks)
    decreases Remaining(input, pos)
  {
    var toks := Scan(input, pos).toks;
    if toks != [] {
      var r := NextToken(input, pos);
      var rest := Scan(input, r.pos).toks;
      ScanIsForward(input, r.pos);
      assert toks[1..] == rest;
      if rest != [] {
        assert NextToken(input, r.pos).token == Some(rest[0]);
      }
    }
  }

  lemma {:induction false} ForwardMoves(toks: seq<Token>, j: nat, k: nat)
    requires Forward(toks) && j < k <= |toks|
    ensures toks[j].kind != "EOF"
    ensures k < |toks| ==> toks[j].startPos < toks[k].startPos
    decreases k
  {
    if j > 0 {
      ForwardMoves(toks[1..], j - 1, k - 1);
    } else if k > 1 {
      ForwardMoves(toks[1..], 0, k - 1);
    }
  }

  /** Different positions of a stream that moves forward hold different current tokens, so
      a parse step has consumed something exactly when the current token changed. */
  lemma CurrentTokenMoves(s: Stream, j: nat, k: nat)
    requires Forward(s.toks) && j < k <= |s.toks|
    ensures Cur(s, j) != Cur(s, k)
  {
    ForwardMoves(s.toks, j, k);
  }
}
