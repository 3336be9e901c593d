/** The parser as `parser.js` writes it: an object holding the lexer and its current token,
    with one method per grammar rule. Each method is proved to compute the function of
    `Parsing` with the same name, so every property proved there holds of the object. */
module ParserObject {
  import opened Wrappers
  import opened Lexer
  import opened Ast
  import opened Parsing

  /** How a method of the parser ends: it returns, it throws the `TypeError`, or its loop
      would go round forever and the method stops instead. */
  datatype Status = Returned | Threw | Looped

  /** The method's ending, value and position agree with the parse result `r`. */
  ghost predicate Matches<T>(r: PResult<T>, st: Status, v: T, index: nat)
  {
    match r
    case Parsed(value, next) => st == Returned && v == value && index == next
    case Crashed => st == Threw
    case Diverged => st == Looped
  }

  /** The parser of `parser.js`: the lexer and its current token. `tokens` is the stream
      the lexer yields over the whole input and `index` the position of `current` in it. */
  class Parser {
    const lexer: Lexer
    var current: Option<Token>
    ghost const tokens: Stream
    ghost const starts: seq<nat>
    ghost var index: nat

    ghost predicate Valid()
      reads this, lexer
    {
      && lexer.Valid()
      && Synced(lexer.input, tokens, starts)
      && Forward(tokens.toks)
      && index <= |tokens.toks|
      && current == Cur(tokens, index)
      && (index < |tokens.toks| ==> lexer.pos == starts[index + 1])
    }

    constructor(input: string)
      ensures Valid() && fresh(lexer) && lexer.input == input && tokens == Scan(input, 0) && index == 0
    {
      var lx := new Lexer(input);
      ScanIsSynced(input, 0);
      ScanIsForward(input, 0);
      var t := lx.Next();
      lexer := lx;
      current := t;
      tokens := Scan(input, 0);
      starts := Starts(input, 0);
      index := 0;
    }

    predicate IsKind(kind: string)
      reads this
    {
      current.Some? && current.value.kind == kind
    }

    predicate IsNumber() reads this { IsKind("NUMBER") }
    predicate IsIdentifier() reads this { IsKind("IDENTIFIER") }
    predicate IsEof() reads this { IsKind("EOF") }
    predicate IsKeyword(word: string) reads this { IsKind("KEYWORD") && current.value.value == word }
    predicate IsBoolean() reads this { IsKeyword("true") || IsKeyword("false") }
    predicate IsNull() reads this { IsKeyword("null") }
    predicate IsVar() reads this { IsKeyword("var") }
    predicate IsFun() reads this { IsKeyword("fun") }
    predicate IsArg() reads this { IsNull() || IsBoolean() || IsNumber() }
    predicate IsBinaryOp() reads this { current.Some? && current.value.kind in BINARY_OP_KINDS }

    /** `this.current = this.lexer.next()`. Every token the parser consumes is one of the
        stream's, never the EOF after them. */
    method Consume()
      requires Valid() && index < |tokens.toks|
      modifies this, lexer
      ensures Valid() && index == old(index) + 1
    {
      current := lexer.Next();
      index := index + 1;
    }

    method ParseFactor(seed: Option<Node>) returns (st: Status, v: Option<Node>)
      requires Valid()
      modifies this, lexer
      ensures Valid() && old(index) <= index
      ensures Matches(Parsing.ParseFactor(tokens, old(index), seed), st, v, index)
    {
      if seed.Some? {
        return Returned, seed;
      }
      if current.None? {
        return Threw, None;
      }
      if IsNumber() {
        var factor := Value(current.value.value);
        Consume();
        return Returned, Some(factor);
      }
      if IsIdentifier() {
        var factor := Identifier(current.value.value);
        Consume();
        return Returned, Some(factor);
      }
      return Returned, None;
    }

    /** The eight `parse_<level>_expression` methods, one per level `k` of the ladder. */
    method ParseLevel(k: nat, seed: Option<Node>) returns (st: Status, lhs: Option<Node>)
      requires Valid() && k <= TOP
      modifies this, lexer
      ensures Valid() && old(index) <= index
      ensures Matches(Parsing.ParseLevel(tokens, old(index), k, seed), st, lhs, index)
      decreases |tokens.toks| - index, k, 2
    {
      if k == 0 {
        st, lhs := ParseFactor(seed);
      } else {
        st, lhs := ParseLevel(k - 1, seed);
      }
      if st != Returned {
        return;
      }
      st, lhs := ParseLevelLoop(k, lhs);
    }

    method ParseLevelLoop(k: nat, lhs0: Option<Node>) returns (st: Status, lhs: Option<Node>)
      requires Valid() && k <= TOP
      modifies this, lexer
      ensures Valid() && old(index) <= index
      ensures Matches(LevelLoop(tokens, old(index), k, lhs0), st, lhs, index)
      decreases |tokens.toks| - index, k, 1
    {
      st, lhs := Returned, lhs0;
      while lhs.Some? && current.Some? && NamesLevel(current.value, k)
        invariant Valid() && old(index) <= index
        invariant LevelLoop(tokens, index, k, lhs) == LevelLoop(tokens, old(index), k, lhs0)
        decreases |tokens.toks| - index
      {
        var token := current.value;
        Consume();
        var rst, rhs := ParseOperand(k);
        if rst != Returned {
          return rst, None;
        }
        if rhs.Some? {
          lhs := Some(BinaryExpression(token.value, lhs.value, rhs.value));
        }
      }
    }

    method ParseOperand(k: nat) returns (st: Status, v: Option<Node>)
      requires Valid() && k <= TOP
      modifies this, lexer
      ensures Valid() && old(index) <= index
      ensures Matches(Parsing.ParseOperand(tokens, old(index), k), st, v, index)
      decreases |tokens.toks| - index, k, 0
    {
      if k == 0 {
        st, v := ParseFactor(None);
      } else {
        st, v := ParseLevel(k - 1, None);
      }
    }

    method ParseBinary(seed: Option<Node>) returns (st: Status, v: Option<Node>)
      requires Valid()
      modifies this, lexer
      ensures Valid() && old(index) <= index
      ensures Matches(Parsing.ParseBinary(tokens, old(index), seed), st, v, index)
    {
      st, v := ParseLevel(TOP, seed);
    }

    method ParsePrimary() returns (st: Status, v: Option<Node>)
      requires Valid()
      modifies this, lexer
      ensures Valid() && old(index) <= index
      ensures Matches(Parsing.ParsePrimary(tokens, old(index)), st, v, index)
      decreases |tokens.toks| - index, 2
    {
      if current.None? {
        return Threw, None;
      }
      if IsIdentifier() {
        var id := current.value.value;
        Consume();
        if current.None? {
          return Threw, None;
        }
        if IsKind("OPEN_PARENT_BRACKET") {
          st, v := ParseCall(id);
          return;
        }
        if IsBinaryOp() {
          st, v := ParseBinary(Some(Identifier(id)));
          return;
        }
        return Returned, Some(Identifier(id));
      }
      if IsNumber() {
        var text := current.value.value;
        Consume();
        if current.None? {
          return Threw, None;
        }
        if IsBinaryOp() {
          st, v := ParseBinary(Some(Value(text)));
          return;
        }
        return Returned, Some(Value(text));
      }
      if IsBoolean() || IsNull() {
        return Returned, Some(Value("NaN"));
      }
      return Returned, None;
    }

    method ParseCall(id: string) returns (st: Status, v: Option<Node>)
      requires Valid()
      modifies this, lexer
      ensures Valid() && old(index) <= index
      ensures Matches(Parsing.ParseCall(tokens, old(index), id), st, v, index)
      decreases |tokens.toks| - index, 1
    {
      var args;
      st, args := ParseArguments();
      v := Some(CallExpression(id, args));
    }

    method ParseArguments() returns (st: Status, v: Option<Arguments>)
      requires Valid()
      modifies this, lexer
      ensures Valid() && old(index) <= index
      ensures Matches(Parsing.ParseArguments(tokens, old(index)), st, v, index)
      decreases |tokens.toks| - index, 0
    {
      if current.None? {
        return Threw, None;
      }
      if !IsKind("OPEN_PARENT_BRACKET") {
        return Returned, None;
      }
      Consume();
      st, v := ParseArgumentList();
    }

    /** The loop of `parse_arguments`, after the opening bracket: each argument is a primary
        expression, followed by a comma or the closing bracket. */
    method ParseArgumentList() returns (st: Status, v: Option<Arguments>)
      requires Valid()
      modifies this, lexer
      ensures Valid() && old(index) <= index
      ensures Matches(ArgumentsLoop(tokens, old(index), []), st, v, index)
      decreases |tokens.toks| - index, 3
    {
      var args: seq<Option<Node>> := [];
      while current.Some? && !IsKind("CLOSE_PARENT_BRACKET")
        invariant Valid() && old(index) <= index
        invariant ArgumentsLoop(tokens, index, args) == ArgumentsLoop(tokens, old(index), [])
        decreases |tokens.toks| - index
      {
        var ast, arg := ParsePrimary();
        if ast != Returned {
          return ast, None;
        }
        args := args + [arg];
        if current.None? {
          return Threw, None;
        }
        if !IsKind("COMMA") && !IsKind("CLOSE_PARENT_BRACKET") {
          return Returned, None;
        }
        if IsKind("COMMA") {
          Consume();
        }
      }
      if current.None? {
        return Threw, None;
      }
      Consume();
      return Returned, Some(Arguments(args));
    }

    method ParseAssignment(id: string) returns (st: Status, v: Option<Node>)
      requires Valid()
      modifies this, lexer
      ensures Valid() && old(index) <= index
      ensures Matches(Parsing.ParseAssignment(tokens, old(index), id), st, v, index)
    {
      if current.None? {
        return Threw, None;
      }
      if !IsKind("EQUAL") {
        return Returned, None;
      }
      Consume();
      var rhs;
      st, rhs := ParsePrimary();
      v := Some(AssignmentExpression(id, rhs));
    }

    method ParseVariableDeclaration() returns (st: Status, v: Option<Node>)
      requires Valid()
      modifies this, lexer
      ensures Valid() && old(index) <= index
      ensures Matches(Parsing.ParseVariableDeclaration(tokens, old(index)), st, v, index)
    {
      if current.None? {
        return Threw, None;
      }
      if !IsVar() {
        return Returned, None;
      }
      Consume();
      if current.None? {
        return Threw, None;
      }
      if !IsIdentifier() {
        return Returned, None;
      }
      var identifier := current.value.value;
      Consume();
      var init;
      st, init := ParseAssignment(identifier);
      v := Some(VariableDeclaration(identifier, init));
    }

    method ParseFunctionDeclaration() returns (st: Status, v: Option<Node>)
      requires Valid()
      modifies this, lexer
      ensures Valid() && old(index) <= index
      ensures Matches(Parsing.ParseFunctionDeclaration(tokens, old(index)), st, v, index)
      decreases |tokens.toks| - index, 0
    {
      if current.None? {
        return Threw, None;
      }
      if !IsFun() {
        return Returned, None;
      }
      Consume();
      if current.None? {
        return Threw, None;
      }
      if !IsIdentifier() {
        return Returned, None;
      }
      var name := current.value.value;
      Consume();
      if current.None? {
        return Threw, None;
      }
      if !IsKind("OPEN_PARENT_BRACKET") {
        return Returned, None;
      }
      Consume();
      var params;
      st, params := ParseParameters();
      if st != Returned || params.None? {
        return st, None;
      }
      var body;
      st, body := ParseFunctionBody();
      v := Some(FunctionDeclaration(name, params.value, body));
    }

    /** The parameter loop of `parse_function_declaration`, from the token after `(`
        through `)`. */
    method ParseParameters() returns (st: Status, v: Option<seq<string>>)
      requires Valid()
      modifies this, lexer
      ensures Valid() && old(index) <= index
      ensures Matches(ParamsLoop(tokens, old(index), []), st, v, index)
    {
      var params: seq<string> := [];
      while current.Some? && !IsKind("CLOSE_PARENT_BRACKET")
        invariant Valid() && old(index) <= index
        invariant ParamsLoop(tokens, index, params) == ParamsLoop(tokens, old(index), [])
        decreases |tokens.toks| - index
      {
        if !IsIdentifier() {
          return Returned, None;
        }
        params := params + [current.value.value];
        Consume();
        if current.None? {
          return Threw, None;
        }
        if !IsKind("COMMA") && !IsKind("CLOSE_PARENT_BRACKET") {
          return Returned, None;
        }
        if IsKind("COMMA") {
          Consume();
        }
      }
      if current.None? {
        return Threw, None;
      }
      Consume();
      return Returned, Some(params);
    }

    method ParseFunctionBody() returns (st: Status, v: Option<FunctionBody>)
      requires Valid()
      modifies this, lexer
      ensures Valid() && old(index) <= index
      ensures Matches(Parsing.ParseFunctionBody(tokens, old(index)), st, v, index)
      decreases |tokens.toks| - index, 0
    {
      if current.None? {
        return Threw, None;
      }
      if !IsKind("OPEN_CURLY_BRACKET") {
        return Returned, None;
      }
      Consume();
      var statements: seq<Option<Node>> := [];
      var declaration: seq<Option<Node>> := [];
      while current.Some? && !IsKind("CLOSE_CURLY_BRACKET")
        invariant Valid() && old(index) < index
        invariant BodyLoop(tokens, index, Lists(statements, declaration)) == Parsing.ParseFunctionBody(tokens, old(index))
        decreases |tokens.toks| - index
      {
        ghost var before := index;
        var was := current;
        var sst, step := ParseStatementStep();
        if sst != Returned {
          return sst, None;
        }
        if index != before {
          CurrentTokenMoves(tokens, before, index);
        }
        if current == was {
          return Looped, None;
        }
        statements := statements + step.statements;
        declaration := declaration + step.declarations;
      }
      if current.None? {
        return Threw, None;
      }
      Consume();
      return Returned, Some(FunctionBody(declaration, statements));
    }

    /** One pass of the statement loops of `parse_statement_list` and
        `parse_function_body`, which repeat the same code. */
    method ParseStatementStep() returns (st: Status, v: Lists)
      requires Valid()
      modifies this, lexer
      ensures Valid() && old(index) <= index
      ensures Matches(StatementStep(tokens, old(index)), st, v, index)
      decreases |tokens.toks| - index, 1
    {
      v := Lists([], []);
      if current.None? {
        return Threw, v;
      }
      if IsVar() {
        var vst, varDecl := ParseVariableDeclaration();
        if vst != Returned {
          return vst, v;
        }
        v := Lists([varDecl], [varDecl]);
      }
      if current.None? {
        return Threw, v;
      }
      if IsFun() {
        var fst, funDecl := ParseFunctionDeclaration();
        if fst != Returned {
          return fst, v;
        }
        v := Lists(v.statements + [funDecl], v.declarations + [funDecl]);
      }
      var est, expr := ParseExpressionStatement();
      if est != Returned {
        return est, v;
      }
      if expr.Some? {
        v := Lists(v.statements + [expr], v.declarations);
      }
      return Returned, v;
    }

    method ParseExpressionStatement() returns (st: Status, v: Option<Node>)
      requires Valid()
      modifies this, lexer
      ensures Valid() && old(index) <= index
      ensures Matches(Parsing.ParseExpressionStatement(tokens, old(index)), st, v, index)
    {
      if current.None? {
        return Threw, None;
      }
      if !IsIdentifier() {
        return Returned, None;
      }
      var identifier := current.value.value;
      Consume();
      if current.None? {
        return Threw, None;
      }
      if IsKind("OPEN_PARENT_BRACKET") {
        st, v := ParseCall(identifier);
        return;
      }
      if IsKind("EQUAL") {
        st, v := ParseAssignment(identifier);
        return;
      }
      return Returned, None;
    }

    method ParseStatementList() returns (st: Status, v: ScopeNode)
      requires Valid()
      modifies this, lexer
      ensures Valid() && old(index) <= index
      ensures Matches(StatementListLoop(tokens, old(index), Lists([], [])), st, v, index)
    {
      var statements: seq<Option<Node>> := [];
      var declaration: seq<Option<Node>> := [];
      v := ScopeNode([], []);
      while current.Some? && !IsEof()
        invariant Valid() && old(index) <= index
        invariant StatementListLoop(tokens, index, Lists(statements, declaration)) ==
                  StatementListLoop(tokens, old(index), Lists([], []))
        decreases |tokens.toks| - index
      {
        ghost var before := index;
        var was := current;
        var sst, step := ParseStatementStep();
        if sst != Returned {
          return sst, v;
        }
        if index != before {
          CurrentTokenMoves(tokens, before, index);
        }
        if current == was {
          return Looped, v;
        }
        statements := statements + step.statements;
        declaration := declaration + step.declarations;
      }
      if current.None? {
        return Threw, v;
      }
      return Returned, ScopeNode(declaration, statements);
    }
  }

  /** `new Parser(input).parse_statement_list()`: the object computes `Parse`. */
  method ParseProgram(input: string) returns (st: Status, v: ScopeNode)
    ensures match Parse(input)
            case Parsed(value, _) => st == Returned && v == value
            case Crashed => st == Threw
            case Diverged => st == Looped
  {
    var parser := new Parser(input);
    st, v := parser.ParseStatementList();
  }
}
