/** What running a node does to the interpreter's state, node kind by node kind. Calls can
    recurse without end; `fuel` bounds the depth of nested calls, and running out of it is
    the model's stand-in for the JavaScript code exhausting its stack. */
module Evaluation {
  import opened Wrappers
  import opened Ast
  import opened Contexts

  /** How a run ends: with a value, with the `TypeError` the JavaScript code would throw (a `null`
      node or target, a call of a non-function, a binding without a current context), out of
      fuel, or in a case the model leaves open (`/`, `%`, string concatenation). */
  datatype Signal = Normal(value: Val) | Crash | OutOfFuel | NotModelled

  datatype Outcome = Outcome(signal: Signal, state: State)

  /** Running one node. */
  function Exec(n: Node, st: State, fuel: nat): Outcome
    decreases fuel, n
  {
    match n
    case VariableDeclaration(_, init) =>
      if init.None? then Outcome(Crash, st)
      else
        var o := Exec(init.value, st, fuel);
        if o.signal.Normal? then Outcome(Normal(Undefined), o.state) else o
    case FunctionDeclaration(name, params, body) =>
      (match SetCurrent(st, name, FunctionObject(name, params, body))
       case Some(s) => Outcome(Normal(Undefined), s)
       case None => Outcome(Crash, st))
    case AssignmentExpression(target, rhs) =>
      if rhs.None? then Outcome(Crash, st)
      else
        var o := Exec(rhs.value, st, fuel);
        if !o.signal.Normal? then o
        else
          (match SetCurrent(o.state, target, o.signal.value)
           case Some(s) => Outcome(Normal(Undefined), s)
           case None => Outcome(Crash, o.state))
    case CallExpression(name, args) =>
      Invoke(Resolve(st.contexts, name), args, st, fuel)
    case Value(text) =>
      Outcome(Normal(ParseInt(text)), st)
    case Identifier(id) =>
      Outcome(Normal(Resolve(st.contexts, id)), st)
    case BinaryExpression(op, left, right) =>
      var l := Exec(left, st, fuel);
      if !l.signal.Normal? then l
      else
        var r := Exec(right, l.state, fuel);
        if !r.signal.Normal? then r
        else
          (match ApplyOperator(op, l.signal.value, r.signal.value)
           case Some(v) => Outcome(Normal(v), r.state)
           case None => Outcome(NotModelled, r.state))
    case ReturnExpression(e) =>
      Exec(e, st, fuel)
  }

  /** Calling `target` with `args`: a context is pushed, each argument is run in it and
      bound to its parameter, the body runs, the context is popped, and a `null` or
      `undefined` result becomes `undefined`. */
  function Invoke(target: Val, args: Option<Arguments>, st: State, fuel: nat): Outcome
    decreases fuel, args
  {
    if !target.FunctionObject? || args.None? then Outcome(Crash, st)
    else if fuel == 0 then Outcome(OutOfFuel, st)
    else
      var bound := BindArguments(target.params, args.value, 0, Push(st), fuel - 1);
      if !bound.signal.Normal? then bound
      else if target.body.None? then Outcome(Crash, bound.state)
      else
        var ran := ExecBody(target.body.value, 0, bound.state, fuel - 1);
        if !ran.signal.Normal? then ran
        else
          var v := ran.signal.value;
          Outcome(Normal(if v.Null? then Undefined else v), Pop(ran.state))
  }

  /** Arguments `i` onward, in order, each run in the current context and then bound there
      to its parameter. An argument past the last parameter is run but not bound. */
  function BindArguments(params: seq<string>, args: Arguments, i: nat, st: State, fuel: nat): Outcome
    requires i <= |args.items|
    decreases fuel, args, |args.items| - i
  {
    if i == |args.items| then Outcome(Normal(Undefined), st)
    else if args.items[i].None? then Outcome(Crash, st)
    else
      var o := Exec(args.items[i].value, st, fuel);
      if !o.signal.Normal? then o
      else if i >= |params| then BindArguments(params, args, i + 1, o.state, fuel)
      else
        match SetCurrent(o.state, params[i], o.signal.value)
        case Some(s) => BindArguments(params, args, i + 1, s, fuel)
        case None => Outcome(Crash, o.state)
  }

  /** A function body from statement `i` on: statements run in order, and the first
      `ReturnExpression` ends the body with its value. */
  function ExecBody(body: FunctionBody, i: nat, st: State, fuel: nat): Outcome
    requires i <= |body.statements|
    decreases fuel, body, |body.statements| - i
  {
    if i == |body.statements| then Outcome(Normal(Undefined), st)
    else
      match body.statements[i]
      case None => Outcome(Crash, st)
      case Some(stmt) =>
        var o := Exec(stmt, st, fuel);
        if !o.signal.Normal? || stmt.ReturnExpression? then o
        else ExecBody(body, i + 1, o.state, fuel)
  }

  /** The program's statements from `i` on, in order; their values are dropped. */
  function ExecStatements(scope: ScopeNode, i: nat, st: State, fuel: nat): Outcome
    requires i <= |scope.statements|
    decreases |scope.statements| - i
  {
    if i == |scope.statements| then Outcome(Normal(Undefined), st)
    else
      match scope.statements[i]
      case None => Outcome(Crash, st)
      case Some(stmt) =>
        var o := Exec(stmt, st, fuel);
        if !o.signal.Normal? then o
        else ExecStatements(scope, i + 1, o.state, fuel)
  }

  /** The program runs in a context of its own, pushed before and popped after. */
  function ExecScope(scope: ScopeNode, st: State, fuel: nat): Outcome
  {
    var o := ExecStatements(scope, 0, Push(st), fuel);
    if o.signal.Normal? then Outcome(Normal(Undefined), Pop(o.state)) else o
  }

  /** Running the interpreter's tree; a missing tree is a crash. */
  function Run(ast: Option<ScopeNode>, st: State, fuel: nat): Outcome
  {
    if ast.None? then Outcome(Crash, st) else ExecScope(ast.value, st, fuel)
  }

  // ----- Frames -----

  /** `after` has the stack depth of `before` and the same contexts below the current one:
      only the current context may differ. */
  predicate KeepsOuter(before: State, after: State)
  {
    |after.contexts| == |before.contexts| &&
    (|before.contexts| == 0 || after.contexts[1..] == before.contexts[1..])
  }

  /** The history of popped contexts only grows. */
  predicate Extends(before: State, after: State)
  {
    before.history <= after.history
  }

  /** Running a node never rewrites the history, and when it ends normally the stack has
      its old depth and every context but the current one is as it was. */
  lemma {:induction false} ExecFrame(n: Node, st: State, fuel: nat)
    ensures Extends(st, Exec(n, st, fuel).state)
    ensures Exec(n, st, fuel).signal.Normal? ==> KeepsOuter(st, Exec(n, st, fuel).state)
    decreases fuel, n
  {
    match n
    case VariableDeclaration(_, init) =>
      if init.Some? {
        ExecFrame(init.value, st, fuel);
      }
    case FunctionDeclaration(name, params, body) =>
    case AssignmentExpression(target, rhs) =>
      if rhs.Some? {
        ExecFrame(rhs.value, st, fuel);
      }
    case CallExpression(name, args) =>
      InvokeFrame(Resolve(st.contexts, name), args, st, fuel);
    case Value(text) =>
    case Identifier(id) =>
    case BinaryExpression(op, left, right) =>
      ExecFrame(left, st, fuel);
      var l := Exec(left, st, fuel);
      ExecFrame(right, l.state, fuel);
    case ReturnExpression(e) =>
      ExecFrame(e, st, fuel);
  }

  /** A call that returns leaves the caller's whole stack exactly as it was. */
  lemma {:induction false} InvokeFrame(target: Val, args: Option<Arguments>, st: State, fuel: nat)
    ensures Extends(st, Invoke(target, args, st, fuel).state)
    ensures Invoke(target, args, st, fuel).signal.Normal? ==>
              Invoke(target, args, st, fuel).state.contexts == st.contexts
    decreases fuel, args
  {
    if target.FunctionObject? && args.Some? && fuel > 0 {
      var pushed := Push(st);
      BindFrame(target.params, args.value, 0, pushed, fuel - 1);
      var bound := BindArguments(target.params, args.value, 0, pushed, fuel - 1);
      if bound.signal.Normal? && target.body.Some? {
        BodyFrame(target.body.value, 0, bound.state, fuel - 1);
        var ran := ExecBody(target.body.value, 0, bound.state, fuel - 1);
        if ran.signal.Normal? {
          assert ran.state.contexts[1..] == bound.state.contexts[1..] == st.contexts;
        }
      }
    }
  }

  lemma {:induction false} BindFrame(params: seq<string>, args: Arguments, i: nat, st: State, fuel: nat)
    requires i <= |args.items|
    ensures Extends(st, BindArguments(params, args, i, st, fuel).state)
    ensures BindArguments(params, args, i, st, fuel).signal.Normal? ==>
              KeepsOuter(st, BindArguments(params, args, i, st, fuel).state)
    decreases fuel, args, |args.items| - i
  {
    if i < |args.items| && args.items[i].Some? {
      ExecFrame(args.items[i].value, st, fuel);
      var o := Exec(args.items[i].value, st, fuel);
      if o.signal.Normal? {
        if i >= |params| {
          BindFrame(params, args, i + 1, o.state, fuel);
        } else if SetCurrent(o.state, params[i], o.signal.value).Some? {
          BindFrame(params, args, i + 1, SetCurrent(o.state, params[i], o.signal.value).value, fuel);
        }
      }
    }
  }

  /** A function body pushes and pops nothing of its own. */
  lemma {:induction false} BodyFrame(body: FunctionBody, i: nat, st: State, fuel: nat)
    requires i <= |body.statements|
    ensures Extends(st, ExecBody(body, i, st, fuel).state)
    ensures ExecBody(body, i, st, fuel).signal.Normal? ==> KeepsOuter(st, ExecBody(body, i, st, fuel).state)
    decreases fuel, body, |body.statements| - i
  {
    if i < |body.statements| && body.statements[i].Some? {
      var stmt := body.statements[i].value;
      ExecFrame(stmt, st, fuel);
      var o := Exec(stmt, st, fuel);
      if o.signal.Normal? && !stmt.ReturnExpression? {
        BodyFrame(body, i + 1, o.state, fuel);
      }
    }
  }

  lemma {:induction false} StatementsFrame(scope: ScopeNode, i: nat, st: State, fuel: nat)
    requires i <= |scope.statements|
    ensures Extends(st, ExecStatements(scope, i, st, fuel).state)
    ensures ExecStatements(scope, i, st, fuel).signal.Normal? ==>
              KeepsOuter(st, ExecStatements(scope, i, st, fuel).state)
    decreases |scope.statements| - i
  {
    if i < |scope.statements| && scope.statements[i].Some? {
      var stmt := scope.statements[i].value;
      ExecFrame(stmt, st, fuel);
      var o := Exec(stmt, st, fuel);
      if o.signal.Normal? {
        StatementsFrame(scope, i + 1, o.state, fuel);
      }
    }
  }

  /** The program's scope pushes exactly one context and pops it again: a run that ends
      normally restores the stack and records the program's context last in the history. */
  lemma ScopeRestoresStack(scope: ScopeNode, st: State, fuel: nat)
    ensures Extends(st, ExecScope(scope, st, fuel).state)
    ensures ExecScope(scope, st, fuel).signal.Normal? ==>
              ExecScope(scope, st, fuel).state.contexts == st.contexts
    // the context recorded last is the program's own, as its statements left it
    ensures var o := ExecStatements(scope, 0, Push(st), fuel);
            var h := ExecScope(scope, st, fuel).state.history;
            o.signal.Normal? ==> |o.state.contexts| > 0 && |h| > 0 && h[|h| - 1] == Some(o.state.contexts[0])
  {
    StatementsFrame(scope, 0, Push(st), fuel);
  }

  /** A fresh interpreter that runs a program to the end is left with an empty stack. */
  lemma RunLeavesStackEmpty(scope: ScopeNode, fuel: nat)
    ensures Run(Some(scope), Initial, fuel).signal.Normal? ==> Run(Some(scope), Initial, fuel).state.contexts == []
  {
    ScopeRestoresStack(scope, Initial, fuel);
  }

  // ----- Node by node -----

  /** A call that returns leaves every context of the caller as it was. */
  lemma CallRestoresStack(name: string, args: Option<Arguments>, st: State, fuel: nat)
    ensures Exec(CallExpression(name, args), st, fuel).signal.Normal? ==>
              Exec(CallExpression(name, args), st, fuel).state.contexts == st.contexts
  {
    InvokeFrame(Resolve(st.contexts, name), args, st, fuel);
  }

  /** Calling anything but a function object, an unbound name included, is a crash that
      changes nothing. */
  lemma CallOfNonFunctionCrashes(name: string, args: Option<Arguments>, st: State, fuel: nat)
    requires !Resolve(st.contexts, name).FunctionObject?
    ensures Exec(CallExpression(name, args), st, fuel) == Outcome(Crash, st)
  {
  }

  /** A declaration has exactly the effect of its initializer, and its value is `undefined`. */
  lemma VariableDeclarationIsItsInit(x: string, init: Node, st: State, fuel: nat)
    ensures Exec(VariableDeclaration(x, Some(init)), st, fuel).state == Exec(init, st, fuel).state
    ensures Exec(VariableDeclaration(x, Some(init)), st, fuel).signal ==
              if Exec(init, st, fuel).signal.Normal? then Normal(Undefined) else Exec(init, st, fuel).signal
  {
  }

  /** A function declaration binds its name to a function object in the current context
      only; without a current context it crashes. */
  lemma FunctionDeclarationBindsCurrent(name: string, params: seq<string>, body: Option<FunctionBody>, st: State, fuel: nat)
    ensures Exec(FunctionDeclaration(name, params, body), st, fuel).signal.Normal? <==> |st.contexts| > 0
    ensures |st.contexts| > 0 ==>
              var after := Exec(FunctionDeclaration(name, params, body), st, fuel).state;
              KeepsOuter(st, after) && after.history == st.history &&
              after.contexts[0] == st.contexts[0][name := FunctionObject(name, params, body)]
  {
  }

  /** An assignment runs its right-hand side first and then binds the target in the current
      context, whichever context held the name before; outer contexts keep their bindings. */
  lemma AssignmentWritesCurrent(x: string, rhs: Node, st: State, fuel: nat)
    ensures var o := Exec(rhs, st, fuel);
            var a := Exec(AssignmentExpression(x, Some(rhs)), st, fuel);
            a.signal.Normal? ==>
              o.signal.Normal? && |st.contexts| > 0 && KeepsOuter(st, a.state) &&
              a.state.contexts[0] == o.state.contexts[0][x := o.signal.value]
  {
    ExecFrame(rhs, st, fuel);
  }

  /** Both operands run, left before right, whatever the operator: even `&&` with a falsy
      left operand and `||` with a truthy one run the right operand, a failure of either is
      the expression's, and the right operand starts from the state the left one left. */
  lemma BinaryRunsBothOperands(op: string, left: Node, right: Node, st: State, fuel: nat)
    ensures var l := Exec(left, st, fuel);
            var r := Exec(right, l.state, fuel);
            var b := Exec(BinaryExpression(op, left, right), st, fuel);
            if !l.signal.Normal? then b == l
            else if !r.signal.Normal? then b == r
            else b.state == r.state && (b.signal.Normal? <==> ApplyOperator(op, l.signal.value, r.signal.value).Some?)
  {
    var l := Exec(left, st, fuel);
    if l.signal.Normal? {
      var r := Exec(right, l.state, fuel);
      if r.signal.Normal? {
        var v := ApplyOperator(op, l.signal.value, r.signal.value);
        assert Exec(BinaryExpression(op, left, right), st, fuel) ==
               if v.Some? then Outcome(Normal(v.value), r.state) else Outcome(NotModelled, r.state);
      }
    }
  }

  /** A literal of digits runs to the base-10 number it spells and changes nothing. */
  lemma LiteralValue(text: string, st: State, fuel: nat)
    requires 0 < |text| && AllDigits(text)
    ensures Exec(Value(text), st, fuel) == Outcome(Normal(Number(DecimalValue(text))), st)
  {
    ParseIntOfDigits(text);
  }

  /** Statements after a body's first `ReturnExpression` never run: whatever follows it,
      the body ends as it would if the return were its last statement. */
  lemma {:induction false} ReturnEndsBody(decls: seq<Option<Node>>, before: seq<Option<Node>>, e: Node,
                                           after: seq<Option<Node>>, i: nat, st: State, fuel: nat)
    requires i <= |before|
    ensures var ret := [Some(ReturnExpression(e))];
            ExecBody(FunctionBody(decls, before + ret + after), i, st, fuel) ==
            ExecBody(FunctionBody(decls, before + ret), i, st, fuel)
    decreases |before| - i
  {
    var ret := [Some(ReturnExpression(e))];
    var long, short := FunctionBody(decls, before + ret + after), FunctionBody(decls, before + ret);
    assert long.statements[i] == short.statements[i];
    if i < |before| {
      match before[i]
      case None =>
      case Some(stmt) =>
        var o := Exec(stmt, st, fuel);
        if o.signal.Normal? && !stmt.ReturnExpression? {
          ReturnEndsBody(decls, before, e, after, i + 1, o.state, fuel);
        }
    }
  }
  // ----- Scoping -----

  /** Arguments run inside the callee's new context, in order, so a later argument sees the
      parameter an earlier one has just bound: with parameters `a, b` and arguments `n, a`,
      both parameters end up bound to `n`. */
  lemma LaterArgumentsSeeEarlierParams(a: string, b: string, n: nat, st: State, fuel: nat)
    requires |st.contexts| > 0 && n > 0
    ensures var args := Arguments([Some(Value(DecimalString(n))), Some(Identifier(a))]);
            var o := BindArguments([a, b], args, 0, st, fuel);
            && o.signal == Normal(Undefined)
            && |o.state.contexts| == |st.contexts|
            && a in o.state.contexts[0] && b in o.state.contexts[0]
            && o.state.contexts[0][a] == o.state.contexts[0][b] == Number(n)
  {
    var args := Arguments([Some(Value(DecimalString(n))), Some(Identifier(a))]);
    ParseIntRoundTrip(n);
    var first := SetCurrent(st, a, Number(n)).value;
    assert BindArguments([a, b], args, 0, st, fuel) == BindArguments([a, b], args, 1, first, fuel);
    SetThenResolve(st, a, Number(n));
    assert Exec(Identifier(a), first, fuel) == Outcome(Normal(Number(n)), first);
    var second := SetCurrent(first, b, Number(n)).value;
    assert BindArguments([a, b], args, 1, first, fuel) == BindArguments([a, b], args, 2, second, fuel);
    assert BindArguments([a, b], args, 2, second, fuel) == Outcome(Normal(Undefined), second);
  }

  /** Scoping is dynamic: a function that returns the name `x` answers what `x` resolves to
      in the caller's stack, since its own context is pushed on top of the caller's. */
  lemma CalleeSeesCallerBindings(f: string, x: string, st: State, fuel: nat)
    requires fuel > 0
    ensures var body := FunctionBody([], [Some(ReturnExpression(Identifier(x)))]);
            var v := Resolve(st.contexts, x);
            Invoke(FunctionObject(f, [], Some(body)), Some(Arguments([])), st, fuel) ==
              Outcome(Normal(if v.Null? then Undefined else v), Pop(Push(st)))
  {
    var body := FunctionBody([], [Some(ReturnExpression(Identifier(x)))]);
    var pushed := Push(st);
    assert pushed.contexts[1..] == st.contexts;
    assert Resolve(pushed.contexts, x) == Resolve(st.contexts, x);
    assert BindArguments([], Arguments([]), 0, pushed, fuel - 1) == Outcome(Normal(Undefined), pushed);
    assert Exec(ReturnExpression(Identifier(x)), pushed, fuel - 1) == Outcome(Normal(Resolve(st.contexts, x)), pushed);
    assert ExecBody(body, 0, pushed, fuel - 1) == Outcome(Normal(Resolve(st.contexts, x)), pushed);
  }

  // ----- Binding arguments -----

  /** Arguments `i` onward are all literals. */
  predicate LiteralsFrom(args: Arguments, i: nat)
  {
    forall j :: i <= j < |args.items| ==> args.items[j].Some? && args.items[j].value.Value?
  }

  /** How many arguments are bound to a parameter: the rest are run but not bound. */
  function Bindable(params: seq<string>, args: Arguments): nat
  {
    if |params| < |args.items| then |params| else |args.items|
  }

  /** Parameter `j` is not bound again by a later argument below `m`. */
  predicate LastBinding(params: seq<string>, j: nat, m: nat)
    requires j < m <= |params|
  {
    forall q :: j < q < m ==> params[q] != params[j]
  }

  /** `x` is none of the parameters `i` to `m` bind. */
  predicate Unbound(params: seq<string>, i: nat, m: nat, x: string)
    requires m <= |params|
  {
    forall j :: i <= j < m ==> params[j] != x
  }

  /** With literal arguments the argument loop binds, in the current context only, each
      parameter to the number its argument spells, a later binding of the same name winning
      over an earlier one; every other name keeps its binding. */
  lemma {:induction false} BindLiteralArguments(params: seq<string>, args: Arguments, i: nat, st: State, fuel: nat)
    requires i <= |args.items| && |st.contexts| > 0 && LiteralsFrom(args, i)
    ensures var o := BindArguments(params, args, i, st, fuel);
            var m := Bindable(params, args);
            && o.signal == Normal(Undefined)
            && |o.state.contexts| == |st.contexts| && o.state.contexts[1..] == st.contexts[1..]
            && o.state.history == st.history
            && (forall j :: i <= j < m && LastBinding(params, j, m) ==>
                  params[j] in o.state.contexts[0] && o.state.contexts[0][params[j]] == ParseInt(args.items[j].value.value))
            && (forall x :: Unbound(params, i, m, x) ==>
                  (x in o.state.contexts[0] <==> x in st.contexts[0]) &&
                  (x in st.contexts[0] ==> o.state.contexts[0][x] == st.contexts[0][x]))
    decreases |args.items| - i
  {
    var m := Bindable(params, args);
    if i < |args.items| {
      var v := ParseInt(args.items[i].value.value);
      assert Exec(args.items[i].value, st, fuel) == Outcome(Normal(v), st);
      if i < |params| {
        var st1 := SetCurrent(st, params[i], v).value;
        BindLiteralArguments(params, args, i + 1, st1, fuel);
        var o := BindArguments(params, args, i + 1, st1, fuel);
        assert BindArguments(params, args, i, st, fuel) == o;
        forall j | i <= j < m && LastBinding(params, j, m)
          ensures params[j] in o.state.contexts[0] && o.state.contexts[0][params[j]] == ParseInt(args.items[j].value.value)
        {
          if j == i {
            assert Unbound(params, i + 1, m, params[i]);
          }
        }
        forall x | Unbound(params, i, m, x)
          ensures (x in o.state.contexts[0] <==> x in st.contexts[0]) &&
                  (x in st.contexts[0] ==> o.state.contexts[0][x] == st.contexts[0][x])
        {
          assert Unbound(params, i + 1, m, x) && x != params[i];
        }
      } else {
        BindLiteralArguments(params, args, i + 1, st, fuel);
        forall x | Unbound(params, i, m, x) ensures Unbound(params, i + 1, m, x) {
        }
      }
    }
  }
}
