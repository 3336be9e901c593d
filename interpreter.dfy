/** The interpreter object: the context stack and the history of popped contexts as fields
    changed in place, the tree to run, and the `execute` step of every node kind. Each
    method is proved to do what the functions of `Evaluation` say, so the lemmas about those
    functions hold of the object. */
module Interpreting {
  import opened Wrappers
  import opened Ast
  import opened Contexts
  import opened Evaluation

  class Interpreter {
    /** Innermost context first. */
    var contexts: seq<Context>
    /** Every popped context, in pop order. */
    var history: seq<Option<Context>>
    var ast: Option<ScopeNode>

    /** The fields as a value of the state functions. */
    function Snapshot(): State
      reads this
    {
      State(contexts, history)
    }

    constructor()
      ensures Snapshot() == Initial && ast == None
    {
      contexts := [];
      history := [];
      ast := None;
    }

    function CurrentExecutionContext(): (c: Option<Context>)
      reads this
      ensures c.Some? <==> |contexts| > 0
      ensures c.Some? ==> c.value == contexts[0]
    {
      Current(Snapshot())
    }

    method AppendNewExecutionContext()
      modifies this
      ensures Snapshot() == Push(old(Snapshot())) && ast == old(ast)
    {
      contexts := [map[]] + contexts;
    }

    method PopCurrentExecutionContext()
      modifies this
      ensures Snapshot() == Pop(old(Snapshot())) && ast == old(ast)
    {
      if |contexts| > 0 {
        var old_context := contexts[0];
        contexts := contexts[1..];
        history := history + [Some(old_context)];
      } else {
        history := history + [None];
      }
    }

    /** `current_execution_context().set(name, v)`; `false` when there is no current
        context, and then nothing changes. */
    method SetInCurrent(name: string, v: Val) returns (ok: bool)
      modifies this
      ensures ok <==> |old(contexts)| > 0
      ensures ok ==> Some(Snapshot()) == SetCurrent(old(Snapshot()), name, v)
      ensures !ok ==> Snapshot() == old(Snapshot())
      ensures ast == old(ast)
    {
      if |contexts| == 0 {
        return false;
      }
      contexts := [contexts[0][name := v]] + contexts[1..];
      return true;
    }

    /** Walks the stack from the innermost context outward and stops at the first truthy
        binding. */
    method ResolveIdentifier(id: string) returns (v: Val)
      ensures v == Resolve(contexts, id)
    {
      var k := 0;
      while k < |contexts|
        invariant 0 <= k <= |contexts|
        invariant Resolve(contexts[k..], id) == Resolve(contexts, id)
      {
        var context := contexts[k];
        assert contexts[k..][0] == context && contexts[k..][1..] == contexts[k + 1..];
        if id in context && Truthy(context[id]) {
          return context[id];
        }
        k := k + 1;
      }
      return Null;
    }

    method Execute(n: Node, fuel: nat) returns (s: Signal)
      modifies this
      ensures Outcome(s, Snapshot()) == Exec(n, old(Snapshot()), fuel) && ast == old(ast)
      decreases fuel, n
    {
      match n
      case VariableDeclaration(_, init) =>
        if init.None? {
          return Crash;
        }
        s := Execute(init.value, fuel);
        if s.Normal? {
          s := Normal(Undefined);
        }
      case FunctionDeclaration(name, params, body) =>
        var ok := SetInCurrent(name, FunctionObject(name, params, body));
        s := if ok then Normal(Undefined) else Crash;
      case AssignmentExpression(target, rhs) =>
        if rhs.None? {
          return Crash;
        }
        s := Execute(rhs.value, fuel);
        if s.Normal? {
          var ok := SetInCurrent(target, s.value);
          s := if ok then Normal(Undefined) else Crash;
        }
      case CallExpression(name, args) =>
        var target := ResolveIdentifier(name);
        s := ExecuteCall(target, args, fuel);
      case Value(text) =>
        s := Normal(ParseInt(text));
      case Identifier(id) =>
        var v := ResolveIdentifier(id);
        s := Normal(v);
      case BinaryExpression(op, left, right) =>
        var l := Execute(left, fuel);
        if !l.Normal? {
          return l;
        }
        var r := Execute(right, fuel);
        if !r.Normal? {
          return r;
        }
        var v := ApplyOperator(op, l.value, r.value);
        s := if v.Some? then Normal(v.value) else NotModelled;
      case ReturnExpression(e) =>
        s := Execute(e, fuel);
    }

    /** `target.execute(interpreter, args)`. */
    method ExecuteCall(target: Val, args: Option<Arguments>, fuel: nat) returns (s: Signal)
      modifies this
      ensures Outcome(s, Snapshot()) == Invoke(target, args, old(Snapshot()), fuel) && ast == old(ast)
      decreases fuel, args
    {
      if !target.FunctionObject? || args.None? {
        return Crash;
      }
      if fuel == 0 {
        return OutOfFuel;
      }
      AppendNewExecutionContext();
      s := ExecuteArguments(target.params, args.value, fuel - 1);
      if !s.Normal? {
        return;
      }
      if target.body.None? {
        return Crash;
      }
      s := ExecuteFunctionBody(target.body.value, fuel - 1);
      if !s.Normal? {
        return;
      }
      PopCurrentExecutionContext();
      if s.value.Null? {
        s := Normal(Undefined);
      }
    }

    /** Runs the arguments in order and binds each to its parameter in the current context. */
    method ExecuteArguments(params: seq<string>, args: Arguments, fuel: nat) returns (s: Signal)
      modifies this
      ensures Outcome(s, Snapshot()) == BindArguments(params, args, 0, old(Snapshot()), fuel) && ast == old(ast)
      decreases fuel, args
    {
      var i := 0;
      while i < |args.items|
        invariant 0 <= i <= |args.items| && ast == old(ast)
        invariant BindArguments(params, args, i, Snapshot(), fuel) == BindArguments(params, args, 0, old(Snapshot()), fuel)
      {
        if args.items[i].None? {
          return Crash;
        }
        s := Execute(args.items[i].value, fuel);
        if !s.Normal? {
          return;
        }
        if i < |params| {
          var ok := SetInCurrent(params[i], s.value);
          if !ok {
            return Crash;
          }
        }
        i := i + 1;
      }
      return Normal(Undefined);
    }

    /** `FunctionBody.execute`: the statements in order, up to and including the first
        `ReturnExpression`, whose value is the body's. */
    method ExecuteFunctionBody(body: FunctionBody, fuel: nat) returns (s: Signal)
      modifies this
      ensures Outcome(s, Snapshot()) == ExecBody(body, 0, old(Snapshot()), fuel) && ast == old(ast)
      decreases fuel, body
    {
      var i := 0;
      while i < |body.statements|
        invariant 0 <= i <= |body.statements| && ast == old(ast)
        invariant ExecBody(body, i, Snapshot(), fuel) == ExecBody(body, 0, old(Snapshot()), fuel)
      {
        var stmt := body.statements[i];
        if stmt.None? {
          return Crash;
        }
        s := Execute(stmt.value, fuel);
        if !s.Normal? || stmt.value.ReturnExpression? {
          return;
        }
        i := i + 1;
      }
      return Normal(Undefined);
    }

    /** `ScopeNode.execute`: a context is pushed, the statements run in order, and the
        context is popped. */
    method ExecuteScope(scope: ScopeNode, fuel: nat) returns (s: Signal)
      modifies this
      ensures Outcome(s, Snapshot()) == ExecScope(scope, old(Snapshot()), fuel) && ast == old(ast)
    {
      AppendNewExecutionContext();
      var i := 0;
      while i < |scope.statements|
        invariant 0 <= i <= |scope.statements| && ast == old(ast)
        invariant ExecStatements(scope, i, Snapshot(), fuel) == ExecStatements(scope, 0, Push(old(Snapshot())), fuel)
      {
        var stmt := scope.statements[i];
        if stmt.None? {
          return Crash;
        }
        s := Execute(stmt.value, fuel);
        if !s.Normal? {
          return;
        }
        i := i + 1;
      }
      PopCurrentExecutionContext();
      return Normal(Undefined);
    }

    /** Runs the tree once. */
    method Run(fuel: nat) returns (s: Signal)
      modifies this
      ensures Outcome(s, Snapshot()) == Evaluation.Run(old(ast), old(Snapshot()), fuel) && ast == old(ast)
    {
      if ast.None? {
        return Crash;
      }
      s := ExecuteScope(ast.value, fuel);
    }
  }
}
