/** The interpreter's state: a stack of execution contexts, innermost first, and the record
    of every context popped so far. A context maps names to values. */
module Contexts {
  import opened Wrappers
  import opened Ast

  type Context = map<string, Val>

  /** `contexts[0]` is the current context. `history` holds what each pop removed, in pop
      order; a pop of the empty stack records `None` (the `undefined` of `interpreter.js`). */
  datatype State = State(contexts: seq<Context>, history: seq<Option<Context>>)

  /** The state of a fresh interpreter. */
  const Initial: State := State([], [])

  /** The current context; `None` when the stack is empty. */
  function Current(st: State): (c: Option<Context>)
    ensures c.Some? <==> |st.contexts| > 0
    ensures c.Some? ==> c.value == st.contexts[0]
  {
    if |st.contexts| > 0 then Some(st.contexts[0]) else None
  }

  /** A fresh empty context becomes the current one; the older contexts keep their order. */
  function Push(st: State): (r: State)
    ensures |r.contexts| == |st.contexts| + 1
    ensures r.contexts[0] == map[] && r.contexts[1..] == st.contexts
    ensures r.history == st.history
  {
    State([map[]] + st.contexts, st.history)
  }

  /** The current context is removed and recorded; the others are unchanged and in order. */
  function Pop(st: State): (r: State)
    ensures |r.history| == |st.history| + 1 && r.history[..|st.history|] == st.history
    ensures |st.contexts| > 0 ==> r.contexts == st.contexts[1..] && r.history[|st.history|] == Some(st.contexts[0])
    ensures |st.contexts| == 0 ==> r.contexts == [] && r.history[|st.history|] == None
  {
    if |st.contexts| > 0 then State(st.contexts[1..], st.history + [Some(st.contexts[0])])
    else State([], st.history + [None])
  }

  /** Binds `name` to `v` in the current context; `None` when there is no current context
      (`ast.js` then fails calling `set` on `undefined`). */
  function SetCurrent(st: State, name: string, v: Val): (r: Option<State>)
    ensures r.Some? <==> |st.contexts| > 0
    ensures r.Some? ==> |r.value.contexts| == |st.contexts| && r.value.history == st.history
    ensures r.Some? ==> r.value.contexts[0] == st.contexts[0][name := v]
    ensures r.Some? ==> r.value.contexts[1..] == st.contexts[1..]
  {
    if |st.contexts| > 0 then Some(State([st.contexts[0][name := v]] + st.contexts[1..], st.history))
    else None
  }

  /** Name lookup: the first truthy binding of `id`, searching from the innermost context
      outward; `null` when there is none. A falsy binding such as 0 is passed over. */
  function Resolve(contexts: seq<Context>, id: string): Val
  {
    if contexts == [] then Null
    else if id in contexts[0] && Truthy(contexts[0][id]) then contexts[0][id]
    else Resolve(contexts[1..], id)
  }

  /** Whether context `k` binds `id` to a truthy value. */
  predicate TruthyIn(contexts: seq<Context>, k: nat, id: string)
    requires k < |contexts|
  {
    id in contexts[k] && Truthy(contexts[k][id])
  }

  /** Lookup finds a truthy binding exactly when some context holds one, and then it is the
      binding of the innermost such context. */
  lemma {:induction false} ResolveFindsFirstTruthy(contexts: seq<Context>, id: string)
    ensures Resolve(contexts, id) != Null <==> exists k :: 0 <= k < |contexts| && TruthyIn(contexts, k, id)
    ensures Resolve(contexts, id) == Null || Truthy(Resolve(contexts, id))
    ensures forall k ::
              (0 <= k < |contexts| && TruthyIn(contexts, k, id) &&
               (forall j :: 0 <= j < k ==> !TruthyIn(contexts, j, id))) ==>
              Resolve(contexts, id) == contexts[k][id]
  {
    if contexts != [] {
      var rest := contexts[1..];
      ResolveFindsFirstTruthy(rest, id);
      forall k | 0 < k < |contexts| ensures TruthyIn(contexts, k, id) == TruthyIn(rest, k - 1, id) {
        assert contexts[k] == rest[k - 1];
      }
      if !TruthyIn(contexts, 0, id) {
        if exists k :: 0 <= k < |rest| && TruthyIn(rest, k, id) {
          var k :| 0 <= k < |rest| && TruthyIn(rest, k, id);
          assert TruthyIn(contexts, k + 1, id);
        }
        forall k | 0 <= k < |contexts| && TruthyIn(contexts, k, id) &&
                   (forall j :: 0 <= j < k ==> !TruthyIn(contexts, j, id))
          ensures Resolve(contexts, id) == contexts[k][id]
        {
          forall j | 0 <= j < k - 1 ensures !TruthyIn(rest, j, id) {
            assert !TruthyIn(contexts, j + 1, id);
          }
          assert contexts[k] == rest[k - 1];
        }
      }
    }
  }

  /** Lookup never yields a binding outside the stack: a truthy result is bound to `id` in
      some context. */
  lemma {:induction false} ResolveIsABinding(contexts: seq<Context>, id: string)
    requires Resolve(contexts, id) != Null
    ensures exists k :: 0 <= k < |contexts| && id in contexts[k] && contexts[k][id] == Resolve(contexts, id)
  {
    if !TruthyIn(contexts, 0, id) {
      var rest := contexts[1..];
      ResolveIsABinding(rest, id);
      var k :| 0 <= k < |rest| && id in rest[k] && rest[k][id] == Resolve(rest, id);
      assert contexts[k + 1] == rest[k];
    }
  }

  /** A pushed context, popped again, leaves the stack as it was and records one empty
      context. */
  lemma PushThenPop(st: State)
    ensures Pop(Push(st)).contexts == st.contexts
    ensures Pop(Push(st)).history == st.history + [Some(map[])]
  {
  }

  /** A truthy binding in the current context shadows every outer one. */
  lemma CurrentShadows(st: State, id: string)
    requires |st.contexts| > 0 && TruthyIn(st.contexts, 0, id)
    ensures Resolve(st.contexts, id) == st.contexts[0][id]
  {
  }

  /** Binding `name` in the current context makes lookup find it when the value is truthy. */
  lemma SetThenResolve(st: State, name: string, v: Val)
    requires |st.contexts| > 0 && Truthy(v)
    ensures Resolve(SetCurrent(st, name, v).value.contexts, name) == v
  {
  }

  /** A falsy binding is passed over: after binding `name` to 0 in the current context,
      lookup answers what the outer contexts say. */
  lemma FalsyBindingIsSkipped(st: State, name: string)
    requires |st.contexts| > 0
    ensures Resolve(SetCurrent(st, name, Number(0)).value.contexts, name) == Resolve(st.contexts[1..], name)
  {
  }
}
