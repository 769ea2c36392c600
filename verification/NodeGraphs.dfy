/** The graph object: admission, dispatch, batch, commit and retirement.  Each method is the code
    between two awaits and is proved to perform exactly one step of GraphMachine, so everything
    proved about its runs holds of this object and of the contexts it made. */
module NodeGraphs {
  import opened Common
  import opened Batch
  import opened Targets
  import opened GraphMachine
  import opened GraphInvariant
  import Resume = GraphResume
  import opened GraphContexts
  import opened CommandLoop
  import opened GraphTheorems
  import opened GraphFate
  import opened GraphProgress
  import opened GraphEffects

  /** What apply_command raises or returns. */
  datatype Applied = Refused | Failure(reason: Reason) | Next(target: Target)

  lemma StepKeeps(m: Machine, a: Action)
    requires Inv(m) && Resume.Shape(m) && Enabled(m, a)
    ensures Inv(Step(m, a)) && Resume.Shape(Step(m, a))
  {
    StepKeepsInv(m, a);
    Resume.StepKeepsShape(m, a);
  }

  lemma WrittenTwice(m: Machine, c: nat, x: Context, y: Context)
    requires c < |m.ctxs|
    ensures SetContext(SetContext(m, c, x), c, y) == SetContext(m, c, y)
    ensures Settle(SetContext(m, c, x), c, y) == Settle(m, c, y)
  {
    assert m.ctxs[c := x][c := y] == m.ctxs[c := y];
  }

  /** What _post_next does to dispatch d before its publication. */
  function PostNextStep(m: Machine, d: nat, next: Target): Machine
    requires d < |m.tasks| && m.tasks[d].ctx < |m.ctxs|
  {
    var c := m.tasks[d].ctx;
    match Validate(m.graph.nodes.Keys, m.graph.maxSteps, Some(next), m.ctxs[c].steps)
    case Rejected(_) => SettleIfActive(SetPhase(m, d, Over), c, FailContext(m.ctxs[c]))
    case Ok(target) => SetContext(SetPhase(m, d, Posting), c, m.ctxs[c].(target := target))
  }

  lemma CommitStep(m: Machine, d: nat, members: seq<Member>)
    requires InBatch(m, d) && Active(m, m.tasks[d].ctx)
    ensures var c := m.tasks[d].ctx; var x := m.ctxs[c];
            var committed := CommitBatch(m.graph.policy, x.state, members);
            BatchReturnsStep(m, d, Some(members)) ==
            if |members| != |NamesOf(x.target)| then SettleIfActive(SetPhase(m, d, Over), c, FailContext(x))
            else if committed.error.Some? then
              var y := x.(state := committed.state);
              SettleIfActive(SetPhase(SetContext(m, c, y), d, Over), c, FailContext(y))
            else
              PostNextStep(SetContext(m, c, x.(state := committed.state, steps := x.steps + 1)), d, NextTarget(members))
  {
    hide Validate;
    hide CommitBatch;
    hide NextTarget;
    var c := m.tasks[d].ctx;
    var x := m.ctxs[c];
    var committed := CommitBatch(m.graph.policy, x.state, members);
    var y := x.(state := committed.state, steps := x.steps + 1);
    if committed.error.Some? {
      var z := x.(state := committed.state);
      WrittenTwice(SetPhase(m, d, Over), c, z, FailContext(z));
    } else if |members| == |NamesOf(x.target)| {
      match Validate(m.graph.nodes.Keys, m.graph.maxSteps, Some(NextTarget(members)), x.steps + 1)
      case Rejected(_) => WrittenTwice(SetPhase(m, d, Over), c, y, FailContext(y));
      case Ok(target) => WrittenTwice(SetPhase(m, d, Posting), c, y, y.(target := target));
    }
  }

  lemma UnwindStep(m: Machine, c: nat, a: Action)
    requires Enabled(m, a) && (a == Action.InvokeCancelled(c) || a == Action.InvokeSeesCancel(c))
    ensures var x := m.ctxs[c].(invoker := Returned);
            Step(m, a) == if x.status.Running? then Settle(m, c, CancelContext(x)) else SetContext(m, c, x)
  {
  }

  lemma NothingCommitted(m: Machine, d: nat, results: Option<seq<Member>>)
    requires InBatch(m, d) && (results.None? || !Active(m, m.tasks[d].ctx))
    ensures BatchReturnsStep(m, d, results) ==
            SettleIfActive(SetPhase(m, d, Over), m.tasks[d].ctx, FailContext(m.ctxs[m.tasks[d].ctx]))
  {
  }

  /** What one undisturbed dispatch makes of context x. */
  ghost predicate Round(g: Graph, x: Context, y: Context) {
    if x.target == Single(END) then y == FinishContext(x)
    else
      var z := StartBatch(x, g.noSnapshot);
      match OneBatch(g, x.state, x.target, x.steps)
      case Stops(live, at, _) => y == FailContext(z.(state := live, steps := at))
      case Continues(next, target, at) => y == z.(state := next, target := target, steps := at)
  }

  /** Admitted and started, an attempt is running unchanged and about to publish its first event. */
  lemma FirstDispatch(m: Machine, c: nat)
    requires Inv(m) && Resume.Shape(m) && Enabled(m, Begin(c))
    ensures Enabled(Step(m, Begin(c)), Action.InvokeStarts(c))
    ensures var n := Step(Step(m, Begin(c)), Action.InvokeStarts(c));
            && n.queue == m.queue && n.graph == m.graph && |n.ctxs| == |m.ctxs| && n.decomposed == m.decomposed
            && n.ctxs[c] == m.ctxs[c].(status := Running, completion := Waiting, invoker := Publishing)
  {
    var x := m.ctxs[c];
    assert Resume.ShapeOk(m.graph, x);
    hide Inv;
    hide Resume.Shape;
    hide HandlerRunsStep;
    hide BatchReturnsStep;
    assert Validate(m.graph.nodes.Keys, m.graph.maxSteps, Some(x.target), x.steps) == Ok(x.target);
    hide Validate;
    var m1 := Step(m, Begin(c));
    assert Active(m1, c) && m1.ctxs[c].target == x.target && m1.ctxs[c].steps == x.steps;
    assert Step(m1, Action.InvokeStarts(c)) == InvokeStartsStep(m1, c);
  }

  lemma RoundFate(g: Graph, x: Context, y: Context)
    requires Round(g, x, y) && x.status.Running? && x.completion.Waiting? && Resume.Valid(g, x.target, x.steps)
    ensures var before := if g.noSnapshot then [] else TraceOf(g, Here(x));
            var after := if g.noSnapshot then [] else TraceOf(g, Here(y));
            if y.status.Running? then
              && y.completion.Waiting? && FateOf(g, Here(y)) == FateOf(g, Here(x))
              && y.history + after == x.history + before && Budget(g, y.steps) < Budget(g, x.steps)
            else
              Fulfils(FateOf(g, Here(x)), EndingOf(y)) && y.history == x.history + before
  {
    hide OneBatch;
    hide RunFrom;
    hide TraceFrom;
    if x.target == Single(END) {
      NothingAhead(g, Here(x));
    } else {
      assert x.steps < g.maxSteps;
      hide Normalise;
      BatchAhead(g, Here(x));
    }
  }

  class NodeGraph {
    const graph: Graph
    /** Running attempts only. */
    const contexts: ContextSet
    var decomposed: bool
    // The world around the graph: contexts it made, its queued events, its dispatch tasks.
    var created: seq<GraphContext>
    var queue: seq<nat>
    var dispatches: seq<Dispatch>
    ghost var lost: set<nat>

    constructor (graph: Graph)
      requires Resume.GraphOk(graph)
      ensures Valid() && Abs() == Initial(graph)
      ensures fresh(contexts) && created == []
    {
      this.graph := graph;
      contexts := new ContextSet();
      decomposed := false;
      created, queue, dispatches, lost := [], [], [], {};
    }

    /** Compilation rejects the reserved name, the empty name and an entry point with unknown nodes. */
    static method Compile(
        nodes: map<Name, State -> Option<Member>>, policy: Policy, entry: Option<Target>, maxSteps: int, noSnapshot: bool)
      returns (made: Option<NodeGraph>)
      ensures made.None? <==> END in nodes || "" in nodes || Normalise(nodes.Keys, entry).Rejected?
      ensures made.Some? ==>
                && fresh(made.value) && made.value.Valid()
                && made.value.Abs() ==
                   Initial(Graph(nodes, policy, Normalise(nodes.Keys, entry).target, maxSteps, noSnapshot))
    {
      var checked := Normalise(nodes.Keys, entry);
      if END in nodes || "" in nodes || checked.Rejected? {
        return None;
      }
      NormaliseIdempotent(nodes.Keys, entry);
      var made' := new NodeGraph(Graph(nodes, policy, checked.target, maxSteps, noSnapshot));
      made := Some(made');
    }

    ghost function Values(): (r: seq<Context>)
      reads this, created
      ensures |r| == |created|
    {
      seq(|created|, i requires 0 <= i < |created| reads this, created => created[i].Value())
    }

    ghost function Managed(): set<nat>
      reads this`created, contexts
    {
      set i: nat | i < |created| && created[i] in contexts.members
    }

    ghost function Abs(): Machine
      reads this, contexts, created
    {
      Machine(graph, decomposed, Managed(), Values(), queue, dispatches, lost)
    }

    ghost predicate Tidy()
      reads this, contexts, created
    {
      && (forall i, j :: 0 <= i < j < |created| ==> created[i] != created[j])
      && (forall x :: x in contexts.members ==> x in created)
      && (forall i :: 0 <= i < |created| ==>
            && created[i].Valid()
            && (created[i].status.Running? <==> created[i] in contexts.members)
            && created[i].onTerminal == if created[i].status.Running? then contexts else null)
    }

    ghost predicate Valid()
      reads this, contexts, created
    {
      Tidy() && Inv(Abs()) && Resume.Shape(Abs())
    }

    /** Whether a context is running and managed by this live graph. */
    predicate IsActive(x: GraphContext)
      reads this`decomposed, contexts, x
    {
      !decomposed && x in contexts.members && x.status.Running?
    }

    // ------------------------------------------------------------------------------------------
    // Terminal transitions
    // ------------------------------------------------------------------------------------------

    method Finish(c: nat)
      requires Tidy() && c < |created|
      modifies contexts, created[c]
      ensures Tidy() && Abs() == SettleIfActive(old(Abs()), c, FinishContext(old(created[c].Value())))
    {
      ghost var was := Abs();
      if IsActive(created[c]) {
        var raised := created[c].Finish();
        assert Values() == was.ctxs[c := created[c].Value()];
        assert Managed() == was.managed - {c};
      }
    }

    method Fail(c: nat)
      requires Tidy() && c < |created|
      modifies contexts, created[c]
      ensures Tidy() && Abs() == SettleIfActive(old(Abs()), c, FailContext(old(created[c].Value())))
    {
      ghost var was := Abs();
      if IsActive(created[c]) {
        var raised := created[c].Fail();
        assert Values() == was.ctxs[c := created[c].Value()];
        assert Managed() == was.managed - {c};
      }
    }

    method AbortOne(x: GraphContext, ghost c: nat)
      requires Tidy() && c < |created| && created[c] == x
      modifies contexts, x
      ensures Tidy() && Abs() == Settle(old(Abs()), c, AbortContext(old(x.Value())))
      ensures contexts.members == old(contexts.members) - {x}
    {
      ghost var was := Abs();
      var raised := x.Abort();
      assert Values() == was.ctxs[c := x.Value()];
      assert Managed() == was.managed - {c};
    }

    method CancelOne(c: nat)
      requires Tidy() && c < |created| && created[c].status.Running?
      modifies contexts, created[c]
      ensures Tidy() && Abs() == Settle(old(Abs()), c, CancelContext(old(created[c].Value())))
    {
      ghost var was := Abs();
      var raised := created[c].Cancel();
      assert Values() == was.ctxs[c := created[c].Value()];
      assert Managed() == was.managed - {c};
    }

    // ------------------------------------------------------------------------------------------
    // Contexts and admission
    // ------------------------------------------------------------------------------------------

    /** A prepared attempt joins the others; the graph does not manage it yet. */
    method Adopt(x: GraphContext, ghost was: Machine)
      requires Tidy() && Abs() == was && x !in created && x !in contexts.members
      requires x.Valid() && x.status.Pending? && x.onTerminal == null
      modifies this`created
      ensures Tidy() && Abs() == was.(ctxs := was.ctxs + [x.Value()]) && created == old(created) + [x]
    {
      created := created + [x];
      assert Values() == was.ctxs + [x.Value()];
      assert Managed() == was.managed;
    }

    method CreateContext(state: State) returns (x: GraphContext?)
      requires Valid()
      modifies this
      ensures Valid() && (x == null <==> old(decomposed))
      ensures if x == null then Abs() == old(Abs()) && created == old(created)
              else fresh(x) && created == old(created) + [x] && Abs() == Step(old(Abs()), Create(state))
    {
      hide Inv;
      hide Resume.Shape;
      if decomposed {
        return null;
      }
      ghost var was := Abs();
      StepKeeps(was, Create(state));
      x := new GraphContext(Checkpoint(state, graph.entry, 0), []);
      Adopt(x, was);
    }

    /** restore_context: a context's history up to a natively indexed version, or one checkpoint of
        it.  None of a missing history, a bad index or a decomposed graph changes anything. */
    method RestoreContext(c: nat, version: int, single: bool) returns (x: GraphContext?)
      requires Valid() && c < |created|
      modifies this
      ensures var history := old(created[c].contextSnapshot); var n := |history|;
              && (x == null <==> old(decomposed) || !(-n <= version < n))
              && (x != null ==>
                    var k := if version < 0 then n + version else version;
                    && x.status.Pending? && x.completion.Unbound?
                    && x.state == history[k].state && x.target == history[k].target && x.steps == history[k].steps
                    && x.contextSnapshot == if single then [history[k]] else history[..k + 1])
      ensures Valid() && (x == null <==> !Enabled(old(Abs()), Restore(c, version, single)))
      ensures if x == null then Abs() == old(Abs()) && created == old(created)
              else fresh(x) && created == old(created) + [x] && Abs() == Step(old(Abs()), Restore(c, version, single))
    {
      hide Inv;
      hide Resume.Shape;
      ghost var was := Abs();
      hide Step;
      RestoreEffect(was, c, version, single);
      var history := Retained(created[c], version, single);
      if decomposed || history == [] {
        return null;
      }
      RestoreAppends(was, c, version, single, history);
      StepKeeps(was, Restore(c, version, single));
      x := new GraphContext(history[|history| - 1], history);
      Adopt(x, was);
      assert Abs() == Step(was, Restore(c, version, single));
    }

    /** The checkpoints that a restored attempt retains, the selected one last; none for a bad index. */
    method Retained(x: GraphContext, version: int, single: bool) returns (history: seq<Checkpoint>)
      ensures var was := x.contextSnapshot; var n := |was|;
              if -n <= version < n then
                var k := if version < 0 then n + version else version;
                history == if single then [was[k]] else was[..k + 1]
              else history == []
    {
      var snapshot := x.contextSnapshot;
      var selected := x.GetSnapshot(version);
      if selected.None? {
        return [];
      }
      // Python's snapshot[:version]
      var cut := if version >= 0 then version else |snapshot| + version;
      assert snapshot[..cut] + [snapshot[cut]] == snapshot[..cut + 1];
      history := if single then [selected.value] else snapshot[..cut] + [selected.value];
    }

    /** Admission without suspending: a rejected context is left alone. */
    method BeginInvocation(c: nat) returns (raised: bool)
      requires Valid() && c < |created|
      modifies this, contexts, created
      ensures Valid() && created == old(created)
      ensures raised <==> !Admissible(old(Abs()), c)
      ensures Abs() == if raised then old(Abs()) else Step(old(Abs()), Begin(c))
    {
      hide HandlerRunsStep;
      hide BatchReturnsStep;
      hide InvokeStartsStep;
      hide Inv;
      hide Resume.Shape;
      hide Validate;
      ghost var was := Abs();
      var x := created[c];
      if decomposed || !x.status.Pending? || Validate(graph.nodes.Keys, graph.maxSteps, Some(x.target), x.steps).Rejected? {
        return true;
      }
      StepKeeps(was, Begin(c));
      Admit(x, c);
      raised := false;
    }

    method Admit(x: GraphContext, ghost c: nat)
      requires Tidy() && !decomposed && c < |created| && created[c] == x && x.status.Pending?
      modifies contexts, x
      ensures Tidy()
      ensures var was := old(Abs());
              Abs() == SetContext(was, c, was.ctxs[c].(status := Running, completion := Waiting, invoker := Starting))
              .(managed := was.managed + {c})
    {
      ghost var was := Abs();
      var raised := x.Bind(contexts);
      contexts.Add(x);
      assert Values() == was.ctxs[c := x.Value()];
      assert Managed() == was.managed + {c};
    }

    // ------------------------------------------------------------------------------------------
    // The invoking coroutine
    // ------------------------------------------------------------------------------------------

    /** Only the position of the invoking coroutine of context c changes. */
    method SetInvoker(c: nat, ghost at: Invoker, ghost was: Machine)
      requires Tidy() && Abs() == was && c < |created|
      modifies created[c]
      ensures Tidy() && Abs() == SetContext(was, c, was.ctxs[c].(invoker := at))
    {
      created[c].invoker := at;
      assert Values() == was.ctxs[c := created[c].Value()];
      assert Managed() == was.managed;
    }

    /** invoke() runs up to its first publication. */
    method InvokeStarts(c: nat)
      requires Valid() && Enabled(Abs(), Action.InvokeStarts(c))
      modifies this, contexts, created
      ensures Valid() && Abs() == Step(old(Abs()), Action.InvokeStarts(c)) && created == old(created)
    {
      hide HandlerRunsStep;
      hide BatchReturnsStep;
      hide Inv;
      hide Resume.Shape;
      hide Validate;
      ghost var was := Abs();
      StepKeeps(was, Action.InvokeStarts(c));
      var x := created[c];
      if IsActive(x) {
        var checked := Validate(graph.nodes.Keys, graph.maxSteps, Some(x.target), x.steps);
        if checked.Ok? {
          x.SetTargetNode(checked.target);
          assert Values() == was.ctxs[c := x.Value()] && Managed() == was.managed;
          SetInvoker(c, Publishing, Abs());
        } else {
          SetInvoker(c, Returned, was);
          Fail(c);
        }
      } else {
        SetInvoker(c, Awaiting, was);
      }
      assert Abs() == InvokeStartsStep(was, c);
    }

    method InvokePosted(c: nat)
      requires Valid() && Enabled(Abs(), Action.InvokePosted(c))
      modifies this, contexts, created
      ensures Valid() && Abs() == Step(old(Abs()), Action.InvokePosted(c)) && created == old(created)
    {
      hide HandlerRunsStep;
      hide BatchReturnsStep;
      hide InvokeStartsStep;
      hide Inv;
      hide Resume.Shape;
      ghost var was := Abs();
      StepKeeps(was, Action.InvokePosted(c));
      SetInvoker(c, Awaiting, was);
      queue := queue + [c];
      assert Abs() == Step(was, Action.InvokePosted(c));
    }

    method InvokePostFails(c: nat)
      requires Valid() && Enabled(Abs(), Action.InvokePostFails(c))
      modifies this, contexts, created
      ensures Valid() && Abs() == Step(old(Abs()), Action.InvokePostFails(c)) && created == old(created)
    {
      hide HandlerRunsStep;
      hide BatchReturnsStep;
      hide InvokeStartsStep;
      hide Inv;
      hide Resume.Shape;
      ghost var was := Abs();
      StepKeeps(was, Action.InvokePostFails(c));
      SetInvoker(c, Returned, was);
      ghost var x := was.ctxs[c].(invoker := Returned);
      assert created[c].Value() == x by { assert Values()[c] == created[c].Value(); }
      WrittenTwice(was, c, x, FailContext(x));
      Fail(c);
      assert Abs() == Step(was, Action.InvokePostFails(c));
    }

    /** invoke() unwinds on CancelledError, before or while it waits for the completion. */
    method InvokeUnwinds(c: nat, ghost a: Action)
      requires a == Action.InvokeCancelled(c) || a == Action.InvokeSeesCancel(c)
      requires Valid() && Enabled(Abs(), a)
      modifies this, contexts, created
      ensures Valid() && Abs() == Step(old(Abs()), a) && created == old(created)
    {
      hide HandlerRunsStep;
      hide BatchReturnsStep;
      hide InvokeStartsStep;
      hide Inv;
      hide Resume.Shape;
      ghost var was := Abs();
      StepKeeps(was, a);
      SetInvoker(c, Returned, was);
      ghost var x := was.ctxs[c].(invoker := Returned);
      assert created[c].Value() == x by { assert Values()[c] == created[c].Value(); }
      WrittenTwice(was, c, x, CancelContext(x));
      UnwindStep(was, c, a);
      if created[c].status.Running? {
        CancelOne(c);
      }
      assert Abs() == Step(was, a);
    }

    /** A stream closed before its invocation started aborts it. */
    method StreamClosed(c: nat)
      requires Valid() && Enabled(Abs(), Action.StreamClosed(c))
      modifies this, contexts, created
      ensures Valid() && Abs() == Step(old(Abs()), Action.StreamClosed(c)) && created == old(created)
    {
      hide HandlerRunsStep;
      hide BatchReturnsStep;
      hide InvokeStartsStep;
      hide Inv;
      hide Resume.Shape;
      ghost var was := Abs();
      StepKeeps(was, Action.StreamClosed(c));
      SetInvoker(c, Returned, was);
      ghost var x := was.ctxs[c].(invoker := Returned);
      assert created[c].Value() == x by { assert Values()[c] == created[c].Value(); }
      WrittenTwice(was, c, x, AbortContext(x));
      if created[c].status.Running? {
        AbortOne(created[c], c);
      }
      assert Abs() == Step(was, Action.StreamClosed(c));
    }

    /** Cancelling the task that awaits the completion cancels that future at once. */
    method CancelAwait(c: nat)
      requires Valid() && Enabled(Abs(), Action.CancelAwait(c))
      modifies this, contexts, created
      ensures Valid() && Abs() == Step(old(Abs()), Action.CancelAwait(c)) && created == old(created)
    {
      hide HandlerRunsStep;
      hide BatchReturnsStep;
      hide InvokeStartsStep;
      hide Inv;
      hide Resume.Shape;
      ghost var was := Abs();
      StepKeeps(was, Action.CancelAwait(c));
      InvRunning(was, c);
      created[c].completion := Completion.Cancelled;
      assert Values() == was.ctxs[c := created[c].Value()] && Managed() == was.managed;
      SetInvoker(c, CancelPending, Abs());
      assert Abs() == Step(was, Action.CancelAwait(c));
    }

    method InvokeReturns(c: nat)
      requires Valid() && Enabled(Abs(), Action.InvokeReturns(c))
      modifies this, contexts, created
      ensures Valid() && Abs() == Step(old(Abs()), Action.InvokeReturns(c)) && created == old(created)
    {
      hide HandlerRunsStep;
      hide BatchReturnsStep;
      hide InvokeStartsStep;
      hide Inv;
      hide Resume.Shape;
      ghost var was := Abs();
      StepKeeps(was, Action.InvokeReturns(c));
      SetInvoker(c, Returned, was);
      assert Abs() == Step(was, Action.InvokeReturns(c));
    }

    // ------------------------------------------------------------------------------------------
    // Dispatch
    // ------------------------------------------------------------------------------------------

    /** The consumer takes the oldest dispatch event and launches its task. */
    method DispatchStarts()
      requires Valid() && Enabled(Abs(), Action.DispatchStarts)
      modifies this
      ensures Valid() && Abs() == Step(old(Abs()), Action.DispatchStarts) && created == old(created)
    {
      hide Inv;
      hide Resume.Shape;
      hide HandlerRunsStep;
      hide BatchReturnsStep;
      hide InvokeStartsStep;
      ghost var was := Abs();
      StepKeeps(was, Action.DispatchStarts);
      dispatches := dispatches + [Dispatch(queue[0], Upstream(false, false))];
      queue := queue[1..];
      assert Values() == was.ctxs && Managed() == was.managed;
      assert Abs() == Step(was, Action.DispatchStarts);
    }

    /** Steps of a dispatch task that touch no context: preceding handlers, the end of a publication,
        cancellation. */
    method MoveTask(a: Action)
      requires Valid() && Enabled(Abs(), a) && (a.UpstreamOutcome? || a.PostDone? || a.CancelDispatch?)
      modifies this
      ensures Valid() && Abs() == Step(old(Abs()), a) && created == old(created)
    {
      hide Inv;
      hide Resume.Shape;
      hide HandlerRunsStep;
      hide BatchReturnsStep;
      hide InvokeStartsStep;
      ghost var was := Abs();
      StepKeeps(was, a);
      match a {
        case UpstreamOutcome(d, error, accept) =>
          var phase := dispatches[d].phase;
          phase := Upstream(phase.hasError || error, phase.accepted || accept);
          dispatches := dispatches[d := Dispatch(dispatches[d].ctx, phase)];
        case PostDone(d) =>
          queue := queue + [dispatches[d].ctx];
          dispatches := dispatches[d := Dispatch(dispatches[d].ctx, Over)];
        case CancelDispatch(d) =>
          dispatches := dispatches[d := Dispatch(dispatches[d].ctx, Cancelling)];
      }
      assert Values() == was.ctxs && Managed() == was.managed;
      assert Abs() == Step(was, a);
    }

    /** A dispatch event is dropped before it becomes a dispatch. */
    method LoseQueued(i: nat)
      requires Valid() && Enabled(Abs(), Action.LoseQueued(i))
      modifies this
      ensures Valid() && Abs() == Step(old(Abs()), Action.LoseQueued(i)) && created == old(created)
    {
      hide Inv;
      hide Resume.Shape;
      hide HandlerRunsStep;
      hide BatchReturnsStep;
      hide InvokeStartsStep;
      ghost var was := Abs();
      StepKeeps(was, Action.LoseQueued(i));
      lost := lost + {queue[i]};
      queue := queue[..i] + queue[i + 1..];
      assert Values() == was.ctxs && Managed() == was.managed;
      assert Abs() == Step(was, Action.LoseQueued(i));
    }

    /** A dispatch task dies before its first step. */
    method LoseTask(d: nat)
      requires Valid() && Enabled(Abs(), Action.LoseTask(d))
      modifies this
      ensures Valid() && Abs() == Step(old(Abs()), Action.LoseTask(d)) && created == old(created)
    {
      hide Inv;
      hide Resume.Shape;
      hide HandlerRunsStep;
      hide BatchReturnsStep;
      hide InvokeStartsStep;
      ghost var was := Abs();
      StepKeeps(was, Action.LoseTask(d));
      lost := lost + {dispatches[d].ctx};
      dispatches := dispatches[d := Dispatch(dispatches[d].ctx, Over)];
      assert Values() == was.ctxs && Managed() == was.managed;
      assert Abs() == Step(was, Action.LoseTask(d));
    }

    method Leave(d: nat, phase: Phase, ghost was: Machine)
      requires Tidy() && Abs() == was && d < |dispatches|
      modifies this`dispatches
      ensures Tidy() && Abs() == SetPhase(was, d, phase)
    {
      dispatches := dispatches[d := Dispatch(dispatches[d].ctx, phase)];
    }

    /** The graph's handler in execute(): upstream errors, then acceptance, then dispatch_node. */
    method HandlerRuns(d: nat, snapshotFails: bool)
      requires Valid() && Enabled(Abs(), Action.HandlerRuns(d, snapshotFails))
      modifies this, contexts, created
      ensures Valid() && Abs() == Step(old(Abs()), Action.HandlerRuns(d, snapshotFails)) && created == old(created)
    {
      hide Inv;
      hide Resume.Shape;
      ghost var was := Abs();
      StepKeeps(was, Action.HandlerRuns(d, snapshotFails));
      var c, phase := dispatches[d].ctx, dispatches[d].phase;
      var x := created[c];
      if phase.hasError || phase.accepted {
        Notified(d, was);
      } else if !IsActive(x) {
        Leave(d, Over, was);
      } else if x.target == Single(END) {
        Leave(d, Over, was);
        Finish(c);
      } else {
        ExecuteNode(d, snapshotFails, was);
      }
      assert Abs() == HandlerRunsStep(was, d, snapshotFails);
    }

    /** An upstream failure fails the attempt; a handler that accepted the event takes it away. */
    method Notified(d: nat, ghost was: Machine)
      requires Tidy() && Abs() == was && InUpstream(was, d)
      requires was.tasks[d].phase.hasError || was.tasks[d].phase.accepted
      modifies this`dispatches, contexts, created
      ensures Tidy() && forall failed :: Abs() == HandlerRunsStep(was, d, failed)
    {
      var c, phase := dispatches[d].ctx, dispatches[d].phase;
      Leave(d, Over, was);
      if phase.hasError {
        Fail(c);
      } else if IsActive(created[c]) {
        AbortOne(created[c], c);
      }
    }

    /** _execute_node up to its first await: the checkpoint is taken before any node starts. */
    method ExecuteNode(d: nat, snapshotFails: bool, ghost was: Machine)
      requires Tidy() && Abs() == was && InUpstream(was, d) && Active(was, was.tasks[d].ctx)
      requires !was.tasks[d].phase.hasError && !was.tasks[d].phase.accepted
      requires was.ctxs[was.tasks[d].ctx].target != Single(END)
      modifies this`dispatches, contexts, created
      ensures Tidy() && Abs() == HandlerRunsStep(was, d, snapshotFails)
    {
      var c := dispatches[d].ctx;
      if !graph.noSnapshot && snapshotFails {
        Leave(d, Over, was);
        Fail(c);
        return;
      }
      StartNodes(c, was);
      Leave(d, Executing, Abs());
    }

    method StartNodes(c: nat, ghost was: Machine)
      requires Tidy() && Abs() == was && c < |created| && created[c].status.Running?
      modifies created[c]
      ensures Tidy() && Abs() == SetContext(was, c, StartBatch(was.ctxs[c], graph.noSnapshot))
    {
      if !graph.noSnapshot {
        var raised := created[c].TakeASnapshot();
      }
      created[c].started := created[c].started + 1;
      assert Values() == was.ctxs[c := created[c].Value()] && Managed() == was.managed;
    }

    /** apply_command on a context of this graph. */
    method ApplyCommand(results: seq<Member>, names: seq<Name>, c: nat) returns (applied: Applied)
      requires Tidy() && c < |created|
      modifies created[c]
      ensures Tidy()
      ensures var x := old(created[c].Value());
              if old(decomposed) || Terminal(x.status) then applied == Refused && Abs() == old(Abs())
              else if |results| != |names| then applied == Failure(BadResults) && Abs() == old(Abs())
              else
                var committed := CommitBatch(graph.policy, x.state, results);
                && Abs() == SetContext(old(Abs()), c, x.(state := committed.state))
                && applied == if committed.error.Some? then Failure(CommitFailed(committed.error.value))
                              else Next(NextTarget(results))
    {
      ghost var was := Abs();
      if decomposed || Terminal(created[c].status) {
        return Refused;
      }
      if |results| != |names| {
        return Failure(BadResults);
      }
      var error, next := ApplyMembers(graph.policy, created[c], results);
      assert Values() == was.ctxs[c := created[c].Value()] && Managed() == was.managed;
      applied := if error.Some? then Failure(CommitFailed(error.value)) else Next(next);
    }

    /** The rest of _execute_node once the batch is gathered: drop a stale result, commit, count the
        step, check and publish the next target; any failure fails the attempt. */
    method BatchReturns(d: nat, results: Option<seq<Member>>)
      requires Valid() && Enabled(Abs(), Action.BatchReturns(d, results))
      modifies this, contexts, created
      ensures Valid() && Abs() == Step(old(Abs()), Action.BatchReturns(d, results)) && created == old(created)
    {
      hide Inv;
      hide Resume.Shape;
      ghost var was := Abs();
      StepKeeps(was, Action.BatchReturns(d, results));
      InvRunning(was, dispatches[d].ctx);
      CommitGathered(d, results, was);
    }

    method CommitGathered(d: nat, results: Option<seq<Member>>, ghost was: Machine)
      requires Tidy() && Abs() == was && InBatch(was, d)
      requires was.ctxs[was.tasks[d].ctx].status.Running? ==> !was.decomposed
      modifies this`dispatches, contexts, created
      ensures Tidy() && created == old(created) && Abs() == BatchReturnsStep(was, d, results)
    {
      hide Validate;
      hide CommitResults;
      var x := created[dispatches[d].ctx];
      if results.None? || !x.status.Running? {
        FailGathered(d, was);
        NothingCommitted(was, d, results);
      } else {
        hide BatchReturnsStep;
        Commit(d, results.value, was);
      }
    }

    method Commit(d: nat, results: seq<Member>, ghost was: Machine)
      requires Tidy() && Abs() == was && InBatch(was, d) && Active(was, was.tasks[d].ctx)
      modifies this`dispatches, contexts, created
      ensures Tidy() && created == old(created) && Abs() == BatchReturnsStep(was, d, Some(results))
    {
      hide Validate;
      hide CommitBatch;
      hide NextTarget;
      hide BatchReturnsStep;
      hide PostNextStep;
      hide Tidy;
      CommitStep(was, d, results);
      var c := dispatches[d].ctx;
      var x := created[c];
      var applied := ApplyCommand(results, NamesOf(x.target), c);
      if applied.Failure? {
        FailGathered(d, Abs());
        return;
      }
      ghost var y := Abs().ctxs[c];
      WrittenTwice(was, c, y, y.(steps := y.steps + 1));
      CountAndPost(d, applied.target, Abs());
    }

    method CountAndPost(d: nat, next: Target, ghost was: Machine)
      requires Tidy() && Abs() == was && InBatch(was, d)
      modifies this`dispatches, contexts, created
      ensures Tidy() && created == old(created)
      ensures var c := was.tasks[d].ctx;
              Abs() == PostNextStep(SetContext(was, c, was.ctxs[c].(steps := was.ctxs[c].steps + 1)), d, next)
    {
      hide PostNextStep;
      CountStep(dispatches[d].ctx, was);
      PostNext(d, next, Abs());
    }

    method CountStep(c: nat, ghost was: Machine)
      requires Tidy() && Abs() == was && c < |created|
      modifies created[c]
      ensures Tidy() && Abs() == SetContext(was, c, was.ctxs[c].(steps := was.ctxs[c].steps + 1))
    {
      created[c].steps := created[c].steps + 1;
      assert Values() == was.ctxs[c := created[c].Value()] && Managed() == was.managed;
    }

    method FailGathered(d: nat, ghost was: Machine)
      requires Tidy() && Abs() == was && InBatch(was, d)
      modifies this`dispatches, contexts, created
      ensures Tidy() && created == old(created)
      ensures Abs() == SettleIfActive(SetPhase(was, d, Over), was.tasks[d].ctx, FailContext(was.ctxs[was.tasks[d].ctx]))
    {
      Leave(d, Over, was);
      Fail(dispatches[d].ctx);
    }

    /** _post_next up to its await: check the target against the budget and record it. */
    method PostNext(d: nat, next: Target, ghost was: Machine)
      requires Tidy() && Abs() == was && InBatch(was, d)
      modifies this`dispatches, contexts, created
      ensures Tidy() && created == old(created) && Abs() == PostNextStep(was, d, next)
    {
      hide Validate;
      var x := created[dispatches[d].ctx];
      var checked := Validate(graph.nodes.Keys, graph.maxSteps, Some(next), x.steps);
      if checked.Rejected? {
        FailGathered(d, was);
      } else {
        Leave(d, Posting, was);
        x.SetTargetNode(checked.target);
        assert Values() == was.ctxs[was.tasks[d].ctx := x.Value()] && Managed() == was.managed;
      }
    }

    method PostFails(d: nat)
      requires Valid() && Enabled(Abs(), Action.PostFails(d))
      modifies this, contexts, created
      ensures Valid() && Abs() == Step(old(Abs()), Action.PostFails(d)) && created == old(created)
    {
      hide HandlerRunsStep;
      hide BatchReturnsStep;
      hide InvokeStartsStep;
      hide Inv;
      hide Resume.Shape;
      ghost var was := Abs();
      StepKeeps(was, Action.PostFails(d));
      Leave(d, Over, was);
      Fail(dispatches[d].ctx);
      assert Abs() == Step(was, Action.PostFails(d));
    }

    /** notify_cancelled reaches the graph's handler, during the chain or after it. */
    method NotifyCancelled(d: nat, ghost a: Action)
      requires a == Action.CancelNotify(d) || a == Action.LateCancel(d)
      requires Valid() && Enabled(Abs(), a)
      modifies this, contexts, created
      ensures Valid() && Abs() == Step(old(Abs()), a) && created == old(created)
    {
      hide HandlerRunsStep;
      hide BatchReturnsStep;
      hide InvokeStartsStep;
      hide Inv;
      hide Resume.Shape;
      ghost var was := Abs();
      StepKeeps(was, a);
      var c := dispatches[d].ctx;
      Leave(d, Over, was);
      assert a.LateCancel? ==> Abs() == was;
      if IsActive(created[c]) {
        CancelOne(c);
      }
      assert Abs() == Step(was, a);
    }

    // ------------------------------------------------------------------------------------------
    // Abort and decomposition
    // ------------------------------------------------------------------------------------------

    method Abort(c: nat)
      requires Valid() && Enabled(Abs(), Action.Abort(c))
      modifies this, contexts, created
      ensures Valid() && Abs() == Step(old(Abs()), Action.Abort(c)) && created == old(created)
    {
      hide HandlerRunsStep;
      hide BatchReturnsStep;
      hide InvokeStartsStep;
      hide Inv;
      hide Resume.Shape;
      StepKeeps(Abs(), Action.Abort(c));
      AbortOne(created[c], c);
    }

    /** Retires the graph.  Unless forced, running contexts reject it without any change. */
    method Decompose(force: bool) returns (raised: bool)
      requires Valid()
      modifies this, contexts, created
      ensures Valid() && created == old(created)
      ensures raised <==> !old(decomposed) && old(contexts.members) != {} && !force
      ensures Abs() == if old(decomposed) || raised then old(Abs()) else AbortAll(old(Abs()))
    {
      hide Inv;
      hide Resume.Shape;
      if decomposed {
        return false;
      }
      if contexts.members != {} && !force {
        return true;
      }
      ghost var was := Abs();
      StepKeeps(was, Action.Decompose);
      decomposed := true;
      AbortRunning(was);
      assert Abs() == AbortAll(was);
      raised := false;
    }

    /** Aborts every running context, in any order; each removes itself from the running set. */
    method AbortRunning(ghost was: Machine)
      requires Tidy() && Abs() == was.(decomposed := true)
      modifies contexts, created
      ensures Tidy() && Abs() == AbortAll(was)
    {
      hide AbortContext;
      hide Tidy;
      var rest := contexts.members;
      while rest != {}
        invariant Tidy() && contexts.members == rest
        invariant Abs() == was.(decomposed := true, managed := Managed(), ctxs := Values())
        invariant forall i :: 0 <= i < |created| ==>
                    Values()[i] == if i in was.managed && i !in Managed() then AbortContext(was.ctxs[i]) else was.ctxs[i]
        invariant Managed() <= was.managed
        decreases |rest|
      {
        var x :| x in rest;
        ghost var c := IndexOf(x);
        AbortOne(x, c);
        rest := rest - {x};
      }
      assert Values() == AbortAll(was).ctxs;
      assert Managed() == {};
    }

    ghost function IndexOf(x: GraphContext): (c: nat)
      requires Tidy() && x in contexts.members
      reads this, contexts, created
      ensures c < |created| && created[c] == x && c in Managed()
    {
      var c :| 0 <= c < |created| && created[c] == x;
      c
    }

    // ------------------------------------------------------------------------------------------
    // Any schedule
    // ------------------------------------------------------------------------------------------

    /** One step of any kind. */
    method Perform(a: Action)
      requires Valid() && Enabled(Abs(), a)
      modifies this, contexts, created
      ensures Valid() && Abs() == Step(old(Abs()), a)
      ensures forall i :: 0 <= i < |created| ==> created[i] in old(created) || fresh(created[i])
    {
      hide Inv;
      hide Resume.Shape;
      hide Step;
      hide Enabled;
      if IsTaskAction(a) {
        PerformTask(a);
      } else {
        PerformInvoker(a);
      }
    }

    method PerformInvoker(a: Action)
      requires Valid() && Enabled(Abs(), a) && !IsTaskAction(a)
      modifies this, contexts, created
      ensures Valid() && Abs() == Step(old(Abs()), a)
      ensures forall i :: 0 <= i < |created| ==> created[i] in old(created) || fresh(created[i])
    {
      hide Inv;
      hide Resume.Shape;
      hide Step;
      match a
      case Create(state) => var x := CreateContext(state);
      case Restore(c, version, single) => var x := RestoreContext(c, version, single);
      case Begin(c) => var raised := BeginInvocation(c);
      case InvokeStarts(c) => this.InvokeStarts(c);
      case InvokePosted(c) => this.InvokePosted(c);
      case InvokePostFails(c) => this.InvokePostFails(c);
      case InvokeCancelled(c) => InvokeUnwinds(c, a);
      case StreamClosed(c) => this.StreamClosed(c);
      case CancelAwait(c) => this.CancelAwait(c);
      case InvokeSeesCancel(c) => InvokeUnwinds(c, a);
      case InvokeReturns(c) => this.InvokeReturns(c);
      case Abort(c) => this.Abort(c);
    }

    method PerformTask(a: Action)
      requires Valid() && Enabled(Abs(), a) && IsTaskAction(a)
      modifies this, contexts, created
      ensures Valid() && Abs() == Step(old(Abs()), a) && created == old(created)
    {
      hide Inv;
      hide Resume.Shape;
      hide Step;
      match a
      case DispatchStarts => this.DispatchStarts();
      case UpstreamOutcome(_, _, _) => MoveTask(a);
      case HandlerRuns(d, snapshotFails) => this.HandlerRuns(d, snapshotFails);
      case BatchReturns(d, results) => this.BatchReturns(d, results);
      case PostDone(_) => MoveTask(a);
      case PostFails(d) => this.PostFails(d);
      case CancelDispatch(_) => MoveTask(a);
      case CancelNotify(d) => NotifyCancelled(d, a);
      case LateCancel(d) => NotifyCancelled(d, a);
      case Decompose => DecomposeByForce();
      case LoseQueued(i) => this.LoseQueued(i);
      case LoseTask(d) => this.LoseTask(d);
    }

    method DecomposeByForce()
      requires Valid() && Enabled(Abs(), Action.Decompose)
      modifies this, contexts, created
      ensures Valid() && created == old(created) && Abs() == Step(old(Abs()), Action.Decompose)
    {
      hide Inv;
      hide Resume.Shape;
      var raised := Decompose(true);
    }

    /** Any schedule of steps: the objects end where the machine says. */
    method RunSchedule(acts: seq<Action>)
      requires Valid() && Runs(Abs(), acts)
      modifies this, contexts, created
      ensures Valid() && Abs() == After(old(Abs()), acts)
      ensures forall i :: 0 <= i < |created| ==> created[i] in old(created) || fresh(created[i])
    {
      hide Inv;
      hide Resume.Shape;
      hide Step;
      hide Enabled;
      ghost var was := Abs();
      assert acts[0..] == acts;
      for n := 0 to |acts|
        invariant Valid() && Runs(Abs(), acts[n..]) && After(was, acts) == After(Abs(), acts[n..])
        invariant forall i :: 0 <= i < |created| ==> created[i] in old(created) || fresh(created[i])
      {
        assert acts[n..][0] == acts[n] && acts[n..][1..] == acts[n + 1..];
        Perform(acts[n]);
      }
    }

    // ------------------------------------------------------------------------------------------
    // An undisturbed invocation
    // ------------------------------------------------------------------------------------------

    /** Runs every node of a batch on a copy of the state; one failure fails the batch. */
    method GatherTasks(names: seq<Name>, state: State) returns (results: Option<seq<Member>>)
      ensures results == RunNodes(graph, names, state)
      ensures results.Some? ==>
                && |results.value| == |names|
                && forall i :: 0 <= i < |names| ==>
                     names[i] in graph.nodes && graph.nodes[names[i]](state) == Some(results.value[i])
      ensures results.None? <==>
              exists i :: 0 <= i < |names| && (names[i] !in graph.nodes || graph.nodes[names[i]](state).None?)
    {
      var members: seq<Member> := [];
      ghost var all := RunNodes(graph, names, state);
      assert names[0..] == names && (all.Some? ==> members + all.value == all.value);
      for n := 0 to |names|
        invariant var rest := RunNodes(graph, names[n..], state);
                  all == if rest.None? then None else Some(members + rest.value)
      {
        assert names[n..][1..] == names[n + 1..];
        if names[n] !in graph.nodes {
          RunNodesPointwise(graph, names, state);
          return None;
        }
        var member := graph.nodes[names[n]](state);
        if member.None? {
          RunNodesPointwise(graph, names, state);
          return None;
        }
        ghost var rest := RunNodes(graph, names[n + 1..], state);
        assert rest.Some? ==> members + ([member.value] + rest.value) == members + [member.value] + rest.value;
        members := members + [member.value];
      }
      assert names[|names|..] == [] && members + [] == members;
      results := Some(members);
      RunNodesPointwise(graph, names, state);
    }

    lemma ValueAt(c: nat)
      requires c < |created|
      ensures Abs().ctxs[c] == created[c].Value() && |Abs().ctxs| == |created|
    {
    }

    /** The only queued dispatch is launched and reaches the graph's handler undisturbed. */
    method HandleOnly(c: nat) returns (d: nat)
      requires Valid() && queue == [c] && c < |created| && created[c].status.Running?
      modifies this, contexts, created
      ensures Valid() && created == old(created) && queue == [] && decomposed == old(decomposed)
      ensures var x := old(created[c].Value());
              if x.target == Single(END) then created[c].Value() == FinishContext(x)
              else
                && created[c].Value() == StartBatch(x, graph.noSnapshot)
                && d < |dispatches| && dispatches[d] == Dispatch(c, Executing)
    {
      hide Inv;
      hide Resume.Shape;
      ghost var was := Abs();
      InvRunning(was, c);
      ValueAt(c);
      d := |dispatches|;
      this.DispatchStarts();
      HandlerRound(Abs(), d);
      hide HandlerRunsStep;
      this.HandlerRuns(d, false);
      ValueAt(c);
    }

    /** The batch of dispatch d returns what its nodes compute, and its outcome is published. */
    method ReturnBatch(c: nat, d: nat)
      requires Valid() && queue == [] && c < |created| && created[c].status.Running?
      requires d < |dispatches| && dispatches[d] == Dispatch(c, Executing)
      modifies this, contexts, created
      ensures Valid() && created == old(created) && decomposed == old(decomposed)
      ensures var x := old(created[c].Value()); var y := created[c].Value();
              match OneBatch(graph, x.state, x.target, x.steps)
              case Stops(live, at, _) => queue == [] && y == FailContext(x.(state := live, steps := at))
              case Continues(next, target, at) => queue == [c] && y == x.(state := next, target := target, steps := at)
    {
      hide Inv;
      hide Resume.Shape;
      hide CommitResults;
      ghost var was := Abs();
      InvRunning(was, c);
      ValueAt(c);
      var results := GatherTasks(NamesOf(created[c].target), created[c].state);
      BatchRound(was, d, results);
      hide BatchReturnsStep;
      this.BatchReturns(d, results);
      ValueAt(c);
      if created[c].status.Running? {
        MoveTask(PostDone(d));
        ValueAt(c);
      }
    }

    /** One dispatch of context c, when nothing else is queued and nobody interferes. */
    method DispatchOnce(c: nat)
      requires Valid() && queue == [c] && c < |created| && created[c].status.Running?
      modifies this, contexts, created
      ensures Valid() && created == old(created) && decomposed == old(decomposed)
      ensures Round(graph, old(created[c].Value()), created[c].Value())
      ensures queue == if created[c].status.Running? then [c] else []
    {
      hide Valid;
      hide OneBatch;
      var d := HandleOnly(c);
      if created[c].status.Running? {
        ReturnBatch(c, d);
      }
    }

    /** Admission and the first publication. */
    method Publish(c: nat) returns (raised: bool)
      requires Valid() && c < |created| && queue == []
      modifies this, contexts, created
      ensures Valid() && created == old(created) && decomposed == old(decomposed)
      ensures raised <==> !Admissible(old(Abs()), c)
      ensures raised ==> Abs() == old(Abs())
      ensures !raised ==>
                && queue == [c]
                && created[c].Value() ==
                   old(created[c].Value()).(status := Running, completion := Waiting, invoker := Awaiting)
    {
      hide Inv;
      hide Resume.Shape;
      ghost var was := Abs();
      ValueAt(c);
      raised := BeginInvocation(c);
      if raised {
        return;
      }
      FirstDispatch(was, c);
      this.InvokeStarts(c);
      this.InvokePosted(c);
      ValueAt(c);
    }

    lemma CurrentIsValid(c: nat)
      requires Valid() && c < |created| && created[c].status.Running?
      ensures Resume.Valid(graph, created[c].target, created[c].steps)
    {
      RunningIsValid(Abs(), c);
      ValueAt(c);
    }

    /** Where an undisturbed attempt of this fate stands, and which checkpoints it will end with. */
    ghost predicate OnCourse(fate: Fate, all: seq<Checkpoint>, y: Context) {
      if y.status.Running? then
        && y.completion.Waiting? && FateOf(graph, Here(y)) == fate
        && y.history + (if graph.noSnapshot then [] else TraceOf(graph, Here(y))) == all
      else Fulfils(fate, EndingOf(y)) && y.history == all
    }

    /** A whole undisturbed invocation computes RunFrom: it finishes with that run's final state and
        step count or fails where that run breaks, recording that run's checkpoints. */
    method Invoke(c: nat) returns (raised: bool)
      requires Valid() && c < |created| && queue == []
      modifies this, contexts, created
      ensures Valid() && created == old(created) && queue == [] && decomposed == old(decomposed)
      ensures raised <==> !Admissible(old(Abs()), c)
      ensures raised ==> Abs() == old(Abs())
      ensures !raised ==>
                var x := old(created[c].Value()); var y := created[c].Value();
                && Fulfils(FateOf(graph, Here(x)), EndingOf(y))
                && y.history == x.history + if graph.noSnapshot then [] else TraceOf(graph, Here(x))
    {
      hide Inv;
      hide Resume.Shape;
      hide OneBatch;
      ghost var x := created[c].Value();
      raised := Publish(c);
      if raised {
        return;
      }
      hide Abs;
      ghost var fate := FateOf(graph, Here(x));
      ghost var all := x.history + if graph.noSnapshot then [] else TraceOf(graph, Here(x));
      while created[c].status.Running?
        invariant Valid() && created == old(created) && decomposed == old(decomposed)
        invariant OnCourse(fate, all, created[c].Value())
        invariant queue == if created[c].status.Running? then [c] else []
        decreases if created[c].status.Running? then 1 + Budget(graph, created[c].steps) else 0
      {
        ghost var y := created[c].Value();
        CurrentIsValid(c);
        DispatchOnce(c);
        RoundFate(graph, y, created[c].Value());
      }
    }

    function Shown(x: GraphContext): Ending
      reads x
    {
      Ending(x.status, x.state, x.steps, x.completion, x.contextSnapshot)
    }

    /** Any version of any context's history, restored and invoked undisturbed, ends as the run from
        that checkpoint does, and records the retained prefix followed by that run's checkpoints. */
    method ResumeFrom(c: nat, version: int) returns (two: Option<Ending>)
      requires Valid() && queue == [] && !decomposed && c < |created|
      modifies this, contexts, created
      ensures Valid()
      ensures var history := old(created[c].contextSnapshot);
              var n := |history|;
              && (two.Some? <==> -n <= version < n)
              && (two.Some? ==>
                    var k := if version < 0 then n + version else version;
                    && Fulfils(FateOf(graph, history[k]), two.value)
                    && two.value.history ==
                       history[..k + 1] + if graph.noSnapshot then [] else TraceOf(graph, history[k]))
    {
      hide Inv;
      hide Resume.Shape;
      hide FateOf;
      hide TraceOf;
      hide Fulfils;
      ghost var history := created[c].contextSnapshot;
      var y := RestoreContext(c, version, false);
      if y == null {
        return None;
      }
      ghost var k := Selects(version, |history|);
      var d := |created| - 1;
      ValueAt(d);
      RestoredIsAdmissible(d);
      var raised := Invoke(d);
      two := Some(Shown(y));
      assert history[..k] + [history[k]] == history[..k + 1];
    }

    /** A new attempt from the entry point, invoked undisturbed. */
    method InvokeFresh(state: State) returns (one: Option<Ending>, c: nat)
      requires Valid() && queue == [] && !decomposed
      modifies this, contexts, created
      ensures Valid() && queue == [] && !decomposed
      ensures forall i :: 0 <= i < |created| ==> created[i] in old(created) || fresh(created[i])
      ensures one.None? <==> Validate(graph.nodes.Keys, graph.maxSteps, Some(graph.entry), 0).Rejected?
      ensures one.Some? ==>
                && c < |created| && created[c].contextSnapshot == one.value.history
                && Fulfils(FateOf(graph, Checkpoint(state, graph.entry, 0)), one.value)
                && one.value.history ==
                   if graph.noSnapshot then [] else TraceOf(graph, Checkpoint(state, graph.entry, 0))
    {
      hide Inv;
      hide Resume.Shape;
      hide FateOf;
      hide TraceOf;
      hide Validate;
      hide Fulfils;
      one := None;
      var x := CreateContext(state);
      c := |created| - 1;
      ValueAt(c);
      var raised := Invoke(c);
      if !raised {
        one := Some(Shown(x));
        assert [] + one.value.history == one.value.history;
      }
    }

    /** A whole invocation followed by the restoration of any version of its history and a second
        invocation from there: both end alike, whether they finish or fail, and the second history is the
        restored prefix followed by the first one's checkpoints from the selected one on. */
    method InvokeAndResume(state: State, version: int) returns (one: Option<Ending>, two: Option<Ending>)
      requires Valid() && queue == [] && !decomposed
      modifies this, contexts, created
      ensures Valid()
      ensures one.None? <==> Validate(graph.nodes.Keys, graph.maxSteps, Some(graph.entry), 0).Rejected?
      ensures one.None? ==> two.None?
      ensures one.Some? ==>
                var n := |one.value.history|;
                && (two.Some? <==> -n <= version < n)
                && (two.Some? ==>
                      var k := if version < 0 then n + version else version;
                      && two.value.status == one.value.status && two.value.state == one.value.state
                      && two.value.steps == one.value.steps && two.value.completion == one.value.completion
                      && two.value.history == one.value.history[..k + 1] + one.value.history[k..])
    {
      hide Valid;
      hide FateOf;
      hide TraceOf;
      hide Validate;
      hide Fulfils;
      two := None;
      var c: nat;
      one, c := InvokeFresh(state);
      if one.None? {
        return;
      }
      two := ResumeFrom(c, version);
      if two.Some? {
        ResumedAlike(Checkpoint(state, graph.entry, 0), one.value, version, two.value);
      }
    }

    /** An attempt from k that ended as fated, and one resumed from a checkpoint of its history, end alike. */
    lemma ResumedAlike(k: Checkpoint, one: Ending, version: int, two: Ending)
      requires Fulfils(FateOf(graph, k), one) && one.history == if graph.noSnapshot then [] else TraceOf(graph, k)
      requires -|one.history| <= version < |one.history|
      requires var j := Selects(version, |one.history|);
               && Fulfils(FateOf(graph, one.history[j]), two)
               && two.history == one.history[..j + 1] + if graph.noSnapshot then [] else TraceOf(graph, one.history[j])
      ensures var j := Selects(version, |one.history|);
              && two.status == one.status && two.state == one.state && two.steps == one.steps
              && two.completion == one.completion && two.history == one.history[..j + 1] + one.history[j..]
    {
      hide FateOf;
      hide TraceOf;
      TraceCoherent(graph, k, Selects(version, |one.history|));
    }

    /** A restored checkpoint passes admission. */
    lemma RestoredIsAdmissible(d: nat)
      requires Valid() && !decomposed && d < |created| && created[d].status.Pending?
      requires created[d].contextSnapshot != []
      requires created[d].contextSnapshot[|created[d].contextSnapshot| - 1] == Here(created[d].Value())
      ensures Admissible(Abs(), d)
    {
      ValueAt(d);
      assert Resume.ShapeOk(graph, Abs().ctxs[d]);
    }
  }
}
