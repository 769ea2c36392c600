/** What graph invocations guarantee over whole runs. */
module GraphTheorems {
  import opened Common
  import opened Batch
  import opened Targets
  import opened GraphMachine
  import opened GraphInvariant
  import opened GraphResume

  // --------------------------------------------------------------------------------------------
  // Runs
  // --------------------------------------------------------------------------------------------

  ghost predicate Runs(m: Machine, acts: seq<Action>)
    decreases |acts|
  {
    acts == [] || (Enabled(m, acts[0]) && Runs(Step(m, acts[0]), acts[1..]))
  }

  ghost function After(m: Machine, acts: seq<Action>): Machine
    requires Runs(m, acts)
    decreases |acts|
  {
    if acts == [] then m else After(Step(m, acts[0]), acts[1..])
  }

  lemma {:induction false} RunKeepsInv(m: Machine, acts: seq<Action>)
    requires Inv(m) && Shape(m) && Runs(m, acts)
    ensures Inv(After(m, acts)) && Shape(After(m, acts))
    decreases |acts|
  {
    if acts != [] {
      StepKeepsInv(m, acts[0]);
      StepKeepsShape(m, acts[0]);
      RunKeepsInv(Step(m, acts[0]), acts[1..]);
    }
  }

  lemma InitialShape(g: Graph)
    requires GraphOk(g)
    ensures Inv(Initial(g)) && Shape(Initial(g))
  {
  }

  // --------------------------------------------------------------------------------------------
  // Ownership, freezing, completion
  // --------------------------------------------------------------------------------------------

  /** A graph manages exactly its running contexts. */
  lemma ManagedIsRunning(g: Graph, acts: seq<Action>)
    requires GraphOk(g) && Runs(Initial(g), acts)
    ensures var m := After(Initial(g), acts);
            m.managed == set c | 0 <= c < |m.ctxs| && m.ctxs[c].status.Running?
  {
    InitialShape(g);
    RunKeepsInv(Initial(g), acts);
    var m := After(Initial(g), acts);
    forall c
      ensures c in m.managed <==> 0 <= c < |m.ctxs| && m.ctxs[c].status.Running?
    {
      if 0 <= c < |m.ctxs| {
        assert ContextOk(m.ctxs[c], c in m.managed, c in m.lost, Tokens(m, c));
      }
    }
  }

  /** What a terminal context shows. */
  predicate SameOutcome(x: Context, y: Context) {
    && y.status == x.status && y.completion == x.completion
    && y.state == x.state && y.target == x.target && y.steps == x.steps && y.history == x.history
  }

  lemma TerminalStep(m: Machine, a: Action, c: nat)
    requires Inv(m) && Enabled(m, a) && c < |m.ctxs| && Terminal(m.ctxs[c].status)
    ensures c < |Step(m, a).ctxs| && SameOutcome(m.ctxs[c], Step(m, a).ctxs[c])
  {
    assert ContextOk(m.ctxs[c], c in m.managed, c in m.lost, Tokens(m, c));
    StepMoves(m, a, c);
    hide Inv;
    hide Step;
    hide Enabled;
  }

  /** Once terminal, a context is never changed again: not by late node results, stale events,
      cancellations, aborts or decomposition. */
  lemma {:induction false} TerminalFrozen(m: Machine, acts: seq<Action>, c: nat)
    requires Inv(m) && Runs(m, acts) && c < |m.ctxs| && Terminal(m.ctxs[c].status)
    ensures c < |After(m, acts).ctxs| && SameOutcome(m.ctxs[c], After(m, acts).ctxs[c])
    decreases |acts|
  {
    if acts != [] {
      TerminalStep(m, acts[0], c);
      StepKeepsInv(m, acts[0]);
      TerminalFrozen(Step(m, acts[0]), acts[1..], c);
    }
  }

  predicate Decided(x: Context) {
    !x.completion.Unbound? && !x.completion.Waiting?
  }

  lemma DecidedStep(m: Machine, a: Action, c: nat)
    requires Inv(m) && Enabled(m, a) && c < |m.ctxs| && Decided(m.ctxs[c])
    ensures c < |Step(m, a).ctxs| && Step(m, a).ctxs[c].completion == m.ctxs[c].completion
  {
    assert ContextOk(m.ctxs[c], c in m.managed, c in m.lost, Tokens(m, c));
    StepMoves(m, a, c);
    hide Inv;
    hide Step;
    hide Enabled;
  }

  /** A completion is resolved once: the first outcome stands, even when the waiting caller was
      cancelled before the context became terminal. */
  lemma {:induction false} CompletionResolvedOnce(m: Machine, acts: seq<Action>, c: nat)
    requires Inv(m) && Runs(m, acts) && c < |m.ctxs| && Decided(m.ctxs[c])
    ensures c < |After(m, acts).ctxs| && After(m, acts).ctxs[c].completion == m.ctxs[c].completion
    decreases |acts|
  {
    if acts != [] {
      DecidedStep(m, acts[0], c);
      StepKeepsInv(m, acts[0]);
      CompletionResolvedOnce(Step(m, acts[0]), acts[1..], c);
    }
  }

  // --------------------------------------------------------------------------------------------
  // No stranded invocation
  // --------------------------------------------------------------------------------------------

  /** Over every run, a running context has exactly one live token, unless its dispatch event was
      dropped outside the graph's control: then it has none. */
  lemma OneTokenIff(g: Graph, acts: seq<Action>, c: nat)
    requires GraphOk(g) && Runs(Initial(g), acts)
    requires c < |After(Initial(g), acts).ctxs| && After(Initial(g), acts).ctxs[c].status.Running?
    ensures var m := After(Initial(g), acts);
            && Tokens(m, c) <= 1
            && (Tokens(m, c) == 1 <==> c !in m.lost)
  {
    InitialShape(g);
    RunKeepsInv(Initial(g), acts);
    var m := After(Initial(g), acts);
    assert ContextOk(m.ctxs[c], c in m.managed, c in m.lost, Tokens(m, c));
  }

  lemma {:induction false} LossNeedsHazard(m: Machine, acts: seq<Action>)
    requires Runs(m, acts)
    requires forall i :: 0 <= i < |acts| ==> !acts[i].LoseQueued? && !acts[i].LoseTask?
    ensures After(m, acts).lost == m.lost
    decreases |acts|
  {
    if acts != [] {
      assert !acts[0].LoseQueued? && !acts[0].LoseTask?;
      assert forall i :: 0 <= i < |acts[1..]| ==> acts[1..][i] == acts[i + 1];
      LossNeedsHazard(Step(m, acts[0]), acts[1..]);
    }
  }

  /** Without such drops no invocation is ever stranded. */
  lemma NoStrandedInvocation(g: Graph, acts: seq<Action>, c: nat)
    requires GraphOk(g) && Runs(Initial(g), acts)
    requires forall i :: 0 <= i < |acts| ==> !acts[i].LoseQueued? && !acts[i].LoseTask?
    requires c < |After(Initial(g), acts).ctxs| && After(Initial(g), acts).ctxs[c].status.Running?
    ensures Tokens(After(Initial(g), acts), c) == 1
  {
    OneTokenIff(g, acts, c);
    LossNeedsHazard(Initial(g), acts);
  }

  lemma LostHasNoPlace(m: Machine, c: nat)
    requires Inv(m) && c in m.lost
    ensures c < |m.ctxs| && InvokerTokens(m.ctxs[c]) == 0
    ensures forall d :: 0 <= d < |m.tasks| && m.tasks[d].ctx == c ==> m.tasks[d].phase.Over?
    ensures !m.ctxs[c].status.Pending?
  {
    assert ContextOk(m.ctxs[c], c in m.managed, c in m.lost, Tokens(m, c));
    forall d | 0 <= d < |m.tasks| && m.tasks[d].ctx == c
      ensures m.tasks[d].phase.Over?
    {
      if !m.tasks[d].phase.Over? {
        CountPositive(m.tasks, d, LiveFor(c));
      }
    }
  }

  /** Nothing but its owner's callers can still reach context c. */
  ghost predicate NoPlace(m: Machine, c: nat) {
    && c < |m.ctxs| && InvokerTokens(m.ctxs[c]) == 0
    && (forall d :: 0 <= d < |m.tasks| && m.tasks[d].ctx == c ==> m.tasks[d].phase.Over?)
  }

  predicate OnlyStopped(x: Context, y: Context) {
    (y.status.Running? || y.status.Aborted?) && Here(y) == Here(x) && y.history == x.history
  }

  lemma StrandedDispatch(m: Machine, a: Action, c: nat)
    requires Enabled(m, a) && (a.HandlerRuns? || a.BatchReturns?) && NoPlace(m, c) && m.ctxs[c].status.Running?
    ensures c < |Step(m, a).ctxs| && Step(m, a).ctxs[c] == m.ctxs[c] && Step(m, a).lost == m.lost
  {
    if a.HandlerRuns? {
      HandlerMoves(m, a.task, a.snapshotFails, c);
    } else {
      BatchMoves(m, a.task, a.results, c);
    }
  }

  lemma StrandedTask(m: Machine, a: Action, c: nat)
    requires Enabled(m, a) && IsTaskAction(a) && !a.HandlerRuns? && !a.BatchReturns?
    requires NoPlace(m, c) && m.ctxs[c].status.Running?
    ensures c < |Step(m, a).ctxs| && OnlyStopped(m.ctxs[c], Step(m, a).ctxs[c]) && m.lost <= Step(m, a).lost
  {
    hide HandlerRunsStep;
    hide BatchReturnsStep;
    hide InvokeStartsStep;
  }

  lemma StrandedInvoker(m: Machine, a: Action, c: nat)
    requires Enabled(m, a) && !IsTaskAction(a) && NoPlace(m, c) && m.ctxs[c].status.Running?
    ensures c < |Step(m, a).ctxs| && OnlyStopped(m.ctxs[c], Step(m, a).ctxs[c]) && m.lost <= Step(m, a).lost
  {
    hide HandlerRunsStep;
    hide BatchReturnsStep;
    hide Validate;
  }

  /** A stranded context can only be aborted or cancelled: it never finishes, fails or moves. */
  lemma StrandedStep(m: Machine, a: Action, c: nat)
    requires Inv(m) && Enabled(m, a) && c in m.lost && c < |m.ctxs| && m.ctxs[c].status.Running?
    ensures c in Step(m, a).lost && c < |Step(m, a).ctxs| && OnlyStopped(m.ctxs[c], Step(m, a).ctxs[c])
  {
    LostHasNoPlace(m, c);
    hide Inv;
    hide Step;
    hide Enabled;
    if a.HandlerRuns? || a.BatchReturns? {
      StrandedDispatch(m, a, c);
    } else if IsTaskAction(a) {
      StrandedTask(m, a, c);
    } else {
      StrandedInvoker(m, a, c);
    }
  }

  // --------------------------------------------------------------------------------------------
  // Step budget and termination
  // --------------------------------------------------------------------------------------------

  /** An attempt starts at most max_steps - initial steps batches, one more than it has committed at
      most; a finished attempt committed each of them.  Its own checkpoints, unless the graph takes
      none, are one for each batch started, numbered by the steps before it. */
  lemma StepBudget(g: Graph, acts: seq<Action>, c: nat)
    requires GraphOk(g) && Runs(Initial(g), acts) && c < |After(Initial(g), acts).ctxs|
    ensures var x := After(Initial(g), acts).ctxs[c];
            && x.started <= Budget(g, x.origin.steps)
            && x.steps <= x.origin.steps + x.started <= x.steps + 1
            && (x.status.Finished? ==> x.steps == x.origin.steps + x.started)
            && x.inherited <= x.history && |Own(x)| == (if g.noSnapshot then 0 else x.started)
            && (forall i :: 0 <= i < |Own(x)| ==> Own(x)[i].steps == x.origin.steps + i)
  {
    InitialShape(g);
    RunKeepsInv(Initial(g), acts);
    RunKeepsGraph(Initial(g), acts);
    hide Inv;
    hide Runs;
    hide After;
    hide Normalise;
    hide Dispatchable;
    assert ShapeOk(g, After(Initial(g), acts).ctxs[c]);
  }

  lemma {:induction false} RunKeepsGraph(m: Machine, acts: seq<Action>)
    requires Runs(m, acts)
    ensures After(m, acts).graph == m.graph
    decreases |acts|
  {
    if acts != [] {
      RunKeepsGraph(Step(m, acts[0]), acts[1..]);
    }
  }
}
