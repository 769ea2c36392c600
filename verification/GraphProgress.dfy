/** Attempts left to themselves: with deterministic nodes they end, and as their fate says. */
module GraphProgress {
  import opened Common
  import opened Batch
  import opened Targets
  import opened GraphMachine
  import opened GraphInvariant
  import opened GraphResume
  import opened GraphTheorems
  import opened GraphTermination
  import opened GraphFate

  lemma InvRunning(m: Machine, c: nat)
    requires Inv(m) && c < |m.ctxs|
    ensures c in m.managed <==> m.ctxs[c].status.Running?
    ensures c in m.managed ==> !m.decomposed
    ensures m.ctxs[c].completion.Waiting? ==> m.ctxs[c].status.Running?
    ensures m.ctxs[c].status.Running? ==> !m.ctxs[c].completion.Unbound?
  {
    assert ContextOk(m.ctxs[c], c in m.managed, c in m.lost, Tokens(m, c));
  }

  /** What is left of an attempt that has ended. */
  datatype Ending = Ending(status: Status, state: State, steps: nat, completion: Completion, history: seq<Checkpoint>)

  function EndingOf(x: Context): Ending {
    Ending(x.status, x.state, x.steps, x.completion, x.history)
  }

  /** How an attempt of this fate ends. */
  ghost predicate Fulfils(fate: Fate, o: Ending) {
    match fate
    case Ends(state, steps) =>
      o.status.Finished? && o.state == state && o.steps == steps && o.completion == Resolved(state)
    case Breaks(state, steps, _) => o.status.Failed? && o.state == state && o.steps == steps && o.completion == Raised
  }

  lemma RunningIsValid(m: Machine, c: nat)
    requires Inv(m) && Shape(m) && c < |m.ctxs| && m.ctxs[c].status.Running?
    ensures Valid(m.graph, m.ctxs[c].target, m.ctxs[c].steps) && Active(m, c)
  {
    InvRunning(m, c);
    assert ShapeOk(m.graph, m.ctxs[c]);
  }

  lemma HandlerRound(m: Machine, d: nat)
    requires InUpstream(m, d) && m.tasks[d].phase == Upstream(false, false) && Active(m, m.tasks[d].ctx)
    ensures var n := HandlerRunsStep(m, d, false); var c := m.tasks[d].ctx; var x := m.ctxs[c];
            && |n.ctxs| == |m.ctxs| && |n.tasks| == |m.tasks| && n.queue == m.queue && n.graph == m.graph
            && n.decomposed == m.decomposed
            && if x.target == Single(END) then n.ctxs[c] == FinishContext(x)
               else
                 && n.ctxs[c] == StartBatch(x, m.graph.noSnapshot)
                 && n.tasks[d] == Dispatch(c, Executing)
  {
  }

  lemma BatchRound(m: Machine, d: nat, results: Option<seq<Member>>)
    requires InBatch(m, d) && Active(m, m.tasks[d].ctx)
    requires results == RunNodes(m.graph, NamesOf(m.ctxs[m.tasks[d].ctx].target), m.ctxs[m.tasks[d].ctx].state)
    ensures var n := BatchReturnsStep(m, d, results); var c := m.tasks[d].ctx; var x := m.ctxs[c];
            && |n.ctxs| == |m.ctxs| && |n.tasks| == |m.tasks| && n.queue == m.queue && n.graph == m.graph
            && n.decomposed == m.decomposed
            && match OneBatch(m.graph, x.state, x.target, x.steps)
               case Stops(live, at, _) => n.ctxs[c] == FailContext(x.(state := live, steps := at))
               case Continues(next, target, at) =>
                 && n.ctxs[c] == x.(state := next, target := target, steps := at)
                 && n.tasks[d] == Dispatch(c, Posting)
  {
    hide CommitResults;
  }

  // --------------------------------------------------------------------------------------------
  // An attempt left to itself
  // --------------------------------------------------------------------------------------------

  /** What the nodes of context c return for its live state. */
  function NodesOf(c: nat): Machine -> Option<seq<Member>> {
    (m: Machine) => if c < |m.ctxs| then RunNodes(m.graph, NamesOf(m.ctxs[c].target), m.ctxs[c].state) else None
  }

  /** No preceding handler failed or took a dispatch of context c, and none is cancelled. */
  ghost predicate Undisturbed(m: Machine, c: nat) {
    forall d :: 0 <= d < |m.tasks| && m.tasks[d].ctx == c ==>
      var phase := m.tasks[d].phase;
      !phase.Cancelling? && (phase.Upstream? ==> phase == Upstream(false, false))
  }

  /** A context in the hands of its own steps: on its way, or ended as its fate says, with exactly the
      checkpoints of its uninterrupted run. */
  ghost predicate OnTrack(g: Graph, y: Context) {
    if y.status.Running? then y.completion.Waiting?
    else
      && Fulfils(FateOf(g, y.origin), EndingOf(y))
      && (!g.noSnapshot ==> y.history == y.inherited + TraceOf(g, y.origin))
  }

  lemma OwnStepStays(m: Machine, a: Action, c: nat)
    requires OwnStep(m, a, c, NodesOf(c)) && Undisturbed(m, c)
    ensures Undisturbed(Step(m, a), c)
  {
    hide Validate;
    hide CommitResults;
  }

  lemma OwnStepFaithful(m: Machine, a: Action, c: nat)
    requires c < |m.ctxs| && OwnStep(m, a, c, NodesOf(c))
    ensures Enabled(m, a) && Faithful(m, a)
  {
  }

  /** The token leaves the invoker or the queue, or a publication ends. */
  lemma CarryStep(m: Machine, a: Action, c: nat)
    requires Inv(m) && Shape(m) && Enabled(m, a) && c < |m.ctxs| && m.ctxs[c].status.Running?
    requires a == Action.InvokeStarts(c) || a.InvokePosted? || a.DispatchStarts? || a.PostDone?
    ensures c < |Step(m, a).ctxs|
    ensures var y := Step(m, a).ctxs[c]; y.status == m.ctxs[c].status && y.completion == m.ctxs[c].completion
  {
    hide Inv;
    RunningIsValid(m, c);
    hide Shape;
    hide HandlerRunsStep;
    hide BatchReturnsStep;
    hide Normalise;
  }

  lemma HandlerStep(m: Machine, d: nat)
    requires InUpstream(m, d) && Inv(m) && Shape(m) && Fated(m)
    requires m.tasks[d].phase == Upstream(false, false) && Active(m, m.tasks[d].ctx)
    requires m.ctxs[m.tasks[d].ctx].completion.Waiting?
    ensures var n := HandlerRunsStep(m, d, false); var c := m.tasks[d].ctx;
            c < |n.ctxs| && OnTrack(m.graph, n.ctxs[c])
  {
    var c := m.tasks[d].ctx;
    HandlerRound(m, d);
    HandlerKeepsFate(m, d, false);
    HandlerKeepsGraph(m, d, false);
    var n := HandlerRunsStep(m, d, false);
    assert FateOk(m.graph, n.ctxs[c]);
    hide HandlerRunsStep;
    hide Inv;
    hide Shape;
    hide FateOk;
    hide Fated;
    hide RunFrom;
    hide TraceFrom;
    if n.ctxs[c].status.Finished? {
      FinishedFate(m.graph, n.ctxs[c]);
    }
  }

  lemma BatchEnds(g: Graph, x: Context, y: Context)
    requires ShapeOk(g, x) && FateOk(g, x) && MidBatch(g, x) && x.status.Running? && x.completion.Waiting?
    requires match OneBatch(g, x.state, x.target, x.steps)
             case Stops(live, at, _) => y == FailContext(x.(state := live, steps := at))
             case Continues(next, target, at) => y == x.(state := next, target := target, steps := at)
    ensures OnTrack(g, y)
  {
    hide ShapeOk;
    hide FateOk;
    hide MidBatch;
    hide OneBatch;
    hide RunFrom;
    hide TraceFrom;
    BreakFate(g, x);
  }

  lemma InBatchFacts(m: Machine, d: nat)
    requires InBatch(m, d) && Inv(m) && Shape(m) && Fated(m) && Active(m, m.tasks[d].ctx)
    ensures var x := m.ctxs[m.tasks[d].ctx]; ShapeOk(m.graph, x) && MidBatch(m.graph, x) && FateOk(m.graph, x)
  {
    hide ShapeOk;
    hide MidBatch;
    hide FateOk;
    assert PlaceOk(m, m.tasks[d]);
  }

  lemma BatchStep(m: Machine, d: nat)
    requires InBatch(m, d) && Inv(m) && Shape(m) && Fated(m) && Active(m, m.tasks[d].ctx)
    requires m.ctxs[m.tasks[d].ctx].completion.Waiting?
    ensures var c := m.tasks[d].ctx; var n := BatchReturnsStep(m, d, NodesOf(c)(m));
            c < |n.ctxs| && OnTrack(m.graph, n.ctxs[c])
  {
    hide BatchReturnsStep;
    hide Inv;
    hide Shape;
    hide ShapeOk;
    hide FateOk;
    hide MidBatch;
    hide Fated;
    hide OneBatch;
    hide OnTrack;
    hide RunNodes;
    var c := m.tasks[d].ctx;
    BatchRound(m, d, NodesOf(c)(m));
    InBatchFacts(m, d);
    BatchEnds(m.graph, m.ctxs[c], BatchReturnsStep(m, d, NodesOf(c)(m)).ctxs[c]);
  }

  lemma OwnStepOnTrack(m: Machine, a: Action, c: nat)
    requires Inv(m) && Shape(m) && Fated(m) && c < |m.ctxs| && OwnStep(m, a, c, NodesOf(c)) && Undisturbed(m, c)
    requires m.ctxs[c].status.Running? && m.ctxs[c].completion.Waiting?
    ensures c < |Step(m, a).ctxs| && OnTrack(m.graph, Step(m, a).ctxs[c])
  {
    hide Inv;
    hide Shape;
    hide Fated;
    hide FateOk;
    hide HandlerRunsStep;
    hide BatchReturnsStep;
    InvRunning(m, c);
    match a
    case HandlerRuns(d, _) => HandlerStep(m, d);
    case BatchReturns(d, _) => BatchStep(m, d);
    case _ => CarryStep(m, a, c);
  }

  lemma {:induction false} OwnRunFaithful(m: Machine, acts: seq<Action>, c: nat)
    requires c < |m.ctxs| && OwnRun(m, acts, c, NodesOf(c))
    ensures FaithfulRun(m, acts) && Runs(m, acts)
    decreases |acts|
  {
    hide OwnStep;
    hide Step;
    if acts != [] {
      OwnStepFaithful(m, acts[0], c);
      StepMoves(m, acts[0], c);
      OwnRunFaithful(Step(m, acts[0]), acts[1..], c);
    }
  }

  /** An attempt that has ended stays as it ended. */
  lemma EndedStays(m: Machine, acts: seq<Action>, c: nat)
    requires Inv(m) && Runs(m, acts) && c < |m.ctxs| && Terminal(m.ctxs[c].status) && OnTrack(m.graph, m.ctxs[c])
    ensures c < |After(m, acts).ctxs| && OnTrack(m.graph, After(m, acts).ctxs[c])
  {
    TerminalFrozen(m, acts, c);
    RunExtends(m, acts, c);
    hide Inv;
    hide Runs;
    hide After;
    hide RunFrom;
    hide TraceFrom;
  }

  /** One own step, and what it leaves for the next. */
  lemma OwnStepLeaves(m: Machine, a: Action, c: nat)
    requires Inv(m) && Shape(m) && Fated(m) && c < |m.ctxs| && OwnStep(m, a, c, NodesOf(c)) && Undisturbed(m, c)
    requires m.ctxs[c].status.Running? && m.ctxs[c].completion.Waiting?
    ensures var n := Step(m, a);
            && Inv(n) && Shape(n) && Fated(n) && n.graph == m.graph && c < |n.ctxs| && Undisturbed(n, c)
            && OnTrack(m.graph, n.ctxs[c]) && (n.ctxs[c].status.Running? || Terminal(n.ctxs[c].status))
  {
    hide Inv;
    hide Shape;
    hide Fated;
    hide Undisturbed;
    hide OwnStep;
    hide OnTrack;
    OwnStepFaithful(m, a, c);
    StepKeepsInv(m, a);
    StepKeepsShape(m, a);
    StepKeepsFate(m, a);
    OwnStepStays(m, a, c);
    OwnStepOnTrack(m, a, c);
    OneStepGraph(m, a);
    StepMoves(m, a, c);
    hide Step;
    hide Enabled;
  }

  lemma OneStepGraph(m: Machine, a: Action)
    requires Enabled(m, a)
    ensures Step(m, a).graph == m.graph
  {
    assert Runs(m, [a]) by {
      assert [a][1..] == [];
    }
    RunKeepsGraph(m, [a]);
    assert After(m, [a]) == Step(m, a) by {
      assert [a][1..] == [];
    }
  }

  /** Every schedule of an undisturbed attempt's own steps with deterministic nodes keeps it on its way
      to its fate. */
  lemma {:induction false} OwnRunOnTrack(m: Machine, acts: seq<Action>, c: nat)
    requires Inv(m) && Shape(m) && Fated(m) && c < |m.ctxs| && OwnRun(m, acts, c, NodesOf(c)) && Undisturbed(m, c)
    requires m.ctxs[c].status.Running? && m.ctxs[c].completion.Waiting?
    ensures Runs(m, acts) && c < |After(m, acts).ctxs| && OnTrack(m.graph, After(m, acts).ctxs[c])
    decreases |acts|
  {
    hide Inv;
    hide Shape;
    hide Fated;
    hide Undisturbed;
    hide OwnStep;
    hide Step;
    hide Enabled;
    OwnRunFaithful(m, acts, c);
    if acts != [] {
      var n := Step(m, acts[0]);
      OwnStepLeaves(m, acts[0], c);
      if n.ctxs[c].status.Running? {
        OwnRunOnTrack(n, acts[1..], c);
      } else {
        EndedStays(n, acts[1..], c);
      }
    }
  }

  /** After any faithful run, take a running attempt whose caller waits, whose dispatch event was not
      dropped and whose dispatch is undisturbed, and let only its own steps follow, in any order, with
      deterministic nodes.  No such schedule is longer than a bound; each can be continued while the
      attempt runs; and when it has ended, it has ended as the uninterrupted run of its origin does,
      finishing or failing, with that run's state, steps, outcome and checkpoints. */
  lemma LeftAloneEndsAsFated(g: Graph, before: seq<Action>, c: nat, acts: seq<Action>)
    requires GraphOk(g) && FaithfulRun(Initial(g), before) && Runs(Initial(g), before)
    requires var m := After(Initial(g), before);
             && c < |m.ctxs| && m.ctxs[c].status.Running? && m.ctxs[c].completion.Waiting?
             && c !in m.lost && Undisturbed(m, c) && OwnRun(m, acts, c, NodesOf(c))
    ensures var m := After(Initial(g), before);
            && Runs(m, acts) && |acts| <= OwnBound(m, c)
            && var n := After(m, acts);
            && c < |n.ctxs| && var y := n.ctxs[c];
            && y.origin == m.ctxs[c].origin
            && if y.status.Running? then exists a :: OwnStep(n, a, c, NodesOf(c))
               else
                 && Fulfils(FateOf(g, y.origin), EndingOf(y))
                 && y.inherited <= y.history
                 && (!g.noSnapshot ==> y.history == y.inherited + TraceOf(g, y.origin))
  {
    hide Inv;
    hide Shape;
    hide Fated;
    hide Undisturbed;
    hide OwnStep;
    hide RunFrom;
    hide TraceFrom;
    var m := After(Initial(g), before);
    ReachableFated(g, before);
    OwnRunOnTrack(m, acts, c);
    OwnRunFaithful(m, acts, c);
    RunKeepsFate(m, acts);
    LeftAloneEnds(m, acts, c, NodesOf(c));
    RunExtends(m, acts, c);
    InheritedKept(After(m, acts), c);
    hide Runs;
    hide After;
    hide FaithfulRun;
    hide OwnRun;
  }

  lemma InheritedKept(m: Machine, c: nat)
    requires Fated(m) && c < |m.ctxs|
    ensures m.ctxs[c].inherited <= m.ctxs[c].history
  {
    hide RunFrom;
    hide TraceFrom;
    assert FateOk(m.graph, m.ctxs[c]);
  }
}
