/** Resume equivalence: with deterministic nodes, every checkpoint of every context leads to the
    same end as the attempt it was taken in, under any interleaving of steps. */
module GraphFate {
  import opened Common
  import opened Batch
  import opened Targets
  import opened GraphMachine
  import opened GraphInvariant
  import opened GraphResume
  import opened GraphTheorems
  import opened GraphEffects

  /** A finishing batch of an active context returns what its nodes compute from the live state. */
  ghost predicate Faithful(m: Machine, a: Action)
    requires Enabled(m, a)
  {
    a.BatchReturns? ==>
      FaithfulResults(m, m.ctxs[m.tasks[a.task].ctx], Active(m, m.tasks[a.task].ctx), a.results)
  }

  predicate FaithfulResults(m: Machine, x: Context, active: bool, results: Option<seq<Member>>) {
    active ==> results == RunNodes(m.graph, NamesOf(x.target), x.state)
  }

  ghost predicate FaithfulRun(m: Machine, acts: seq<Action>)
    decreases |acts|
  {
    acts == [] || (Enabled(m, acts[0]) && Faithful(m, acts[0]) && FaithfulRun(Step(m, acts[0]), acts[1..]))
  }

  lemma {:induction false} FaithfulRunsRun(m: Machine, acts: seq<Action>)
    requires FaithfulRun(m, acts)
    ensures Runs(m, acts)
    decreases |acts|
  {
    if acts != [] {
      FaithfulRunsRun(Step(m, acts[0]), acts[1..]);
    }
  }

  // --------------------------------------------------------------------------------------------
  // The trace of a run
  // --------------------------------------------------------------------------------------------

  /** Restarting at any checkpoint of a trace gives the rest of that trace and the same fate. */
  lemma {:induction false} TraceCoherent(g: Graph, k: Checkpoint, i: nat)
    requires i < |TraceOf(g, k)|
    ensures FateOf(g, TraceOf(g, k)[i]) == FateOf(g, k)
    ensures TraceOf(g, TraceOf(g, k)[i]) == TraceOf(g, k)[i..]
    decreases Budget(g, k.steps)
  {
    hide OneBatch;
    if i > 0 {
      match OneBatch(g, k.state, k.target, k.steps)
      case Continues(next, goal, at) =>
        TraceCoherent(g, Checkpoint(next, goal, at), i - 1);
      case Stops(_, _, _) =>
    }
  }

  // --------------------------------------------------------------------------------------------
  // The invariant
  // --------------------------------------------------------------------------------------------

  ghost predicate FateOk(g: Graph, x: Context) {
    var trace := TraceOf(g, x.origin);
    && x.inherited <= x.history && x.origin.steps <= x.steps
    && (forall j :: 0 <= j < |x.inherited| ==> FateOf(g, x.inherited[j]) == FateOf(g, x.origin))
    && Own(x) <= trace
    && (x.status.Running? ==>
          && FateOf(g, Here(x)) == FateOf(g, x.origin)
          && x.steps - x.origin.steps <= |trace|
          && trace[x.steps - x.origin.steps..] == TraceOf(g, Here(x)))
    && (x.status.Finished? ==>
          && FateOf(g, x.origin) == Ends(x.state, x.steps)
          && (!g.noSnapshot ==> Own(x) == trace))
  }

  ghost predicate Fated(m: Machine) {
    forall c :: 0 <= c < |m.ctxs| ==> FateOk(m.graph, m.ctxs[c])
  }

  lemma FateKept(g: Graph, x: Context, y: Context)
    requires FateOk(g, x) && SameData(x, y)
    ensures FateOk(g, y)
  {
  }

  predicate TouchesData(a: Action) {
    a.Create? || a.Restore? || a.Begin? || a.InvokeStarts? || a.HandlerRuns? || a.BatchReturns?
  }

  lemma TasksTouchNoData(m: Machine, a: Action, c: nat)
    requires Enabled(m, a) && !TouchesData(a) && IsTaskAction(a) && c < |m.ctxs|
    ensures |Step(m, a).ctxs| == |m.ctxs| && Step(m, a).graph == m.graph
    ensures SameData(m.ctxs[c], Step(m, a).ctxs[c])
  {
    hide HandlerRunsStep;
    hide BatchReturnsStep;
    hide InvokeStartsStep;
  }

  lemma InvokersTouchNoData(m: Machine, a: Action, c: nat)
    requires Enabled(m, a) && !TouchesData(a) && !IsTaskAction(a) && c < |m.ctxs|
    ensures |Step(m, a).ctxs| == |m.ctxs| && Step(m, a).graph == m.graph
    ensures SameData(m.ctxs[c], Step(m, a).ctxs[c])
  {
    hide HandlerRunsStep;
    hide BatchReturnsStep;
    hide InvokeStartsStep;
  }

  /** Only admission, the handler and a returning batch touch the data of a context. */
  lemma DataUntouched(m: Machine, a: Action, c: nat)
    requires Enabled(m, a) && !TouchesData(a) && c < |m.ctxs|
    ensures |Step(m, a).ctxs| == |m.ctxs| && Step(m, a).graph == m.graph
    ensures SameData(m.ctxs[c], Step(m, a).ctxs[c])
  {
    hide Step;
    hide Enabled;
    hide SameData;
    if IsTaskAction(a) {
      TasksTouchNoData(m, a, c);
    } else {
      InvokersTouchNoData(m, a, c);
    }
  }

  lemma NewContextFate(g: Graph, x: Context, history: seq<Checkpoint>)
    requires x == NewContext(x.origin, history)
    requires forall j :: 0 <= j < |history| ==> FateOf(g, history[j]) == FateOf(g, x.origin)
    ensures FateOk(g, x)
  {
    assert Own(x) == [];
  }

  /** Every checkpoint in a context's history shares its fate. */
  lemma HistoryFate(g: Graph, x: Context, k: nat)
    requires FateOk(g, x) && k < |x.history|
    ensures FateOf(g, x.history[k]) == FateOf(g, x.origin)
    ensures k >= |x.inherited| ==> TraceOf(g, x.history[k]) == TraceOf(g, x.origin)[k - |x.inherited|..]
  {
    if k >= |x.inherited| {
      var i := k - |x.inherited|;
      assert x.history[k] == Own(x)[i] == TraceOf(g, x.origin)[i];
      TraceCoherent(g, x.origin, i);
    } else {
      assert x.history[k] == x.inherited[k];
    }
  }

  lemma RestoredFate(g: Graph, x: Context, k: nat, single: bool)
    requires FateOk(g, x) && k < |x.history|
    ensures FateOk(g, RestoredContext(x.history, k, single))
  {
    var y := RestoredContext(x.history, k, single);
    forall j | 0 <= j < |y.inherited|
      ensures FateOf(g, y.inherited[j]) == FateOf(g, y.origin)
    {
      HistoryFate(g, x, k);
      if j < |y.inherited| - 1 {
        assert y.inherited[j] == x.history[j];
        HistoryFate(g, x, j);
      }
    }
    NewContextFate(g, y, y.inherited);
  }

  /** One batch of the uninterrupted run. */
  lemma BatchAhead(g: Graph, k: Checkpoint)
    requires k.target != Single(END) && k.steps < g.maxSteps
    ensures match OneBatch(g, k.state, k.target, k.steps)
            case Continues(next, target, at) =>
              FateOf(g, k) == FateOf(g, Checkpoint(next, target, at))
              && TraceOf(g, k) == [k] + TraceOf(g, Checkpoint(next, target, at))
            case Stops(live, at, reason) => FateOf(g, k) == Breaks(live, at, reason) && TraceOf(g, k) == [k]
  {
    hide OneBatch;
  }

  lemma StepsLeft(g: Graph, x: Context)
    requires ShapeOk(g, x) && x.status.Running? && x.target != Single(END)
    ensures x.steps < g.maxSteps
  {
  }

  lemma SameFateHere(g: Graph, x: Context)
    requires FateOk(g, x) && x.status.Running?
    ensures FateOf(g, Here(x)) == FateOf(g, x.origin)
  {
    hide RunFrom;
    hide TraceFrom;
  }

  /** The checkpoint a starting batch takes is the next one of the trace. */
  lemma NextInTrace(g: Graph, x: Context)
    requires ShapeOk(g, x) && FateOk(g, x) && x.status.Running? && x.target != Single(END)
    ensures var trace, n := TraceOf(g, x.origin), x.steps - x.origin.steps;
            0 <= n < |trace| && trace[n] == Here(x)
  {
    hide ShapeOk;
    hide OneBatch;
    hide RunFrom;
    hide TraceFrom;
    StepsLeft(g, x);
    BatchAhead(g, Here(x));
    assert TraceOf(g, Here(x))[0] == Here(x);
  }

  lemma OwnAtStart(g: Graph, x: Context)
    requires ShapeOk(g, x) && Settled(g, x)
    ensures Own(StartBatch(x, g.noSnapshot)) == Own(x) + if g.noSnapshot then [] else [Here(x)]
    ensures !g.noSnapshot ==> |Own(x)| == x.steps - x.origin.steps
  {
    hide Dispatchable;
    hide Normalise;
  }

  lemma SameOwn(x: Context, y: Context)
    requires y.inherited == x.inherited && y.history == x.history
    ensures x.inherited <= x.history ==> Own(y) == Own(x)
  {
  }

  lemma StartFate(g: Graph, x: Context)
    requires ShapeOk(g, x) && FateOk(g, x) && x.status.Running? && Settled(g, x)
    requires x.target != Single(END)
    ensures FateOk(g, StartBatch(x, g.noSnapshot))
  {
    hide ShapeOk;
    hide Own;
    hide RunFrom;
    hide TraceFrom;
    NextInTrace(g, x);
    OwnAtStart(g, x);
    assert Here(StartBatch(x, g.noSnapshot)) == Here(x);
  }

  lemma NothingAhead(g: Graph, k: Checkpoint)
    requires k.target == Single(END)
    ensures FateOf(g, k) == Ends(k.state, k.steps) && TraceOf(g, k) == []
  {
  }

  lemma FinishFate(g: Graph, x: Context)
    requires ShapeOk(g, x) && FateOk(g, x) && x.status.Running? && Settled(g, x) && x.target == Single(END)
    ensures FateOk(g, FinishContext(x))
  {
    hide ShapeOk;
    hide Own;
    hide RunFrom;
    hide TraceFrom;
    NothingAhead(g, Here(x));
    OwnAtStart(g, x);
    var trace := TraceOf(g, x.origin);
    assert |trace[x.steps - x.origin.steps..]| == |trace| - (x.steps - x.origin.steps);
    assert Here(FinishContext(x)) == Here(x);
    SameOwn(x, FinishContext(x));
  }

  lemma Suffix(trace: seq<Checkpoint>, n: nat, k: Checkpoint, rest: seq<Checkpoint>)
    requires n <= |trace| && trace[n..] == [k] + rest
    ensures n + 1 <= |trace| && trace[n + 1..] == rest
  {
    assert trace[n + 1..] == trace[n..][1..];
  }

  lemma CommitFate(g: Graph, x: Context)
    requires ShapeOk(g, x) && FateOk(g, x) && x.status.Running? && x.target != Single(END)
    ensures match OneBatch(g, x.state, x.target, x.steps)
            case Continues(next, target, at) => FateOk(g, x.(state := next, target := target, steps := at))
            case Stops(live, at, _) => at >= x.steps && FateOf(g, x.origin).Breaks?
  {
    hide OneBatch;
    hide ShapeOk;
    hide FateOk;
    hide RunFrom;
    hide TraceFrom;
    StepsLeft(g, x);
    BatchAhead(g, Here(x));
    SameFateHere(g, x);
    match OneBatch(g, x.state, x.target, x.steps)
    case Continues(next, target, at) =>
      ContinuedFate(g, x, x.(state := next, target := target, steps := at));
    case Stops(_, _, _) =>
  }

  /** A batch that stops during its run ends it where the fate breaks, after the trace's last checkpoint. */
  lemma BreakFate(g: Graph, x: Context)
    requires ShapeOk(g, x) && FateOk(g, x) && x.status.Running? && MidBatch(g, x)
    ensures match OneBatch(g, x.state, x.target, x.steps)
            case Continues(_, _, _) => true
            case Stops(live, at, reason) =>
              && FateOf(g, x.origin) == Breaks(live, at, reason)
              && (!g.noSnapshot ==> x.history == x.inherited + TraceOf(g, x.origin))
  {
    hide OneBatch;
    hide RunFrom;
    hide TraceFrom;
    hide Normalise;
    hide Dispatchable;
    StepsLeft(g, x);
    BatchAhead(g, Here(x));
    SameFateHere(g, x);
    var trace, n := TraceOf(g, x.origin), x.steps - x.origin.steps;
    if OneBatch(g, x.state, x.target, x.steps).Stops? && !g.noSnapshot {
      assert |trace[n..]| == 1 && |Own(x)| == n + 1;
      assert Own(x) == trace[..n + 1] == trace;
      assert x.history == x.inherited + Own(x);
    }
  }

  lemma ContinuedFate(g: Graph, x: Context, y: Context)
    requires FateOk(g, x) && x.status.Running?
    requires y == x.(state := y.state, target := y.target, steps := x.steps + 1)
    requires FateOf(g, Here(y)) == FateOf(g, Here(x)) && TraceOf(g, Here(x)) == [Here(x)] + TraceOf(g, Here(y))
    ensures FateOk(g, y)
  {
    hide RunFrom;
    hide TraceFrom;
    Suffix(TraceOf(g, x.origin), x.steps - x.origin.steps, Here(x), TraceOf(g, Here(y)));
    assert Own(y) == Own(x);
  }

  lemma BatchKeepsFate(m: Machine, d: nat, results: Option<seq<Member>>)
    requires InBatch(m, d) && Inv(m) && Shape(m) && Fated(m)
    requires FaithfulResults(m, m.ctxs[m.tasks[d].ctx], Active(m, m.tasks[d].ctx), results)
    ensures Fated(BatchReturnsStep(m, d, results))
  {
    hide RunFrom;
    hide TraceFrom;
    hide CommitResults;
    hide ShapeOk;
    var n := BatchReturnsStep(m, d, results);
    var x := m.ctxs[m.tasks[d].ctx];
    if Active(m, m.tasks[d].ctx) {
      assert ShapeOk(m.graph, x) && PlaceOk(m, m.tasks[d]) && FateOk(m.graph, x);
      CommitFate(m.graph, x);
      assert Own(n.ctxs[m.tasks[d].ctx]) == Own(x);
    }
  }

  lemma HandlerKeepsFate(m: Machine, d: nat, snapshotFails: bool)
    requires InUpstream(m, d) && Inv(m) && Shape(m) && Fated(m)
    ensures Fated(HandlerRunsStep(m, d, snapshotFails))
  {
    hide Inv;
    hide ShapeOk;
    hide FateOk;
    hide Settled;
    var n := HandlerRunsStep(m, d, snapshotFails);
    var c := m.tasks[d].ctx;
    var x := m.ctxs[c];
    assert ShapeOk(m.graph, x) && PlaceOk(m, m.tasks[d]);
    HandlerKeepsGraph(m, d, snapshotFails);
    hide Shape;
    hide HandlerRunsStep;
    forall e | 0 <= e < |m.ctxs|
      ensures FateOk(m.graph, n.ctxs[e])
    {
      HandlerMoves(m, d, snapshotFails, e);
      if n.ctxs[e] != m.ctxs[e] {
        HandledFate(m, d, n.ctxs[e]);
      }
    }
  }

  lemma HandledFate(m: Machine, d: nat, y: Context)
    requires InUpstream(m, d) && m.ctxs[m.tasks[d].ctx].status.Running? && HandlerEffect(m, d, m.ctxs[m.tasks[d].ctx], y)
    requires var x := m.ctxs[m.tasks[d].ctx]; ShapeOk(m.graph, x) && Settled(m.graph, x) && FateOk(m.graph, x)
    ensures FateOk(m.graph, y)
  {
    hide ShapeOk;
    hide FateOk;
    hide Settled;
    var x := m.ctxs[m.tasks[d].ctx];
    if y == FailContext(x) || y == AbortContext(x) {
      FateKept(m.graph, x, y);
    } else if x.target == Single(END) {
      FinishFate(m.graph, x);
    } else {
      StartFate(m.graph, x);
    }
  }

  lemma HandlerKeepsGraph(m: Machine, d: nat, snapshotFails: bool)
    requires InUpstream(m, d)
    ensures HandlerRunsStep(m, d, snapshotFails).graph == m.graph
    ensures |HandlerRunsStep(m, d, snapshotFails).ctxs| == |m.ctxs|
  {
  }

  lemma BegunFate(g: Graph, x: Context, y: Context)
    requires ShapeOk(g, x) && FateOk(g, x) && x.status.Pending?
    requires y == x.(status := Running, completion := Waiting, invoker := Starting)
    ensures FateOk(g, y)
  {
    hide RunFrom;
    hide TraceFrom;
    hide Normalise;
    hide Dispatchable;
    assert Own(y) == Own(x) && Here(y) == Here(x) == x.origin;
    assert TraceOf(g, x.origin)[0..] == TraceOf(g, x.origin);
  }

  lemma AdmissionKeepsFate(m: Machine, a: Action)
    requires Inv(m) && Shape(m) && Fated(m) && Enabled(m, a) && (a.Begin? || a.InvokeStarts?)
    ensures Fated(Step(m, a))
  {
    hide Inv;
    hide ShapeOk;
    hide FateOk;
    hide Validate;
    hide HandlerRunsStep;
    hide BatchReturnsStep;
    hide InvokeStartsStep;
    if a.Begin? {
      BegunFate(m.graph, m.ctxs[a.ctx], Step(m, a).ctxs[a.ctx]);
    } else {
      StartChangesNoData(m, a.ctx);
      FateKept(m.graph, m.ctxs[a.ctx], Step(m, a).ctxs[a.ctx]);
    }
  }

  lemma CreationKeepsFate(m: Machine, a: Action)
    requires Fated(m) && Enabled(m, a) && (a.Create? || a.Restore?)
    ensures Fated(Step(m, a))
  {
    hide FateOk;
    hide RunFrom;
    hide TraceFrom;
    hide HandlerRunsStep;
    hide BatchReturnsStep;
    hide InvokeStartsStep;
    if a.Create? {
      NewContextFate(m.graph, Step(m, a).ctxs[|m.ctxs|], []);
    } else {
      RestoredFate(m.graph, m.ctxs[a.ctx], ListIndex(a.version, |m.ctxs[a.ctx].history|).value, a.single);
    }
  }

  lemma OtherKeepsFate(m: Machine, a: Action)
    requires Inv(m) && Shape(m) && Fated(m) && Enabled(m, a)
    requires !a.Create? && !a.Restore? && !a.Begin? && !a.InvokeStarts? && !a.HandlerRuns? && !a.BatchReturns?
    ensures Fated(Step(m, a))
  {
    hide FateOk;
    hide Inv;
    hide Shape;
    hide Moved;
    var n := Step(m, a);
    OthersKeepCount(m, a);
    hide Step;
    hide Enabled;
    forall c | 0 <= c < |n.ctxs|
      ensures FateOk(n.graph, n.ctxs[c])
    {
      DataUntouched(m, a, c);
      FateKept(m.graph, m.ctxs[c], n.ctxs[c]);
    }
  }

  lemma OthersKeepCount(m: Machine, a: Action)
    requires Enabled(m, a) && !a.Create? && !a.Restore? && !a.HandlerRuns? && !a.BatchReturns?
    ensures Step(m, a).graph == m.graph && |Step(m, a).ctxs| == |m.ctxs|
  {
    hide Validate;
  }

  lemma StepKeepsFate(m: Machine, a: Action)
    requires Inv(m) && Shape(m) && Fated(m) && Enabled(m, a) && Faithful(m, a)
    ensures Fated(Step(m, a))
  {
    hide Fated;
    hide Inv;
    hide Shape;
    hide HandlerRunsStep;
    hide BatchReturnsStep;
    hide InvokeStartsStep;
    match a
    case Create(_) => CreationKeepsFate(m, a);
    case Restore(_, _, _) => CreationKeepsFate(m, a);
    case Begin(_) => AdmissionKeepsFate(m, a);
    case InvokeStarts(_) => AdmissionKeepsFate(m, a);
    case HandlerRuns(d, snapshotFails) => HandlerKeepsFate(m, d, snapshotFails);
    case BatchReturns(d, results) => BatchKeepsFate(m, d, results);
    case _ => OtherKeepsFate(m, a);
  }

  lemma {:induction false} RunKeepsFate(m: Machine, acts: seq<Action>)
    requires Inv(m) && Shape(m) && Fated(m) && FaithfulRun(m, acts)
    ensures Runs(m, acts) && Inv(After(m, acts)) && Shape(After(m, acts)) && Fated(After(m, acts))
    ensures After(m, acts).graph == m.graph
    decreases |acts|
  {
    hide Inv;
    hide Shape;
    hide Fated;
    hide Step;
    FaithfulRunsRun(m, acts);
    RunKeepsGraph(m, acts);
    if acts != [] {
      StepKeepsInv(m, acts[0]);
      StepKeepsShape(m, acts[0]);
      StepKeepsFate(m, acts[0]);
      RunKeepsFate(Step(m, acts[0]), acts[1..]);
    }
  }

  /** A context keeps its origin and its recorded history, which only grows. */
  predicate Extends(x: Context, y: Context) {
    y.origin == x.origin && y.inherited == x.inherited && x.history <= y.history
  }

  lemma StepExtends(m: Machine, a: Action, c: nat)
    requires Enabled(m, a) && c < |m.ctxs|
    ensures c < |Step(m, a).ctxs| && Extends(m.ctxs[c], Step(m, a).ctxs[c])
  {
    StepMoves(m, a, c);
    hide Step;
    hide Enabled;
  }

  lemma {:induction false} RunExtends(m: Machine, acts: seq<Action>, c: nat)
    requires Runs(m, acts) && c < |m.ctxs|
    ensures c < |After(m, acts).ctxs| && Extends(m.ctxs[c], After(m, acts).ctxs[c])
    decreases |acts|
  {
    if acts != [] {
      StepExtends(m, acts[0], c);
      RunExtends(Step(m, acts[0]), acts[1..], c);
    }
  }

  // --------------------------------------------------------------------------------------------
  // The results
  // --------------------------------------------------------------------------------------------

  lemma ReachableFated(g: Graph, acts: seq<Action>)
    requires GraphOk(g) && FaithfulRun(Initial(g), acts)
    ensures Runs(Initial(g), acts)
    ensures var m := After(Initial(g), acts); m.graph == g && Inv(m) && Shape(m) && Fated(m)
  {
    InitialShape(g);
    RunKeepsFate(Initial(g), acts);
  }

  lemma FinishedFate(g: Graph, x: Context)
    requires FateOk(g, x) && x.status.Finished?
    ensures FateOf(g, x.origin) == Ends(x.state, x.steps) && x.inherited <= x.history
    ensures !g.noSnapshot ==> x.history == x.inherited + TraceOf(g, x.origin)
  {
    hide RunFrom;
    hide TraceFrom;
    assert x.history == x.inherited + Own(x);
  }

  /** After any faithful run, the uninterrupted run from any checkpoint of any context, failing or
      finishing, is that of the context's own start. */
  lemma CheckpointsShareFate(g: Graph, acts: seq<Action>, c: nat, k: nat)
    requires GraphOk(g) && FaithfulRun(Initial(g), acts)
    requires Runs(Initial(g), acts) && c < |After(Initial(g), acts).ctxs| && k < |After(Initial(g), acts).ctxs[c].history|
    ensures var x := After(Initial(g), acts).ctxs[c]; FateOf(g, x.history[k]) == FateOf(g, x.origin)
  {
    hide Inv;
    hide Shape;
    hide After;
    hide RunFrom;
    hide TraceFrom;
    ReachableFated(g, acts);
    HistoryFate(g, After(Initial(g), acts).ctxs[c], k);
  }

  /** A finished attempt ended exactly where the uninterrupted run of its origin ends, with exactly
      that run's checkpoints; a run that breaks never finishes. */
  lemma FinishedAsFated(g: Graph, acts: seq<Action>, c: nat)
    requires GraphOk(g) && FaithfulRun(Initial(g), acts)
    requires Runs(Initial(g), acts) && c < |After(Initial(g), acts).ctxs|
    requires After(Initial(g), acts).ctxs[c].status.Finished?
    ensures var x := After(Initial(g), acts).ctxs[c];
            && FateOf(g, x.origin) == Ends(x.state, x.steps)
            && (!g.noSnapshot ==> x.history == x.inherited + TraceOf(g, x.origin))
  {
    hide Inv;
    hide Shape;
    hide FateOk;
    hide After;
    hide RunFrom;
    hide TraceFrom;
    ReachableFated(g, acts);
    FinishedFate(g, After(Initial(g), acts).ctxs[c]);
  }

  /** The counterpart for failures: under any interleaving, a running attempt whose returning batch
      fails it has failed exactly where the uninterrupted run of its origin breaks, with the live state
      and steps of that run and exactly its checkpoints. */
  lemma FailedAsFated(g: Graph, acts: seq<Action>, d: nat, results: Option<seq<Member>>)
    requires GraphOk(g) && FaithfulRun(Initial(g), acts) && Runs(Initial(g), acts)
    requires var m, a := After(Initial(g), acts), BatchReturns(d, results);
             Enabled(m, a) && Faithful(m, a) && Active(m, m.tasks[d].ctx)
    ensures var m := After(Initial(g), acts);
            var c, n := m.tasks[d].ctx, Step(m, BatchReturns(d, results));
            && c < |n.ctxs| && (n.ctxs[c].status.Failed? || n.ctxs[c].status.Running?)
            && var y, fate := n.ctxs[c], FateOf(g, n.ctxs[c].origin);
            y.status.Failed? ==>
              && fate.Breaks? && fate.state == y.state && fate.steps == y.steps
              && y.inherited <= y.history && (!g.noSnapshot ==> y.history == y.inherited + TraceOf(g, y.origin))
  {
    ReachableFated(g, acts);
    var m := After(Initial(g), acts);
    BatchFails(m, d, results);
  }

  lemma BatchFails(m: Machine, d: nat, results: Option<seq<Member>>)
    requires InBatch(m, d) && Inv(m) && Shape(m) && Fated(m) && Active(m, m.tasks[d].ctx)
    requires FaithfulResults(m, m.ctxs[m.tasks[d].ctx], true, results)
    ensures var c, n := m.tasks[d].ctx, BatchReturnsStep(m, d, results);
            && c < |n.ctxs| && (n.ctxs[c].status.Failed? || n.ctxs[c].status.Running?)
            && var y, fate := n.ctxs[c], FateOf(m.graph, n.ctxs[c].origin);
            y.status.Failed? ==>
              && fate.Breaks? && fate.state == y.state && fate.steps == y.steps
              && y.inherited <= y.history
              && (!m.graph.noSnapshot ==> y.history == y.inherited + TraceOf(m.graph, y.origin))
  {
    hide CommitResults;
    hide RunFrom;
    hide TraceFrom;
    hide Inv;
    var x := m.ctxs[m.tasks[d].ctx];
    assert ShapeOk(m.graph, x) && PlaceOk(m, m.tasks[d]) && FateOk(m.graph, x);
    BreakFate(m.graph, x);
  }

  /** Resume equivalence.  After any faithful run `before`, restore any valid version of any
      context's history, and let any faithful run `later` follow.  The restored history is the
      prefix up to the selected checkpoint.  Whenever both attempts finish, they finish with the same
      state and step count; the resumed one has recorded the prefix followed by the original's
      checkpoints from the selected one on. */
  lemma ResumeEquivalence(
      g: Graph, before: seq<Action>, c: nat, version: int, later: seq<Action>)
    requires GraphOk(g) && FaithfulRun(Initial(g), before) && Runs(Initial(g), before)
    requires Enabled(After(Initial(g), before), Action.Restore(c, version, false))
    requires FaithfulRun(Step(After(Initial(g), before), Action.Restore(c, version, false)), later)
    ensures var m := After(Initial(g), before);
            var start := Step(m, Action.Restore(c, version, false));
            var history := m.ctxs[c].history; var n := |history|;
            -n <= version < n &&
            var k := if version < 0 then n + version else version;
            var d := |m.ctxs|;
            Runs(start, later) &&
            var end := After(start, later);
            && c < |end.ctxs| && d < |end.ctxs| && history <= end.ctxs[c].history
            && start.ctxs[d].history == history[..k + 1]
            && start.ctxs[d].state == history[k].state && start.ctxs[d].target == history[k].target
            && start.ctxs[d].steps == history[k].steps
            && (end.ctxs[c].status.Finished? && end.ctxs[d].status.Finished? ==>
                  && end.ctxs[d].state == end.ctxs[c].state && end.ctxs[d].steps == end.ctxs[c].steps
                  && (!g.noSnapshot && k >= |m.ctxs[c].inherited| ==>
                        end.ctxs[d].history == history[..k + 1] + end.ctxs[c].history[k..]))
  {
    hide Inv;
    hide Shape;
    hide FateOk;
    hide RunFrom;
    hide TraceFrom;
    hide Runs;
    hide After;
    hide FaithfulRun;
    ReachableFated(g, before);
    var m := After(Initial(g), before);
    var a := Action.Restore(c, version, false);
    var start := Step(m, a);
    StepKeepsInv(m, a);
    StepKeepsShape(m, a);
    StepKeepsFate(m, a);
    RunKeepsFate(start, later);
    var history := m.ctxs[c].history;
    RestoreEffect(m, c, version, false);
    var k := Selects(version, |history|);
    var d := |m.ctxs|;
    RunExtends(start, later, c);
    RunExtends(start, later, d);
    HistoryFate(g, m.ctxs[c], k);
    assert history[..k + 1] == history[..k] + [history[k]];
    var end := After(start, later);
    if end.ctxs[c].status.Finished? && end.ctxs[d].status.Finished? {
      ResumedHistories(g, end.ctxs[c], end.ctxs[d], m.ctxs[c].inherited, history, k);
    }
  }

  lemma ResumedHistories(
      g: Graph, x: Context, y: Context, inherited: seq<Checkpoint>, history: seq<Checkpoint>, k: nat)
    requires FateOk(g, x) && FateOk(g, y) && x.status.Finished? && y.status.Finished?
    requires x.inherited == inherited && history <= x.history && k < |history|
    requires y.origin == history[k] && y.inherited == history[..k + 1]
    ensures y.state == x.state && y.steps == x.steps
    ensures !g.noSnapshot && k >= |inherited| ==> y.history == history[..k + 1] + x.history[k..]
  {
    hide FateOk;
    hide RunFrom;
    hide TraceFrom;
    FinishedFate(g, x);
    FinishedFate(g, y);
    assert x.history[k] == history[k];
    HistoryFate(g, x, k);
    if !g.noSnapshot && k >= |inherited| {
      assert TraceOf(g, x.origin)[k - |inherited|..] == x.history[k..];
    }
  }
}
