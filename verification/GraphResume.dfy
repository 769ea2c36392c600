/** Checkpoints: what every context's history records, and why resuming any checkpoint of
    deterministic nodes gives the same run. */
module GraphResume {
  import opened Common
  import opened Batch
  import opened Targets
  import opened GraphMachine
  import opened GraphInvariant

  /** What the NodeGraph constructor establishes. */
  ghost predicate GraphOk(g: Graph) {
    END !in g.nodes && Normalise(g.nodes.Keys, Some(g.entry)) == Ok(g.entry)
  }

  /** The checkpoints that this attempt took itself. */
  function Own(x: Context): seq<Checkpoint>
    requires |x.inherited| <= |x.history|
  {
    x.history[|x.inherited|..]
  }

  ghost predicate Valid(g: Graph, target: Target, steps: nat) {
    Validate(g.nodes.Keys, g.maxSteps, Some(target), steps) == Ok(target)
  }

  /** A checkpoint of a batch about to start. */
  ghost predicate Dispatchable(g: Graph, k: Checkpoint) {
    Valid(g, k.target, k.steps) && k.target != Single(END)
  }

  /** The recorded history of a context and its step count, whatever its nodes returned. */
  ghost predicate ShapeOk(g: Graph, x: Context) {
    && x.inherited <= x.history
    && Normalise(g.nodes.Keys, Some(x.origin.target)) == Ok(x.origin.target)
    && x.origin.steps <= x.steps
    && (x.steps > x.origin.steps ==> x.steps <= g.maxSteps)
    && (forall i :: 0 <= i < |x.history| ==> Dispatchable(g, x.history[i]))
    && (forall i :: 0 <= i < |Own(x)| ==> Own(x)[i].steps == x.origin.steps + i)
    && |Own(x)| == (if g.noSnapshot then 0 else x.started)
    && x.steps <= x.origin.steps + x.started <= x.steps + 1
    && (x.started > 0 ==> x.origin.steps + x.started <= g.maxSteps)
    && (x.inherited != [] ==> x.inherited[|x.inherited| - 1] == x.origin)
    && (x.status.Pending? ==> Here(x) == x.origin && x.started == 0)
    && (x.status.Running? ==> Valid(g, x.target, x.steps))
    && (x.status.Running? && x.steps == x.origin.steps ==> Here(x) == x.origin)
    && (x.status.Running? && !Settled(g, x) ==> MidBatch(g, x))
    && (x.status.Finished? ==> Settled(g, x) && x.target == Single(END))
  }

  /** Every batch started has been committed. */
  ghost predicate Settled(g: Graph, x: Context) {
    x.origin.steps + x.started == x.steps
  }

  /** A batch of this context is under way: its checkpoint is the newest one. */
  ghost predicate MidBatch(g: Graph, x: Context) {
    && x.target != Single(END) && x.origin.steps + x.started == x.steps + 1
    && (!g.noSnapshot ==> x.history != [] && x.history[|x.history| - 1] == Here(x))
  }

  ghost predicate PlaceOk(m: Machine, d: Dispatch) {
    d.ctx < |m.ctxs| && m.ctxs[d.ctx].status.Running? ==>
      && (d.phase.Upstream? || d.phase.Posting? ==> Settled(m.graph, m.ctxs[d.ctx]))
      && (d.phase.Executing? ==> MidBatch(m.graph, m.ctxs[d.ctx]))
  }

  ghost predicate Shape(m: Machine) {
    && GraphOk(m.graph)
    && (forall c :: 0 <= c < |m.ctxs| ==> ShapeOk(m.graph, m.ctxs[c]))
    && (forall c :: 0 <= c < |m.ctxs| && m.ctxs[c].status.Running? && InvokerTokens(m.ctxs[c]) > 0 ==>
                      Settled(m.graph, m.ctxs[c]))
    && (forall i :: 0 <= i < |m.queue| && m.queue[i] < |m.ctxs| && m.ctxs[m.queue[i]].status.Running? ==>
                      Settled(m.graph, m.ctxs[m.queue[i]]))
    && (forall d :: 0 <= d < |m.tasks| ==> PlaceOk(m, m.tasks[d]))
  }

  // --------------------------------------------------------------------------------------------
  // The live token is alone
  // --------------------------------------------------------------------------------------------

  lemma {:induction false} CountTwo<T>(s: seq<T>, i: nat, j: nat, p: T -> bool)
    requires i < j < |s| && p(s[i]) && p(s[j])
    ensures Count(s, p) >= 2
  {
    if j == |s| - 1 {
      CountPositive(s[..j], i, p);
    } else {
      CountTwo(s[..|s| - 1], i, j, p);
    }
  }

  /** While task d has the token of its context, no other place has one. */
  lemma OnlyPlace(m: Machine, d: nat)
    requires Inv(m) && d < |m.tasks| && !m.tasks[d].phase.Over?
    ensures InvokerTokens(m.ctxs[m.tasks[d].ctx]) == 0
    ensures forall i :: 0 <= i < |m.queue| ==> m.queue[i] != m.tasks[d].ctx
    ensures forall e :: 0 <= e < |m.tasks| && e != d && m.tasks[e].ctx == m.tasks[d].ctx ==> m.tasks[e].phase.Over?
  {
    var c := m.tasks[d].ctx;
    assert ContextOk(m.ctxs[c], c in m.managed, c in m.lost, Tokens(m, c));
    CountPositive(m.tasks, d, LiveFor(c));
    forall i | 0 <= i < |m.queue|
      ensures m.queue[i] != c
    {
      if m.queue[i] == c {
        CountPositive(m.queue, i, Is(c));
      }
    }
    forall e | 0 <= e < |m.tasks| && e != d && m.tasks[e].ctx == c
      ensures m.tasks[e].phase.Over?
    {
      if !m.tasks[e].phase.Over? {
        CountTwo(m.tasks, if d < e then d else e, if d < e then e else d, LiveFor(c));
      }
    }
  }

  // --------------------------------------------------------------------------------------------
  // Shape is kept by every step
  // --------------------------------------------------------------------------------------------

  /** y is x with the same data, in the same or an unsuccessful terminal status. */
  predicate SameData(x: Context, y: Context) {
    && y.state == x.state && y.target == x.target && y.steps == x.steps && y.history == x.history
    && y.origin == x.origin && y.inherited == x.inherited && y.started == x.started
    && (y.status == x.status || y.status.Failed? || y.status.Aborted?)
  }

  lemma SameDataShape(g: Graph, x: Context, y: Context)
    requires ShapeOk(g, x) && SameData(x, y)
    ensures ShapeOk(g, y) && (y.status.Running? ==> x.status.Running?)
    ensures (Settled(g, x) ==> Settled(g, y)) && (MidBatch(g, x) ==> MidBatch(g, y))
  {
    hide Dispatchable;
    hide Valid;
    assert Own(y) == Own(x) && Here(y) == Here(x);
  }

  /** Some contexts change status, completion or invoker; nothing else moves. */
  lemma SameDataKeepsShape(m: Machine, n: Machine)
    requires Shape(m) && n.graph == m.graph && |n.ctxs| == |m.ctxs| && n.queue == m.queue && n.tasks == m.tasks
    requires forall c :: 0 <= c < |m.ctxs| ==> SameData(m.ctxs[c], n.ctxs[c])
    requires forall c :: 0 <= c < |m.ctxs| && InvokerTokens(n.ctxs[c]) > 0 ==> InvokerTokens(m.ctxs[c]) > 0
    ensures Shape(n)
  {
    hide ShapeOk;
    hide Settled;
    hide MidBatch;
    hide SameData;
    forall c | 0 <= c < |n.ctxs|
      ensures ShapeOk(n.graph, n.ctxs[c])
      ensures n.ctxs[c].status.Running? ==> m.ctxs[c].status.Running?
      ensures Settled(m.graph, m.ctxs[c]) ==> Settled(n.graph, n.ctxs[c])
      ensures MidBatch(m.graph, m.ctxs[c]) ==> MidBatch(n.graph, n.ctxs[c])
    {
      SameDataShape(m.graph, m.ctxs[c], n.ctxs[c]);
    }
    forall d | 0 <= d < |n.tasks|
      ensures PlaceOk(n, n.tasks[d])
    {
      assert PlaceOk(m, m.tasks[d]);
    }
  }

  lemma ContextKeepsShape(m: Machine, c: nat, y: Context)
    requires Shape(m) && c < |m.ctxs| && SameData(m.ctxs[c], y)
    requires InvokerTokens(y) > 0 ==> InvokerTokens(m.ctxs[c]) > 0
    ensures Shape(SetContext(m, c, y)) && Shape(Settle(m, c, y))
  {
    SameDataKeepsShape(m, SetContext(m, c, y));
    SameDataKeepsShape(m, Settle(m, c, y));
  }

  lemma PhaseKeepsShape(m: Machine, d: nat, phase: Phase)
    requires Shape(m) && d < |m.tasks|
    requires phase.Over? || phase.Cancelling? || (phase.Upstream? && m.tasks[d].phase.Upstream?)
    ensures Shape(SetPhase(m, d, phase))
  {
    hide ShapeOk;
    hide Settled;
    hide MidBatch;
    var n := SetPhase(m, d, phase);
    forall e | 0 <= e < |n.tasks|
      ensures PlaceOk(n, n.tasks[e])
    {
      assert PlaceOk(m, m.tasks[e]);
    }
  }

  lemma QueuedKeepsShape(m: Machine, c: nat)
    requires Shape(m) && c < |m.ctxs| && (m.ctxs[c].status.Running? ==> Settled(m.graph, m.ctxs[c]))
    ensures Shape(m.(queue := m.queue + [c]))
  {
    hide ShapeOk;
    hide Settled;
    hide MidBatch;
    var n := m.(queue := m.queue + [c]);
    forall e | 0 <= e < |n.tasks|
      ensures PlaceOk(n, n.tasks[e])
    {
      assert PlaceOk(m, m.tasks[e]);
    }
  }

  lemma DispatchKeepsShape(m: Machine)
    requires Shape(m) && Inv(m) && m.queue != []
    ensures Shape(DispatchStartsStep(m))
  {
    hide ShapeOk;
    hide Settled;
    hide MidBatch;
    var n := DispatchStartsStep(m);
    assert m.queue[0] < |m.ctxs|;
    hide Inv;
    forall e | 0 <= e < |n.tasks|
      ensures PlaceOk(n, n.tasks[e])
    {
      assert e < |m.tasks| ==> PlaceOk(m, m.tasks[e]);
    }
  }

  lemma LossKeepsShape(m: Machine, i: nat)
    requires Shape(m) && Enabled(m, Action.LoseQueued(i))
    ensures Shape(Step(m, Action.LoseQueued(i)))
  {
    hide ShapeOk;
    hide Settled;
    hide MidBatch;
    var n := Step(m, Action.LoseQueued(i));
    forall e | 0 <= e < |n.tasks|
      ensures PlaceOk(n, n.tasks[e])
    {
      assert PlaceOk(m, m.tasks[e]);
    }
  }

  lemma InvokerActionKeepsShape(m: Machine, a: Action)
    requires Shape(m) && Enabled(m, a)
    requires a.InvokePostFails? || a.InvokeCancelled? || a.StreamClosed? || a.CancelAwait?
             || a.InvokeSeesCancel? || a.InvokeReturns? || a.Abort?
    ensures Shape(Step(m, a))
  {
    hide HandlerRunsStep;
    hide BatchReturnsStep;
    hide InvokeStartsStep;
    hide Shape;
    ContextKeepsShape(m, a.ctx, Step(m, a).ctxs[a.ctx]);
  }

  lemma PublicationKeepsShape(m: Machine, a: Action)
    requires Shape(m) && Enabled(m, a) && (a.InvokePosted? || a.PostDone?)
    ensures Shape(Step(m, a))
  {
    if a.InvokePosted? {
      ContextKeepsShape(m, a.ctx, m.ctxs[a.ctx].(invoker := Awaiting));
      QueuedKeepsShape(SetContext(m, a.ctx, m.ctxs[a.ctx].(invoker := Awaiting)), a.ctx);
    } else {
      assert PlaceOk(m, m.tasks[a.task]);
      PhaseKeepsShape(m, a.task, Over);
      QueuedKeepsShape(SetPhase(m, a.task, Over), m.tasks[a.task].ctx);
    }
  }

  lemma TaskActionKeepsShape(m: Machine, a: Action)
    requires Shape(m) && Enabled(m, a)
    requires a.UpstreamOutcome? || a.CancelDispatch? || a.LoseTask?
    ensures Shape(Step(m, a))
  {
    PhaseKeepsShape(m, a.task, Step(m, a).tasks[a.task].phase);
    if a.LoseTask? {
      SameDataKeepsShape(SetPhase(m, a.task, Over), Step(m, a));
    }
  }

  /** A task ends, and fails, aborts or cancels its context if that is still active. */
  lemma EndingKeepsShape(m: Machine, d: nat, y: Context)
    requires Shape(m) && d < |m.tasks| && m.tasks[d].ctx < |m.ctxs|
    requires SameData(m.ctxs[m.tasks[d].ctx], y) && y.invoker == m.ctxs[m.tasks[d].ctx].invoker
    ensures Shape(SettleIfActive(SetPhase(m, d, Over), m.tasks[d].ctx, y))
    ensures Shape(SettleIfActive(m, m.tasks[d].ctx, y))
  {
    PhaseKeepsShape(m, d, Over);
    ContextKeepsShape(SetPhase(m, d, Over), m.tasks[d].ctx, y);
    ContextKeepsShape(m, m.tasks[d].ctx, y);
  }

  /** Validate of a target that already passed it leaves the target alone. */
  lemma StartChangesNoData(m: Machine, c: nat)
    requires Shape(m) && Inv(m) && Enabled(m, Action.InvokeStarts(c))
    ensures var n := InvokeStartsStep(m, c);
            && n.graph == m.graph && |n.ctxs| == |m.ctxs| && SameData(m.ctxs[c], n.ctxs[c])
            && (forall e :: 0 <= e < |m.ctxs| && e != c ==> n.ctxs[e] == m.ctxs[e])
  {
    hide Inv;
    hide Validate;
    assert ShapeOk(m.graph, m.ctxs[c]);
  }

  lemma StartKeepsShape(m: Machine, c: nat)
    requires Shape(m) && Inv(m) && Enabled(m, Action.InvokeStarts(c))
    ensures Shape(InvokeStartsStep(m, c))
  {
    StartChangesNoData(m, c);
    hide Inv;
    hide Shape;
    hide Validate;
    ContextKeepsShape(m, c, InvokeStartsStep(m, c).ctxs[c]);
  }

  lemma CreateKeepsShape(m: Machine, a: Action)
    requires Shape(m) && Inv(m) && Enabled(m, a) && (a.Create? || a.Restore?)
    ensures Shape(Step(m, a))
  {
    hide HandlerRunsStep;
    hide BatchReturnsStep;
    hide InvokeStartsStep;
    var n := Step(m, a);
    if a.Restore? {
      assert ShapeOk(m.graph, m.ctxs[a.ctx]);
      RestoredShape(m.graph, m.ctxs[a.ctx], ListIndex(a.version, |m.ctxs[a.ctx].history|).value, a.single);
    }
    forall c | 0 <= c < |n.ctxs|
      ensures ShapeOk(n.graph, n.ctxs[c])
      ensures c < |m.ctxs| ==> n.ctxs[c] == m.ctxs[c]
    {
      assert c < |m.ctxs| ==> ShapeOk(m.graph, m.ctxs[c]);
    }
    forall d | 0 <= d < |n.tasks|
      ensures PlaceOk(n, n.tasks[d])
    {
      assert PlaceOk(m, m.tasks[d]);
    }
  }

  lemma RestoredShape(g: Graph, x: Context, k: nat, single: bool)
    requires ShapeOk(g, x) && k < |x.history|
    ensures ShapeOk(g, RestoredContext(x.history, k, single))
  {
    assert Dispatchable(g, x.history[k]);
  }

  lemma BegunShape(g: Graph, x: Context, y: Context)
    requires ShapeOk(g, x) && x.status.Pending? && Validate(g.nodes.Keys, g.maxSteps, Some(x.target), x.steps).Ok?
    requires y == x.(status := Running, completion := Waiting, invoker := Starting)
    ensures ShapeOk(g, y) && Settled(g, y)
  {
    hide Normalise;
    hide Dispatchable;
    assert Own(y) == Own(x) && Here(y) == Here(x) == x.origin;
  }

  /** No token of a pending context is anywhere. */
  lemma PendingHasNoPlace(m: Machine, c: nat)
    requires Inv(m) && c < |m.ctxs| && m.ctxs[c].status.Pending?
    ensures forall i :: 0 <= i < |m.queue| ==> m.queue[i] != c
    ensures forall d :: 0 <= d < |m.tasks| && m.tasks[d].ctx == c ==> m.tasks[d].phase.Over?
  {
    assert ContextOk(m.ctxs[c], c in m.managed, c in m.lost, Tokens(m, c));
    forall i | 0 <= i < |m.queue|
      ensures m.queue[i] != c
    {
      if m.queue[i] == c {
        CountPositive(m.queue, i, Is(c));
      }
    }
    forall d | 0 <= d < |m.tasks| && m.tasks[d].ctx == c
      ensures m.tasks[d].phase.Over?
    {
      if !m.tasks[d].phase.Over? {
        CountPositive(m.tasks, d, LiveFor(c));
      }
    }
  }

  /** Admission: a pending context that passes Validate has a valid target already. */
  lemma BeginKeepsShape(m: Machine, c: nat)
    requires Shape(m) && Inv(m) && Enabled(m, Begin(c))
    ensures Shape(Step(m, Begin(c)))
  {
    hide Inv;
    hide ShapeOk;
    hide Settled;
    hide MidBatch;
    hide Validate;
    var n := Step(m, Begin(c));
    BegunShape(m.graph, m.ctxs[c], n.ctxs[c]);
    PendingHasNoPlace(m, c);
    forall e | 0 <= e < |n.ctxs|
      ensures ShapeOk(n.graph, n.ctxs[e]) && (e != c ==> n.ctxs[e] == m.ctxs[e])
    {
    }
    forall d | 0 <= d < |n.tasks|
      ensures PlaceOk(n, n.tasks[d])
    {
      assert PlaceOk(m, m.tasks[d]);
    }
  }

  /** The owner of the token rewrites its own context; every other context is as before. */
  lemma OwnerStepKeeps(m: Machine, d: nat, n: Machine)
    requires Shape(m) && Inv(m) && d < |m.tasks| && !m.tasks[d].phase.Over?
    requires n.graph == m.graph && n.queue == m.queue
    requires |n.tasks| == |m.tasks| && n.tasks == m.tasks[d := n.tasks[d]] && n.tasks[d].ctx == m.tasks[d].ctx
    requires |n.ctxs| == |m.ctxs| && n.ctxs == m.ctxs[m.tasks[d].ctx := n.ctxs[m.tasks[d].ctx]]
    requires n.ctxs[m.tasks[d].ctx].invoker == m.ctxs[m.tasks[d].ctx].invoker
    requires ShapeOk(n.graph, n.ctxs[m.tasks[d].ctx]) && PlaceOk(n, n.tasks[d])
    ensures Shape(n)
  {
    hide ShapeOk;
    hide Settled;
    hide MidBatch;
    OnlyPlace(m, d);
    hide Inv;
    var c := m.tasks[d].ctx;
    forall e | 0 <= e < |n.ctxs|
      ensures ShapeOk(n.graph, n.ctxs[e])
    {
      assert ShapeOk(m.graph, m.ctxs[e]);
    }
    forall e | 0 <= e < |n.tasks|
      ensures PlaceOk(n, n.tasks[e])
    {
      assert PlaceOk(m, m.tasks[e]);
    }
  }

  /** The handler starts a batch or finishes the attempt. */
  lemma CoreKeepsShape(m: Machine, d: nat)
    requires Shape(m) && Inv(m) && InUpstream(m, d)
    requires !m.tasks[d].phase.hasError && !m.tasks[d].phase.accepted && Active(m, m.tasks[d].ctx)
    ensures Shape(HandlerRunsStep(m, d, false))
  {
    hide ShapeOk;
    hide Settled;
    hide MidBatch;
    var n := HandlerRunsStep(m, d, false);
    var c := m.tasks[d].ctx;
    var x := m.ctxs[c];
    assert ShapeOk(m.graph, x) && PlaceOk(m, m.tasks[d]);
    if x.target == Single(END) {
      FinishedShape(m.graph, x);
    } else {
      StartShape(m.graph, x);
    }
    OwnerStepKeeps(m, d, n);
  }

  lemma HandlerKeepsShape(m: Machine, d: nat, snapshotFails: bool)
    requires Shape(m) && Inv(m) && InUpstream(m, d)
    ensures Shape(HandlerRunsStep(m, d, snapshotFails))
  {
    hide Shape;
    hide Inv;
    var x := m.ctxs[m.tasks[d].ctx];
    if m.tasks[d].phase.hasError {
      EndingKeepsShape(m, d, FailContext(x));
    } else if m.tasks[d].phase.accepted {
      EndingKeepsShape(m, d, AbortContext(x));
    } else if !Active(m, m.tasks[d].ctx) {
      PhaseKeepsShape(m, d, Over);
    } else if x.target != Single(END) && !m.graph.noSnapshot && snapshotFails {
      EndingKeepsShape(m, d, FailContext(x));
    } else {
      CoreKeepsShape(m, d);
    }
  }

  lemma FinishedShape(g: Graph, x: Context)
    requires ShapeOk(g, x) && x.status.Running? && Settled(g, x) && x.target == Single(END)
    ensures ShapeOk(g, FinishContext(x))
  {
    hide Normalise;
    hide Dispatchable;
    assert Own(FinishContext(x)) == Own(x);
  }

  lemma StartShape(g: Graph, x: Context)
    requires ShapeOk(g, x) && x.status.Running? && Settled(g, x) && x.target != Single(END)
    ensures ShapeOk(g, StartBatch(x, g.noSnapshot)) && MidBatch(g, StartBatch(x, g.noSnapshot))
  {
    hide Normalise;
    var y := StartBatch(x, g.noSnapshot);
    assert Own(y) == Own(x) + if g.noSnapshot then [] else [Here(x)];
    assert Dispatchable(g, Here(x));
  }

  lemma CommittedShape(g: Graph, x: Context, results: Option<seq<Member>>)
    requires ShapeOk(g, x) && x.status.Running? && MidBatch(g, x)
    ensures match CommitResults(g, x.state, x.target, x.steps, results)
            case Stops(live, at, _) => ShapeOk(g, FailContext(x.(state := live, steps := at)))
            case Continues(next, target, at) =>
              ShapeOk(g, x.(state := next, target := target, steps := at))
              && Settled(g, x.(state := next, target := target, steps := at))
  {
    hide Normalise;
    hide CommitResults;
    hide Dispatchable;
    match CommitResults(g, x.state, x.target, x.steps, results)
    case Stops(live, at, _) => assert Own(FailContext(x.(state := live, steps := at))) == Own(x);
    case Continues(next, target, at) => assert Own(x.(state := next, target := target, steps := at)) == Own(x);
  }

  lemma BatchKeepsShape(m: Machine, d: nat, results: Option<seq<Member>>)
    requires Shape(m) && Inv(m) && InBatch(m, d)
    ensures Shape(BatchReturnsStep(m, d, results))
  {
    hide Inv;
    hide ShapeOk;
    hide Settled;
    hide MidBatch;
    hide CommitResults;
    var n := BatchReturnsStep(m, d, results);
    var c := m.tasks[d].ctx;
    var x := m.ctxs[c];
    assert PlaceOk(m, m.tasks[d]);
    if Active(m, c) {
      CommittedShape(m.graph, x, results);
      OwnerStepKeeps(m, d, n);
    } else {
      PhaseKeepsShape(m, d, Over);
    }
  }

  lemma StepKeepsShape(m: Machine, a: Action)
    requires Shape(m) && Inv(m) && Enabled(m, a)
    ensures Shape(Step(m, a))
  {
    hide Shape;
    hide Inv;
    hide HandlerRunsStep;
    hide BatchReturnsStep;
    hide InvokeStartsStep;
    match a
    case Create(_) => CreateKeepsShape(m, a);
    case Restore(_, _, _) => CreateKeepsShape(m, a);
    case Begin(c) => BeginKeepsShape(m, c);
    case InvokeStarts(c) => StartKeepsShape(m, c);
    case HandlerRuns(d, snapshotFails) => HandlerKeepsShape(m, d, snapshotFails);
    case BatchReturns(d, results) => BatchKeepsShape(m, d, results);
    case DispatchStarts => DispatchKeepsShape(m);
    case LoseQueued(i) => LossKeepsShape(m, i);
    case InvokePosted(_) => PublicationKeepsShape(m, a);
    case PostDone(_) => PublicationKeepsShape(m, a);
    case UpstreamOutcome(_, _, _) => TaskActionKeepsShape(m, a);
    case CancelDispatch(_) => TaskActionKeepsShape(m, a);
    case LoseTask(_) => TaskActionKeepsShape(m, a);
    case PostFails(d) => EndingKeepsShape(m, d, FailContext(m.ctxs[m.tasks[d].ctx]));
    case CancelNotify(d) => EndingKeepsShape(m, d, CancelContext(m.ctxs[m.tasks[d].ctx]));
    case LateCancel(d) => EndingKeepsShape(m, d, CancelContext(m.ctxs[m.tasks[d].ctx]));
    case Decompose => SameDataKeepsShape(m, AbortAll(m));
    case _ => InvokerActionKeepsShape(m, a);
  }
}
