/** Attempts end: the token of every context can be moved only so often, and can be moved to the end. */
module GraphTermination {
  import opened Common
  import opened Batch
  import opened Targets
  import opened GraphMachine
  import opened GraphInvariant
  import opened GraphResume
  import opened GraphTheorems

  // --------------------------------------------------------------------------------------------
  // A measure for each context
  // --------------------------------------------------------------------------------------------

  function UpstreamOf(c: nat): Dispatch -> bool { (d: Dispatch) => d.ctx == c && d.phase.Upstream? }
  function ExecutingOf(c: nat): Dispatch -> bool { (d: Dispatch) => d.ctx == c && d.phase.Executing? }
  function PostingOf(c: nat): Dispatch -> bool { (d: Dispatch) => d.ctx == c && d.phase.Posting? }
  function CancellingOf(c: nat): Dispatch -> bool { (d: Dispatch) => d.ctx == c && d.phase.Cancelling? }

  function InvokerRank(x: Context): nat {
    if x.invoker.Starting? then 6 else if x.invoker.Publishing? then 5 else 0
  }

  /** How far the dispatch events and tasks of context c can still be moved without a commit. */
  function PlaceRank(queue: seq<nat>, tasks: seq<Dispatch>, c: nat): nat {
    4 * Count(queue, Is(c))
    + 3 * Count(tasks, UpstreamOf(c)) + 2 * Count(tasks, ExecutingOf(c))
    + 5 * Count(tasks, PostingOf(c)) + Count(tasks, CancellingOf(c))
  }

  /** How far an attempt can still go: batches left, and the place of its token. */
  function Measure(m: Machine, c: nat): nat
    requires c < |m.ctxs|
  {
    6 * Budget(m.graph, m.ctxs[c].steps) + InvokerRank(m.ctxs[c]) + PlaceRank(m.queue, m.tasks, c)
  }

  /** The steps that move the token of context c onwards. */
  predicate Moves(m: Machine, a: Action, c: nat) {
    match a
    case InvokeStarts(e) => e == c
    case InvokePosted(e) => e == c
    case DispatchStarts => m.queue != [] && m.queue[0] == c
    case HandlerRuns(d, _) => d < |m.tasks| && m.tasks[d].ctx == c
    case BatchReturns(d, _) => d < |m.tasks| && m.tasks[d].ctx == c
    case PostDone(d) => d < |m.tasks| && m.tasks[d].ctx == c
    case PostFails(d) => d < |m.tasks| && m.tasks[d].ctx == c
    case CancelNotify(d) => d < |m.tasks| && m.tasks[d].ctx == c
    case _ => false
  }

  function PhaseRank(phase: Phase): nat {
    match phase
    case Upstream(_, _) => 3
    case Executing => 2
    case Posting => 5
    case Cancelling => 1
    case Over => 0
  }

  /** A task that moves to another phase changes the rank of its own context only. */
  lemma RankAfterPhase(queue: seq<nat>, tasks: seq<Dispatch>, d: nat, phase: Phase, c: nat)
    requires d < |tasks|
    ensures PlaceRank(queue, tasks[d := Dispatch(tasks[d].ctx, phase)], c) ==
            PlaceRank(queue, tasks, c) + if tasks[d].ctx == c then PhaseRank(phase) - PhaseRank(tasks[d].phase) else 0
  {
    hide Count;
    CountUpdate(tasks, d, Dispatch(tasks[d].ctx, phase), UpstreamOf(c));
    CountUpdate(tasks, d, Dispatch(tasks[d].ctx, phase), ExecutingOf(c));
    CountUpdate(tasks, d, Dispatch(tasks[d].ctx, phase), PostingOf(c));
    CountUpdate(tasks, d, Dispatch(tasks[d].ctx, phase), CancellingOf(c));
  }

  lemma RankAfterQueued(queue: seq<nat>, tasks: seq<Dispatch>, e: nat, c: nat)
    ensures PlaceRank(queue + [e], tasks, c) == PlaceRank(queue, tasks, c) + if e == c then 4 else 0
  {
    hide Count;
    CountAppend(queue, e, Is(c));
  }

  lemma RankAfterLoss(queue: seq<nat>, tasks: seq<Dispatch>, i: nat, c: nat)
    requires i < |queue|
    ensures PlaceRank(queue[..i] + queue[i + 1..], tasks, c) == PlaceRank(queue, tasks, c) - if queue[i] == c then 4 else 0
  {
    hide Count;
    QueueWithout(queue, i, c);
  }

  lemma RankAfterLaunch(queue: seq<nat>, tasks: seq<Dispatch>, c: nat)
    requires queue != []
    ensures PlaceRank(queue[1..], tasks + [Dispatch(queue[0], Upstream(false, false))], c) ==
            PlaceRank(queue, tasks, c) - if queue[0] == c then 1 else 0
  {
    hide Count;
    var started := Dispatch(queue[0], Upstream(false, false));
    QueueWithout(queue, 0, c);
    assert queue[..0] + queue[1..] == queue[1..];
    CountAppend(tasks, started, UpstreamOf(c));
    CountAppend(tasks, started, ExecutingOf(c));
    CountAppend(tasks, started, PostingOf(c));
    CountAppend(tasks, started, CancellingOf(c));
  }

  // --------------------------------------------------------------------------------------------
  // A move lowers the measure
  // --------------------------------------------------------------------------------------------

  lemma HandlerMeasure(m: Machine, d: nat, snapshotFails: bool)
    requires InUpstream(m, d)
    ensures Measure(HandlerRunsStep(m, d, snapshotFails), m.tasks[d].ctx) < Measure(m, m.tasks[d].ctx)
  {
    hide PlaceRank;
    RankAfterPhase(m.queue, m.tasks, d, Over, m.tasks[d].ctx);
    RankAfterPhase(m.queue, m.tasks, d, Executing, m.tasks[d].ctx);
  }

  lemma BatchMeasure(m: Machine, d: nat, results: Option<seq<Member>>)
    requires Shape(m) && InBatch(m, d)
    ensures Measure(BatchReturnsStep(m, d, results), m.tasks[d].ctx) < Measure(m, m.tasks[d].ctx)
  {
    hide PlaceRank;
    hide CommitResults;
    hide Normalise;
    var c := m.tasks[d].ctx;
    assert PlaceOk(m, m.tasks[d]) && ShapeOk(m.graph, m.ctxs[c]);
    assert Active(m, c) ==> Budget(m.graph, m.ctxs[c].steps) > 0;
    hide Shape;
    hide ShapeOk;
    RankAfterPhase(m.queue, m.tasks, d, Over, c);
    RankAfterPhase(m.queue, m.tasks, d, Posting, c);
  }

  lemma PostMeasure(m: Machine, a: Action)
    requires Enabled(m, a) && (a.PostDone? || a.PostFails? || a.CancelNotify?)
    ensures Measure(Step(m, a), m.tasks[a.task].ctx) < Measure(m, m.tasks[a.task].ctx)
  {
    hide PlaceRank;
    hide HandlerRunsStep;
    hide BatchReturnsStep;
    hide InvokeStartsStep;
    RankAfterPhase(m.queue, m.tasks, a.task, Over, m.tasks[a.task].ctx);
    RankAfterQueued(m.queue, SetPhase(m, a.task, Over).tasks, m.tasks[a.task].ctx, m.tasks[a.task].ctx);
  }

  lemma InvokerMeasure(m: Machine, a: Action)
    requires Enabled(m, a) && (a.InvokeStarts? || a.InvokePosted?)
    ensures Measure(Step(m, a), a.ctx) < Measure(m, a.ctx)
  {
    hide PlaceRank;
    hide HandlerRunsStep;
    hide BatchReturnsStep;
    hide Validate;
    RankAfterQueued(m.queue, m.tasks, a.ctx, a.ctx);
  }

  /** Every move of a context's token lowers its measure: a batch that commits uses up a step of the
      budget. */
  lemma MoveDecreases(m: Machine, a: Action, c: nat)
    requires Inv(m) && Shape(m) && Enabled(m, a) && Moves(m, a, c) && c < |m.ctxs|
    ensures c < |Step(m, a).ctxs| && Measure(Step(m, a), c) < Measure(m, c)
  {
    hide Inv;
    hide Shape;
    hide Measure;
    match a
    case InvokeStarts(_) => InvokerMeasure(m, a);
    case InvokePosted(_) => InvokerMeasure(m, a);
    case DispatchStarts => LaunchMeasure(m, c);
    case HandlerRuns(d, snapshotFails) => HandlerMeasure(m, d, snapshotFails);
    case BatchReturns(d, results) => BatchMeasure(m, d, results);
    case PostDone(_) => PostMeasure(m, a);
    case PostFails(_) => PostMeasure(m, a);
    case CancelNotify(_) => PostMeasure(m, a);
  }

  lemma LaunchMeasure(m: Machine, c: nat)
    requires c < |m.ctxs| && m.queue != []
    ensures Measure(DispatchStartsStep(m), c) == Measure(m, c) - if m.queue[0] == c then 1 else 0
  {
    hide PlaceRank;
    RankAfterLaunch(m.queue, m.tasks, c);
  }

  // --------------------------------------------------------------------------------------------
  // No other step raises it
  // --------------------------------------------------------------------------------------------

  /** A step that does not move the token of c leaves its steps, and brings its invoker no tokens. */
  predicate Rested(x: Context, y: Context) {
    y.steps == x.steps && InvokerRank(y) <= InvokerRank(x)
  }

  lemma OthersRest(m: Machine, a: Action, c: nat)
    requires Enabled(m, a) && !Moves(m, a, c) && c < |m.ctxs| && a != Begin(c) && !IsTaskAction(a)
    ensures c < |Step(m, a).ctxs| && Rested(m.ctxs[c], Step(m, a).ctxs[c])
  {
    hide HandlerRunsStep;
    hide BatchReturnsStep;
    hide Validate;
  }

  lemma TasksRest(m: Machine, a: Action, c: nat)
    requires Enabled(m, a) && !Moves(m, a, c) && c < |m.ctxs| && IsTaskAction(a)
    ensures c < |Step(m, a).ctxs| && Rested(m.ctxs[c], Step(m, a).ctxs[c])
  {
    hide HandlerRunsStep;
    hide BatchReturnsStep;
    hide InvokeStartsStep;
    if a.HandlerRuns? {
      HandlerMoves(m, a.task, a.snapshotFails, c);
    } else if a.BatchReturns? {
      BatchMoves(m, a.task, a.results, c);
    }
  }

  /** Steps that leave queue and tasks alone. */
  predicate LeavesPlaces(a: Action) {
    (!IsTaskAction(a) && !a.InvokePosted?) || a.LateCancel? || a.Decompose?
  }

  lemma PlacesLeft(m: Machine, a: Action)
    requires Enabled(m, a) && LeavesPlaces(a)
    ensures Step(m, a).queue == m.queue && Step(m, a).tasks == m.tasks && Step(m, a).graph == m.graph
  {
    hide HandlerRunsStep;
    hide BatchReturnsStep;
    hide Validate;
  }

  /** Steps that move one task to another phase. */
  predicate ChangesPhase(a: Action) {
    a.UpstreamOutcome? || a.HandlerRuns? || a.BatchReturns? || a.PostFails? || a.CancelDispatch? || a.CancelNotify?
    || a.LoseTask?
  }

  lemma PhaseChanged(m: Machine, a: Action)
    requires Enabled(m, a) && ChangesPhase(a)
    ensures var n := Step(m, a); var d := a.task;
            && d < |m.tasks| && |n.tasks| == |m.tasks| && n.queue == m.queue && n.graph == m.graph
            && n.tasks == m.tasks[d := Dispatch(m.tasks[d].ctx, n.tasks[d].phase)]
            && (a.UpstreamOutcome? || a.CancelDispatch? || a.LoseTask? ==>
                  PhaseRank(n.tasks[d].phase) <= PhaseRank(m.tasks[d].phase))
  {
    hide InvokeStartsStep;
    hide CommitResults;
    hide StartBatch;
  }

  lemma PlacesRest(m: Machine, a: Action, c: nat)
    requires Enabled(m, a) && !Moves(m, a, c)
    ensures var n := Step(m, a);
            n.graph == m.graph && PlaceRank(n.queue, n.tasks, c) <= PlaceRank(m.queue, m.tasks, c)
  {
    hide PlaceRank;
    hide HandlerRunsStep;
    hide BatchReturnsStep;
    hide InvokeStartsStep;
    if LeavesPlaces(a) {
      PlacesLeft(m, a);
    } else if ChangesPhase(a) {
      PhaseChanged(m, a);
      RankAfterPhase(m.queue, m.tasks, a.task, Step(m, a).tasks[a.task].phase, c);
    } else {
      match a
      case InvokePosted(e) => RankAfterQueued(m.queue, m.tasks, e, c);
      case DispatchStarts => RankAfterLaunch(m.queue, m.tasks, c);
      case LoseQueued(i) => RankAfterLoss(m.queue, m.tasks, i, c);
      case PostDone(d) =>
        RankAfterPhase(m.queue, m.tasks, d, Over, c);
        RankAfterQueued(m.queue, SetPhase(m, d, Over).tasks, m.tasks[d].ctx, c);
    }
  }

  lemma OthersKeepMeasure(m: Machine, a: Action, c: nat)
    requires Enabled(m, a) && !Moves(m, a, c) && c < |m.ctxs| && a != Begin(c)
    ensures c < |Step(m, a).ctxs| && Measure(Step(m, a), c) <= Measure(m, c)
  {
    hide PlaceRank;
    hide Step;
    hide Enabled;
    hide Moves;
    PlacesRest(m, a, c);
    if IsTaskAction(a) {
      TasksRest(m, a, c);
    } else {
      OthersRest(m, a, c);
    }
  }

  lemma BeginMeasure(m: Machine, c: nat)
    requires Enabled(m, Begin(c))
    ensures Measure(Step(m, Begin(c)), c) <= Measure(m, c) + 6
  {
    hide PlaceRank;
    hide Validate;
  }

  // --------------------------------------------------------------------------------------------
  // Over whole runs
  // --------------------------------------------------------------------------------------------

  /** How often a run moves the token of context c. */
  ghost function TokenMoves(m: Machine, acts: seq<Action>, c: nat): nat
    requires Runs(m, acts)
    decreases |acts|
  {
    if acts == [] then 0
    else (if Moves(m, acts[0], c) then 1 else 0) + TokenMoves(Step(m, acts[0]), acts[1..], c)
  }

  /** Moves still ahead of a context: admission adds one token. */
  function Room(m: Machine, c: nat): nat
    requires c < |m.ctxs|
  {
    Measure(m, c) + if m.ctxs[c].status.Pending? then 6 else 0
  }

  lemma NeverPendingAgain(m: Machine, a: Action, c: nat)
    requires Enabled(m, a) && c < |m.ctxs|
    ensures c < |Step(m, a).ctxs| && (Step(m, a).ctxs[c].status.Pending? ==> m.ctxs[c].status.Pending?)
    ensures a == Begin(c) ==> m.ctxs[c].status.Pending? && !Step(m, a).ctxs[c].status.Pending? && !Moves(m, a, c)
  {
    StepMoves(m, a, c);
    if a != Begin(c) {
      hide Step;
    } else {
      hide Moved;
    }
    hide Validate;
  }

  lemma StepUsesRoom(m: Machine, a: Action, c: nat)
    requires Inv(m) && Shape(m) && Enabled(m, a) && c < |m.ctxs|
    ensures c < |Step(m, a).ctxs|
    ensures Room(Step(m, a), c) + (if Moves(m, a, c) then 1 else 0) <= Room(m, c)
  {
    hide Inv;
    hide Shape;
    hide Measure;
    hide Step;
    hide Enabled;
    hide Moves;
    NeverPendingAgain(m, a, c);
    if a == Begin(c) {
      BeginMeasure(m, c);
    } else if Moves(m, a, c) {
      MoveDecreases(m, a, c);
    } else {
      OthersKeepMeasure(m, a, c);
    }
  }

  lemma {:induction false} MovesFitRoom(m: Machine, acts: seq<Action>, c: nat)
    requires Inv(m) && Shape(m) && Runs(m, acts) && c < |m.ctxs|
    ensures c < |After(m, acts).ctxs| && Room(After(m, acts), c) + TokenMoves(m, acts, c) <= Room(m, c)
    decreases |acts|
  {
    hide Inv;
    hide Shape;
    hide Room;
    hide Step;
    hide Moves;
    hide Enabled;
    if acts != [] {
      StepUsesRoom(m, acts[0], c);
      StepKeepsInv(m, acts[0]);
      StepKeepsShape(m, acts[0]);
      MovesFitRoom(Step(m, acts[0]), acts[1..], c);
    }
  }

  /** A context that does not exist yet has nothing to move, and is created with a full budget. */
  lemma CreatedRoom(m: Machine, a: Action, c: nat)
    requires Inv(m) && Enabled(m, a) && c >= |m.ctxs|
    ensures !Moves(m, a, c)
    ensures c < |Step(m, a).ctxs| ==>
              var x := Step(m, a).ctxs[c]; Room(Step(m, a), c) <= 6 * Budget(m.graph, x.origin.steps) + 6
  {
    hide HandlerRunsStep;
    hide BatchReturnsStep;
    hide InvokeStartsStep;
    if a.HandlerRuns? {
      assert !Moves(m, a, c);
    }
    if a.Create? || a.Restore? {
      CountZero(m.queue, Is(|m.ctxs|));
      CountZero(m.tasks, UpstreamOf(|m.ctxs|));
      CountZero(m.tasks, ExecutingOf(|m.ctxs|));
      CountZero(m.tasks, PostingOf(|m.ctxs|));
      CountZero(m.tasks, CancellingOf(|m.ctxs|));
    } else {
      NothingCreated(m, a);
    }
  }

  lemma NothingCreated(m: Machine, a: Action)
    requires Enabled(m, a) && !a.Create? && !a.Restore?
    ensures |Step(m, a).ctxs| == |m.ctxs|
  {
    hide Validate;
    hide CommitResults;
  }

  lemma OriginKept(m: Machine, a: Action, c: nat)
    requires Enabled(m, a) && c < |m.ctxs|
    ensures c < |Step(m, a).ctxs| && Step(m, a).ctxs[c].origin == m.ctxs[c].origin
  {
    StepMoves(m, a, c);
    hide Step;
    hide Enabled;
  }

  lemma {:induction false} OriginStays(m: Machine, acts: seq<Action>, c: nat)
    requires Runs(m, acts) && c < |m.ctxs|
    ensures c < |After(m, acts).ctxs| && After(m, acts).ctxs[c].origin == m.ctxs[c].origin
    decreases |acts|
  {
    if acts != [] {
      OriginKept(m, acts[0], c);
      OriginStays(Step(m, acts[0]), acts[1..], c);
    }
  }

  lemma {:induction false} MovesBounded(m: Machine, acts: seq<Action>, c: nat)
    requires Inv(m) && Shape(m) && Runs(m, acts) && c >= |m.ctxs| && c < |After(m, acts).ctxs|
    ensures TokenMoves(m, acts, c) <= 6 * Budget(m.graph, After(m, acts).ctxs[c].origin.steps) + 6
    decreases |acts|
  {
    hide Inv;
    hide Shape;
    hide Room;
    hide Moves;
    hide Enabled;
    hide Budget;
    var n := Step(m, acts[0]);
    CreatedRoom(m, acts[0], c);
    StepKeepsInv(m, acts[0]);
    StepKeepsShape(m, acts[0]);
    RunKeepsGraph(m, [acts[0]]);
    assert n.graph == m.graph by {
      assert [acts[0]][1..] == [];
      assert After(m, [acts[0]]) == n;
    }
    hide Step;
    if c < |n.ctxs| {
      MovesFitRoom(n, acts[1..], c);
      OriginStays(n, acts[1..], c);
    } else {
      MovesBounded(n, acts[1..], c);
    }
  }

  /** Over every run, whatever the nodes return and whoever aborts or cancels, and with or without
      checkpoints, the token of a context is moved at most 6 * (max_steps - initial steps) + 6 times:
      provided that node calls return, every attempt ends. */
  lemma AttemptsEnd(g: Graph, acts: seq<Action>, c: nat)
    requires GraphOk(g) && Runs(Initial(g), acts) && c < |After(Initial(g), acts).ctxs|
    ensures TokenMoves(Initial(g), acts, c) <= 6 * Budget(g, After(Initial(g), acts).ctxs[c].origin.steps) + 6
  {
    InitialShape(g);
    MovesBounded(Initial(g), acts, c);
  }

  // --------------------------------------------------------------------------------------------
  // Batches that return
  // --------------------------------------------------------------------------------------------

  predicate ReturnsBatch(m: Machine, a: Action, c: nat) {
    a.BatchReturns? && a.task < |m.tasks| && m.tasks[a.task].ctx == c
  }

  /** How many batches of context c return in a run. */
  ghost function BatchesReturned(m: Machine, acts: seq<Action>, c: nat): nat
    requires Runs(m, acts)
    decreases |acts|
  {
    if acts == [] then 0
    else (if ReturnsBatch(m, acts[0], c) then 1 else 0) + BatchesReturned(Step(m, acts[0]), acts[1..], c)
  }

  function Running(m: Machine, c: nat): nat {
    Count(m.tasks, ExecutingOf(c))
  }

  lemma NeverUnstarted(m: Machine, a: Action, c: nat)
    requires Enabled(m, a) && c < |m.ctxs|
    ensures c < |Step(m, a).ctxs| && Step(m, a).ctxs[c].started >= m.ctxs[c].started
  {
    StepMoves(m, a, c);
    hide Step;
    hide Enabled;
  }

  /** Only the graph's handler makes a task execute, and counts the batch it starts. */
  lemma ExecutingIsStarted(m: Machine, a: Action)
    requires Enabled(m, a) && ChangesPhase(a)
    ensures var n := Step(m, a); var d := a.task;
            && d < |m.tasks| && d < |n.tasks|
            && (n.tasks[d].phase.Executing? ==>
                  var c := m.tasks[d].ctx;
                  a.HandlerRuns? && m.tasks[d].phase.Upstream? && c < |m.ctxs| && c < |n.ctxs|
                  && n.ctxs[c].started == m.ctxs[c].started + 1)
  {
    hide InvokeStartsStep;
    hide CommitResults;
  }

  lemma StepKeepsLedger(m: Machine, a: Action, c: nat)
    requires Enabled(m, a) && c < |m.ctxs|
    ensures c < |Step(m, a).ctxs|
    ensures (if ReturnsBatch(m, a, c) then 1 else 0) + Running(Step(m, a), c) + m.ctxs[c].started
            <= Running(m, c) + Step(m, a).ctxs[c].started
  {
    hide HandlerRunsStep;
    hide BatchReturnsStep;
    hide InvokeStartsStep;
    NeverUnstarted(m, a, c);
    if LeavesPlaces(a) {
      PlacesLeft(m, a);
    } else if ChangesPhase(a) {
      var d := a.task;
      PhaseChanged(m, a);
      ExecutingIsStarted(m, a);
      assert a.BatchReturns? ==> m.tasks[d].phase.Executing?;
      hide Step;
      hide Enabled;
      CountUpdate(m.tasks, d, Dispatch(m.tasks[d].ctx, Step(m, a).tasks[d].phase), ExecutingOf(c));
    } else if a.DispatchStarts? {
      CountAppend(m.tasks, Dispatch(m.queue[0], Upstream(false, false)), ExecutingOf(c));
    } else if a.PostDone? {
      CountUpdate(m.tasks, a.task, Dispatch(m.tasks[a.task].ctx, Over), ExecutingOf(c));
    }
  }

  lemma {:induction false} LedgerOverRun(m: Machine, acts: seq<Action>, c: nat)
    requires Runs(m, acts) && c < |m.ctxs|
    ensures c < |After(m, acts).ctxs|
    ensures BatchesReturned(m, acts, c) + m.ctxs[c].started <= Running(m, c) + After(m, acts).ctxs[c].started
    decreases |acts|
  {
    hide Step;
    hide Enabled;
    hide Running;
    if acts != [] {
      StepKeepsLedger(m, acts[0], c);
      LedgerOverRun(Step(m, acts[0]), acts[1..], c);
    }
  }

  lemma NothingRunsYet(m: Machine, c: nat)
    requires Inv(m) && c >= |m.ctxs|
    ensures Running(m, c) == 0
  {
    CountZero(m.tasks, ExecutingOf(c));
  }

  lemma {:induction false} ReturnsAreStarts(m: Machine, acts: seq<Action>, c: nat)
    requires Inv(m) && Shape(m) && Runs(m, acts) && c >= |m.ctxs| && c < |After(m, acts).ctxs|
    ensures BatchesReturned(m, acts, c) <= After(m, acts).ctxs[c].started
    decreases |acts|
  {
    hide Inv;
    hide Shape;
    hide Running;
    var n := Step(m, acts[0]);
    StepKeepsInv(m, acts[0]);
    StepKeepsShape(m, acts[0]);
    NoReturnYet(m, acts[0], c);
    hide Step;
    if c < |n.ctxs| {
      LedgerOverRun(n, acts[1..], c);
    } else {
      ReturnsAreStarts(n, acts[1..], c);
    }
  }

  lemma NoReturnYet(m: Machine, a: Action, c: nat)
    requires Inv(m) && Enabled(m, a) && c >= |m.ctxs|
    ensures !ReturnsBatch(m, a, c)
    ensures c < |Step(m, a).ctxs| ==> Running(Step(m, a), c) == 0
  {
    hide HandlerRunsStep;
    hide BatchReturnsStep;
    hide InvokeStartsStep;
    NothingRunsYet(m, c);
    if !a.Create? && !a.Restore? {
      NothingCreated(m, a);
    }
  }

  /** Over every run, with or without checkpoints, at most max_steps - initial steps batches of a
      context return, stale ones included. */
  lemma BatchesBounded(g: Graph, acts: seq<Action>, c: nat)
    requires GraphOk(g) && Runs(Initial(g), acts) && c < |After(Initial(g), acts).ctxs|
    ensures BatchesReturned(Initial(g), acts, c) <= Budget(g, After(Initial(g), acts).ctxs[c].origin.steps)
  {
    InitialShape(g);
    ReturnsAreStarts(Initial(g), acts, c);
    StepBudget(g, acts, c);
  }

  // --------------------------------------------------------------------------------------------
  // Left to itself, an attempt ends
  // --------------------------------------------------------------------------------------------

  /** What the attempt of context c does by itself: its token moves, or the consumer takes the oldest
      dispatch event, whosever it is.  Snapshot and publication succeed; what a batch returns is
      `choose`'s to say.  Nobody aborts or cancels; a dispatch cancelled before gives its notice. */
  ghost predicate OwnStep(m: Machine, a: Action, c: nat, choose: Machine -> Option<seq<Member>>) {
    && Enabled(m, a) && (Moves(m, a, c) || a == Action.DispatchStarts) && !a.PostFails?
    && (a.HandlerRuns? ==> !a.snapshotFails)
    && (a.BatchReturns? ==> a.results == choose(m))
  }

  ghost predicate OwnRun(m: Machine, acts: seq<Action>, c: nat, choose: Machine -> Option<seq<Member>>)
    decreases |acts|
  {
    acts == [] || (OwnStep(m, acts[0], c, choose) && OwnRun(Step(m, acts[0]), acts[1..], c, choose))
  }

  /** The token of a running, unlost context can always be moved, once the dispatches queued ahead
      of it have been started, whatever its batches return. */
  lemma TokenCanMove(m: Machine, c: nat, choose: Machine -> Option<seq<Member>>) returns (a: Action)
    requires Inv(m) && c < |m.ctxs| && m.ctxs[c].status.Running? && c !in m.lost
    ensures OwnStep(m, a, c, choose)
    ensures Moves(m, a, c) || (a == Action.DispatchStarts && c in m.queue)
  {
    assert ContextOk(m.ctxs[c], c in m.managed, c in m.lost, Tokens(m, c));
    if m.ctxs[c].invoker.Starting? {
      a := Action.InvokeStarts(c);
    } else if m.ctxs[c].invoker.Publishing? {
      a := Action.InvokePosted(c);
    } else if c in m.queue {
      a := Action.DispatchStarts;
    } else {
      CountZero(m.queue, Is(c));
      var d := SomeLive(m.tasks, LiveFor(c));
      a := match m.tasks[d].phase
        case Upstream(_, _) => HandlerRuns(d, false)
        case Executing => BatchReturns(d, choose(m))
        case Posting => PostDone(d)
        case _ => CancelNotify(d);
    }
  }

  lemma {:induction false} SomeLive<T>(s: seq<T>, p: T -> bool) returns (i: nat)
    requires Count(s, p) > 0
    ensures i < |s| && p(s[i])
  {
    if p(s[|s| - 1]) {
      i := |s| - 1;
    } else {
      i := SomeLive(s[..|s| - 1], p);
    }
  }

  /** Own steps still ahead: each move of the token can put one more event into the queue. */
  function OwnBound(m: Machine, c: nat): nat
    requires c < |m.ctxs|
  {
    2 * Measure(m, c) + |m.queue|
  }

  lemma QueueGrows(m: Machine, a: Action)
    requires Enabled(m, a)
    ensures |Step(m, a).queue| <= |m.queue| + 1
    ensures a.DispatchStarts? ==> |Step(m, a).queue| == |m.queue| - 1
  {
    hide Validate;
    hide CommitResults;
  }

  lemma LosesNothing(m: Machine, a: Action)
    requires Enabled(m, a) && !a.LoseQueued? && !a.LoseTask?
    ensures Step(m, a).lost == m.lost
  {
    hide Validate;
    hide CommitResults;
  }

  lemma OwnStepKeeps(m: Machine, a: Action, c: nat, choose: Machine -> Option<seq<Member>>)
    requires Inv(m) && Shape(m) && c < |m.ctxs| && OwnStep(m, a, c, choose)
    ensures var n := Step(m, a);
            && Inv(n) && Shape(n) && c < |n.ctxs| && n.lost == m.lost
            && (n.ctxs[c].status.Pending? ==> m.ctxs[c].status.Pending?)
            && OwnBound(n, c) < OwnBound(m, c)
  {
    hide Inv;
    hide Shape;
    hide Measure;
    StepKeepsInv(m, a);
    StepKeepsShape(m, a);
    StepMoves(m, a, c);
    LosesNothing(m, a);
    QueueGrows(m, a);
    if Moves(m, a, c) {
      MoveDecreases(m, a, c);
    } else {
      LaunchMeasure(m, c);
    }
    hide Step;
    hide Enabled;
  }

  /** From every reachable state of an undropped attempt, whatever its batches return: no schedule of its
      own steps is longer than a bound, and each can be continued until the attempt is terminal. */
  lemma {:induction false} LeftAloneEnds(
    m: Machine, acts: seq<Action>, c: nat, choose: Machine -> Option<seq<Member>>)
    requires Inv(m) && Shape(m) && c < |m.ctxs| && !m.ctxs[c].status.Pending? && c !in m.lost
    requires OwnRun(m, acts, c, choose)
    ensures Runs(m, acts) && c < |After(m, acts).ctxs| && |acts| <= OwnBound(m, c)
    ensures Terminal(After(m, acts).ctxs[c].status) || exists a :: OwnStep(After(m, acts), a, c, choose)
    decreases |acts|
  {
    hide Inv;
    hide Shape;
    hide OwnBound;
    hide OwnStep;
    if acts == [] {
      if !Terminal(m.ctxs[c].status) {
        var a := TokenCanMove(m, c, choose);
      }
    } else {
      OwnStepEnabled(m, acts[0], c, choose);
      OwnStepKeeps(m, acts[0], c, choose);
      hide Step;
      LeftAloneEnds(Step(m, acts[0]), acts[1..], c, choose);
    }
  }

  lemma OwnStepEnabled(m: Machine, a: Action, c: nat, choose: Machine -> Option<seq<Member>>)
    requires OwnStep(m, a, c, choose)
    ensures Enabled(m, a)
  {
  }

  /** So some schedule of its own steps alone, whatever its batches return, makes it terminal. */
  lemma {:induction false} CanBeEnded(m: Machine, c: nat, choose: Machine -> Option<seq<Member>>)
    returns (acts: seq<Action>)
    requires Inv(m) && Shape(m) && c < |m.ctxs| && m.ctxs[c].status.Running? && c !in m.lost
    ensures OwnRun(m, acts, c, choose)
    ensures Runs(m, acts) && c < |After(m, acts).ctxs| && Terminal(After(m, acts).ctxs[c].status)
    decreases OwnBound(m, c)
  {
    hide Inv;
    hide Shape;
    hide OwnBound;
    hide OwnStep;
    var a := TokenCanMove(m, c, choose);
    OwnStepEnabled(m, a, c, choose);
    OwnStepKeeps(m, a, c, choose);
    hide Step;
    var n := Step(m, a);
    if Terminal(n.ctxs[c].status) {
      acts := [a];
      assert [a][1..] == [] && After(n, []) == n && OwnRun(n, [], c, choose);
    } else {
      var rest := CanBeEnded(n, c, choose);
      acts := [a] + rest;
      assert acts[0] == a && acts[1..] == rest;
    }
  }
}
