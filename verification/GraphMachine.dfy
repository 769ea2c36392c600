/** Graph invocations as a state machine: admission, publication, dispatch, batch, commit, terminal
    transition, with abort, failure and cancellation possible between any two steps. */
module GraphMachine {
  import opened Common
  import opened Batch
  import opened Targets

  /** A compiled graph.  A node is a function of its state copy: commands, or None when it fails. */
  datatype Graph = Graph(
    nodes: map<Name, State -> Option<Member>>,
    policy: Policy,
    entry: Target,
    maxSteps: int,
    noSnapshot: bool)

  datatype Checkpoint = Checkpoint(state: State, target: Target, steps: nat)

  datatype Reason = NodeFailed | BadResults | CommitFailed(error: CommitError) | BadTarget(cause: TargetError)

  // --------------------------------------------------------------------------------------------
  // The uninterrupted run of deterministic nodes
  // --------------------------------------------------------------------------------------------

  function RunNodes(g: Graph, names: seq<Name>, st: State): (r: Option<seq<Member>>)
    ensures r.Some? ==> |r.value| == |names|
  {
    if names == [] then Some([])
    else if names[0] !in g.nodes then None
    else
      match g.nodes[names[0]](st)
      case None => None
      case Some(member) =>
        match RunNodes(g, names[1..], st)
        case None => None
        case Some(rest) => Some([member] + rest)
  }

  datatype BatchEnd = Continues(state: State, target: Target, steps: nat)
                       | Stops(state: State, steps: nat, reason: Reason)

  /** Committing what the nodes of `target` returned: the step is counted before the next target is
      checked, and a failed commit leaves its partial writes in the live state. */
  function CommitResults(g: Graph, st: State, target: Target, steps: nat, results: Option<seq<Member>>)
    : (r: BatchEnd)
    ensures if r.Continues? then r.steps == steps + 1 else steps <= r.steps <= steps + 1
    ensures r.Continues? ==> Validate(g.nodes.Keys, g.maxSteps, Some(r.target), r.steps) == Ok(r.target)
  {
    match results
    case None => Stops(st, steps, NodeFailed)
    case Some(members) =>
      if |members| != |NamesOf(target)| then Stops(st, steps, BadResults)
      else
        var c := CommitBatch(g.policy, st, members);
        if c.error.Some? then Stops(c.state, steps, CommitFailed(c.error.value))
        else
          match Validate(g.nodes.Keys, g.maxSteps, Some(NextTarget(members)), steps + 1)
          case Rejected(cause) => Stops(c.state, steps + 1, BadTarget(cause))
          case Ok(next) =>
            NormaliseIdempotent(g.nodes.Keys, Some(NextTarget(members)));
            Continues(c.state, next, steps + 1)
  }

  function OneBatch(g: Graph, st: State, target: Target, steps: nat): (r: BatchEnd)
    ensures if r.Continues? then r.steps == steps + 1 else steps <= r.steps <= steps + 1
    ensures r.Continues? ==> Validate(g.nodes.Keys, g.maxSteps, Some(r.target), r.steps) == Ok(r.target)
  {
    CommitResults(g, st, target, steps, RunNodes(g, NamesOf(target), st))
  }

  function Budget(g: Graph, steps: nat): nat {
    if g.maxSteps > steps then g.maxSteps - steps else 0
  }

  datatype Fate = Ends(state: State, steps: nat) | Breaks(state: State, steps: nat, reason: Reason)

  /** What becomes of an attempt that runs from here without interference. */
  function RunFrom(g: Graph, st: State, target: Target, steps: nat): Fate
    decreases Budget(g, steps)
  {
    if target == Single(END) then Ends(st, steps)
    else if steps >= g.maxSteps then Breaks(st, steps, BadTarget(OutOfSteps))
    else
      match OneBatch(g, st, target, steps)
      case Stops(live, at, reason) => Breaks(live, at, reason)
      case Continues(next, goal, at) => RunFrom(g, next, goal, at)
  }

  /** The checkpoints taken along that run: one per batch started. */
  function TraceFrom(g: Graph, st: State, target: Target, steps: nat): seq<Checkpoint>
    decreases Budget(g, steps)
  {
    if target == Single(END) || steps >= g.maxSteps then []
    else
      [Checkpoint(st, target, steps)] +
      match OneBatch(g, st, target, steps)
      case Stops(_, _, _) => []
      case Continues(next, goal, at) => TraceFrom(g, next, goal, at)
  }

  function FateOf(g: Graph, k: Checkpoint): Fate {
    RunFrom(g, k.state, k.target, k.steps)
  }

  function TraceOf(g: Graph, k: Checkpoint): seq<Checkpoint> {
    TraceFrom(g, k.state, k.target, k.steps)
  }

  // --------------------------------------------------------------------------------------------
  // Contexts
  // --------------------------------------------------------------------------------------------

  datatype Status = Pending | Running | Failed | Aborted | Finished

  datatype Completion = Unbound | Waiting | Resolved(result: State) | Raised | Cancelled

  /** The coroutine of invoke(); Starting means it has not reached its first publication. */
  datatype Invoker = NotInvoked | Starting | Publishing | Awaiting | CancelPending | Returned

  datatype Context = Context(
    status: Status,
    completion: Completion,
    state: State,
    target: Target,
    steps: nat,
    history: seq<Checkpoint>,
    invoker: Invoker,
    // History variables: where the attempt started, the history it was created with, and how many
    // batches it has started.
    origin: Checkpoint,
    inherited: seq<Checkpoint>,
    started: nat)

  predicate Terminal(s: Status) {
    s.Failed? || s.Aborted? || s.Finished?
  }

  function Here(x: Context): Checkpoint {
    Checkpoint(x.state, x.target, x.steps)
  }

  function NewContext(k: Checkpoint, history: seq<Checkpoint>): Context {
    Context(Pending, Unbound, k.state, k.target, k.steps, history, NotInvoked, k, history, 0)
  }

  function Resolve(x: Context, outcome: Completion): Completion {
    if x.completion.Waiting? then outcome else x.completion
  }

  function FinishContext(x: Context): Context {
    x.(status := Finished, completion := Resolve(x, Resolved(x.state)))
  }

  function FailContext(x: Context): Context {
    x.(status := Failed, completion := Resolve(x, Raised))
  }

  function LatestSnapshotState(x: Context): State {
    if x.history == [] then x.state else x.history[|x.history| - 1].state
  }

  /** abort() of a pending or running context; on a terminal one it changes nothing. */
  function AbortContext(x: Context): Context {
    if Terminal(x.status) then x
    else x.(status := Aborted, completion := Resolve(x, Resolved(LatestSnapshotState(x))))
  }

  function CancelContext(x: Context): Context {
    x.(status := Aborted, completion := Resolve(x, Cancelled))
  }

  /** Native list indexing: None stands for IndexError. */
  function ListIndex(version: int, length: nat): Option<nat> {
    if 0 <= version < length then Some(version)
    else if version < 0 && 0 <= length + version then Some(length + version)
    else None
  }

  /** restore_context from a history (the prefix up to `version`) or from one checkpoint of it. */
  function RestoredContext(history: seq<Checkpoint>, k: nat, single: bool): Context
    requires k < |history|
  {
    NewContext(history[k], (if single then [] else history[..k]) + [history[k]])
  }

  // --------------------------------------------------------------------------------------------
  // The machine
  // --------------------------------------------------------------------------------------------

  /** One dispatch task, as far as the graph's handler is concerned: preceding handlers, the batch,
      the publication of the next event, cancellation notices, or already handed over. */
  datatype Phase = Upstream(hasError: bool, accepted: bool) | Executing | Posting | Cancelling | Over
  datatype Dispatch = Dispatch(ctx: nat, phase: Phase)

  datatype Machine = Machine(
    graph: Graph,
    decomposed: bool,
    managed: set<nat>,
    ctxs: seq<Context>,
    queue: seq<nat>,
    tasks: seq<Dispatch>,
    // History: contexts whose dispatch event was dropped outside the graph's control.
    lost: set<nat>)

  datatype Action =
    | Create(state: State)
    | Restore(ctx: nat, version: int, single: bool)
    | Begin(ctx: nat)
    | InvokeStarts(ctx: nat)
    | InvokePosted(ctx: nat)
    | InvokePostFails(ctx: nat)
    | InvokeCancelled(ctx: nat)
    | StreamClosed(ctx: nat)
    | CancelAwait(ctx: nat)
    | InvokeSeesCancel(ctx: nat)
    | InvokeReturns(ctx: nat)
    | DispatchStarts
    | UpstreamOutcome(task: nat, error: bool, accept: bool)
    | HandlerRuns(task: nat, snapshotFails: bool)
    | BatchReturns(task: nat, results: Option<seq<Member>>)
    | PostDone(task: nat)
    | PostFails(task: nat)
    | CancelDispatch(task: nat)
    | CancelNotify(task: nat)
    | LateCancel(task: nat)
    | Abort(ctx: nat)
    | Decompose
    | LoseQueued(index: nat)
    | LoseTask(task: nat)

  predicate Active(m: Machine, c: nat) {
    !m.decomposed && c in m.managed && c < |m.ctxs| && m.ctxs[c].status.Running?
  }

  function SetContext(m: Machine, c: nat, x: Context): Machine
    requires c < |m.ctxs|
  {
    m.(ctxs := m.ctxs[c := x])
  }

  /** A terminal transition also removes the context from the running set. */
  function Settle(m: Machine, c: nat, x: Context): Machine
    requires c < |m.ctxs|
  {
    m.(ctxs := m.ctxs[c := x], managed := m.managed - {c})
  }

  function SettleIfActive(m: Machine, c: nat, x: Context): Machine
    requires c < |m.ctxs|
  {
    if Active(m, c) then Settle(m, c, x) else m
  }

  function SetPhase(m: Machine, d: nat, phase: Phase): Machine
    requires d < |m.tasks|
  {
    m.(tasks := m.tasks[d := Dispatch(m.tasks[d].ctx, phase)])
  }

  function SnapshotContext(x: Context): Context {
    x.(history := x.history + [Here(x)])
  }

  /** A batch starts, with a checkpoint unless the graph takes none. */
  function StartBatch(x: Context, noSnapshot: bool): Context {
    (if noSnapshot then x else SnapshotContext(x)).(started := x.started + 1)
  }

  /** Admission: only a pending context with a valid target is bound. */
  predicate Admissible(m: Machine, c: nat) {
    !m.decomposed && c < |m.ctxs| && m.ctxs[c].status.Pending?
    && Validate(m.graph.nodes.Keys, m.graph.maxSteps, Some(m.ctxs[c].target), m.ctxs[c].steps).Ok?
  }

  function InvokeStartsStep(m: Machine, c: nat): Machine
    requires c < |m.ctxs|
  {
    var x := m.ctxs[c];
    if !Active(m, c) then SetContext(m, c, x.(invoker := Awaiting))
    else
      match Validate(m.graph.nodes.Keys, m.graph.maxSteps, Some(x.target), x.steps)
      case Ok(target) => SetContext(m, c, x.(target := target, invoker := Publishing))
      case Rejected(_) => Settle(m, c, FailContext(x.(invoker := Returned)))
  }

  function DispatchStartsStep(m: Machine): Machine
    requires m.queue != []
  {
    m.(queue := m.queue[1..], tasks := m.tasks + [Dispatch(m.queue[0], Upstream(false, false))])
  }

  /** The graph's handler within ApixEventHandler.execute: upstream errors first, then acceptance,
      then the core, which finishes at END or snapshots and starts the batch. */
  function HandlerRunsStep(m: Machine, d: nat, snapshotFails: bool): Machine
    requires InUpstream(m, d)
  {
    var c := m.tasks[d].ctx;
    var x := m.ctxs[c];
    var over := SetPhase(m, d, Over);
    if m.tasks[d].phase.hasError then SettleIfActive(over, c, FailContext(x))
    else if m.tasks[d].phase.accepted then SettleIfActive(over, c, AbortContext(x))
    else if !Active(m, c) then over
    else if x.target == Single(END) then Settle(over, c, FinishContext(x))
    else if !m.graph.noSnapshot && snapshotFails then Settle(over, c, FailContext(x))
    else SetContext(SetPhase(m, d, Executing), c, StartBatch(x, m.graph.noSnapshot))
  }

  /** The batch is over: a stale result is dropped, a failure fails the attempt, a success commits
      and publishes the next dispatch. */
  function BatchReturnsStep(m: Machine, d: nat, results: Option<seq<Member>>): Machine
    requires InBatch(m, d)
  {
    var c := m.tasks[d].ctx;
    var x := m.ctxs[c];
    if !Active(m, c) then SetPhase(m, d, Over)
    else
      match CommitResults(m.graph, x.state, x.target, x.steps, results)
      case Stops(live, at, _) =>
        Settle(SetPhase(m, d, Over), c, FailContext(x.(state := live, steps := at)))
      case Continues(next, target, at) =>
        SetContext(SetPhase(m, d, Posting), c, x.(state := next, target := target, steps := at))
  }

  /** Forced decomposition aborts every running context. */
  function AbortAll(m: Machine): Machine {
    m.(decomposed := true, managed := {},
       ctxs := seq(|m.ctxs|, i requires 0 <= i < |m.ctxs| =>
                     if i in m.managed then AbortContext(m.ctxs[i]) else m.ctxs[i]))
  }

  predicate InUpstream(m: Machine, d: nat) {
    d < |m.tasks| && m.tasks[d].phase.Upstream? && m.tasks[d].ctx < |m.ctxs|
  }

  predicate InBatch(m: Machine, d: nat) {
    d < |m.tasks| && m.tasks[d].phase.Executing? && m.tasks[d].ctx < |m.ctxs|
  }

  predicate Enabled(m: Machine, a: Action) {
    match a
    case Create(_) => !m.decomposed
    case Restore(c, version, _) =>
      !m.decomposed && c < |m.ctxs| && ListIndex(version, |m.ctxs[c].history|).Some?
    case Begin(c) => Admissible(m, c)
    case InvokeStarts(c) => c < |m.ctxs| && m.ctxs[c].invoker.Starting?
    case InvokePosted(c) => c < |m.ctxs| && m.ctxs[c].invoker.Publishing?
    case InvokePostFails(c) => c < |m.ctxs| && m.ctxs[c].invoker.Publishing?
    case InvokeCancelled(c) => c < |m.ctxs| && m.ctxs[c].invoker.Publishing?
    case StreamClosed(c) => c < |m.ctxs| && m.ctxs[c].invoker.Starting?
    case CancelAwait(c) => c < |m.ctxs| && m.ctxs[c].invoker.Awaiting? && m.ctxs[c].completion.Waiting?
    case InvokeSeesCancel(c) => c < |m.ctxs| && m.ctxs[c].invoker.CancelPending?
    case InvokeReturns(c) => c < |m.ctxs| && m.ctxs[c].invoker.Awaiting? && !m.ctxs[c].completion.Waiting?
    case DispatchStarts => m.queue != []
    case UpstreamOutcome(d, _, _) => d < |m.tasks| && m.tasks[d].phase.Upstream?
    case HandlerRuns(d, _) => InUpstream(m, d)
    case BatchReturns(d, _) => InBatch(m, d)
    case PostDone(d) => d < |m.tasks| && m.tasks[d].phase.Posting? && m.tasks[d].ctx < |m.ctxs|
    case PostFails(d) => d < |m.tasks| && m.tasks[d].phase.Posting? && m.tasks[d].ctx < |m.ctxs|
    case CancelDispatch(d) =>
      d < |m.tasks| && (m.tasks[d].phase.Upstream? || m.tasks[d].phase.Executing? || m.tasks[d].phase.Posting?)
    case CancelNotify(d) => d < |m.tasks| && m.tasks[d].phase.Cancelling? && m.tasks[d].ctx < |m.ctxs|
    case LateCancel(d) => d < |m.tasks| && m.tasks[d].phase.Over? && m.tasks[d].ctx < |m.ctxs|
    case Abort(c) => c < |m.ctxs|
    case Decompose => !m.decomposed
    case LoseQueued(i) => i < |m.queue|
    case LoseTask(d) => d < |m.tasks| && m.tasks[d].phase.Upstream?
  }

  function Step(m: Machine, a: Action): Machine
    requires Enabled(m, a)
  {
    match a
    case Create(st) => m.(ctxs := m.ctxs + [NewContext(Checkpoint(st, m.graph.entry, 0), [])])
    case Restore(c, version, single) =>
      var history := m.ctxs[c].history;
      m.(ctxs := m.ctxs + [RestoredContext(history, ListIndex(version, |history|).value, single)])
    case Begin(c) =>
      SetContext(m, c, m.ctxs[c].(status := Running, completion := Waiting, invoker := Starting))
      .(managed := m.managed + {c})
    case InvokeStarts(c) => InvokeStartsStep(m, c)
    case InvokePosted(c) => SetContext(m, c, m.ctxs[c].(invoker := Awaiting)).(queue := m.queue + [c])
    case InvokePostFails(c) =>
      var x := m.ctxs[c].(invoker := Returned);
      if Active(m, c) then Settle(m, c, FailContext(x)) else SetContext(m, c, x)
    case InvokeCancelled(c) =>
      var x := m.ctxs[c].(invoker := Returned);
      if x.status.Running? then Settle(m, c, CancelContext(x)) else SetContext(m, c, x)
    case StreamClosed(c) =>
      var x := m.ctxs[c].(invoker := Returned);
      if x.status.Running? then Settle(m, c, AbortContext(x)) else SetContext(m, c, x)
    case CancelAwait(c) => SetContext(m, c, m.ctxs[c].(completion := Cancelled, invoker := CancelPending))
    case InvokeSeesCancel(c) =>
      var x := m.ctxs[c].(invoker := Returned);
      if x.status.Running? then Settle(m, c, CancelContext(x)) else SetContext(m, c, x)
    case InvokeReturns(c) => SetContext(m, c, m.ctxs[c].(invoker := Returned))
    case DispatchStarts => DispatchStartsStep(m)
    case UpstreamOutcome(d, error, accept) =>
      var p := m.tasks[d].phase;
      SetPhase(m, d, Upstream(p.hasError || error, p.accepted || accept))
    case HandlerRuns(d, snapshotFails) => HandlerRunsStep(m, d, snapshotFails)
    case BatchReturns(d, results) => BatchReturnsStep(m, d, results)
    case PostDone(d) => SetPhase(m, d, Over).(queue := m.queue + [m.tasks[d].ctx])
    case PostFails(d) => SettleIfActive(SetPhase(m, d, Over), m.tasks[d].ctx, FailContext(m.ctxs[m.tasks[d].ctx]))
    case CancelDispatch(d) => SetPhase(m, d, Cancelling)
    case CancelNotify(d) => SettleIfActive(SetPhase(m, d, Over), m.tasks[d].ctx, CancelContext(m.ctxs[m.tasks[d].ctx]))
    case LateCancel(d) => SettleIfActive(m, m.tasks[d].ctx, CancelContext(m.ctxs[m.tasks[d].ctx]))
    case Abort(c) => Settle(m, c, AbortContext(m.ctxs[c]))
    case Decompose => AbortAll(m)
    case LoseQueued(i) => m.(queue := m.queue[..i] + m.queue[i + 1..], lost := m.lost + {m.queue[i]})
    case LoseTask(d) => SetPhase(m, d, Over).(lost := m.lost + {m.tasks[d].ctx})
  }

  function Initial(g: Graph): Machine {
    Machine(g, false, {}, [], [], [], {})
  }

  // --------------------------------------------------------------------------------------------
  // What a step can do to one context
  // --------------------------------------------------------------------------------------------

  predicate Moved(x: Context, y: Context) {
    var z := x.(invoker := y.invoker);
    || y == z
    || (x.completion.Waiting? && y == z.(completion := Cancelled))
    || (x.status.Pending? && y == z.(status := Running, completion := Waiting))
    || (!Terminal(x.status) && y == AbortContext(z))
    || (x.status.Running? && y == CancelContext(z))
    || (x.status.Running? && y == FailContext(z))
    || (x.status.Running? && y == FinishContext(z))
    || (x.status.Running? && (y == StartBatch(z, true) || y == StartBatch(z, false)))
    || (x.status.Running? && y == z.(state := y.state, target := y.target, steps := y.steps) && x.steps <= y.steps)
    || (x.status.Running? && y == FailContext(z.(state := y.state, steps := y.steps)) && x.steps <= y.steps)
  }

  predicate HandlerEffect(m: Machine, d: nat, x: Context, y: Context)
    requires d < |m.tasks| && m.tasks[d].phase.Upstream?
  {
    || y == FailContext(x)
    || y == AbortContext(x)
    || (!m.tasks[d].phase.hasError && !m.tasks[d].phase.accepted && x.target == Single(END) && y == FinishContext(x))
    || (!m.tasks[d].phase.hasError && !m.tasks[d].phase.accepted && x.target != Single(END)
        && y == StartBatch(x, m.graph.noSnapshot))
  }

  lemma HandlerMoves(m: Machine, d: nat, snapshotFails: bool, c: nat)
    requires InUpstream(m, d) && c < |m.ctxs|
    ensures |HandlerRunsStep(m, d, snapshotFails).ctxs| == |m.ctxs|
    ensures var x := m.ctxs[c]; var y := HandlerRunsStep(m, d, snapshotFails).ctxs[c];
            y == x || (c == m.tasks[d].ctx && Active(m, c) && HandlerEffect(m, d, x, y))
  {
  }

  lemma BatchMoves(m: Machine, d: nat, results: Option<seq<Member>>, c: nat)
    requires InBatch(m, d) && c < |m.ctxs|
    ensures |BatchReturnsStep(m, d, results).ctxs| == |m.ctxs|
    ensures Moved(m.ctxs[c], BatchReturnsStep(m, d, results).ctxs[c])
    ensures c != m.tasks[d].ctx ==> BatchReturnsStep(m, d, results).ctxs[c] == m.ctxs[c]
  {
  }

  /** Steps of a dispatch task, and those of the world around the graph. */
  predicate IsTaskAction(a: Action) {
    a.DispatchStarts? || a.UpstreamOutcome? || a.HandlerRuns? || a.BatchReturns? || a.PostDone? || a.PostFails?
    || a.CancelDispatch? || a.CancelNotify? || a.LateCancel? || a.Decompose? || a.LoseQueued? || a.LoseTask?
  }

  lemma TaskMoves(m: Machine, a: Action, c: nat)
    requires Enabled(m, a) && IsTaskAction(a) && !a.HandlerRuns? && !a.BatchReturns? && c < |m.ctxs|
    ensures c < |Step(m, a).ctxs| && Moved(m.ctxs[c], Step(m, a).ctxs[c])
  {
    hide HandlerRunsStep;
    hide BatchReturnsStep;
    hide InvokeStartsStep;
  }

  lemma InvokerMoves(m: Machine, a: Action, c: nat)
    requires Enabled(m, a) && !IsTaskAction(a) && c < |m.ctxs|
    ensures c < |Step(m, a).ctxs| && Moved(m.ctxs[c], Step(m, a).ctxs[c])
  {
    hide HandlerRunsStep;
    hide BatchReturnsStep;
    hide Validate;
  }

  lemma StepMoves(m: Machine, a: Action, c: nat)
    requires Enabled(m, a) && c < |m.ctxs|
    ensures c < |Step(m, a).ctxs| && Moved(m.ctxs[c], Step(m, a).ctxs[c])
  {
    hide Moved;
    if a.HandlerRuns? {
      HandlerMovesContext(m, a.task, a.snapshotFails, c);
    } else if a.BatchReturns? {
      BatchMoves(m, a.task, a.results, c);
    } else if IsTaskAction(a) {
      TaskMoves(m, a, c);
    } else {
      InvokerMoves(m, a, c);
    }
  }

  lemma HandlerMovesContext(m: Machine, d: nat, snapshotFails: bool, c: nat)
    requires InUpstream(m, d) && c < |m.ctxs|
    ensures c < |HandlerRunsStep(m, d, snapshotFails).ctxs|
    ensures Moved(m.ctxs[c], HandlerRunsStep(m, d, snapshotFails).ctxs[c])
  {
    HandlerMoves(m, d, snapshotFails, c);
    hide HandlerRunsStep;
  }
}
