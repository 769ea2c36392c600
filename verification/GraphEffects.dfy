/** What single steps do to an attempt, said without the functions that define the steps: where an
    attempt starts, what a batch commits, and every way in which an attempt ends. */
module GraphEffects {
  import opened Common
  import opened Batch
  import opened Targets
  import opened NextTargets
  import opened GraphMachine
  import opened GraphInvariant
  import opened GraphResume

  // --------------------------------------------------------------------------------------------
  // Where an attempt starts
  // --------------------------------------------------------------------------------------------

  /** The index that a version selects from a list of that length, counted from the end if negative. */
  function Selects(version: int, length: int): int {
    if version < 0 then length + version else version
  }

  /** Native list indexing: -length <= version < length, and -1 is the newest. */
  lemma ListIndexIs(version: int, length: nat)
    ensures ListIndex(version, length).Some? <==> -(length as int) <= version < length
    ensures ListIndex(version, length).Some? ==> ListIndex(version, length).value == Selects(version, length)
  {
  }

  /** A checkpoint can be restored on a live graph exactly for the versions that its list has.  The new
      attempt is pending at that checkpoint, with the history up to it or with it alone. */
  lemma RestoreEffect(m: Machine, c: nat, version: int, single: bool)
    requires c < |m.ctxs|
    ensures var history := m.ctxs[c].history; var n := |history|;
            && (Enabled(m, Action.Restore(c, version, single)) <==> !m.decomposed && -n <= version < n)
            && (Enabled(m, Action.Restore(c, version, single)) ==>
                  var k := if version < 0 then n + version else version;
                  var next := Step(m, Action.Restore(c, version, single));
                  && |next.ctxs| == |m.ctxs| + 1
                  && var y := next.ctxs[|m.ctxs|];
                  && y.status.Pending? && y.completion.Unbound?
                  && y.state == history[k].state && y.target == history[k].target && y.steps == history[k].steps
                  && y.history == (if single then [history[k]] else history[..k + 1]))
  {
    var history := m.ctxs[c].history;
    ListIndexIs(version, |history|);
    if Enabled(m, Action.Restore(c, version, single)) {
      var k := Selects(version, |history|);
      assert history[..k] + [history[k]] == history[..k + 1];
      assert [] + [history[k]] == [history[k]];
    }
  }

  lemma RestoreAppends(m: Machine, c: nat, version: int, single: bool, history: seq<Checkpoint>)
    requires c < |m.ctxs| && !m.decomposed && -|m.ctxs[c].history| <= version < |m.ctxs[c].history|
    requires var was := m.ctxs[c].history; var k := Selects(version, |was|);
             history == if single then [was[k]] else was[..k + 1]
    ensures Enabled(m, Action.Restore(c, version, single)) && history != []
    ensures Step(m, Action.Restore(c, version, single)) ==
            m.(ctxs := m.ctxs + [NewContext(history[|history| - 1], history)])
  {
    var was := m.ctxs[c].history;
    var k := Selects(version, |was|);
    ListIndexIs(version, |was|);
    hide ListIndex;
    hide HandlerRunsStep;
    hide BatchReturnsStep;
    hide InvokeStartsStep;
    assert (if single then [] else was[..k]) + [was[k]] == history;
  }

  /** A live graph makes new attempts: pending at the entry point, with nothing committed and no history. */
  lemma CreateEffect(m: Machine, st: State)
    ensures Enabled(m, Create(st)) <==> !m.decomposed
    ensures Enabled(m, Create(st)) ==>
            var next := Step(m, Create(st));
            && |next.ctxs| == |m.ctxs| + 1
            && var y := next.ctxs[|m.ctxs|];
            && y.status.Pending? && y.completion.Unbound? && y.history == []
            && y.state == st && y.target == m.graph.entry && y.steps == 0
  {
  }

  /** A pending attempt of a live graph is admitted exactly when its target names no unknown node and,
      if it names one at all, batches are left. */
  lemma AdmissionIff(m: Machine, c: nat)
    requires c < |m.ctxs|
    ensures var x := m.ctxs[c];
            Enabled(m, Begin(c)) <==>
            && !m.decomposed && x.status.Pending?
            && (forall n :: Names(Some(x.target), n) ==> n in m.graph.nodes && x.steps < m.graph.maxSteps)
  {
    var x := m.ctxs[c];
    ValidateIff(m.graph.nodes.Keys, m.graph.maxSteps, Some(x.target), x.steps);
    hide Validate;
  }

  // --------------------------------------------------------------------------------------------
  // What a batch commits
  // --------------------------------------------------------------------------------------------

  /** Each result of a batch is that of the node at its place; the batch fails exactly when some name
      is unknown or its node fails. */
  lemma {:induction false} RunNodesPointwise(g: Graph, names: seq<Name>, st: State)
    ensures var results := RunNodes(g, names, st);
            && (results.Some? ==>
                  && |results.value| == |names|
                  && forall i :: 0 <= i < |names| ==>
                       names[i] in g.nodes && g.nodes[names[i]](st) == Some(results.value[i]))
            && (results.None? <==> exists i :: 0 <= i < |names| && (names[i] !in g.nodes || g.nodes[names[i]](st).None?))
  {
    if names != [] {
      var rest := names[1..];
      RunNodesPointwise(g, rest, st);
      if names[0] in g.nodes && g.nodes[names[0]](st).Some? {
        if i :| 0 <= i < |names| && (names[i] !in g.nodes || g.nodes[names[i]](st).None?) {
          assert rest[i - 1] == names[i];
        }
        if i :| 0 <= i < |rest| && (rest[i] !in g.nodes || g.nodes[rest[i]](st).None?) {
          assert names[i + 1] == rest[i];
        }
      }
    }
  }

  /** The next target that the batch selects cannot be dispatched after that many steps. */
  ghost predicate Misdirected(g: Graph, members: seq<Member>, steps: nat) {
    || (exists n :: Picked(members, n) && n !in g.nodes)
    || ((exists n :: Picked(members, n)) && steps >= g.maxSteps)
  }

  /** Why a returning batch fails its attempt: a node failed, a result is missing, a write is refused,
      or the next target is. */
  ghost predicate BatchBreaks(g: Graph, x: Context, results: Option<seq<Member>>) {
    || results.None?
    || |results.value| != |NamesOf(x.target)|
    || CommitBatch(g.policy, x.state, results.value).error.Some?
    || Misdirected(g, results.value, x.steps + 1)
  }

  lemma TargetRefused(g: Graph, members: seq<Member>, steps: nat)
    ensures var checked := Validate(g.nodes.Keys, g.maxSteps, Some(NextTarget(members)), steps);
            && (checked.Rejected? <==> Misdirected(g, members, steps))
            && (checked.Ok? ==> checked.target == NextTarget(members))
  {
    var target := NextTarget(members);
    ValidateIff(g.nodes.Keys, g.maxSteps, Some(target), steps);
    NextTargetShape(members);
    forall n
      ensures Names(Some(target), n) <==> Picked(members, n)
    {
      NamedIsPicked(members, n);
    }
    NextTargetNormal(g.nodes.Keys, members);
  }

  lemma NamedIsPicked(members: seq<Member>, n: Name)
    ensures Names(Some(NextTarget(members)), n) <==> Picked(members, n)
  {
    NextTargetShape(members);
    hide NextTarget;
    var target := NextTarget(members);
    assert target.Listed? && n == END ==> !Picked(members, n);
    assert target == Single(END) ==> !Names(Some(target), n);
  }

  /** A returning batch changes a running attempt only.  One that succeeds leaves its writes, one more
      step and the next target; one whose commit is refused leaves the writes before the refused one;
      one whose target is refused has been committed and counted nevertheless. */
  lemma BatchEffect(m: Machine, d: nat, results: Option<seq<Member>>)
    requires Inv(m) && InBatch(m, d)
    ensures var c, n := m.tasks[d].ctx, Step(m, BatchReturns(d, results));
            var x := m.ctxs[c];
            && |n.ctxs| == |m.ctxs| && var y := n.ctxs[c];
            && y.history == x.history
            && if !x.status.Running? then y == x
               else if results.None? || |results.value| != |NamesOf(x.target)| then
                 y.status.Failed? && y.state == x.state && y.steps == x.steps && y.target == x.target
               else
                 var commit := CommitBatch(m.graph.policy, x.state, results.value);
                 && y.state == commit.state
                 && if commit.error.Some? then y.status.Failed? && y.steps == x.steps && y.target == x.target
                    else
                      && y.steps == x.steps + 1
                      && if Misdirected(m.graph, results.value, y.steps) then y.status.Failed? && y.target == x.target
                         else
                           && y.status.Running? && y.completion == x.completion && y.target == NextTarget(results.value)
                           && n.tasks[d] == Dispatch(c, Posting)
  {
    hide Inv;
    hide Validate;
    hide CommitBatch;
    hide NextTarget;
    hide Misdirected;
    hide HandlerRunsStep;
    hide InvokeStartsStep;
    RunningActive(m, m.tasks[d].ctx);
    if results.Some? {
      TargetRefused(m.graph, results.value, m.ctxs[m.tasks[d].ctx].steps + 1);
    }
  }

  lemma BatchReturnsEffect(m: Machine, d: nat, results: Option<seq<Member>>)
    requires InBatch(m, d)
    ensures var c, n := m.tasks[d].ctx, Step(m, BatchReturns(d, results));
            |n.ctxs| == |m.ctxs| && (Active(m, c) || n.ctxs[c] == m.ctxs[c])
  {
  }

  lemma RunningActive(m: Machine, c: nat)
    requires Inv(m) && c < |m.ctxs|
    ensures Active(m, c) <==> m.ctxs[c].status.Running?
    ensures c in m.managed <==> m.ctxs[c].status.Running?
  {
    assert ContextOk(m.ctxs[c], c in m.managed, c in m.lost, Tokens(m, c));
  }

  // --------------------------------------------------------------------------------------------
  // Every way in which an attempt ends
  // --------------------------------------------------------------------------------------------

  /** The graph's handler meets END. */
  predicate Finishes(m: Machine, a: Action, c: nat)
    requires Enabled(m, a) && c < |m.ctxs|
  {
    a.HandlerRuns? && m.tasks[a.task] == Dispatch(c, Upstream(false, false)) && m.ctxs[c].target == Single(END)
  }

  /** An earlier handler failed, the checkpoint could not be taken, the batch broke, or a publication
      failed. */
  ghost predicate Breaks(m: Machine, a: Action, c: nat)
    requires Enabled(m, a) && c < |m.ctxs|
  {
    match a
    case HandlerRuns(d, snapshotFails) =>
      && m.tasks[d].ctx == c
      && (m.tasks[d].phase.hasError
          || (!m.tasks[d].phase.accepted && m.ctxs[c].target != Single(END) && !m.graph.noSnapshot && snapshotFails))
    case BatchReturns(d, results) => m.tasks[d].ctx == c && BatchBreaks(m.graph, m.ctxs[c], results)
    case PostFails(d) => m.tasks[d].ctx == c
    case InvokePostFails(e) => e == c
    case _ => false
  }

  /** An earlier handler accepted the dispatch event, or the attempt, its stream or its graph was given
      up. */
  predicate GivesUp(m: Machine, a: Action, c: nat)
    requires Enabled(m, a)
  {
    match a
    case HandlerRuns(d, _) => m.tasks[d].ctx == c && m.tasks[d].phase.accepted && !m.tasks[d].phase.hasError
    case Abort(e) => e == c
    case StreamClosed(e) => e == c
    case Decompose => true
    case _ => false
  }

  /** The caller or the dispatch was cancelled. */
  predicate Cancels(m: Machine, a: Action, c: nat)
    requires Enabled(m, a)
  {
    match a
    case InvokeCancelled(e) => e == c
    case InvokeSeesCancel(e) => e == c
    case CancelNotify(d) => m.tasks[d].ctx == c
    case LateCancel(d) => m.tasks[d].ctx == c
    case _ => false
  }

  /** What the caller's future holds afterwards: the first outcome stands. */
  predicate Receives(x: Context, y: Context, outcome: Completion) {
    y.completion == if x.completion.Waiting? then outcome else x.completion
  }

  /** How step a may leave the running attempt x of context c. */
  ghost predicate EndsBy(m: Machine, a: Action, c: nat, y: Context)
    requires Enabled(m, a) && c < |m.ctxs|
  {
    var x := m.ctxs[c];
    && (y.status.Finished? <==> Finishes(m, a, c))
    && (y.status.Failed? <==> Breaks(m, a, c))
    && (y.status.Aborted? <==> GivesUp(m, a, c) || Cancels(m, a, c))
    && !y.status.Pending?
    && (y.status.Running? ==> y.completion == if a == CancelAwait(c) then Completion.Cancelled else x.completion)
    && (Finishes(m, a, c) ==> Receives(x, y, Resolved(x.state)))
    && (Breaks(m, a, c) ==> Receives(x, y, Raised))
    && (GivesUp(m, a, c) ==>
          Receives(x, y, Resolved(if x.history == [] then x.state else x.history[|x.history| - 1].state)))
    && (Cancels(m, a, c) ==> Receives(x, y, Completion.Cancelled))
  }

  /** A running attempt finishes, fails or is aborted by exactly these steps, and this is what its
      caller receives; until then only the cancellation of the awaiting caller decides its future. */
  lemma HowAttemptsEnd(m: Machine, a: Action, c: nat)
    requires Inv(m) && Shape(m) && Enabled(m, a) && c < |m.ctxs| && m.ctxs[c].status.Running?
    ensures c < |Step(m, a).ctxs| && EndsBy(m, a, c, Step(m, a).ctxs[c])
  {
    RunningActive(m, c);
    hide Inv;
    hide Shape;
    hide Step;
    hide Enabled;
    hide EndsBy;
    if a.BatchReturns? {
      BatchEnds(m, a, c);
    } else if a.HandlerRuns? {
      HandlerEnds(m, a, c);
    } else if a == Action.InvokeStarts(c) {
      StartEnds(m, c);
    } else if a.Decompose? {
      DecomposeEnds(m, c);
    } else if IsTaskAction(a) {
      TaskEnds(m, a, c);
    } else {
      InvokerEnds(m, a, c);
    }
  }

  lemma BatchEnds(m: Machine, a: Action, c: nat)
    requires Enabled(m, a) && a.BatchReturns? && c < |m.ctxs| && Active(m, c)
    ensures c < |Step(m, a).ctxs| && EndsBy(m, a, c, Step(m, a).ctxs[c])
  {
    if a.results.Some? {
      TargetRefused(m.graph, a.results.value, m.ctxs[m.tasks[a.task].ctx].steps + 1);
    }
    hide HandlerRunsStep;
    hide InvokeStartsStep;
    hide Validate;
    hide CommitBatch;
    hide NextTarget;
    hide Misdirected;
  }

  lemma HandlerEnds(m: Machine, a: Action, c: nat)
    requires Enabled(m, a) && a.HandlerRuns? && c < |m.ctxs| && Active(m, c)
    ensures c < |Step(m, a).ctxs| && EndsBy(m, a, c, Step(m, a).ctxs[c])
  {
    hide BatchReturnsStep;
    hide InvokeStartsStep;
  }

  lemma StartEnds(m: Machine, c: nat)
    requires Shape(m) && Enabled(m, Action.InvokeStarts(c)) && Active(m, c)
    ensures c < |Step(m, Action.InvokeStarts(c)).ctxs|
    ensures EndsBy(m, Action.InvokeStarts(c), c, Step(m, Action.InvokeStarts(c)).ctxs[c])
  {
    assert ShapeOk(m.graph, m.ctxs[c]);
    hide Shape;
    hide Validate;
  }

  lemma TaskEnds(m: Machine, a: Action, c: nat)
    requires Enabled(m, a) && IsTaskAction(a) && !a.BatchReturns? && !a.HandlerRuns? && !a.Decompose?
    requires c < |m.ctxs| && Active(m, c)
    ensures c < |Step(m, a).ctxs| && EndsBy(m, a, c, Step(m, a).ctxs[c])
  {
    hide HandlerRunsStep;
    hide BatchReturnsStep;
    hide InvokeStartsStep;
    hide AbortAll;
  }

  lemma DecomposeEnds(m: Machine, c: nat)
    requires Enabled(m, Decompose) && c < |m.ctxs| && Active(m, c)
    ensures c < |Step(m, Decompose).ctxs| && EndsBy(m, Decompose, c, Step(m, Decompose).ctxs[c])
  {
  }

  lemma InvokerEnds(m: Machine, a: Action, c: nat)
    requires Enabled(m, a) && !IsTaskAction(a) && a != Action.InvokeStarts(c) && c < |m.ctxs| && Active(m, c)
    ensures c < |Step(m, a).ctxs| && EndsBy(m, a, c, Step(m, a).ctxs[c])
  {
    hide HandlerRunsStep;
    hide BatchReturnsStep;
    hide Validate;
  }

  /** A batch starts only behind an undisturbed dispatch of a running attempt that has somewhere to go,
      and with a checkpoint of the attempt as it stands unless the graph takes none. */
  lemma BatchStarts(m: Machine, d: nat, snapshotFails: bool)
    requires Inv(m) && InUpstream(m, d)
    ensures var c, n := m.tasks[d].ctx, Step(m, HandlerRuns(d, snapshotFails));
            var x := m.ctxs[c];
            && |n.ctxs| == |m.ctxs| && |n.tasks| == |m.tasks| && var y := n.ctxs[c];
            && (n.tasks[d].phase.Executing? <==>
                  && x.status.Running? && m.tasks[d].phase == Upstream(false, false) && x.target != Single(END)
                  && (m.graph.noSnapshot || !snapshotFails))
            && y.state == x.state && y.target == x.target && y.steps == x.steps
            && y.history == x.history + if n.tasks[d].phase.Executing? && !m.graph.noSnapshot
                                        then [Checkpoint(x.state, x.target, x.steps)] else []
  {
    RunningActive(m, m.tasks[d].ctx);
    hide Inv;
  }

  /** A pending attempt is only ever admitted or aborted; a rejected one never starts. */
  lemma PendingMoves(m: Machine, a: Action, c: nat)
    requires Inv(m) && Enabled(m, a) && c < |m.ctxs| && m.ctxs[c].status.Pending?
    ensures var n := Step(m, a);
            && c < |n.ctxs| && n.ctxs[c].state == m.ctxs[c].state && n.ctxs[c].history == m.ctxs[c].history
            && (n.ctxs[c].status.Running? <==> a == Begin(c))
            && (n.ctxs[c].status.Aborted? <==> a == Action.Abort(c))
            && (n.ctxs[c].status.Running? ==> n.ctxs[c].completion.Waiting? && c in n.managed)
            && !n.ctxs[c].status.Failed? && !n.ctxs[c].status.Finished?
  {
    RunningActive(m, c);
    assert ContextOk(m.ctxs[c], c in m.managed, c in m.lost, Tokens(m, c));
    hide Inv;
    hide Validate;
    if a.HandlerRuns? {
      HandlerMoves(m, a.task, a.snapshotFails, c);
    } else if a.BatchReturns? {
      BatchReturnsEffect(m, a.task, a.results);
      BatchMoves(m, a.task, a.results, c);
    } else {
      OthersLeavePending(m, a, c);
    }
  }

  lemma OthersLeavePending(m: Machine, a: Action, c: nat)
    requires Enabled(m, a) && c < |m.ctxs| && m.ctxs[c].status.Pending? && !a.HandlerRuns? && !a.BatchReturns?
    requires c !in m.managed && m.ctxs[c].invoker.NotInvoked?
    ensures var n := Step(m, a);
            && c < |n.ctxs| && n.ctxs[c].state == m.ctxs[c].state && n.ctxs[c].history == m.ctxs[c].history
            && (n.ctxs[c].status.Running? <==> a == Begin(c))
            && (n.ctxs[c].status.Aborted? <==> a == Action.Abort(c))
            && (n.ctxs[c].status.Running? ==> n.ctxs[c].completion.Waiting? && c in n.managed)
            && !n.ctxs[c].status.Failed? && !n.ctxs[c].status.Finished?
  {
    hide Step;
    hide Enabled;
    if IsTaskAction(a) {
      TasksLeavePending(m, a, c);
    } else {
      InvokersLeavePending(m, a, c);
    }
  }

  lemma TasksLeavePending(m: Machine, a: Action, c: nat)
    requires Enabled(m, a) && c < |m.ctxs| && m.ctxs[c].status.Pending? && c !in m.managed
    requires IsTaskAction(a) && !a.HandlerRuns? && !a.BatchReturns?
    ensures c < |Step(m, a).ctxs| && Step(m, a).ctxs[c] == m.ctxs[c]
  {
    hide HandlerRunsStep;
    hide BatchReturnsStep;
    hide InvokeStartsStep;
  }

  lemma InvokersLeavePending(m: Machine, a: Action, c: nat)
    requires Enabled(m, a) && c < |m.ctxs| && m.ctxs[c].status.Pending? && !IsTaskAction(a)
    requires c !in m.managed && m.ctxs[c].invoker.NotInvoked?
    ensures var n := Step(m, a);
            && c < |n.ctxs| && n.ctxs[c].state == m.ctxs[c].state && n.ctxs[c].history == m.ctxs[c].history
            && (n.ctxs[c].status.Running? <==> a == Begin(c))
            && (n.ctxs[c].status.Aborted? <==> a == Action.Abort(c))
            && (n.ctxs[c].status.Running? ==> n.ctxs[c].completion.Waiting? && c in n.managed)
            && !n.ctxs[c].status.Failed? && !n.ctxs[c].status.Finished?
  {
    hide HandlerRunsStep;
    hide BatchReturnsStep;
    hide InvokeStartsStep;
    hide AbortAll;
    if a.InvokeStarts? {
      OtherStarts(m, a.ctx, c);
    }
  }

  lemma OtherStarts(m: Machine, e: nat, c: nat)
    requires e < |m.ctxs| && c < |m.ctxs| && e != c
    ensures c < |InvokeStartsStep(m, e).ctxs| && InvokeStartsStep(m, e).ctxs[c] == m.ctxs[c]
  {
    hide Validate;
  }
}
