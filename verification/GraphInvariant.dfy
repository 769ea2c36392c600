/** Ownership and tokens: the running set, the completion futures, and the one live token that every
    running context has somewhere between its invoker, the event queue and a dispatch task. */
module GraphInvariant {
  import opened Common
  import opened Batch
  import opened Targets
  import opened GraphMachine

  function Is(c: nat): nat -> bool {
    (x: nat) => x == c
  }

  /** A dispatch that still has to hand context c over. */
  function LiveFor(c: nat): Dispatch -> bool {
    (d: Dispatch) => d.ctx == c && !d.phase.Over?
  }

  function InvokerTokens(x: Context): nat {
    if x.invoker.Starting? || x.invoker.Publishing? then 1 else 0
  }

  /** Live tokens of context c: a first publication in progress, queued dispatch events, and
      dispatches whose graph handler has not handed over. */
  function Tokens(m: Machine, c: nat): nat
    requires c < |m.ctxs|
  {
    InvokerTokens(m.ctxs[c]) + Count(m.queue, Is(c)) + Count(m.tasks, LiveFor(c))
  }

  ghost predicate ContextOk(x: Context, managed: bool, lost: bool, tokens: nat) {
    && (managed <==> x.status.Running?)
    && tokens <= 1
    && (lost ==> tokens == 0)
    && (x.status.Running? && !lost ==> tokens == 1)
    && (x.invoker.NotInvoked? ==> tokens == 0 && !lost && x.completion.Unbound? && (x.status.Pending? || x.status.Aborted?))
    && (x.status.Pending? ==> x.invoker.NotInvoked?)
    && (x.completion.Unbound? ==> x.invoker.NotInvoked?)
    && (x.completion.Waiting? ==> x.status.Running?)
    && (x.status.Running? ==> x.completion.Waiting? || (x.completion.Cancelled? && x.invoker.CancelPending?))
    && (x.status.Running? ==> !x.invoker.Returned?)
    && (x.invoker.CancelPending? ==> !x.completion.Waiting?)
  }

  ghost predicate Inv(m: Machine) {
    && (forall c :: c in m.managed ==> c < |m.ctxs|)
    && (m.decomposed ==> m.managed == {})
    && (forall i :: 0 <= i < |m.queue| ==> m.queue[i] < |m.ctxs|)
    && (forall d :: 0 <= d < |m.tasks| ==> m.tasks[d].ctx < |m.ctxs|)
    && (forall c :: c in m.lost ==> c < |m.ctxs|)
    && (forall c :: 0 <= c < |m.ctxs| ==> ContextOk(m.ctxs[c], c in m.managed, c in m.lost, Tokens(m, c)))
  }

  // --------------------------------------------------------------------------------------------
  // Counting
  // --------------------------------------------------------------------------------------------

  lemma LiveAfterPhase(tasks: seq<Dispatch>, d: nat, phase: Phase, c: nat)
    requires d < |tasks|
    ensures Count(tasks[d := Dispatch(tasks[d].ctx, phase)], LiveFor(c)) ==
            Count(tasks, LiveFor(c)) - (if LiveFor(c)(tasks[d]) then 1 else 0)
            + (if tasks[d].ctx == c && !phase.Over? then 1 else 0)
    ensures LiveFor(c)(tasks[d]) ==> Count(tasks, LiveFor(c)) > 0
  {
    CountUpdate(tasks, d, Dispatch(tasks[d].ctx, phase), LiveFor(c));
    if LiveFor(c)(tasks[d]) {
      CountPositive(tasks, d, LiveFor(c));
    }
  }

  lemma QueueWithout(queue: seq<nat>, i: nat, c: nat)
    requires i < |queue|
    ensures Count(queue, Is(c)) == Count(queue[..i] + queue[i + 1..], Is(c)) + if queue[i] == c then 1 else 0
  {
    assert queue == queue[..i] + ([queue[i]] + queue[i + 1..]);
    CountConcat(queue[..i], [queue[i]] + queue[i + 1..], Is(c));
    CountConcat([queue[i]], queue[i + 1..], Is(c));
    CountConcat(queue[..i], queue[i + 1..], Is(c));
    assert [queue[i]] == [] + [queue[i]];
    CountAppend([], queue[i], Is(c));
  }

  /** Tokens change only with the queue, the tasks or the context's own invoker. */
  lemma SameTokens(m: Machine, n: Machine)
    requires Inv(m) && |n.ctxs| == |m.ctxs| && n.queue == m.queue && n.tasks == m.tasks
    requires n.lost == m.lost && (n.decomposed ==> n.managed == {}) && n.managed <= m.managed
    requires forall c :: 0 <= c < |m.ctxs| ==>
               ContextOk(n.ctxs[c], c in n.managed, c in m.lost,
                         Tokens(m, c) - InvokerTokens(m.ctxs[c]) + InvokerTokens(n.ctxs[c]))
    ensures Inv(n)
  {
    forall c | 0 <= c < |n.ctxs|
      ensures ContextOk(n.ctxs[c], c in n.managed, c in n.lost, Tokens(n, c))
    {
      assert Tokens(n, c) == Tokens(m, c) - InvokerTokens(m.ctxs[c]) + InvokerTokens(n.ctxs[c]);
    }
  }

  // --------------------------------------------------------------------------------------------
  // Steps
  // --------------------------------------------------------------------------------------------

  /** Context c is rewritten and perhaps settled; nothing else moves. */
  lemma ContextStepKeeps(m: Machine, c: nat, x: Context, n: Machine)
    requires Inv(m) && c < |m.ctxs|
    requires n == SetContext(m, c, x) || n == Settle(m, c, x)
    requires ContextOk(x, c in n.managed, c in m.lost,
                       Tokens(m, c) - InvokerTokens(m.ctxs[c]) + InvokerTokens(x))
    ensures Inv(n)
  {
    SameTokens(m, n);
  }

  /** Creating a context: it has no token and nothing refers to it yet. */
  lemma NewContextKeeps(m: Machine, x: Context)
    requires Inv(m) && x.status.Pending? && x.completion.Unbound? && x.invoker.NotInvoked?
    ensures Inv(m.(ctxs := m.ctxs + [x]))
  {
    var n := m.(ctxs := m.ctxs + [x]);
    var c := |m.ctxs|;
    CountZero(m.queue, Is(c));
    CountZero(m.tasks, LiveFor(c));
    forall e | 0 <= e < |n.ctxs|
      ensures ContextOk(n.ctxs[e], e in n.managed, e in n.lost, Tokens(n, e))
    {
      if e < c {
        assert ContextOk(m.ctxs[e], e in m.managed, e in m.lost, Tokens(m, e));
        assert Tokens(n, e) == Tokens(m, e);
      }
    }
  }

  lemma BeginKeeps(m: Machine, c: nat)
    requires Inv(m) && Enabled(m, Begin(c))
    ensures Inv(Step(m, Begin(c)))
  {
    var n := Step(m, Begin(c));
    forall e | 0 <= e < |n.ctxs|
      ensures ContextOk(n.ctxs[e], e in n.managed, e in n.lost, Tokens(n, e))
    {
      assert ContextOk(m.ctxs[e], e in m.managed, e in m.lost, Tokens(m, e));
      assert Tokens(n, e) == Tokens(m, e) + if e == c then 1 else 0;
    }
  }

  /** Task d moves to another phase while its context is rewritten: the task's token is kept, or
      given up by a context that is terminal afterwards. */
  lemma TaskStepKeeps(m: Machine, d: nat, phase: Phase, x: Context, n: Machine)
    requires Inv(m) && d < |m.tasks| && !m.tasks[d].phase.Over?
    requires n == SetContext(SetPhase(m, d, phase), m.tasks[d].ctx, x)
             || n == Settle(SetPhase(m, d, phase), m.tasks[d].ctx, x)
    requires x.invoker == m.ctxs[m.tasks[d].ctx].invoker
    requires forall tokens: nat | tokens > 0 ::
               ContextOk(m.ctxs[m.tasks[d].ctx], m.tasks[d].ctx in m.managed, m.tasks[d].ctx in m.lost, tokens) ==>
               ContextOk(x, m.tasks[d].ctx in n.managed, m.tasks[d].ctx in m.lost,
                         if phase.Over? then tokens - 1 else tokens)
    ensures Inv(n)
  {
    var c := m.tasks[d].ctx;
    forall e | 0 <= e < |n.ctxs|
      ensures ContextOk(n.ctxs[e], e in n.managed, e in n.lost, Tokens(n, e))
    {
      LiveAfterPhase(m.tasks, d, phase, e);
      assert ContextOk(m.ctxs[e], e in m.managed, e in m.lost, Tokens(m, e));
      assert Tokens(n, e) == Tokens(m, e) - if e == c && phase.Over? then 1 else 0;
    }
  }

  /** A task hands its token to the queue. */
  lemma PostDoneKeeps(m: Machine, d: nat)
    requires Inv(m) && Enabled(m, PostDone(d))
    ensures Inv(Step(m, PostDone(d)))
  {
    var n := Step(m, PostDone(d));
    var c := m.tasks[d].ctx;
    forall e | 0 <= e < |n.ctxs|
      ensures ContextOk(n.ctxs[e], e in n.managed, e in n.lost, Tokens(n, e))
    {
      LiveAfterPhase(m.tasks, d, Over, e);
      CountAppend(m.queue, c, Is(e));
      assert ContextOk(m.ctxs[e], e in m.managed, e in m.lost, Tokens(m, e));
      assert Tokens(n, e) == Tokens(m, e);
    }
  }

  lemma InvokePostedKeeps(m: Machine, c: nat)
    requires Inv(m) && Enabled(m, InvokePosted(c))
    ensures Inv(Step(m, InvokePosted(c)))
  {
    var n := Step(m, InvokePosted(c));
    forall e | 0 <= e < |n.ctxs|
      ensures ContextOk(n.ctxs[e], e in n.managed, e in n.lost, Tokens(n, e))
    {
      CountAppend(m.queue, c, Is(e));
      assert ContextOk(m.ctxs[e], e in m.managed, e in m.lost, Tokens(m, e));
      assert Tokens(n, e) == Tokens(m, e);
    }
  }

  lemma DispatchStartsKeeps(m: Machine)
    requires Inv(m) && m.queue != []
    ensures Inv(DispatchStartsStep(m))
  {
    var n := DispatchStartsStep(m);
    forall e | 0 <= e < |n.ctxs|
      ensures ContextOk(n.ctxs[e], e in n.managed, e in n.lost, Tokens(n, e))
    {
      QueueWithout(m.queue, 0, e);
      assert m.queue[..0] + m.queue[1..] == n.queue;
      CountAppend(m.tasks, Dispatch(m.queue[0], Upstream(false, false)), LiveFor(e));
      assert ContextOk(m.ctxs[e], e in m.managed, e in m.lost, Tokens(m, e));
      assert Tokens(n, e) == Tokens(m, e);
    }
  }

  lemma LossKeeps(m: Machine, a: Action)
    requires Inv(m) && Enabled(m, a) && (a.LoseQueued? || a.LoseTask?)
    ensures Inv(Step(m, a))
  {
    hide HandlerRunsStep;
    hide BatchReturnsStep;
    hide InvokeStartsStep;
    var n := Step(m, a);
    forall e | 0 <= e < |n.ctxs|
      ensures ContextOk(n.ctxs[e], e in n.managed, e in n.lost, Tokens(n, e))
    {
      assert ContextOk(m.ctxs[e], e in m.managed, e in m.lost, Tokens(m, e));
      if a.LoseQueued? {
        QueueWithout(m.queue, a.index, e);
        assert Tokens(n, e) == Tokens(m, e) - if m.queue[a.index] == e then 1 else 0;
      } else {
        LiveAfterPhase(m.tasks, a.task, Over, e);
        assert Tokens(n, e) == Tokens(m, e) - if m.tasks[a.task].ctx == e then 1 else 0;
      }
    }
  }

  lemma AbortAllKeeps(m: Machine)
    requires Inv(m)
    ensures Inv(AbortAll(m))
  {
    var n := AbortAll(m);
    forall c | 0 <= c < |m.ctxs|
      ensures ContextOk(n.ctxs[c], c in n.managed, c in m.lost,
                        Tokens(m, c) - InvokerTokens(m.ctxs[c]) + InvokerTokens(n.ctxs[c]))
    {
      assert ContextOk(m.ctxs[c], c in m.managed, c in m.lost, Tokens(m, c));
    }
    SameTokens(m, n);
  }

  /** The invoker leaves, settling a running context. */
  lemma UnwindKeeps(m: Machine, a: Action)
    requires Inv(m) && Enabled(m, a)
    requires a.InvokePostFails? || a.InvokeCancelled? || a.StreamClosed? || a.InvokeSeesCancel?
    ensures Inv(Step(m, a))
  {
    hide HandlerRunsStep;
    hide BatchReturnsStep;
    hide InvokeStartsStep;
    var n := Step(m, a);
    var c := a.ctx;
    assert ContextOk(m.ctxs[c], c in m.managed, c in m.lost, Tokens(m, c));
    ContextStepKeeps(m, c, n.ctxs[c], n);
  }

  lemma InvokerStepKeeps(m: Machine, a: Action)
    requires Inv(m) && Enabled(m, a)
    requires a.InvokeStarts? || a.CancelAwait? || a.InvokeReturns? || a.Abort?
    ensures Inv(Step(m, a))
  {
    hide HandlerRunsStep;
    hide BatchReturnsStep;
    hide Validate;
    var n := Step(m, a);
    var c := a.ctx;
    assert ContextOk(m.ctxs[c], c in m.managed, c in m.lost, Tokens(m, c));
    ContextStepKeeps(m, c, n.ctxs[c], n);
  }

  /** A task moves on without touching its context. */
  lemma PhaseKeeps(m: Machine, d: nat, phase: Phase)
    requires Inv(m) && d < |m.tasks| && !m.tasks[d].phase.Over? && !phase.Over?
    ensures Inv(SetPhase(m, d, phase))
  {
    hide Tokens;
    var c := m.tasks[d].ctx;
    assert m.ctxs == m.ctxs[c := m.ctxs[c]];
    TaskStepKeeps(m, d, phase, m.ctxs[c], SetPhase(m, d, phase));
  }

  /** A task ends and stops its context. */
  lemma TaskEndKeeps(m: Machine, a: Action)
    requires Inv(m) && Enabled(m, a) && (a.PostFails? || a.CancelNotify?)
    ensures Inv(Step(m, a))
  {
    hide HandlerRunsStep;
    hide BatchReturnsStep;
    hide InvokeStartsStep;
    hide Tokens;
    var n := Step(m, a);
    var d := a.task;
    var c := m.tasks[d].ctx;
    assert ContextOk(m.ctxs[c], c in m.managed, c in m.lost, Tokens(m, c));
    assert m.ctxs == m.ctxs[c := m.ctxs[c]];
    TaskStepKeeps(m, d, Over, n.ctxs[c], n);
  }

  lemma BatchReturnsKeeps(m: Machine, d: nat, results: Option<seq<Member>>)
    requires Inv(m) && InBatch(m, d)
    ensures Inv(BatchReturnsStep(m, d, results))
  {
    hide CommitResults;
    var n := BatchReturnsStep(m, d, results);
    var c := m.tasks[d].ctx;
    assert ContextOk(m.ctxs[c], c in m.managed, c in m.lost, Tokens(m, c));
    assert m.ctxs == m.ctxs[c := m.ctxs[c]];
    TaskStepKeeps(m, d, n.tasks[d].phase, n.ctxs[c], n);
  }

  lemma HandlerRunsKeeps(m: Machine, d: nat, snapshotFails: bool)
    requires Inv(m) && InUpstream(m, d)
    ensures Inv(HandlerRunsStep(m, d, snapshotFails))
  {
    var n := HandlerRunsStep(m, d, snapshotFails);
    var c := m.tasks[d].ctx;
    assert ContextOk(m.ctxs[c], c in m.managed, c in m.lost, Tokens(m, c));
    assert m.ctxs == m.ctxs[c := m.ctxs[c]];
    TaskStepKeeps(m, d, n.tasks[d].phase, n.ctxs[c], n);
  }

  lemma LateCancelKeeps(m: Machine, d: nat)
    requires Inv(m) && Enabled(m, LateCancel(d))
    ensures Inv(Step(m, LateCancel(d)))
  {
    var c := m.tasks[d].ctx;
    assert ContextOk(m.ctxs[c], c in m.managed, c in m.lost, Tokens(m, c));
    if Active(m, c) {
      ContextStepKeeps(m, c, CancelContext(m.ctxs[c]), Step(m, LateCancel(d)));
    }
  }

  /** The ownership and token invariant is inductive. */
  lemma StepKeepsInv(m: Machine, a: Action)
    requires Inv(m) && Enabled(m, a)
    ensures Inv(Step(m, a))
  {
    match a
    case Create(st) => NewContextKeeps(m, NewContext(Checkpoint(st, m.graph.entry, 0), []));
    case Restore(c, version, single) =>
      var history := m.ctxs[c].history;
      NewContextKeeps(m, RestoredContext(history, ListIndex(version, |history|).value, single));
    case Begin(c) => BeginKeeps(m, c);
    case InvokePosted(c) => InvokePostedKeeps(m, c);
    case DispatchStarts => DispatchStartsKeeps(m);
    case BatchReturns(d, results) => BatchReturnsKeeps(m, d, results);
    case HandlerRuns(d, snapshotFails) => HandlerRunsKeeps(m, d, snapshotFails);
    case PostDone(d) => PostDoneKeeps(m, d);
    case LateCancel(d) => LateCancelKeeps(m, d);
    case Decompose => AbortAllKeeps(m);
    case LoseQueued(_) => LossKeeps(m, a);
    case LoseTask(_) => LossKeeps(m, a);
    case UpstreamOutcome(d, _, _) => PhaseKeeps(m, d, Step(m, a).tasks[d].phase);
    case CancelDispatch(d) => PhaseKeeps(m, d, Cancelling);
    case PostFails(_) => TaskEndKeeps(m, a);
    case CancelNotify(_) => TaskEndKeeps(m, a);
    case InvokePostFails(_) => UnwindKeeps(m, a);
    case InvokeCancelled(_) => UnwindKeeps(m, a);
    case StreamClosed(_) => UnwindKeeps(m, a);
    case InvokeSeesCancel(_) => UnwindKeeps(m, a);
    case _ => InvokerStepKeeps(m, a);
  }

  lemma InitialInv(g: Graph)
    ensures Inv(Initial(g))
  {
  }
}
