/** What a caller receives from an aborted attempt, and two runs that show what the code does not
    guarantee. */
module GraphAbort {
  import opened Common
  import opened Batch
  import opened OrderedKeys
  import opened Targets
  import opened GraphMachine
  import opened GraphInvariant
  import opened GraphResume
  import opened GraphTheorems
  import opened GraphFate

  /** A dispatch of context c is running its batch. */
  ghost predicate Executes(m: Machine, c: nat) {
    exists d :: 0 <= d < |m.tasks| && m.tasks[d] == Dispatch(c, Executing)
  }

  /** The token of context c is on its way to its next dispatch. */
  ghost predicate Between(m: Machine, c: nat) {
    || c in m.queue
    || exists d :: 0 <= d < |m.tasks| && m.tasks[d].ctx == c && (m.tasks[d].phase.Upstream? || m.tasks[d].phase.Posting?)
  }

  /** A running attempt whose caller still waits. */
  predicate Awaited(x: Context) {
    x.status.Running? && x.completion.Waiting?
  }

  lemma Reached(g: Graph, acts: seq<Action>, c: nat)
    requires GraphOk(g) && Runs(Initial(g), acts) && c < |After(Initial(g), acts).ctxs|
    requires After(Initial(g), acts).ctxs[c].status.Running?
    ensures var m := After(Initial(g), acts); var x := m.ctxs[c];
            && m.graph == g && ShapeOk(g, x)
            && (Executes(m, c) ==> MidBatch(g, x)) && (Between(m, c) ==> Settled(g, x))
  {
    InitialShape(g);
    RunKeepsInv(Initial(g), acts);
    RunKeepsGraph(Initial(g), acts);
    hide Inv;
    hide ShapeOk;
    hide Settled;
    hide MidBatch;
    hide Runs;
    hide After;
    var m := After(Initial(g), acts);
    if Executes(m, c) {
      var d :| 0 <= d < |m.tasks| && m.tasks[d] == Dispatch(c, Executing);
      assert PlaceOk(m, m.tasks[d]);
    }
    if Between(m, c) && c !in m.queue {
      var d :| 0 <= d < |m.tasks| && m.tasks[d].ctx == c && (m.tasks[d].phase.Upstream? || m.tasks[d].phase.Posting?);
      assert PlaceOk(m, m.tasks[d]);
    }
  }

  lemma BeforeFirstBatch(g: Graph, x: Context)
    requires ShapeOk(g, x) && x.status.Running? && x.started == 0
    ensures LatestSnapshotState(x) == x.state
  {
    hide Normalise;
    hide Dispatchable;
    assert x.history == x.inherited + Own(x);
    assert x.inherited != [] ==> Here(x) == x.inherited[|x.inherited| - 1];
  }

  /** Over every run: aborting an attempt while its batch runs, or before it started any, hands out the
      live state.  On a graph without checkpoints it hands out the state the attempt was restored with,
      if it was restored, and the live state otherwise. */
  lemma AbortResult(g: Graph, acts: seq<Action>, c: nat)
    requires GraphOk(g) && Runs(Initial(g), acts) && c < |After(Initial(g), acts).ctxs|
    requires Awaited(After(Initial(g), acts).ctxs[c])
    ensures var m := After(Initial(g), acts); var x := m.ctxs[c];
            && (x.started == 0 || (Executes(m, c) && !g.noSnapshot) ==> AbortContext(x).completion == Resolved(x.state))
            && (g.noSnapshot ==>
                  AbortContext(x).completion == Resolved(if x.inherited == [] then x.state else x.origin.state))
  {
    hide Runs;
    hide After;
    hide ShapeOk;
    hide Inv;
    hide Shape;
    hide Settled;
    Reached(g, acts, c);
    var x := After(Initial(g), acts).ctxs[c];
    if x.started == 0 {
      BeforeFirstBatch(g, x);
    }
    if g.noSnapshot {
      WithoutCheckpoints(g, x);
    }
  }

  lemma WithoutCheckpoints(g: Graph, x: Context)
    requires ShapeOk(g, x) && g.noSnapshot
    ensures LatestSnapshotState(x) == if x.inherited == [] then x.state else x.origin.state
  {
    hide Normalise;
    hide Dispatchable;
    hide Valid;
    hide Settled;
    hide MidBatch;
    assert x.history == x.inherited + Own(x);
  }

  /** All batches started are committed: the newest checkpoint is one batch behind. */
  lemma LastCommit(g: Graph, x: Context)
    requires ShapeOk(g, x) && FateOk(g, x) && x.status.Running? && Settled(g, x) && x.started > 0 && !g.noSnapshot
    ensures x.history != []
    ensures var k := x.history[|x.history| - 1];
            OneBatch(g, k.state, k.target, k.steps) == Continues(x.state, x.target, x.steps)
  {
    hide Normalise;
    hide OneBatch;
    hide RunFrom;
    hide TraceFrom;
    var trace, n := TraceOf(g, x.origin), x.started;
    assert Own(x) == trace[..n];
    var k := x.history[|x.history| - 1];
    assert k == Own(x)[n - 1] == trace[n - 1];
    TraceCoherent(g, x.origin, n - 1);
    assert Dispatchable(g, k) && k.steps < g.maxSteps;
    BatchAhead(g, k);
    assert trace[n - 1..] == [k] + trace[n..];
    assert Valid(g, x.target, x.steps);
    hide ShapeOk;
    hide FateOk;
    hide Dispatchable;
    match OneBatch(g, k.state, k.target, k.steps)
    case Continues(next, target, at) =>
      var y := Checkpoint(next, target, at);
      assert TraceOf(g, y) == trace[n..] == TraceOf(g, Here(x));
      assert Valid(g, y.target, y.steps);
      SameStart(g, y, Here(x));
    case Stops(_, _, _) => Unbroken(g, Here(x));
  }

  /** Valid checkpoints with the same run ahead are the same. */
  lemma SameStart(g: Graph, j: Checkpoint, k: Checkpoint)
    requires Valid(g, j.target, j.steps) && Valid(g, k.target, k.steps)
    requires TraceOf(g, j) == TraceOf(g, k) && FateOf(g, j) == FateOf(g, k)
    ensures j == k
  {
    hide OneBatch;
    hide Normalise;
    if j.target != Single(END) {
      assert TraceOf(g, j)[0] == j;
    }
    if k.target != Single(END) {
      assert TraceOf(g, k)[0] == k;
    }
  }

  /** A broken run leaves a checkpoint at its start. */
  lemma Unbroken(g: Graph, k: Checkpoint)
    requires Valid(g, k.target, k.steps) && TraceOf(g, k) == []
    ensures !FateOf(g, k).Breaks?
  {
    hide OneBatch;
    hide Normalise;
  }

  /** Over every run of deterministic nodes: aborting an attempt between two of its batches hands out
      the newest checkpoint, from which exactly one more batch gives the live state, target and steps;
      that committed batch is missing from the result. */
  lemma AbortIsOneBatchBehind(g: Graph, acts: seq<Action>, c: nat)
    requires GraphOk(g) && !g.noSnapshot && FaithfulRun(Initial(g), acts) && Runs(Initial(g), acts)
    requires c < |After(Initial(g), acts).ctxs| && Awaited(After(Initial(g), acts).ctxs[c])
    requires After(Initial(g), acts).ctxs[c].started > 0 && Between(After(Initial(g), acts), c)
    ensures var x := After(Initial(g), acts).ctxs[c];
            && x.history != []
            && var k := x.history[|x.history| - 1];
            && AbortContext(x).completion == Resolved(k.state)
            && OneBatch(g, k.state, k.target, k.steps) == Continues(x.state, x.target, x.steps)
  {
    hide OneBatch;
    hide ShapeOk;
    hide FateOk;
    hide Settled;
    hide Between;
    hide Inv;
    hide Shape;
    Reached(g, acts, c);
    ReachableFated(g, acts);
    hide Runs;
    hide After;
    LastCommit(g, After(Initial(g), acts).ctxs[c]);
  }

  // --------------------------------------------------------------------------------------------
  // Two concrete runs
  // --------------------------------------------------------------------------------------------

  lemma Unrolled(m: Machine, a: Action, rest: seq<Action>)
    requires Enabled(m, a) && Faithful(m, a) && FaithfulRun(Step(m, a), rest) && Runs(Step(m, a), rest)
    ensures FaithfulRun(m, [a] + rest) && Runs(m, [a] + rest) && After(m, [a] + rest) == After(Step(m, a), rest)
  {
    assert ([a] + rest)[0] == a && ([a] + rest)[1..] == rest;
  }

  /** One attempt from state st has published its first dispatch event. */
  function Published(g: Graph, st: State): Machine {
    var k := Checkpoint(st, g.entry, 0);
    Machine(g, false, {0}, [NewContext(k, []).(status := Running, completion := Waiting, invoker := Awaiting)], [0], [], {})
  }

  lemma PublishedReached(g: Graph, st: State, rest: seq<Action>)
    requires Valid(g, g.entry, 0) && FaithfulRun(Published(g, st), rest) && Runs(Published(g, st), rest)
    ensures var acts := [Create(st)] + ([Begin(0)] + ([Action.InvokeStarts(0)] + ([Action.InvokePosted(0)] + rest)));
            && FaithfulRun(Initial(g), acts) && Runs(Initial(g), acts)
            && After(Initial(g), acts) == After(Published(g, st), rest)
  {
    hide Validate;
    var m1 := Step(Initial(g), Create(st));
    var m2 := Step(m1, Begin(0));
    var m3 := Step(m2, Action.InvokeStarts(0));
    assert Step(m3, Action.InvokePosted(0)) == Published(g, st);
    hide Step;
    hide Runs;
    hide FaithfulRun;
    hide After;
    Unrolled(m3, Action.InvokePosted(0), rest);
    Unrolled(m2, Action.InvokeStarts(0), [Action.InvokePosted(0)] + rest);
    Unrolled(m1, Begin(0), [Action.InvokeStarts(0)] + ([Action.InvokePosted(0)] + rest));
    Unrolled(Initial(g), Create(st), [Begin(0)] + ([Action.InvokeStarts(0)] + ([Action.InvokePosted(0)] + rest)));
  }

  /** On any graph whose entry can be dispatched there is a run from the start that leaves a running
      context without a token: its published event is dropped. */
  lemma StrandingHappens(g: Graph, st: State) returns (acts: seq<Action>)
    requires GraphOk(g) && Valid(g, g.entry, 0)
    ensures Runs(Initial(g), acts)
    ensures var m := After(Initial(g), acts);
            |m.ctxs| == 1 && m.ctxs[0].status.Running? && Tokens(m, 0) == 0 && 0 in m.lost
  {
    var p := Published(g, st);
    var m := Step(p, Action.LoseQueued(0));
    assert FaithfulRun(m, []) && Runs(m, []) && After(m, []) == m;
    assert m.queue == [] && m.tasks == [] && Tokens(m, 0) == 0;
    hide Step;
    Unrolled(p, Action.LoseQueued(0), []);
    PublishedReached(g, st, [Action.LoseQueued(0)] + []);
    acts := [Create(st)] + ([Begin(0)] + ([Action.InvokeStarts(0)] + ([Action.InvokePosted(0)]
              + ([Action.LoseQueued(0)] + []))));
  }

  function LoopCommand(key: Key, v: V): Command {
    Command([(key, Put(v))], Some(Single("n")))
  }

  /** One node that writes v under key and goes to itself. */
  function Loop(key: Key, v: V): Graph {
    Graph(map["n" := (s: State) => Some([LoopCommand(key, v)])], Policy({}, (a: V, b: V) => None), Single("n"), 5, false)
  }

  lemma LoopCommit(key: Key, v: V)
    ensures CommitBatch(Loop(key, v).policy, map[], [[LoopCommand(key, v)]]) == Commit(map[key := v], None)
  {
    var p, st: State, item := Loop(key, v).policy, map[], Item(0, key, Put(v));
    var update := [(key, Put(v))];
    assert update[1..] == [] && UpdateItems(0, update) == [item] + [];
    var member: Member := [LoopCommand(key, v)];
    assert member[1..] == [] && MemberItems(0, [LoopCommand(key, v)]) == [item];
    assert BatchItems(0, [[LoopCommand(key, v)]]) == [item];
    assert [item][1..] == [];
    assert WriteKey(p, st, key, Put(v)) == Some(st[key := v]);
    assert ApplyItems(p, st, map[], [item]) == ApplyItems(p, st[key := v], Owning(p, map[], item), []);
  }

  lemma LoopTarget(key: Key, v: V)
    ensures NextTarget([[LoopCommand(key, v)]]) == Single("n")
  {
    var member := [LoopCommand(key, v)];
    var members: seq<Member> := [member];
    assert member[..0] == [] && MemberGotos(member) == [] + [Some(Single("n"))];
    assert members[..0] == [] && Gotos(members) == [] + MemberGotos(member);
    LoneGoto("n");
  }

  lemma LoneGoto(n: Name)
    requires n != END
    ensures TargetOf(Distinct(Selected([Some(Single(n))])), AnyBatch([Some(Single(n))])) == Single(n)
  {
    var gotos := [Some(Single(n))];
    assert [n][..0] == [] && NonEnd([n]) == [n];
    assert gotos[..0] == [] && Selected(gotos) == [] + GotoNames(gotos[0]) == [n];
    hide Selected;
    hide NonEnd;
    assert Distinct([n]) == [n];
    assert !AnyBatch(gotos);
  }

  lemma LoopBatch(key: Key, v: V)
    ensures RunNodes(Loop(key, v), ["n"], map[]) == Some([[LoopCommand(key, v)]])
    ensures CommitResults(Loop(key, v), map[], Single("n"), 0, Some([[LoopCommand(key, v)]])) ==
            Continues(map[key := v], Single("n"), 1)
  {
    var g := Loop(key, v);
    var member: Member, none: seq<Member> := [LoopCommand(key, v)], [];
    assert g.nodes["n"](map[]) == Some(member);
    assert ["n"][1..] == [] && RunNodes(g, [], map[]) == Some(none) && [member] + none == [member];
    assert RunNodes(g, ["n"], map[]) == Some([member] + none);
    LoopCommit(key, v);
    LoopTarget(key, v);
    assert "n" in g.nodes.Keys && Validate(g.nodes.Keys, 5, Some(Single("n")), 1) == Ok(Single("n"));
    hide CommitBatch;
    hide NextTarget;
    hide Validate;
  }

  /** The first batch of that graph is running. */
  function FirstBatch(key: Key, v: V): Machine {
    var p := Published(Loop(key, v), map[]);
    p.(ctxs := [StartBatch(p.ctxs[0], false)], queue := [], tasks := [Dispatch(0, Executing)])
  }

  lemma FirstBatchReached(key: Key, v: V, rest: seq<Action>)
    requires FaithfulRun(FirstBatch(key, v), rest) && Runs(FirstBatch(key, v), rest)
    ensures var p := Published(Loop(key, v), map[]);
            var acts := [Action.DispatchStarts] + ([HandlerRuns(0, false)] + rest);
            FaithfulRun(p, acts) && Runs(p, acts) && After(p, acts) == After(FirstBatch(key, v), rest)
  {
    var p := Published(Loop(key, v), map[]);
    var m1 := Step(p, Action.DispatchStarts);
    assert m1 == p.(queue := [], tasks := [Dispatch(0, Upstream(false, false))]);
    assert Step(m1, HandlerRuns(0, false)) == FirstBatch(key, v);
    hide Step;
    hide Runs;
    hide FaithfulRun;
    hide After;
    Unrolled(m1, HandlerRuns(0, false), rest);
    Unrolled(p, Action.DispatchStarts, [HandlerRuns(0, false)] + rest);
  }

  lemma FirstBatchCommits(key: Key, v: V)
    ensures var acts := [BatchReturns(0, Some([[LoopCommand(key, v)]]))] + [];
            && FaithfulRun(FirstBatch(key, v), acts) && Runs(FirstBatch(key, v), acts)
            && var m := After(FirstBatch(key, v), acts);
            && |m.ctxs| == 1 && m.ctxs[0].status.Running? && m.ctxs[0].state == map[key := v] && m.ctxs[0].steps == 1
            && AbortContext(m.ctxs[0]).completion == Resolved(map[])
  {
    LoopBatch(key, v);
    hide RunNodes;
    hide CommitResults;
    var m, a := FirstBatch(key, v), BatchReturns(0, Some([[LoopCommand(key, v)]]));
    assert Faithful(m, a);
    var n := Step(m, a);
    assert n.ctxs[0].state == map[key := v] && n.ctxs[0].steps == 1 && n.ctxs[0].history == m.ctxs[0].history;
    assert AbortContext(n.ctxs[0]).completion == Resolved(map[]);
    assert FaithfulRun(n, []) && Runs(n, []) && After(n, []) == n;
    hide Step;
    hide Runs;
    hide FaithfulRun;
    hide After;
    Unrolled(m, a, []);
  }

  /** A run of deterministic nodes from the start in which abort drops a committed batch: the live state
      has the write, the handed-out one has not. */
  lemma AbortDropsCommit(key: Key, v: V) returns (acts: seq<Action>)
    ensures FaithfulRun(Initial(Loop(key, v)), acts) && Runs(Initial(Loop(key, v)), acts)
    ensures var m := After(Initial(Loop(key, v)), acts);
            && |m.ctxs| == 1 && m.ctxs[0].status.Running? && m.ctxs[0].state == map[key := v] && m.ctxs[0].steps == 1
            && AbortContext(m.ctxs[0]).completion == Resolved(map[])
  {
    var last := [BatchReturns(0, Some([[LoopCommand(key, v)]]))] + [];
    var rest := [Action.DispatchStarts] + ([HandlerRuns(0, false)] + last);
    FirstBatchCommits(key, v);
    FirstBatchReached(key, v, last);
    assert Valid(Loop(key, v), Single("n"), 0);
    hide Runs;
    hide FaithfulRun;
    hide After;
    PublishedReached(Loop(key, v), map[], rest);
    acts := [Create(map[])] + ([Begin(0)] + ([Action.InvokeStarts(0)] + ([Action.InvokePosted(0)] + rest)));
  }
}
