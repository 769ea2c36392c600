/** The runtime's objects.  Each method is the code between two awaits and is proved to perform
    exactly one step of PermitProtocol, so everything proved about its runs holds of these objects. */
module EventLoop {
  import opened Common
  import opened Semaphores
  import opened PermitProtocol
  import opened PermitInvariant
  import opened PermitTheorems

  /** Shared ownership markers of one foreground handler chain. */
  class HandlerChainToken {
    var held: bool
    var closed: bool
    var suspended: int
    var resumeLock: Option<nat>

    constructor ()
      ensures Value() == Chain(true, false, 0, None)
    {
      held, closed, suspended, resumeLock := true, false, 0, None;
    }

    ghost function Value(): Chain
      reads this
    {
      Chain(held, closed, suspended, resumeLock)
    }
  }

  /** The bounded local queue with asyncio's unfinished-task counter. */
  class ApixEventPipe {
    var queue: seq<Event>
    var unfinished: int
    const maxsize: nat

    constructor (maxsize: nat)
      requires maxsize > 0
      ensures queue == [] && unfinished == 0 && this.maxsize == maxsize
    {
      queue, unfinished := [], 0;
      this.maxsize := maxsize;
    }

    /** put_nowait: QueueFull leaves the queue alone. */
    method PutNowait(e: Event) returns (full: bool)
      modifies this
      ensures full <==> |old(queue)| >= maxsize
      ensures queue == if full then old(queue) else old(queue) + [e]
      ensures unfinished == old(unfinished) + if full then 0 else 1
    {
      full := |queue| >= maxsize;
      if !full {
        queue := queue + [e];
        unfinished := unfinished + 1;
      }
    }

    /** get_nowait: None stands for QueueEmpty. */
    method GetNowait() returns (e: Option<Event>)
      modifies this
      ensures unfinished == old(unfinished)
      ensures if old(queue) == [] then e == None && queue == []
              else e == Some(old(queue)[0]) && queue == old(queue)[1..]
    {
      if queue == [] {
        return None;
      }
      e := Some(queue[0]);
      queue := queue[1..];
    }

    /** task_done raises when nothing is unfinished. */
    method TaskDone() returns (raised: bool)
      modifies this`unfinished
      ensures raised <==> old(unfinished) <= 0
      ensures unfinished == old(unfinished) - if raised then 0 else 1
    {
      raised := unfinished <= 0;
      if !raised {
        unfinished := unfinished - 1;
      }
    }

    /** Drains the queue, acknowledging each event. */
    method Clear() returns (count: nat)
      requires unfinished >= |queue|
      modifies this
      ensures queue == [] && count == |old(queue)| && unfinished == old(unfinished) - count
    {
      count := 0;
      var e := GetNowait();
      while e.Some?
        invariant count + |queue| + (if e.Some? then 1 else 0) == |old(queue)|
        invariant e.None? ==> queue == []
        invariant unfinished == old(unfinished) - count
        decreases |queue| + if e.Some? then 1 else 0
      {
        var raised := TaskDone();
        assert !raised;
        count := count + 1;
        e := GetNowait();
      }
    }
  }

  lemma ReacquiresUnheld(s: State, b: nat)
    requires Inv(s) && Enabled(s, Action.Reacquire(b))
    ensures !s.chains[s.branches[b].chain].held
    ensures Semaphores.Resume(s.sem, Resumer(b)).free < Semaphores.Resume(s.sem, Resumer(b)).bound
  {
    assert InPool(s.sem, Resumer(b));
    assert BranchOk(s.chains, s.branches, b) && ChainOk(s.chains, s.branches, s.branches[b].chain);
    ResumeKeeps(s.sem, Resumer(b));
  }

  lemma RunExtends(s: State, acts: seq<Action>, n: nat)
    requires Runs(s, acts) && n < |acts|
    ensures Runs(s, acts[..n]) && Enabled(After(s, acts[..n]), acts[n])
    ensures Runs(s, acts[..n + 1]) && After(s, acts[..n + 1]) == Step(After(s, acts[..n]), acts[n])
  {
    RunSplits(s, acts, n);
    RunSplits(s, acts, n + 1);
    RunSplits(s, acts[..n + 1], n);
    assert acts[..n + 1][..n] == acts[..n] && acts[..n + 1][n..] == [acts[n]];
    assert acts[n..][0] == acts[n];
  }

  lemma SlotIsUnfinished(s: State)
    requires Inv(s)
    ensures s.unfinished >= |s.queue| && (s.pending.Some? ==> s.unfinished > 0)
  {
  }

  lemma AcquiredOneShort(s: State)
    requires Inv(s) && s.worker.AwaitingPermit? && Consumer(s.worker.gen) in s.sem.granted
    ensures Semaphores.Resume(s.sem, Consumer(s.worker.gen)).free < Semaphores.Resume(s.sem, Consumer(s.worker.gen)).bound
  {
    ResumeKeeps(s.sem, Consumer(s.worker.gen));
  }

  lemma FreePermitsFit(s: State)
    requires Inv(s)
    ensures s.sem.free <= s.sem.bound
  {
  }

  /** Where the current consumer task stands. */
  datatype Progress = Top | Awaiting | Gone

  class ApixEventLoop {
    const pipe: ApixEventPipe
    var semaphore: Semaphore<Waiter>
    var chains: seq<HandlerChainToken>
    var branches: seq<Branch>
    var started: bool
    var consumerTask: Option<nat>
    var progress: Progress
    var tasksCreated: nat
    var pendingDispatch: Option<Slot>
    var registry: map<string, seq<Handler>>
    ghost var entered: seq<Event>
    ghost var removed: seq<Removal>
    ghost var settled: seq<Settled>
    ghost var outcomes: seq<Event>

    constructor (backpressure: nat, pipe: ApixEventPipe)
      requires pipe.queue == [] && pipe.unfinished == 0
      ensures Valid() && Abs() == Initial(backpressure, pipe.maxsize) && this.pipe == pipe
    {
      this.pipe := pipe;
      semaphore := Semaphore(backpressure, backpressure, [], {});
      chains, branches := [], [];
      started, consumerTask, progress, tasksCreated := false, None, Gone, 0;
      pendingDispatch := None;
      registry := map[];
      entered, removed, settled, outcomes := [], [], [], [];
    }

    ghost function Worker(): Worker
      reads this
    {
      match consumerTask
      case None => Off
      case Some(gen) =>
        match progress
        case Top => AtTop(gen)
        case Awaiting => AwaitingPermit(gen)
        case Gone => Exited(gen)
    }

    ghost function Tokens(): (r: seq<Chain>)
      reads this, chains
      ensures |r| == |chains|
    {
      seq(|chains|, i requires 0 <= i < |chains| reads this, chains => chains[i].Value())
    }

    ghost function Abs(): State
      reads this, pipe, chains
    {
      State(semaphore, Tokens(), branches, Worker(), tasksCreated, pipe.maxsize, pipe.queue,
            pipe.unfinished, pendingDispatch, registry, entered, removed, settled, outcomes)
    }

    ghost predicate Valid()
      reads this, pipe, chains
    {
      && (forall i, j :: 0 <= i < j < |chains| ==> chains[i] != chains[j])
      && (started <==> consumerTask.Some?)
      && Inv(Abs())
    }

    /** BoundedSemaphore.release: raises instead of exceeding its bound. */
    method ReleasePermit() returns (raised: bool)
      modifies this`semaphore
      ensures raised <==> old(semaphore).free >= old(semaphore).bound
      ensures semaphore == if raised then old(semaphore) else Release(old(semaphore))
    {
      raised := semaphore.free >= semaphore.bound;
      if !raised {
        semaphore := Release(semaphore);
      }
    }

    // ------------------------------------------------------------------------------------------
    // suspend_process
    // ------------------------------------------------------------------------------------------

    method Suspend(c: nat)
      requires Valid() && c < |chains|
      modifies this, chains
      ensures Valid() && Abs() == Step(old(Abs()), Action.Suspend(c))
      ensures chains == old(chains)
    {
      hide Inv;
      var chain := chains[c];
      StepKeepsInv(Abs(), Action.Suspend(c));
      if chain.closed {
        return;
      }
      ghost var was := Abs();
      if chain.held {
        ReleaseNeverOverflows(was, Action.Suspend(c));
      }
      chain.suspended := chain.suspended + 1;
      if chain.held {
        var raised := ReleasePermit();
        assert !raised;
        chain.held := false;
      }
      branches := branches + [Branch(c, Lent)];
      assert Tokens() == was.chains[c := chain.Value()];
      assert Abs() == Step(was, Action.Suspend(c));
    }

    method LeaveBody(b: nat)
      requires Valid() && Enabled(Abs(), Action.LeaveBody(b))
      modifies this, chains
      ensures Valid() && Abs() == Step(old(Abs()), Action.LeaveBody(b))
      ensures chains == old(chains)
    {
      hide Inv;
      ghost var was := Abs();
      StepKeepsInv(was, Action.LeaveBody(b));
      var c := branches[b].chain;
      var chain := chains[c];
      chain.suspended := chain.suspended - 1;
      if chain.suspended == 0 {
        branches := branches[b := Branch(c, AtLock)];
      } else {
        branches := branches[b := Branch(c, Done)];
      }
      assert Tokens() == was.chains[c := chain.Value()];
      assert Abs() == Step(was, Action.LeaveBody(b));
    }

    /** resume_lock was obtained: re-check, then acquire() without waiting or as a waiter. */
    method TakeLock(b: nat)
      requires Valid() && Enabled(Abs(), Action.TakeLock(b))
      modifies this, chains
      ensures Valid() && Abs() == Step(old(Abs()), Action.TakeLock(b))
      ensures chains == old(chains)
    {
      hide Inv;
      ghost var was := Abs();
      var c := branches[b].chain;
      var chain := chains[c];
      if !chain.closed && !chain.held && chain.suspended == 0 {
        if Locked(semaphore) {
          semaphore := Enqueue(semaphore, Resumer(b));
          chain.resumeLock := Some(b);
          branches := branches[b := Branch(c, Reacquiring)];
          assert Tokens() == was.chains[c := chain.Value()];
          assert Abs() == TakeLockStep(was, b);
        } else {
          semaphore := TakeFree(semaphore);
          chain.held := true;
          branches := branches[b := Branch(c, Done)];
          assert Tokens() == was.chains[c := chain.Value()];
          assert Abs() == TakeLockStep(was, b);
        }
      } else {
        branches := branches[b := Branch(c, Done)];
        assert Tokens() == was.chains;
        assert Abs() == TakeLockStep(was, b);
      }
      StepKeepsInv(was, Action.TakeLock(b));
    }

    method CancelAtLock(b: nat)
      requires Valid() && Enabled(Abs(), Action.CancelAtLock(b))
      modifies this
      ensures Valid() && Abs() == Step(old(Abs()), Action.CancelAtLock(b))
      ensures chains == old(chains)
    {
      hide Inv;
      ghost var was := Abs();
      StepKeepsInv(was, Action.CancelAtLock(b));
      branches := branches[b := Branch(branches[b].chain, Done)];
      assert Tokens() == was.chains;
      assert Abs() == Step(was, Action.CancelAtLock(b));
    }

    /** acquire() returned a permit to a waiting branch. */
    method Reacquire(b: nat)
      requires Valid() && Enabled(Abs(), Action.Reacquire(b))
      modifies this, chains
      ensures Valid() && Abs() == Step(old(Abs()), Action.Reacquire(b))
      ensures chains == old(chains)
    {
      hide WakeAll;
      hide Inv;
      ghost var was := Abs();
      ReacquiresUnheld(was, b);
      var c := branches[b].chain;
      var chain := chains[c];
      semaphore := Semaphores.Resume(semaphore, Resumer(b));
      chain.resumeLock := None;
      branches := branches[b := Branch(c, Done)];
      if chain.closed || chain.suspended != 0 {
        var raised := ReleasePermit();
        assert !raised;
        assert Tokens() == was.chains[c := chain.Value()];
        assert Abs() == ReacquireStep(was, b);
      } else {
        chain.held := true;
        assert Tokens() == was.chains[c := chain.Value()];
        assert Abs() == ReacquireStep(was, b);
      }
      StepKeepsInv(was, Action.Reacquire(b));
    }

    method CancelReacquire(b: nat)
      requires Valid() && Enabled(Abs(), Action.CancelReacquire(b))
      modifies this, chains
      ensures Valid() && Abs() == Step(old(Abs()), Action.CancelReacquire(b))
      ensures chains == old(chains)
    {
      hide Inv;
      ghost var was := Abs();
      StepKeepsInv(was, Action.CancelReacquire(b));
      var c := branches[b].chain;
      var chain := chains[c];
      semaphore := Withdraw(semaphore, Resumer(b));
      chain.resumeLock := None;
      branches := branches[b := Branch(c, Done)];
      assert Tokens() == was.chains[c := chain.Value()];
      assert Abs() == Step(was, Action.CancelReacquire(b));
    }

    // ------------------------------------------------------------------------------------------
    // Dispatch end and publication
    // ------------------------------------------------------------------------------------------

    method OnDispatchDone(c: nat)
      requires Valid() && Enabled(Abs(), DispatchDone(c))
      modifies this, chains
      ensures Valid() && Abs() == Step(old(Abs()), DispatchDone(c))
      ensures chains == old(chains)
    {
      hide Inv;
      ghost var was := Abs();
      StepKeepsInv(was, DispatchDone(c));
      var chain := chains[c];
      if chain.held {
        ReleaseNeverOverflows(was, DispatchDone(c));
      }
      chain.closed := true;
      if chain.held {
        var raised := ReleasePermit();
        assert !raised;
        chain.held := false;
      }
      assert Tokens() == was.chains[c := chain.Value()];
      assert Abs() == Step(was, DispatchDone(c));
    }

    /** A publication: the event is in the queue, or the queue is full and nothing changed. */
    method Put(e: Event) returns (full: bool)
      requires Valid()
      modifies this, pipe
      ensures Valid() && chains == old(chains)
      ensures full <==> !Enabled(old(Abs()), Action.Put(e))
      ensures Abs() == if full then old(Abs()) else Step(old(Abs()), Action.Put(e))
    {
      hide Inv;
      ghost var was := Abs();
      if |pipe.queue| < pipe.maxsize {
        StepKeepsInv(was, Action.Put(e));
        entered := entered + [e];
      }
      full := pipe.PutNowait(e);
      assert Tokens() == was.chains;
      assert Abs() == if full then was else Step(was, Action.Put(e));
    }

    method Clear()
      requires Valid()
      modifies this, pipe
      ensures Valid() && Abs() == Step(old(Abs()), Action.Clear)
      ensures chains == old(chains)
    {
      hide Inv;
      ghost var was := Abs();
      StepKeepsInv(was, Action.Clear);
      SlotIsUnfinished(was);
      removed := removed + ClearedAll(pipe.queue);
      outcomes := outcomes + pipe.queue;
      var count := pipe.Clear();
      assert Tokens() == was.chains;
      assert Abs() == Step(was, Action.Clear);
    }

    method Register(table: map<string, seq<Handler>>)
      requires Valid()
      modifies this
      ensures Valid() && Abs() == Step(old(Abs()), Action.Register(table))
      ensures chains == old(chains)
    {
      hide Inv;
      ghost var was := Abs();
      StepKeepsInv(was, Action.Register(table));
      registry := table;
      assert Tokens() == was.chains;
      assert Abs() == Step(was, Action.Register(table));
    }

    // ------------------------------------------------------------------------------------------
    // The consumer
    // ------------------------------------------------------------------------------------------

    method Start()
      requires Valid()
      modifies this
      ensures Valid() && Abs() == Step(old(Abs()), Action.Start)
      ensures chains == old(chains) && started
    {
      hide Inv;
      ghost var was := Abs();
      StepKeepsInv(was, Action.Start);
      if started {
        return;
      }
      consumerTask, progress := Some(tasksCreated), Top;
      tasksCreated := tasksCreated + 1;
      started := true;
      assert Tokens() == was.chains;
      assert Abs() == Step(was, Action.Start);
    }

    /** stop(): the worker is forgotten and cancelled; queue and pending slot are kept. */
    method Stop()
      requires Valid()
      modifies this
      ensures Valid() && Abs() == Step(old(Abs()), Action.Stop)
      ensures chains == old(chains) && !started && pendingDispatch == old(pendingDispatch)
    {
      hide Inv;
      ghost var was := Abs();
      StepKeepsInv(was, Action.Stop);
      var task := consumerTask;
      consumerTask, started := None, false;
      if task.Some? && progress.Awaiting? && Consumer(task.value) !in semaphore.granted {
        semaphore := CancelWaiting(semaphore, Consumer(task.value));
      }
      assert Tokens() == was.chains;
      assert Abs() == Step(was, Action.Stop);
    }

    /** The current consumer is cancelled from outside and returns. */
    method CancelWorker()
      requires Valid() && Enabled(Abs(), Action.CancelWorker)
      modifies this
      ensures Valid() && Abs() == Step(old(Abs()), Action.CancelWorker)
      ensures chains == old(chains)
    {
      hide Inv;
      ghost var was := Abs();
      StepKeepsInv(was, Action.CancelWorker);
      if progress.Awaiting? {
        semaphore := Withdraw(semaphore, Consumer(consumerTask.value));
      }
      progress := Gone;
      assert Tokens() == was.chains;
      assert Abs() == Step(was, Action.CancelWorker);
    }

    /** The done callback of consumer task `task`: an old consumer must not reset its successor. */
    method OnConsumerDone(task: nat)
      requires Valid() && (consumerTask == Some(task) ==> progress.Gone?)
      modifies this
      ensures Valid() && chains == old(chains)
      ensures Abs() == if old(consumerTask) == Some(task) then Step(old(Abs()), WorkerDone) else old(Abs())
    {
      hide Inv;
      ghost var was := Abs();
      if consumerTask == Some(task) {
        StepKeepsInv(was, WorkerDone);
        consumerTask, started := None, false;
        assert Tokens() == was.chains;
        assert Abs() == Step(was, WorkerDone);
      }
    }

    /** A consumer that stop() cancelled after it was granted a permit runs and gives it back. */
    method ReapRetired(gen: nat)
      requires Valid() && Enabled(Abs(), Action.ReapRetired(gen))
      modifies this
      ensures Valid() && Abs() == Step(old(Abs()), Action.ReapRetired(gen))
      ensures chains == old(chains)
    {
      hide Inv;
      ghost var was := Abs();
      StepKeepsInv(was, Action.ReapRetired(gen));
      semaphore := CancelGranted(semaphore, Consumer(gen));
      assert Tokens() == was.chains;
      assert Abs() == Step(was, Action.ReapRetired(gen));
    }

    method DeadWaiterRuns()
      requires Valid()
      modifies this
      ensures Valid() && Abs() == Step(old(Abs()), Action.DeadWaiterRuns)
      ensures chains == old(chains)
    {
      hide Inv;
      ghost var was := Abs();
      StepKeepsInv(was, Action.DeadWaiterRuns);
      semaphore := WakeAll(semaphore);
      assert Tokens() == was.chains;
      assert Abs() == Step(was, Action.DeadWaiterRuns);
    }

    /** get() returned an event: capture its handlers at once, or drop it. */
    method Dequeue(resolution: Attempt)
      requires Valid() && Enabled(Abs(), Action.Dequeue(resolution))
      modifies this, pipe
      ensures Valid() && Abs() == Step(old(Abs()), Action.Dequeue(resolution))
      ensures chains == old(chains) && registry == old(registry)
      ensures var e := old(pipe.queue)[0];
              if resolution.Succeeds? then
                && pendingDispatch.Some? && pendingDispatch.value.event == e
                && pendingDispatch.value.handlers == if e.name != "" && e.name in registry then registry[e.name] else []
              else pendingDispatch.None?
    {
      hide Inv;
      ghost var was := Abs();
      SlotIsUnfinished(was);
      var got := pipe.GetNowait();
      var e := got.value;
      if resolution.Succeeds? {
        var handlers := if e.name != "" && e.name in registry then registry[e.name] else [];
        removed := removed + [Taken(Slot(e, handlers))];
        pendingDispatch := Some(Slot(e, handlers));
        assert Tokens() == was.chains;
        assert Abs() == DequeueStep(was, resolution);
      } else {
        Drop(e, resolution);
        assert Tokens() == was.chains;
        assert Abs() == DequeueStep(was, resolution);
      }
      StepKeepsInv(was, Action.Dequeue(resolution));
    }

    /** An event whose handlers could not be resolved is acknowledged at once. */
    method Drop(e: Event, resolution: Attempt)
      requires pipe.unfinished > 0
      modifies this`removed, this`outcomes, this`progress, pipe`unfinished
      ensures pipe.unfinished == old(pipe.unfinished) - 1
      ensures removed == old(removed) + [Unresolved(e)] && outcomes == old(outcomes) + [e]
      ensures progress == if resolution.RaisesBase? then Gone else old(progress)
    {
      var raised := pipe.TaskDone();
      assert !raised;
      removed := removed + [Unresolved(e)];
      outcomes := outcomes + [e];
      if resolution.RaisesBase? {
        progress := Gone;
      }
    }

    /** A new chain owns the consumer's permit, unless preparing its dispatch fails: then the chain
        is closed and the permit returned. */
    method PrepareDispatch(preparation: Attempt) returns (chain: HandlerChainToken)
      requires semaphore.free < semaphore.bound
      modifies this`semaphore
      ensures fresh(chain) && chain.Value() == Chain(preparation.Succeeds?, !preparation.Succeeds?, 0, None)
      ensures semaphore == if preparation.Succeeds? then old(semaphore) else Release(old(semaphore))
    {
      chain := new HandlerChainToken();
      if !preparation.Succeeds? {
        chain.closed := true;
        if chain.held {
          var overflow := ReleasePermit();
          assert !overflow;
          chain.held := false;
        }
      }
    }

    /** The code after acquire() in the consumer: empty the slot and launch the dispatch, or close
        the new chain and give the permit back when preparation fails. */
    method Launch(preparation: Attempt, ghost was: State)
      requires Abs() == was && was.pending.Some? && was.worker != Off && !was.worker.Exited?
      requires was.sem.free < was.sem.bound && was.unfinished > 0
      modifies this, pipe
      ensures Abs() == LaunchStep(was, was.worker.gen, preparation)
      ensures |chains| == |old(chains)| + 1 && chains[..|old(chains)|] == old(chains)
      ensures fresh(chains[|old(chains)|])
      ensures consumerTask == old(consumerTask) && started == old(started)
    {
      hide Inv;
      hide Release;
      EmptySlot(preparation);
      var chain := PrepareDispatch(preparation);
      chains := chains + [chain];
      assert Tokens() == was.chains + [chain.Value()];
    }

    /** The slot's event is acknowledged; an unexpected error also ends the consumer. */
    method EmptySlot(preparation: Attempt)
      requires pendingDispatch.Some? && pipe.unfinished > 0
      modifies this`pendingDispatch, this`progress, this`settled, this`outcomes, pipe`unfinished
      ensures pendingDispatch.None? && pipe.unfinished == old(pipe.unfinished) - 1
      ensures progress == if preparation.RaisesBase? then Gone else Top
      ensures settled == old(settled) + [Settled(old(pendingDispatch).value, preparation.Succeeds?)]
      ensures outcomes == old(outcomes) + [old(pendingDispatch).value.event]
    {
      var slot := pendingDispatch.value;
      pendingDispatch := None;
      progress := if preparation.RaisesBase? then Gone else Top;
      var raised := pipe.TaskDone();
      assert !raised;
      settled := settled + [Settled(slot, preparation.Succeeds?)];
      outcomes := outcomes + [slot.event];
    }

    /** The consumer calls acquire() with its slot filled. */
    method Acquire(preparation: Attempt)
      requires Valid() && Enabled(Abs(), ConsumerAcquire(preparation))
      modifies this, pipe
      ensures Valid() && Abs() == Step(old(Abs()), ConsumerAcquire(preparation))
      ensures |old(chains)| <= |chains| && chains[..|old(chains)|] == old(chains)
      ensures forall i :: |old(chains)| <= i < |chains| ==> fresh(chains[i])
    {
      hide Inv;
      ghost var was := Abs();
      if Locked(semaphore) {
        semaphore := Enqueue(semaphore, Consumer(consumerTask.value));
        progress := Awaiting;
        assert Tokens() == was.chains;
        assert Abs() == ConsumerAcquireStep(was, preparation);
      } else {
        FreePermitsFit(was);
        SlotIsUnfinished(was);
        semaphore := TakeFree(semaphore);
        assert Tokens() == was.chains;
        Launch(preparation, was.(sem := TakeFree(was.sem)));
        assert Abs() == ConsumerAcquireStep(was, preparation);
      }
      StepKeepsInv(was, ConsumerAcquire(preparation));
    }

    /** acquire() returned in the waiting consumer. */
    method Granted(preparation: Attempt)
      requires Valid() && Enabled(Abs(), ConsumerGranted(preparation))
      modifies this, pipe
      ensures Valid() && Abs() == Step(old(Abs()), ConsumerGranted(preparation))
      ensures |old(chains)| <= |chains| && chains[..|old(chains)|] == old(chains)
      ensures forall i :: |old(chains)| <= i < |chains| ==> fresh(chains[i])
    {
      hide Inv;
      ghost var was := Abs();
      AcquiredOneShort(was);
      SlotIsUnfinished(was);
      semaphore := Semaphores.Resume(semaphore, Consumer(consumerTask.value));
      assert Tokens() == was.chains;
      Launch(preparation, was.(sem := Semaphores.Resume(was.sem, Consumer(was.worker.gen))));
      StepKeepsInv(was, ConsumerGranted(preparation));
    }

    /** One step of any kind. */
    method Perform(a: Action)
      requires Valid() && Enabled(Abs(), a)
      modifies this, pipe, chains
      ensures Valid() && Abs() == Step(old(Abs()), a)
      ensures forall i :: 0 <= i < |chains| ==> chains[i] in old(chains) || fresh(chains[i])
    {
      hide Inv;
      hide Step;
      match a
      case Suspend(c) => this.Suspend(c);
      case LeaveBody(b) => this.LeaveBody(b);
      case TakeLock(b) => this.TakeLock(b);
      case CancelAtLock(b) => this.CancelAtLock(b);
      case Reacquire(b) => this.Reacquire(b);
      case CancelReacquire(b) => this.CancelReacquire(b);
      case DispatchDone(c) => OnDispatchDone(c);
      case Put(e) => var full := this.Put(e);
      case Clear => this.Clear();
      case Register(table) => this.Register(table);
      case Start => this.Start();
      case Stop => this.Stop();
      case CancelWorker => this.CancelWorker();
      case WorkerDone => OnConsumerDone(consumerTask.value);
      case ReapRetired(gen) => this.ReapRetired(gen);
      case DeadWaiterRuns => this.DeadWaiterRuns();
      case Dequeue(resolution) => this.Dequeue(resolution);
      case ConsumerAcquire(preparation) => Acquire(preparation);
      case ConsumerGranted(preparation) => Granted(preparation);
    }

    /** Any schedule of steps: the objects end where the protocol says, invariant intact. */
    method RunSchedule(acts: seq<Action>)
      requires Valid() && Runs(Abs(), acts)
      modifies this, pipe, chains
      ensures Valid() && Abs() == After(old(Abs()), acts)
    {
      hide Inv;
      for n := 0 to |acts|
        invariant Valid() && Runs(old(Abs()), acts[..n]) && Abs() == After(old(Abs()), acts[..n])
        invariant forall i :: 0 <= i < |chains| ==> chains[i] in old(chains) || fresh(chains[i])
      {
        RunExtends(old(Abs()), acts, n);
        Perform(acts[n]);
      }
      assert acts[..|acts|] == acts;
    }
  }
}
