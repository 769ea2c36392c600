/** What the runtime guarantees over whole runs: conservation, token safety, exactly-once FIFO and
    freedom from backpressure deadlock. */
module PermitTheorems {
  import opened Common
  import opened Semaphores
  import opened PermitProtocol
  import opened PermitInvariant

  // --------------------------------------------------------------------------------------------
  // Runs
  // --------------------------------------------------------------------------------------------

  ghost predicate Runs(s: State, acts: seq<Action>)
    decreases |acts|
  {
    acts == [] || (Enabled(s, acts[0]) && Runs(Step(s, acts[0]), acts[1..]))
  }

  ghost function After(s: State, acts: seq<Action>): State
    requires Runs(s, acts)
    decreases |acts|
  {
    if acts == [] then s else After(Step(s, acts[0]), acts[1..])
  }

  lemma {:induction false} RunKeepsInv(s: State, acts: seq<Action>)
    requires Inv(s) && Runs(s, acts)
    ensures Inv(After(s, acts))
    decreases |acts|
  {
    if acts != [] {
      StepKeepsInv(s, acts[0]);
      RunKeepsInv(Step(s, acts[0]), acts[1..]);
    }
  }

  lemma {:induction false} RunSplits(s: State, acts: seq<Action>, n: nat)
    requires Runs(s, acts) && n <= |acts|
    ensures Runs(s, acts[..n]) && Runs(After(s, acts[..n]), acts[n..])
    ensures After(After(s, acts[..n]), acts[n..]) == After(s, acts)
    decreases n
  {
    if n == 0 {
      assert acts[..0] == [] && acts[0..] == acts;
    } else {
      RunSplits(Step(s, acts[0]), acts[1..], n - 1);
      assert acts[..n][1..] == acts[1..][..n - 1];
      assert acts[n..] == acts[1..][n - 1..];
    }
  }

  // --------------------------------------------------------------------------------------------
  // Permits
  // --------------------------------------------------------------------------------------------

  lemma StepKeepsCapacity(s: State, a: Action)
    requires Inv(s) && Enabled(s, a)
    ensures Step(s, a).sem.bound == s.sem.bound
  {
    hide Inv;
    hide WakeAll;
    hide WakeNext;
    match a
    case Suspend(c) => ReleaseBound(s.sem);
    case DispatchDone(c) => ReleaseBound(s.sem);
    case Reacquire(b) =>
      ResumeBound(s.sem, Resumer(b));
      ReleaseBound(Resume(s.sem, Resumer(b)));
    case CancelReacquire(b) => ResumeBound(s.sem, Resumer(b));
    case CancelWorker => ResumeBound(s.sem, Consumer(s.worker.gen));
    case ReapRetired(g) => ResumeBound(s.sem, Consumer(g));
    case DeadWaiterRuns => WakeAllLeaves(s.sem);
    case ConsumerAcquire(p) =>
      if !Locked(s.sem) {
        ReleaseBound(TakeFree(s.sem));
      }
    case ConsumerGranted(p) =>
      ResumeBound(s.sem, Consumer(s.worker.gen));
      ReleaseBound(Resume(s.sem, Consumer(s.worker.gen)));
    case _ =>
  }

  lemma ReleaseBound(sem: Semaphore<Waiter>)
    ensures Release(sem).bound == sem.bound
  {
  }

  lemma ResumeBound(sem: Semaphore<Waiter>, w: Waiter)
    ensures Resume(sem, w).bound == sem.bound && CancelGranted(sem, w).bound == sem.bound
  {
    WakeAllLeaves(sem.(granted := sem.granted - {w}));
    WakeAllLeaves(sem.(granted := sem.granted - {w}, free := sem.free + 1));
  }

  lemma {:induction false} RunKeepsCapacity(s: State, acts: seq<Action>)
    requires Inv(s) && Runs(s, acts)
    ensures After(s, acts).sem.bound == s.sem.bound
    decreases |acts|
  {
    if acts != [] {
      StepKeepsCapacity(s, acts[0]);
      StepKeepsInv(s, acts[0]);
      RunKeepsCapacity(Step(s, acts[0]), acts[1..]);
    }
  }

  /** Over every run: free + granted-but-not-run + held == capacity, so at most `capacity` chains
      hold a permit. */
  lemma PermitConservation(capacity: nat, limit: nat, acts: seq<Action>)
    requires Runs(Initial(capacity, limit), acts)
    ensures var s := After(Initial(capacity, limit), acts);
            && s.sem.free + |s.sem.granted| + Count(s.chains, IsHeld) == capacity
            && Count(s.chains, IsHeld) <= capacity
  {
    InitialInv(capacity, limit);
    RunKeepsInv(Initial(capacity, limit), acts);
    RunKeepsCapacity(Initial(capacity, limit), acts);
  }

  /** The semaphore on which a step calls release(), if it does. */
  function ReleasedOn(s: State, a: Action): Option<Semaphore<Waiter>>
    requires Enabled(s, a)
  {
    match a
    case Suspend(c) => if !s.chains[c].closed && s.chains[c].held then Some(s.sem) else None
    case DispatchDone(c) => if s.chains[c].held then Some(s.sem) else None
    case Reacquire(b) =>
      var chain := s.chains[s.branches[b].chain];
      if chain.closed || chain.suspended != 0 then Some(Resume(s.sem, Resumer(b))) else None
    case ConsumerAcquire(p) => if !Locked(s.sem) && !p.Succeeds? then Some(TakeFree(s.sem)) else None
    case ConsumerGranted(p) =>
      if !p.Succeeds? then Some(Resume(s.sem, Consumer(s.worker.gen))) else None
    case _ => None
  }

  /** BoundedSemaphore.release raises when its value is already the bound: it never is. */
  lemma ReleaseNeverOverflows(s: State, a: Action)
    requires Inv(s) && Enabled(s, a) && ReleasedOn(s, a).Some?
    ensures ReleasedOn(s, a).value.free < s.sem.bound
  {
    match a
    case Suspend(c) => CountPositive(s.chains, c, IsHeld);
    case DispatchDone(c) => CountPositive(s.chains, c, IsHeld);
    case Reacquire(b) => ResumeKeeps(s.sem, Resumer(b));
    case ConsumerAcquire(p) =>
    case ConsumerGranted(p) => ResumeKeeps(s.sem, Consumer(s.worker.gen));
  }

  // --------------------------------------------------------------------------------------------
  // Chain tokens
  // --------------------------------------------------------------------------------------------

  /** A chain that holds a permit is open and has no suspension outstanding. */
  lemma HeldMeansActive(s: State, c: nat)
    requires Inv(s) && c < |s.chains| && s.chains[c].held
    ensures !s.chains[c].closed && s.chains[c].suspended == 0
    ensures forall b :: 0 <= b < |s.branches| && s.branches[b].chain == c ==> !s.branches[b].phase.Lent?
  {
    assert ChainOk(s.chains, s.branches, c);
    forall b | 0 <= b < |s.branches| && s.branches[b].chain == c
      ensures !s.branches[b].phase.Lent?
    {
      if s.branches[b].phase.Lent? {
        CountPositive(s.branches, b, LentBy(c));
      }
    }
  }

  lemma ClosedStep(s: State, a: Action, c: nat)
    requires Inv(s) && Enabled(s, a) && c < |s.chains| && s.chains[c].closed
    ensures c < |Step(s, a).chains| && Step(s, a).chains[c].closed && !Step(s, a).chains[c].held
  {
    assert ChainOk(s.chains, s.branches, c);
  }

  /** Once its dispatch ended a chain stays closed and never owns a permit again, whatever its late
      child tasks do. */
  lemma {:induction false} ClosedForever(s: State, acts: seq<Action>, c: nat)
    requires Inv(s) && Runs(s, acts) && c < |s.chains| && s.chains[c].closed
    ensures c < |After(s, acts).chains| && After(s, acts).chains[c].closed && !After(s, acts).chains[c].held
    decreases |acts|
  {
    assert ChainOk(s.chains, s.branches, c);
    if acts != [] {
      ClosedStep(s, acts[0], c);
      StepKeepsInv(s, acts[0]);
      ClosedForever(Step(s, acts[0]), acts[1..], c);
    }
  }

  /** When every chain has closed and no granted waiter is in flight, every permit is back. */
  lemma Quiescence(s: State)
    requires Inv(s) && s.sem.granted == {}
    requires forall c :: 0 <= c < |s.chains| ==> s.chains[c].closed
    ensures s.sem.free == s.sem.bound
  {
    forall c | 0 <= c < |s.chains|
      ensures !IsHeld(s.chains[c])
    {
      assert ChainOk(s.chains, s.branches, c);
    }
    CountZero(s.chains, IsHeld);
  }

  /** The step by which branch b gets past suspend_process without being cancelled there. */
  predicate Resumes(s: State, a: Action, b: nat)
    requires Enabled(s, a)
  {
    && (a == LeaveBody(b) || a == TakeLock(b) || a == Reacquire(b))
    && Step(s, a).branches[b].phase.Done?
  }

  /** Code after suspend_process does not always own a permit.  Exactly: its chain holds one if and
      only if the dispatch is still open and no other branch is suspended. */
  lemma ResumedWithPermitIff(s: State, a: Action, b: nat)
    requires Inv(s) && Enabled(s, a) && Resumes(s, a, b)
    ensures var t := Step(s, a); var chain := t.chains[t.branches[b].chain];
            chain.held <==> !chain.closed && chain.suspended == 0
  {
    hide Conserved;
    hide Count;
    hide WakeAll;
    hide WaitersOk;
    hide WorkerOk;
    hide QueueOk;
    hide WellFormed;
    var c := s.branches[b].chain;
    assert BranchOk(s.chains, s.branches, b) && ChainOk(s.chains, s.branches, c);
    StepKeepsInv(s, a);
    assert ChainOk(Step(s, a).chains, Step(s, a).branches, c);
  }

  /** A cancelled reacquisition leaves its chain without a permit. */
  lemma CancelledReacquireLacksPermit(s: State, b: nat)
    requires Inv(s) && Enabled(s, CancelReacquire(b))
    ensures !Step(s, CancelReacquire(b)).chains[s.branches[b].chain].held
  {
    assert BranchOk(s.chains, s.branches, b) && ChainOk(s.chains, s.branches, s.branches[b].chain);
  }

  // --------------------------------------------------------------------------------------------
  // Exactly-once FIFO
  // --------------------------------------------------------------------------------------------

  /** Over every run, stops and restarts included: the events that left the queue followed by those
      still in it are the events that entered it, in order; the slots the consumer filled are the
      settled ones followed by the pending one; the unfinished count covers queue and slot. */
  lemma ExactlyOnceFifo(capacity: nat, limit: nat, acts: seq<Action>)
    requires Runs(Initial(capacity, limit), acts)
    ensures var s := After(Initial(capacity, limit), acts);
            && s.entered == EventsOf(s.removed) + s.queue
            && SlotsTaken(s.removed) == SlotsSettled(s.settled) + PendingSlots(s)
            && s.unfinished == |s.queue| + |PendingSlots(s)|
            && |s.queue| <= limit
  {
    InitialInv(capacity, limit);
    RunKeepsInv(Initial(capacity, limit), acts);
    RunKeepsLimit(Initial(capacity, limit), acts);
  }

  lemma {:induction false} RunKeepsLimit(s: State, acts: seq<Action>)
    requires Runs(s, acts)
    ensures After(s, acts).limit == s.limit
    decreases |acts|
  {
    if acts != [] {
      RunKeepsLimit(Step(s, acts[0]), acts[1..]);
    }
  }

  /** The slot of event e with the handlers that a registry lists under its name; an event without a
      name, or with one that is not listed, has none. */
  predicate Captured(table: map<string, seq<Handler>>, e: Event, slot: Slot) {
    slot.event == e && slot.handlers == if e.name != "" && e.name in table then table[e.name] else []
  }

  ghost predicate DequeuedAt(s: State, acts: seq<Action>, n: nat, slot: Slot)
    requires Runs(s, acts) && n < |acts|
  {
    RunSplits(s, acts, n);
    var at := After(s, acts[..n]);
    acts[n] == Dequeue(Succeeds) && at.queue != [] && Captured(at.table, at.queue[0], slot)
  }

  /** Every slot taken during a run carries the handlers that the registry listed when that event
      was dequeued, whatever is registered before or after. */
  lemma {:induction false} HandlersCapturedAtDequeue(s: State, acts: seq<Action>, slot: Slot)
    requires Runs(s, acts)
    requires Taken(slot) in After(s, acts).removed && Taken(slot) !in s.removed
    ensures exists n: nat :: n < |acts| && DequeuedAt(s, acts, n, slot)
    decreases |acts|
  {
    assert acts != [];
    var t := Step(s, acts[0]);
    if Taken(slot) in t.removed {
      TakenByDequeue(s, acts[0], slot);
      assert acts[..0] == [];
      assert DequeuedAt(s, acts, 0, slot);
    } else {
      HandlersCapturedAtDequeue(t, acts[1..], slot);
      var n: nat :| n < |acts[1..]| && DequeuedAt(t, acts[1..], n, slot);
      RunSplits(t, acts[1..], n);
      RunSplits(s, acts, n + 1);
      assert acts[..n + 1][1..] == acts[1..][..n];
      assert DequeuedAt(s, acts, n + 1, slot);
    }
  }

  /** The registry in force is the one registered last. */
  lemma {:induction false} LastRegistered(s: State, acts: seq<Action>)
    requires Runs(s, acts)
    ensures (forall i :: 0 <= i < |acts| ==> !acts[i].Register?) ==> After(s, acts).table == s.table
    ensures forall i :: 0 <= i < |acts| && acts[i].Register? && (forall j :: i < j < |acts| ==> !acts[j].Register?) ==>
              After(s, acts).table == acts[i].table
    decreases |acts|
  {
    if acts != [] {
      var t, rest := Step(s, acts[0]), acts[1..];
      LastRegistered(t, rest);
      TableKept(s, acts[0]);
      assert forall i :: 0 <= i < |rest| ==> rest[i] == acts[i + 1];
      forall i | 0 <= i < |acts| && acts[i].Register? && (forall j :: i < j < |acts| ==> !acts[j].Register?)
        ensures After(s, acts).table == acts[i].table
      {
        if i > 0 {
          assert rest[i - 1] == acts[i];
        }
      }
    }
  }

  lemma TableKept(s: State, a: Action)
    requires Enabled(s, a)
    ensures Step(s, a).table == if a.Register? then a.table else s.table
  {
    hide Withdraw;
    hide WakeAll;
    hide Release;
  }

  lemma TakenByDequeue(s: State, a: Action, slot: Slot)
    requires Enabled(s, a) && Taken(slot) in Step(s, a).removed && Taken(slot) !in s.removed
    ensures a == Dequeue(Succeeds) && Captured(s.table, s.queue[0], slot)
  {
    if a == Clear {
      ClearedOnly(s.queue, slot);
    }
  }

  lemma {:induction false} ClearedOnly(q: seq<Event>, slot: Slot)
    ensures Taken(slot) !in ClearedAll(q)
  {
    if q != [] {
      ClearedOnly(q[..|q| - 1], slot);
    }
  }

  // --------------------------------------------------------------------------------------------
  // No backpressure deadlock
  // --------------------------------------------------------------------------------------------

  predicate IsAtLock(b: Branch) {
    b.phase.AtLock?
  }

  /** Steps the runtime takes by itself, with no help from any handler. */
  predicate RuntimeStep(s: State, a: Action) {
    Enabled(s, a) &&
    match a
    case TakeLock(_) => true
    case Reacquire(_) => true
    case ReapRetired(_) => true
    case DeadWaiterRuns => WakeAll(s.sem) != s.sem
    case Dequeue(r) => r.Succeeds?
    case ConsumerAcquire(p) => p.Succeeds?
    case ConsumerGranted(p) => p.Succeeds?
    case _ => false
  }

  predicate Launches(s: State, a: Action) {
    a == ConsumerGranted(Succeeds) || (a == ConsumerAcquire(Succeeds) && !Locked(s.sem))
  }

  /** A run of runtime steps none of which launches a dispatch. */
  ghost predicate IdleRun(s: State, acts: seq<Action>)
    decreases |acts|
  {
    acts == [] ||
    (RuntimeStep(s, acts[0]) && !Launches(s, acts[0]) && IdleRun(Step(s, acts[0]), acts[1..]))
  }

  lemma {:induction false} IdleRunsAreRuns(s: State, acts: seq<Action>)
    requires IdleRun(s, acts)
    ensures Runs(s, acts)
    decreases |acts|
  {
    if acts != [] {
      IdleRunsAreRuns(Step(s, acts[0]), acts[1..]);
    }
  }

  function Rank(s: State): nat {
    3 * Count(s.branches, IsAtLock) + 2 * |s.sem.waiting| + |s.sem.granted|
    + match s.worker
      case AtTop(_) => if s.pending.Some? then 3 else 4
      case _ => 0
  }

  lemma {:induction false} WakeAllChanges<W>(s: Semaphore<W>)
    ensures WakeAll(s) == s || |WakeAll(s).waiting| < |s.waiting|
    decreases |s.waiting|
  {
    if s.free > 0 && s.waiting != [] {
      WakeAllChanges(WakeNext(s));
    }
  }

  lemma TakeLockRank(s: State, b: nat)
    requires Enabled(s, TakeLock(b))
    ensures Rank(TakeLockStep(s, b)) < Rank(s)
  {
    CountUpdate(s.branches, b, TakeLockStep(s, b).branches[b], IsAtLock);
  }

  lemma ReacquireRank(s: State, b: nat)
    requires Inv(s) && Enabled(s, Reacquire(b))
    ensures Rank(ReacquireStep(s, b)) < Rank(s)
  {
    assert WellFormed(s.sem) && Resumer(b) in s.sem.granted;
    hide Inv;
    hide WakeAll;
    CountUpdate(s.branches, b, ReacquireStep(s, b).branches[b], IsAtLock);
    var sem := Resume(s.sem, Resumer(b));
    ResumeKeeps(s.sem, Resumer(b));
    ReleaseKeeps(sem);
    hide WellFormed;
    hide Resume;
    hide Release;
    assert 2 * |Release(sem).waiting| + |Release(sem).granted| <= 2 * |sem.waiting| + |sem.granted|;
  }

  /** Each runtime step that launches nothing uses up a bounded resource. */
  lemma RankDecreases(s: State, a: Action)
    requires Inv(s) && RuntimeStep(s, a) && !Launches(s, a)
    ensures Rank(Step(s, a)) < Rank(s)
  {
    hide Conserved;
    hide ChainsOk;
    hide QueueOk;
    hide Count;
    hide WakeAll;
    match a
    case TakeLock(b) => TakeLockRank(s, b);
    case Reacquire(b) => ReacquireRank(s, b);
    case ReapRetired(g) => ReapRank(s, g);
    case DeadWaiterRuns => WakeRank(s);
    case Dequeue(r) =>
    case ConsumerAcquire(p) =>
  }

  lemma ReapRank(s: State, g: nat)
    requires WellFormed(s.sem) && Enabled(s, ReapRetired(g))
    ensures Rank(Step(s, ReapRetired(g))) < Rank(s)
  {
    CancelGrantedKeeps(s.sem, Consumer(g));
    hide CancelGranted;
    hide Count;
    hide WellFormed;
  }

  lemma WakeRank(s: State)
    requires WellFormed(s.sem) && WakeAll(s.sem) != s.sem
    ensures Rank(Step(s, DeadWaiterRuns)) < Rank(s)
  {
    WakeAllKeeps(s.sem);
    WakeAllChanges(s.sem);
    hide WakeAll;
    hide Count;
    hide WellFormed;
  }

  lemma {:induction false} IdleRunsAreBounded(s: State, acts: seq<Action>)
    requires Inv(s) && IdleRun(s, acts)
    ensures |acts| <= Rank(s)
    decreases |acts|
  {
    if acts != [] {
      RankDecreases(s, acts[0]);
      StepKeepsInv(s, acts[0]);
      IdleRunsAreBounded(Step(s, acts[0]), acts[1..]);
    }
  }

  /** A live consumer with an event to process. */
  predicate HasWork(s: State) {
    (s.worker.AtTop? || s.worker.AwaitingPermit?) && (s.queue != [] || s.pending.Some?)
  }

  lemma GrantedMember(s: State) returns (w: Waiter)
    requires s.sem.granted != {}
    ensures w in s.sem.granted
  {
    w :| w in s.sem.granted;
  }

  /** While no chain holds a permit, a runtime step is possible. */
  lemma RuntimeNeverStuck(s: State)
    requires Inv(s) && s.sem.bound > 0 && HasWork(s)
    requires forall c :: 0 <= c < |s.chains| ==> !s.chains[c].held
    ensures exists a :: RuntimeStep(s, a)
  {
    CountZero(s.chains, IsHeld);
    if s.sem.granted != {} {
      var w := GrantedMember(s);
      assert InPool(s.sem, w);
      match w
      case Consumer(g) =>
        if s.worker == AwaitingPermit(g) {
          assert RuntimeStep(s, ConsumerGranted(Succeeds));
        } else {
          assert RuntimeStep(s, ReapRetired(g));
        }
      case Resumer(b) =>
        assert BranchOk(s.chains, s.branches, b);
        assert RuntimeStep(s, Reacquire(b));
    } else if s.pending.Some? {
      assert RuntimeStep(s, ConsumerAcquire(Succeeds));
    } else {
      assert RuntimeStep(s, Dequeue(Succeeds));
    }
  }

  ghost predicate AllLent(s: State) {
    forall c :: 0 <= c < |s.chains| ==> s.chains[c].closed || s.chains[c].suspended > 0
  }

  lemma {:induction false} IdleRunKeepsWork(s: State, acts: seq<Action>)
    requires Inv(s) && HasWork(s) && AllLent(s) && IdleRun(s, acts)
    ensures Runs(s, acts) && Inv(After(s, acts)) && HasWork(After(s, acts)) && AllLent(After(s, acts))
    ensures After(s, acts).sem.bound == s.sem.bound
    decreases |acts|
  {
    if acts != [] {
      StepKeepsInv(s, acts[0]);
      StepKeepsCapacity(s, acts[0]);
      IdleRunKeepsWork(Step(s, acts[0]), acts[1..]);
    }
  }

  /** Handlers that suspended, for instance to post into a full queue, cannot block the consumer:
      the runtime's own steps can always continue until a dispatch is launched, and every schedule
      of them launches one within Rank(s) + 1 steps. */
  lemma NoBackpressureDeadlock(s: State, acts: seq<Action>)
    requires Inv(s) && s.sem.bound > 0 && HasWork(s) && AllLent(s) && IdleRun(s, acts)
    ensures |acts| <= Rank(s)
    ensures Runs(s, acts) && exists a :: RuntimeStep(After(s, acts), a)
  {
    IdleRunsAreBounded(s, acts);
    IdleRunKeepsWork(s, acts);
    var t := After(s, acts);
    forall c | 0 <= c < |t.chains|
      ensures !t.chains[c].held
    {
      assert ChainOk(t.chains, t.branches, c);
    }
    RuntimeNeverStuck(t);
  }
}
