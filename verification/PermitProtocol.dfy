/** The event runtime as a state machine: one consumer, a bounded queue, a bounded semaphore and
    the foreground handler chains that lend their permits while they wait.

    One action is the code between two awaits.  Nothing is assumed about who acts next. */
module PermitProtocol {
  import opened Common
  import opened Semaphores

  type Handler = nat

  datatype Event = Event(id: nat, name: string)

  /** A handler chain token; `lock` is the branch that owns resume_lock. */
  datatype Chain = Chain(held: bool, closed: bool, suspended: int, lock: Option<nat>)

  /** Where one `async with suspend_process()` block stands. */
  datatype Phase = Lent | AtLock | Reacquiring | Done
  datatype Branch = Branch(chain: nat, phase: Phase)

  datatype Waiter = Consumer(gen: nat) | Resumer(branch: nat)

  /** The current consumer task; Exited lasts until its done callback has run. */
  datatype Worker = Off | AtTop(gen: nat) | AwaitingPermit(gen: nat) | Exited(gen: nat)

  datatype Slot = Slot(event: Event, handlers: seq<Handler>)

  /** How an event left the queue. */
  datatype Removal = Taken(slot: Slot) | Unresolved(event: Event) | Cleared(event: Event)

  /** What became of an event that the consumer had resolved. */
  datatype Settled = Settled(slot: Slot, launched: bool)

  datatype State = State(
    sem: Semaphore<Waiter>,
    chains: seq<Chain>,
    branches: seq<Branch>,
    worker: Worker,
    gens: nat,
    limit: nat,
    queue: seq<Event>,
    unfinished: int,
    pending: Option<Slot>,
    table: map<string, seq<Handler>>,
    // History: every event that entered the queue, every removal, every settlement.
    entered: seq<Event>,
    removed: seq<Removal>,
    settled: seq<Settled>,
    // Every event that met its end, in the order in which it did.
    outcomes: seq<Event>)

  /** Result of chain resolution or dispatch preparation: an Exception drops the event,
      any other BaseException also ends the consumer. */
  datatype Attempt = Succeeds | Raises | RaisesBase

  datatype Action =
    | Suspend(chain: nat)
    | LeaveBody(branch: nat)
    | TakeLock(branch: nat)
    | CancelAtLock(branch: nat)
    | Reacquire(branch: nat)
    | CancelReacquire(branch: nat)
    | DispatchDone(chain: nat)
    | Put(event: Event)
    | Clear
    | Register(table: map<string, seq<Handler>>)
    | Start
    | Stop
    | CancelWorker
    | WorkerDone
    | ReapRetired(gen: nat)
    | DeadWaiterRuns
    | Dequeue(resolution: Attempt)
    | ConsumerAcquire(preparation: Attempt)
    | ConsumerGranted(preparation: Attempt)

  // --------------------------------------------------------------------------------------------
  // Steps
  // --------------------------------------------------------------------------------------------

  function Resolve(table: map<string, seq<Handler>>, e: Event): seq<Handler> {
    if e.name == "" || e.name !in table then [] else table[e.name]
  }

  /** Entering suspend_process: a closed chain is left alone, a holder lends its permit. */
  function SuspendStep(s: State, c: nat): State
    requires c < |s.chains|
  {
    var chain := s.chains[c];
    if chain.closed then s
    else
      s.(chains := s.chains[c := chain.(suspended := chain.suspended + 1, held := false)],
         branches := s.branches + [Branch(c, Lent)],
         sem := if chain.held then Release(s.sem) else s.sem)
  }

  /** Leaving the body, normally or not: only the last branch goes on to resume_lock. */
  function LeaveBodyStep(s: State, b: nat): State
    requires b < |s.branches| && s.branches[b].chain < |s.chains|
  {
    var c := s.branches[b].chain;
    var chain := s.chains[c].(suspended := s.chains[c].suspended - 1);
    s.(chains := s.chains[c := chain],
       branches := s.branches[b := Branch(c, if chain.suspended == 0 then AtLock else Done)])
  }

  predicate NeedsPermit(chain: Chain) {
    !chain.closed && !chain.held && chain.suspended == 0
  }

  /** resume_lock is obtained: check, then acquire at once or join the semaphore's queue. */
  function TakeLockStep(s: State, b: nat): State
    requires b < |s.branches| && s.branches[b].chain < |s.chains|
  {
    var c := s.branches[b].chain;
    if !NeedsPermit(s.chains[c]) then
      s.(branches := s.branches[b := Branch(c, Done)])
    else if !Locked(s.sem) then
      s.(branches := s.branches[b := Branch(c, Done)],
         chains := s.chains[c := s.chains[c].(held := true)],
         sem := TakeFree(s.sem))
    else
      s.(branches := s.branches[b := Branch(c, Reacquiring)],
         chains := s.chains[c := s.chains[c].(lock := Some(b))],
         sem := Enqueue(s.sem, Resumer(b)))
  }

  /** acquire returned: keep the permit unless the chain closed or suspended again meanwhile. */
  function ReacquireStep(s: State, b: nat): State
    requires b < |s.branches| && s.branches[b].chain < |s.chains|
  {
    var c := s.branches[b].chain;
    var chain := s.chains[c];
    var sem := Resume(s.sem, Resumer(b));
    var surplus := chain.closed || chain.suspended != 0;
    s.(branches := s.branches[b := Branch(c, Done)],
       chains := s.chains[c := chain.(held := !surplus, lock := None)],
       sem := if surplus then Release(sem) else sem)
  }

  function Withdraw(sem: Semaphore<Waiter>, w: Waiter): Semaphore<Waiter> {
    if w in sem.granted then CancelGranted(sem, w) else CancelWaiting(sem, w)
  }

  function CancelReacquireStep(s: State, b: nat): State
    requires b < |s.branches| && s.branches[b].chain < |s.chains|
  {
    var c := s.branches[b].chain;
    s.(branches := s.branches[b := Branch(c, Done)],
       chains := s.chains[c := s.chains[c].(lock := None)],
       sem := Withdraw(s.sem, Resumer(b)))
  }

  function DispatchDoneStep(s: State, c: nat): State
    requires c < |s.chains|
  {
    var chain := s.chains[c];
    s.(chains := s.chains[c := chain.(closed := true, held := false)],
       sem := if chain.held then Release(s.sem) else s.sem)
  }

  function ClearedAll(q: seq<Event>): (r: seq<Removal>)
    ensures |r| == |q|
  {
    if q == [] then [] else ClearedAll(q[..|q| - 1]) + [Cleared(q[|q| - 1])]
  }

  function ClearStep(s: State): State {
    s.(queue := [], unfinished := s.unfinished - |s.queue|, removed := s.removed + ClearedAll(s.queue),
       outcomes := s.outcomes + s.queue)
  }

  /** stop(): the cancelled consumer leaves the queue of waiters; if it was already granted a
      permit it keeps it until it runs (ReapRetired). */
  function StopStep(s: State): State {
    s.(worker := Off,
       sem := if s.worker.AwaitingPermit? && Consumer(s.worker.gen) !in s.sem.granted
              then CancelWaiting(s.sem, Consumer(s.worker.gen)) else s.sem)
  }

  function DequeueStep(s: State, resolution: Attempt): State
    requires s.worker.AtTop? && s.queue != []
  {
    var e := s.queue[0];
    if resolution.Succeeds? then
      var slot := Slot(e, Resolve(s.table, e));
      s.(queue := s.queue[1..], removed := s.removed + [Taken(slot)], pending := Some(slot))
    else
      s.(queue := s.queue[1..], removed := s.removed + [Unresolved(e)], unfinished := s.unfinished - 1,
         outcomes := s.outcomes + [e],
         worker := if resolution.RaisesBase? then Exited(s.worker.gen) else s.worker)
  }

  /** The consumer owns a permit: it empties the slot and launches the dispatch, or gives the
      permit back when preparation fails. */
  function LaunchStep(s: State, gen: nat, preparation: Attempt): State
    requires s.pending.Some?
  {
    var ok := preparation.Succeeds?;
    s.(pending := None,
       unfinished := s.unfinished - 1,
       settled := s.settled + [Settled(s.pending.value, ok)],
       outcomes := s.outcomes + [s.pending.value.event],
       chains := s.chains + [Chain(ok, !ok, 0, None)],
       sem := if ok then s.sem else Release(s.sem),
       worker := if preparation.RaisesBase? then Exited(gen) else AtTop(gen))
  }

  function ConsumerAcquireStep(s: State, preparation: Attempt): State
    requires s.worker.AtTop? && s.pending.Some?
  {
    if Locked(s.sem) then
      s.(worker := AwaitingPermit(s.worker.gen), sem := Enqueue(s.sem, Consumer(s.worker.gen)))
    else
      LaunchStep(s.(sem := TakeFree(s.sem)), s.worker.gen, preparation)
  }

  predicate Enabled(s: State, a: Action) {
    match a
    case Suspend(c) => c < |s.chains|
    case LeaveBody(b) => b < |s.branches| && s.branches[b].phase.Lent? && s.branches[b].chain < |s.chains|
    case TakeLock(b) =>
      b < |s.branches| && s.branches[b].phase.AtLock? && s.branches[b].chain < |s.chains|
      && s.chains[s.branches[b].chain].lock.None?
    case CancelAtLock(b) => b < |s.branches| && s.branches[b].phase.AtLock?
    case Reacquire(b) => b < |s.branches| && s.branches[b].chain < |s.chains| && Resumer(b) in s.sem.granted
    case CancelReacquire(b) =>
      b < |s.branches| && s.branches[b].phase.Reacquiring? && s.branches[b].chain < |s.chains|
    case DispatchDone(c) => c < |s.chains| && !s.chains[c].closed
    case Put(e) => |s.queue| < s.limit
    case Clear => true
    case Register(t) => true
    case Start => true
    case Stop => true
    case CancelWorker => s.worker.AtTop? || s.worker.AwaitingPermit?
    case WorkerDone => s.worker.Exited?
    case ReapRetired(g) => Consumer(g) in s.sem.granted && s.worker != AwaitingPermit(g)
    case DeadWaiterRuns => true
    case Dequeue(r) => s.worker.AtTop? && s.pending.None? && s.queue != []
    case ConsumerAcquire(p) => s.worker.AtTop? && s.pending.Some?
    case ConsumerGranted(p) =>
      s.worker.AwaitingPermit? && s.pending.Some? && Consumer(s.worker.gen) in s.sem.granted
  }

  function Step(s: State, a: Action): State
    requires Enabled(s, a)
  {
    match a
    case Suspend(c) => SuspendStep(s, c)
    case LeaveBody(b) => LeaveBodyStep(s, b)
    case TakeLock(b) => TakeLockStep(s, b)
    case CancelAtLock(b) => s.(branches := s.branches[b := Branch(s.branches[b].chain, Done)])
    case Reacquire(b) => ReacquireStep(s, b)
    case CancelReacquire(b) => CancelReacquireStep(s, b)
    case DispatchDone(c) => DispatchDoneStep(s, c)
    case Put(e) => s.(queue := s.queue + [e], unfinished := s.unfinished + 1, entered := s.entered + [e])
    case Clear => ClearStep(s)
    case Register(t) => s.(table := t)
    case Start => if s.worker.Off? then s.(worker := AtTop(s.gens), gens := s.gens + 1) else s
    case Stop => StopStep(s)
    case CancelWorker =>
      s.(worker := Exited(s.worker.gen),
         sem := if s.worker.AwaitingPermit? then Withdraw(s.sem, Consumer(s.worker.gen)) else s.sem)
    case WorkerDone => s.(worker := Off)
    case ReapRetired(g) => s.(sem := CancelGranted(s.sem, Consumer(g)))
    case DeadWaiterRuns => s.(sem := WakeAll(s.sem))
    case Dequeue(r) => DequeueStep(s, r)
    case ConsumerAcquire(p) => ConsumerAcquireStep(s, p)
    case ConsumerGranted(p) =>
      LaunchStep(s.(sem := Resume(s.sem, Consumer(s.worker.gen))), s.worker.gen, p)
  }

  function Initial(capacity: nat, limit: nat): State {
    State(Semaphore(capacity, capacity, [], {}), [], [], Off, 0, limit, [], 0, None, map[], [], [], [], [])
  }

  // --------------------------------------------------------------------------------------------
  // The invariant
  // --------------------------------------------------------------------------------------------

  predicate IsHeld(c: Chain) {
    c.held
  }

  function LentBy(c: nat): Branch -> bool {
    (b: Branch) => b.chain == c && b.phase.Lent?
  }

  /** Free permits, permits held by chains and permits granted to a waiter that has not run yet
      add up to the capacity. */
  ghost predicate Conserved(s: State) {
    Permits(s.sem) + Count(s.chains, IsHeld) == s.sem.bound
  }

  ghost predicate ChainOk(chains: seq<Chain>, branches: seq<Branch>, c: nat)
    requires c < |chains|
  {
    var chain := chains[c];
    && chain.suspended == Count(branches, LentBy(c))
    && (chain.held ==> !chain.closed && chain.suspended == 0 && chain.lock.None?)
    && (chain.lock.Some? ==>
          chain.lock.value < |branches| && branches[chain.lock.value] == Branch(c, Reacquiring))
  }

  ghost predicate BranchOk(chains: seq<Chain>, branches: seq<Branch>, b: nat)
    requires b < |branches|
  {
    && branches[b].chain < |chains|
    && (branches[b].phase.Reacquiring? ==> chains[branches[b].chain].lock == Some(b))
  }

  ghost predicate ChainsOk(s: State) {
    && (forall c :: 0 <= c < |s.chains| ==> ChainOk(s.chains, s.branches, c))
    && (forall b :: 0 <= b < |s.branches| ==> BranchOk(s.chains, s.branches, b))
  }

  /** Who may stand in the semaphore's queue or hold a grant. */
  ghost predicate WaitersOk(s: State) {
    && (forall b: nat :: InPool(s.sem, Resumer(b)) <==> b < |s.branches| && s.branches[b].phase.Reacquiring?)
    && (forall g: nat :: Consumer(g) in s.sem.waiting ==> s.worker == AwaitingPermit(g))
    && (forall g: nat :: InPool(s.sem, Consumer(g)) ==> g < s.gens)
  }

  ghost predicate WorkerOk(s: State) {
    match s.worker
    case Off => true
    case AtTop(g) => g < s.gens && !InPool(s.sem, Consumer(g))
    case AwaitingPermit(g) => g < s.gens && InPool(s.sem, Consumer(g)) && s.pending.Some?
    case Exited(g) => g < s.gens && !InPool(s.sem, Consumer(g))
  }

  function EventOf(r: Removal): Event {
    match r
    case Taken(slot) => slot.event
    case Unresolved(e) => e
    case Cleared(e) => e
  }

  function EventsOf(rs: seq<Removal>): (r: seq<Event>)
    ensures |r| == |rs|
  {
    if rs == [] then [] else EventsOf(rs[..|rs| - 1]) + [EventOf(rs[|rs| - 1])]
  }

  function SlotsTaken(rs: seq<Removal>): seq<Slot> {
    if rs == [] then []
    else
      var last := rs[|rs| - 1];
      SlotsTaken(rs[..|rs| - 1]) + if last.Taken? then [last.slot] else []
  }

  function SlotsSettled(ss: seq<Settled>): (r: seq<Slot>)
    ensures |r| == |ss|
  {
    if ss == [] then [] else SlotsSettled(ss[..|ss| - 1]) + [ss[|ss| - 1].slot]
  }

  function PendingSlots(s: State): seq<Slot> {
    if s.pending.Some? then [s.pending.value] else []
  }

  /** Nothing is lost, duplicated or reordered between the queue's entrance and the dispatches. */
  ghost predicate QueueOk(s: State) {
    && |s.queue| <= s.limit
    && s.unfinished == |s.queue| + |PendingSlots(s)|
    && s.entered == EventsOf(s.removed) + s.queue
    && SlotsTaken(s.removed) == SlotsSettled(s.settled) + PendingSlots(s)
  }

  ghost predicate Inv(s: State) {
    && WellFormed(s.sem)
    && Conserved(s)
    && ChainsOk(s)
    && WaitersOk(s)
    && WorkerOk(s)
    && QueueOk(s)
  }
}
