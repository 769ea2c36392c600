/** In which order events meet their end, and two runs that show what the code does not guarantee. */
module PermitOutcomes {
  import opened Common
  import opened Semaphores
  import opened PermitProtocol
  import opened PermitInvariant
  import opened PermitTheorems

  function PendingEvents(s: State): seq<Event> {
    if s.pending.Some? then [s.pending.value.event] else []
  }

  // --------------------------------------------------------------------------------------------
  // Each event ends once
  // --------------------------------------------------------------------------------------------

  ghost predicate Accounted(s: State) {
    multiset(s.entered) == multiset(s.outcomes) + multiset(PendingEvents(s)) + multiset(s.queue)
  }

  /** Whether a step moves an event. */
  predicate MovesEvents(s: State, a: Action) {
    a.Put? || a.Clear? || a.Dequeue? || (a.ConsumerAcquire? && !Locked(s.sem)) || a.ConsumerGranted?
  }

  lemma EventsStay(s: State, a: Action)
    requires Enabled(s, a) && !MovesEvents(s, a)
    ensures var t := Step(s, a);
            && t.entered == s.entered && t.outcomes == s.outcomes && t.pending == s.pending && t.queue == s.queue
            && PendingEvents(t) == PendingEvents(s)
  {
    hide Withdraw;
    hide WakeAll;
    hide Release;
  }

  /** What the moving steps do to the events. */
  lemma EventsMove(s: State, a: Action)
    requires Enabled(s, a) && MovesEvents(s, a)
    ensures var t := Step(s, a);
            match a
            case Put(e) =>
              && t.entered == s.entered + [e] && t.outcomes == s.outcomes
              && PendingEvents(t) == PendingEvents(s) && t.queue == s.queue + [e]
            case Clear =>
              && t.entered == s.entered && t.outcomes == s.outcomes + s.queue
              && PendingEvents(t) == PendingEvents(s) && t.queue == []
            case Dequeue(r) =>
              && t.entered == s.entered && s.queue == [s.queue[0]] + t.queue && PendingEvents(s) == []
              && t.outcomes + PendingEvents(t) == s.outcomes + [s.queue[0]]
            case _ =>
              && t.entered == s.entered && t.outcomes == s.outcomes + PendingEvents(s)
              && PendingEvents(t) == [] && t.queue == s.queue
  {
    hide WakeAll;
    hide Release;
    hide ClearedAll;
  }

  lemma StepAccounts(s: State, a: Action)
    requires Enabled(s, a) && Accounted(s)
    ensures Accounted(Step(s, a))
  {
    hide Step;
    hide Enabled;
    hide PendingEvents;
    var t := Step(s, a);
    if MovesEvents(s, a) {
      EventsMove(s, a);
    } else {
      EventsStay(s, a);
    }
    assert multiset(s.outcomes + PendingEvents(s)) == multiset(s.outcomes) + multiset(PendingEvents(s));
    assert multiset(t.outcomes + PendingEvents(t)) == multiset(t.outcomes) + multiset(PendingEvents(t));
  }

  lemma {:induction false} RunAccounts(s: State, acts: seq<Action>)
    requires Runs(s, acts) && Accounted(s)
    ensures Accounted(After(s, acts))
    decreases |acts|
  {
    if acts != [] {
      StepAccounts(s, acts[0]);
      RunAccounts(Step(s, acts[0]), acts[1..]);
    }
  }

  /** Over every run, clears included, each event that entered has met exactly one end, waits in the
      slot or is still queued. */
  lemma EachEventEndsOnce(capacity: nat, limit: nat, acts: seq<Action>)
    requires Runs(Initial(capacity, limit), acts)
    ensures Accounted(After(Initial(capacity, limit), acts))
  {
    RunAccounts(Initial(capacity, limit), acts);
  }

  // --------------------------------------------------------------------------------------------
  // Entry order
  // --------------------------------------------------------------------------------------------

  ghost predicate DistinctEvents(es: seq<Event>) {
    forall i, j :: 0 <= i < j < |es| ==> es[i] != es[j]
  }

  /** Events end in the order in which they entered. */
  ghost predicate InOrder(s: State) {
    s.entered == s.outcomes + PendingEvents(s) + s.queue
  }

  /** Some event has ended ahead of its turn. */
  ghost predicate Overtaken(s: State) {
    exists i :: 0 <= i < |s.outcomes| && i < |s.entered| && s.outcomes[i] != s.entered[i]
  }

  /** A clear that finds events queued behind an occupied slot. */
  predicate Overtakes(s: State, a: Action) {
    a.Clear? && s.pending.Some? && s.queue != []
  }

  ghost predicate NeverOvertakes(s: State, acts: seq<Action>)
    requires Runs(s, acts)
    decreases |acts|
  {
    acts == [] || (!Overtakes(s, acts[0]) && NeverOvertakes(Step(s, acts[0]), acts[1..]))
  }

  lemma OvertakenIsNotInOrder(s: State)
    requires Overtaken(s)
    ensures !InOrder(s)
  {
    var i :| 0 <= i < |s.outcomes| && i < |s.entered| && s.outcomes[i] != s.entered[i];
    assert (s.outcomes + PendingEvents(s) + s.queue)[i] == s.outcomes[i];
  }

  /** Both histories only grow. */
  lemma HistoriesGrow(s: State, a: Action)
    requires Enabled(s, a)
    ensures s.outcomes <= Step(s, a).outcomes && s.entered <= Step(s, a).entered
  {
    if MovesEvents(s, a) {
      EventsMove(s, a);
    } else {
      EventsStay(s, a);
    }
    if a.Dequeue? {
      hide WakeAll;
    } else {
      hide Step;
    }
    hide Enabled;
  }

  lemma OvertakenStays(s: State, a: Action)
    requires Enabled(s, a) && Overtaken(s)
    ensures Overtaken(Step(s, a))
  {
    HistoriesGrow(s, a);
    var i :| 0 <= i < |s.outcomes| && i < |s.entered| && s.outcomes[i] != s.entered[i];
    assert Step(s, a).outcomes[i] != Step(s, a).entered[i];
  }

  lemma OrderKept(s: State, a: Action)
    requires Enabled(s, a) && InOrder(s) && !Overtakes(s, a)
    ensures InOrder(Step(s, a))
  {
    hide Step;
    hide Enabled;
    var t := Step(s, a);
    if MovesEvents(s, a) {
      EventsMove(s, a);
    } else {
      EventsStay(s, a);
    }
    assert t.entered == t.outcomes + PendingEvents(t) + t.queue;
  }

  lemma OrderBroken(s: State, a: Action)
    requires Enabled(s, a) && InOrder(s) && Overtakes(s, a) && DistinctEvents(s.entered)
    ensures Overtaken(Step(s, a))
  {
    var t, n := Step(s, a), |s.outcomes|;
    assert s.entered[n] == s.pending.value.event && s.entered[n + 1] == s.queue[0];
    assert t.outcomes[n] == s.queue[0] && t.entered[n] == s.entered[n];
  }

  lemma {:induction false} EnteredGrows(s: State, acts: seq<Action>)
    requires Runs(s, acts)
    ensures s.entered <= After(s, acts).entered
    decreases |acts|
  {
    if acts != [] {
      HistoriesGrow(s, acts[0]);
      EnteredGrows(Step(s, acts[0]), acts[1..]);
    }
  }

  lemma {:induction false} OvertakenForever(s: State, acts: seq<Action>)
    requires Runs(s, acts) && Overtaken(s)
    ensures Overtaken(After(s, acts))
    decreases |acts|
  {
    if acts != [] {
      OvertakenStays(s, acts[0]);
      OvertakenForever(Step(s, acts[0]), acts[1..]);
    }
  }

  lemma {:induction false} OrderOverRun(s: State, acts: seq<Action>)
    requires Runs(s, acts) && InOrder(s) && DistinctEvents(After(s, acts).entered)
    ensures InOrder(After(s, acts)) <==> NeverOvertakes(s, acts)
    decreases |acts|
  {
    if acts != [] {
      EnteredGrows(s, acts);
      assert DistinctEvents(s.entered);
      hide Step;
      hide Enabled;
      if Overtakes(s, acts[0]) {
        OrderBroken(s, acts[0]);
        OvertakenForever(Step(s, acts[0]), acts[1..]);
        OvertakenIsNotInOrder(After(s, acts));
      } else {
        OrderKept(s, acts[0]);
        OrderOverRun(Step(s, acts[0]), acts[1..]);
      }
    }
  }

  /** Over every run, stops and restarts included: the events that met their end, followed by the
      pending and the queued ones, are the entered ones in entry order, if and only if no clear of
      that run found events queued behind an occupied slot. */
  lemma EndsInEntryOrderIff(capacity: nat, limit: nat, acts: seq<Action>)
    requires Runs(Initial(capacity, limit), acts)
    requires DistinctEvents(After(Initial(capacity, limit), acts).entered)
    ensures InOrder(After(Initial(capacity, limit), acts)) <==> NeverOvertakes(Initial(capacity, limit), acts)
  {
    OrderOverRun(Initial(capacity, limit), acts);
  }

  // --------------------------------------------------------------------------------------------
  // Two concrete runs
  // --------------------------------------------------------------------------------------------

  lemma Unrolled(s: State, a: Action, rest: seq<Action>)
    requires Enabled(s, a) && Runs(Step(s, a), rest)
    ensures Runs(s, [a] + rest) && After(s, [a] + rest) == After(Step(s, a), rest)
  {
    assert ([a] + rest)[0] == a && ([a] + rest)[1..] == rest;
  }

  /** One permit, and the first event's dispatch owns it. */
  function Busy(a: Event): State {
    State(Semaphore(1, 0, [], {}), [Chain(true, false, 0, None)], [], AtTop(0), 1, 1, [], 0, None, map[],
          [a], [Taken(Slot(a, []))], [Settled(Slot(a, []), true)], [a])
  }

  lemma BusyReached(a: Event, rest: seq<Action>)
    requires Runs(Busy(a), rest)
    ensures var acts := [Put(a)] + ([Start] + ([Dequeue(Succeeds)] + ([ConsumerAcquire(Succeeds)] + rest)));
            Runs(Initial(1, 1), acts) && After(Initial(1, 1), acts) == After(Busy(a), rest)
  {
    var s1 := Step(Initial(1, 1), Put(a));
    var s2 := Step(s1, Start);
    var s3 := Step(s2, Dequeue(Succeeds));
    assert Step(s3, ConsumerAcquire(Succeeds)) == Busy(a);
    hide Step;
    hide Runs;
    hide After;
    Unrolled(s3, ConsumerAcquire(Succeeds), rest);
    Unrolled(s2, Dequeue(Succeeds), [ConsumerAcquire(Succeeds)] + rest);
    Unrolled(s1, Start, [Dequeue(Succeeds)] + ([ConsumerAcquire(Succeeds)] + rest));
    Unrolled(Initial(1, 1), Put(a), [Start] + ([Dequeue(Succeeds)] + ([ConsumerAcquire(Succeeds)] + rest)));
  }

  /** The second event waits in the slot for the permit. */
  function Waiting(a: Event, b: Event): State {
    State(Semaphore(1, 0, [Consumer(0)], {}), [Chain(true, false, 0, None)], [], AwaitingPermit(0), 1, 1, [], 1,
          Some(Slot(b, [])), map[], [a, b], [Taken(Slot(a, [])), Taken(Slot(b, []))], [Settled(Slot(a, []), true)], [a])
  }

  lemma WaitingReached(a: Event, b: Event, rest: seq<Action>)
    requires Runs(Waiting(a, b), rest)
    ensures var acts := [Put(b)] + ([Dequeue(Succeeds)] + ([ConsumerAcquire(Succeeds)] + rest));
            Runs(Busy(a), acts) && After(Busy(a), acts) == After(Waiting(a, b), rest)
  {
    var s1 := Step(Busy(a), Put(b));
    var s2 := Step(s1, Dequeue(Succeeds));
    assert Step(s2, ConsumerAcquire(Succeeds)) == Waiting(a, b);
    hide Step;
    hide Runs;
    hide After;
    Unrolled(s2, ConsumerAcquire(Succeeds), rest);
    Unrolled(s1, Dequeue(Succeeds), [ConsumerAcquire(Succeeds)] + rest);
    Unrolled(Busy(a), Put(b), [Dequeue(Succeeds)] + ([ConsumerAcquire(Succeeds)] + rest));
  }

  /** A clear ends the third event before the second. */
  lemma ClearWhileWaiting(a: Event, b: Event, c: Event)
    ensures var acts := [Put(c)] + ([Clear] + []);
            && Runs(Waiting(a, b), acts)
            && var t := After(Waiting(a, b), acts);
            t.entered == [a, b, c] && t.outcomes == [a, c] && PendingEvents(t) == [b] && t.queue == []
  {
    var s1 := Step(Waiting(a, b), Put(c));
    var s2 := Step(s1, Clear);
    assert Runs(s2, []) && After(s2, []) == s2;
    assert s2.entered == [a, b, c] && s2.outcomes == [a, c] && PendingEvents(s2) == [b] && s2.queue == [];
    hide Step;
    hide Runs;
    hide After;
    Unrolled(s1, Clear, []);
    Unrolled(Waiting(a, b), Put(c), [Clear] + []);
  }

  /** A run from the start in which a clear ends the third event before the second. */
  lemma ClearOvertakes(a: Event, b: Event, c: Event) returns (acts: seq<Action>)
    requires b != c
    ensures Runs(Initial(1, 1), acts)
    ensures var t := After(Initial(1, 1), acts);
            t.entered == [a, b, c] && t.outcomes == [a, c] && PendingEvents(t) == [b] && !InOrder(t)
  {
    hide Runs;
    hide After;
    ClearWhileWaiting(a, b, c);
    var clear := [Put(c)] + ([Clear] + []);
    WaitingReached(a, b, clear);
    var rest := [Put(b)] + ([Dequeue(Succeeds)] + ([ConsumerAcquire(Succeeds)] + clear));
    BusyReached(a, rest);
    acts := [Put(a)] + ([Start] + ([Dequeue(Succeeds)] + ([ConsumerAcquire(Succeeds)] + rest)));
    var t := After(Waiting(a, b), clear);
    assert t.entered[1] != t.outcomes[1];
    OvertakenIsNotInOrder(t);
  }

  /** A run from the start in which a branch resumes while its sibling is still suspended: code after
      its suspend_process runs without a permit. */
  lemma ResumesWithoutPermit(a: Event) returns (acts: seq<Action>)
    ensures Runs(Initial(1, 1), acts)
    ensures var s := After(Initial(1, 1), acts);
            && Enabled(s, LeaveBody(0)) && Resumes(s, LeaveBody(0), 0)
            && !Step(s, LeaveBody(0)).chains[0].held && !Step(s, LeaveBody(0)).chains[0].closed
  {
    var s0 := Busy(a);
    var s1 := Step(s0, Suspend(0));
    var s2 := Step(s1, Suspend(0));
    assert Runs(s2, []) && After(s2, []) == s2;
    assert s2.branches == [Branch(0, Lent), Branch(0, Lent)] && s2.chains == [Chain(false, false, 2, None)];
    assert Enabled(s2, LeaveBody(0)) && Resumes(s2, LeaveBody(0), 0);
    assert !Step(s2, LeaveBody(0)).chains[0].held && !Step(s2, LeaveBody(0)).chains[0].closed;
    hide Step;
    hide Runs;
    hide After;
    hide Resumes;
    Unrolled(s1, Suspend(0), []);
    Unrolled(s0, Suspend(0), [Suspend(0)] + []);
    BusyReached(a, [Suspend(0)] + ([Suspend(0)] + []));
    acts := [Put(a)] + ([Start] + ([Dequeue(Succeeds)]
              + ([ConsumerAcquire(Succeeds)] + ([Suspend(0)] + ([Suspend(0)] + [])))));
  }
}
