/** Every step of the runtime keeps the invariant, one lemma per group of steps. */
module PermitInvariant {
  import opened Common
  import opened Semaphores
  import opened PermitProtocol

  /** The lenders of chain c when branch b changes from old to new. */
  lemma LendersUpdated(branches: seq<Branch>, b: nat, x: Branch)
    requires b < |branches|
    ensures forall c: nat :: Count(branches[b := x], LentBy(c)) ==
                             Count(branches, LentBy(c)) - (if LentBy(c)(branches[b]) then 1 else 0)
                             + (if LentBy(c)(x) then 1 else 0)
  {
    forall c: nat
      ensures Count(branches[b := x], LentBy(c)) ==
              Count(branches, LentBy(c)) - (if LentBy(c)(branches[b]) then 1 else 0)
              + (if LentBy(c)(x) then 1 else 0)
    {
      CountUpdate(branches, b, x, LentBy(c));
    }
  }

  lemma LendersAppended(branches: seq<Branch>, x: Branch)
    ensures forall c: nat :: Count(branches + [x], LentBy(c)) ==
                             Count(branches, LentBy(c)) + (if LentBy(c)(x) then 1 else 0)
  {
    forall c: nat
      ensures Count(branches + [x], LentBy(c)) == Count(branches, LentBy(c)) + (if LentBy(c)(x) then 1 else 0)
    {
      CountAppend(branches, x, LentBy(c));
    }
  }

  lemma SuspendKeeps(s: State, c: nat)
    requires Inv(s) && Enabled(s, Suspend(c))
    ensures Inv(SuspendStep(s, c))
  {
    hide WakeAll;
    hide Count;
    var t := SuspendStep(s, c);
    var chain := s.chains[c];
    if !chain.closed {
      LendersAppended(s.branches, Branch(c, Lent));
      CountUpdate(s.chains, c, t.chains[c], IsHeld);
      if chain.held {
        ReleaseKeeps(s.sem);
      }
    }
    forall d | 0 <= d < |t.chains|
      ensures ChainOk(t.chains, t.branches, d)
    {
      assert d < |s.chains| ==> ChainOk(s.chains, s.branches, d);
    }
    forall x | 0 <= x < |t.branches|
      ensures BranchOk(t.chains, t.branches, x)
    {
      assert x < |s.branches| ==> BranchOk(s.chains, s.branches, x);
    }
  }

  /** Branch b of chain c moves to another phase and its chain is rewritten with it. */
  lemma ChainsOkMoved(s: State, t: State, b: nat, phase: Phase, chain: Chain)
    requires ChainsOk(s) && b < |s.branches| && s.branches[b].chain < |s.chains|
    requires t.branches == s.branches[b := Branch(s.branches[b].chain, phase)]
    requires t.chains == s.chains[s.branches[b].chain := chain]
    requires chain.suspended == s.chains[s.branches[b].chain].suspended
                                - (if s.branches[b].phase.Lent? then 1 else 0) + (if phase.Lent? then 1 else 0)
    requires chain.held ==> !chain.closed && chain.suspended == 0 && chain.lock.None?
    requires chain.lock == if phase.Reacquiring? then Some(b)
                           else if s.branches[b].phase.Reacquiring? then None
                           else s.chains[s.branches[b].chain].lock
    requires phase.Reacquiring? ==> s.chains[s.branches[b].chain].lock.None?
    ensures ChainsOk(t)
  {
    var c := s.branches[b].chain;
    assert BranchOk(s.chains, s.branches, b) && ChainOk(s.chains, s.branches, c);
    LendersUpdated(s.branches, b, t.branches[b]);
    forall d | 0 <= d < |t.chains|
      ensures ChainOk(t.chains, t.branches, d)
    {
      assert ChainOk(s.chains, s.branches, d);
    }
    forall x | 0 <= x < |t.branches|
      ensures BranchOk(t.chains, t.branches, x)
    {
      assert BranchOk(s.chains, s.branches, x);
    }
  }

  lemma LeaveBodyKeeps(s: State, b: nat)
    requires Inv(s) && Enabled(s, LeaveBody(b))
    ensures Inv(LeaveBodyStep(s, b))
  {
    var t := LeaveBodyStep(s, b);
    var c := s.branches[b].chain;
    assert ChainOk(s.chains, s.branches, c);
    CountPositive(s.branches, b, LentBy(c));
    CountUpdate(s.chains, c, t.chains[c], IsHeld);
    ChainsOkMoved(s, t, b, t.branches[b].phase, t.chains[c]);
  }

  lemma TakeLockKeeps(s: State, b: nat)
    requires Inv(s) && Enabled(s, TakeLock(b))
    ensures Inv(TakeLockStep(s, b))
  {
    hide WakeAll;
    hide Count;
    var t := TakeLockStep(s, b);
    var c := s.branches[b].chain;
    assert ChainOk(s.chains, s.branches, c);
    assert s.chains == s.chains[c := s.chains[c]];
    ChainsOkMoved(s, t, b, t.branches[b].phase, t.chains[c]);
    CountUpdate(s.chains, c, t.chains[c], IsHeld);
    assert !InPool(s.sem, Resumer(b));
    if NeedsPermit(s.chains[c]) && Locked(s.sem) {
      EnqueueKeeps(s.sem, Resumer(b));
    }
  }

  lemma CancelAtLockKeeps(s: State, b: nat)
    requires Inv(s) && Enabled(s, CancelAtLock(b))
    ensures Inv(Step(s, CancelAtLock(b)))
  {
    var t := Step(s, CancelAtLock(b));
    var c := s.branches[b].chain;
    assert BranchOk(s.chains, s.branches, b) && ChainOk(s.chains, s.branches, c);
    assert s.chains == s.chains[c := s.chains[c]];
    ChainsOkMoved(s, t, b, Done, s.chains[c]);
  }

  lemma ReacquireSemaphore(s: State, b: nat)
    requires WellFormed(s.sem) && Enabled(s, Reacquire(b))
    ensures var t := ReacquireStep(s, b);
            && WellFormed(t.sem) && t.sem.bound == s.sem.bound
            && Permits(t.sem) == Permits(s.sem) - (if t.chains[s.branches[b].chain].held then 1 else 0)
            && (forall x :: InPool(t.sem, x) <==> InPool(s.sem, x) && x != Resumer(b))
            && (forall x :: x in t.sem.waiting ==> x in s.sem.waiting)
  {
    ResumeKeeps(s.sem, Resumer(b));
    ReleaseKeeps(Resume(s.sem, Resumer(b)));
  }

  lemma ReacquireKeeps(s: State, b: nat)
    requires Inv(s) && Enabled(s, Reacquire(b))
    ensures Inv(ReacquireStep(s, b))
  {
    hide WakeAll;
    hide Count;
    var t := ReacquireStep(s, b);
    var c := s.branches[b].chain;
    assert InPool(s.sem, Resumer(b));
    assert BranchOk(s.chains, s.branches, b) && ChainOk(s.chains, s.branches, c);
    ChainsOkMoved(s, t, b, Done, t.chains[c]);
    CountUpdate(s.chains, c, t.chains[c], IsHeld);
    ReacquireSemaphore(s, b);
  }

  lemma WithdrawKeeps(s: State, w: Waiter)
    requires WellFormed(s.sem) && InPool(s.sem, w)
    ensures WellFormed(Withdraw(s.sem, w)) && Permits(Withdraw(s.sem, w)) == Permits(s.sem)
    ensures forall x :: InPool(Withdraw(s.sem, w), x) <==> InPool(s.sem, x) && x != w
    ensures forall x :: x in Withdraw(s.sem, w).waiting ==> x in s.sem.waiting
    ensures Withdraw(s.sem, w).bound == s.sem.bound
  {
    if w in s.sem.granted {
      CancelGrantedKeeps(s.sem, w);
    } else {
      CancelWaitingKeeps(s.sem, w);
      WithoutDistinct(s.sem.waiting, w);
    }
  }

  lemma CancelReacquireKeeps(s: State, b: nat)
    requires Inv(s) && Enabled(s, CancelReacquire(b))
    ensures Inv(CancelReacquireStep(s, b))
  {
    var t := CancelReacquireStep(s, b);
    var c := s.branches[b].chain;
    assert InPool(s.sem, Resumer(b));
    assert BranchOk(s.chains, s.branches, b) && ChainOk(s.chains, s.branches, c);
    ChainsOkMoved(s, t, b, Done, t.chains[c]);
    CountUpdate(s.chains, c, t.chains[c], IsHeld);
    WithdrawKeeps(s, Resumer(b));
  }

  lemma DispatchDoneKeeps(s: State, c: nat)
    requires Inv(s) && Enabled(s, DispatchDone(c))
    ensures Inv(DispatchDoneStep(s, c))
  {
    var t := DispatchDoneStep(s, c);
    CountUpdate(s.chains, c, t.chains[c], IsHeld);
    if s.chains[c].held {
      ReleaseKeeps(s.sem);
    }
    forall d | 0 <= d < |t.chains|
      ensures ChainOk(t.chains, t.branches, d)
    {
      assert d < |s.chains| ==> ChainOk(s.chains, s.branches, d);
    }
    forall x | 0 <= x < |t.branches|
      ensures BranchOk(t.chains, t.branches, x)
    {
      assert x < |s.branches| ==> BranchOk(s.chains, s.branches, x);
    }
  }

  lemma {:induction false} ClearedKeepsOrder(rs: seq<Removal>, q: seq<Event>)
    ensures EventsOf(rs + ClearedAll(q)) == EventsOf(rs) + q
    ensures SlotsTaken(rs + ClearedAll(q)) == SlotsTaken(rs)
  {
    if q == [] {
      assert rs + ClearedAll(q) == rs;
      assert EventsOf(rs) + q == EventsOf(rs);
    } else {
      var n := |q| - 1;
      ClearedKeepsOrder(rs, q[..n]);
      var all := rs + ClearedAll(q);
      assert all == (rs + ClearedAll(q[..n])) + [Cleared(q[n])];
      assert all[..|all| - 1] == rs + ClearedAll(q[..n]);
      assert EventsOf(rs) + q == (EventsOf(rs) + q[..n]) + [q[n]];
    }
  }

  lemma RemovedAppended(rs: seq<Removal>, r: Removal)
    ensures EventsOf(rs + [r]) == EventsOf(rs) + [EventOf(r)]
    ensures SlotsTaken(rs + [r]) == SlotsTaken(rs) + if r.Taken? then [r.slot] else []
  {
    assert (rs + [r])[..|rs|] == rs;
  }

  lemma SettledAppended(ss: seq<Settled>, x: Settled)
    ensures SlotsSettled(ss + [x]) == SlotsSettled(ss) + [x.slot]
  {
    assert (ss + [x])[..|ss|] == ss;
  }

  /** ChainsOk and WaitersOk read neither the queue nor the history. */
  lemma SameChains(s: State, t: State)
    requires ChainsOk(s) && t.chains == s.chains && t.branches == s.branches
    ensures ChainsOk(t)
  {
  }

  lemma PutKeeps(s: State, e: Event)
    requires Inv(s) && Enabled(s, Put(e))
    ensures Inv(Step(s, Put(e)))
  {
    var t := Step(s, Put(e));
    SameChains(s, t);
    assert t.entered == EventsOf(t.removed) + t.queue;
  }

  lemma ClearKeeps(s: State)
    requires Inv(s)
    ensures Inv(ClearStep(s))
  {
    var t := ClearStep(s);
    SameChains(s, t);
    ClearedKeepsOrder(s.removed, s.queue);
    assert t.entered == EventsOf(t.removed) + t.queue;
  }

  lemma DequeueKeeps(s: State, resolution: Attempt)
    requires Inv(s) && Enabled(s, Dequeue(resolution))
    ensures Inv(DequeueStep(s, resolution))
  {
    hide EventsOf;
    hide SlotsTaken;
    hide SlotsSettled;
    hide WakeAll;
    hide Count;
    var t := DequeueStep(s, resolution);
    SameChains(s, t);
    RemovedAppended(s.removed, t.removed[|s.removed|]);
    assert t.entered == EventsOf(t.removed) + t.queue;
    assert SlotsTaken(t.removed) == SlotsSettled(t.settled) + PendingSlots(t);
  }

  lemma WorkerStepKeeps(s: State, a: Action)
    requires Inv(s) && Enabled(s, a)
    requires a.Start? || a.Stop? || a.CancelWorker? || a.WorkerDone? || a.ReapRetired? || a.DeadWaiterRuns?
    ensures Inv(Step(s, a))
  {
    hide WakeAll;
    hide Count;
    var t := Step(s, a);
    SameChains(s, t);
    match a
    case Start =>
    case Stop =>
      if s.worker.AwaitingPermit? && Consumer(s.worker.gen) !in s.sem.granted {
        CancelWaitingKeeps(s.sem, Consumer(s.worker.gen));
        WithoutDistinct(s.sem.waiting, Consumer(s.worker.gen));
      }
    case CancelWorker =>
      if s.worker.AwaitingPermit? {
        WithdrawKeeps(s, Consumer(s.worker.gen));
      }
    case WorkerDone =>
    case ReapRetired(g) => CancelGrantedKeeps(s.sem, Consumer(g));
    case DeadWaiterRuns => WakeAllKeeps(s.sem);
  }

  lemma ChainsOkLaunched(s: State, t: State, chain: Chain)
    requires ChainsOk(s) && t.branches == s.branches && t.chains == s.chains + [chain]
    requires chain.suspended == 0 && chain.lock.None? && (chain.held ==> !chain.closed)
    ensures ChainsOk(t)
  {
    forall x | 0 <= x < |t.branches|
      ensures BranchOk(t.chains, t.branches, x) && !LentBy(|s.chains|)(s.branches[x])
    {
      assert BranchOk(s.chains, s.branches, x);
    }
    CountZero(s.branches, LentBy(|s.chains|));
    forall d | 0 <= d < |t.chains|
      ensures ChainOk(t.chains, t.branches, d)
    {
      assert d < |s.chains| ==> ChainOk(s.chains, s.branches, d);
    }
  }

  /** Launching with a permit in hand: `s` is the state just after acquire returned, so its
      permits are one short of the conserved sum. */
  lemma LaunchKeeps(s: State, gen: nat, p: Attempt)
    requires WellFormed(s.sem) && ChainsOk(s) && WaitersOk(s.(worker := AtTop(gen))) && QueueOk(s)
    requires Permits(s.sem) + Count(s.chains, IsHeld) + 1 == s.sem.bound
    requires gen < s.gens && !InPool(s.sem, Consumer(gen)) && s.pending.Some?
    ensures Inv(LaunchStep(s, gen, p))
  {
    var t := LaunchStep(s, gen, p);
    ChainsOkLaunched(s, t, t.chains[|s.chains|]);
    CountAppend(s.chains, t.chains[|s.chains|], IsHeld);
    ReleaseKeeps(s.sem);
    LaunchKeepsQueue(s, gen, p);
  }

  lemma LaunchKeepsQueue(s: State, gen: nat, p: Attempt)
    requires QueueOk(s) && s.pending.Some?
    ensures QueueOk(LaunchStep(s, gen, p))
  {
    var t := LaunchStep(s, gen, p);
    SettledAppended(s.settled, t.settled[|s.settled|]);
    assert SlotsTaken(t.removed) == SlotsSettled(t.settled) + PendingSlots(t);
  }

  lemma LaunchStepKeeps(s: State, a: Action)
    requires Inv(s) && Enabled(s, a)
    requires a.ConsumerAcquire? || a.ConsumerGranted?
    ensures Inv(Step(s, a))
  {
    hide WakeAll;
    hide Count;
    var g := s.worker.gen;
    match a
    case ConsumerAcquire(p) =>
      if Locked(s.sem) {
        EnqueueKeeps(s.sem, Consumer(g));
        SameChains(s, Step(s, a));
      } else {
        var u := s.(sem := TakeFree(s.sem));
        SameChains(s, u);
        LaunchKeeps(u, g, p);
      }
    case ConsumerGranted(p) =>
      ResumeKeeps(s.sem, Consumer(g));
      var u := s.(sem := Resume(s.sem, Consumer(g)));
      SameChains(s, u);
      LaunchKeeps(u, g, p);
  }

  /** The invariant is inductive. */
  lemma StepKeepsInv(s: State, a: Action)
    requires Inv(s) && Enabled(s, a)
    ensures Inv(Step(s, a))
  {
    match a
    case Suspend(c) => SuspendKeeps(s, c);
    case LeaveBody(b) => LeaveBodyKeeps(s, b);
    case TakeLock(b) => TakeLockKeeps(s, b);
    case CancelAtLock(b) => CancelAtLockKeeps(s, b);
    case Reacquire(b) => ReacquireKeeps(s, b);
    case CancelReacquire(b) => CancelReacquireKeeps(s, b);
    case DispatchDone(c) => DispatchDoneKeeps(s, c);
    case Put(e) => PutKeeps(s, e);
    case Clear => ClearKeeps(s);
    case Register(t) => SameChains(s, s.(table := t));
    case Dequeue(r) => DequeueKeeps(s, r);
    case ConsumerAcquire(_) => LaunchStepKeeps(s, a);
    case ConsumerGranted(_) => LaunchStepKeeps(s, a);
    case _ => WorkerStepKeeps(s, a);
  }

  lemma InitialInv(capacity: nat, limit: nat)
    ensures Inv(Initial(capacity, limit))
  {
  }
}
