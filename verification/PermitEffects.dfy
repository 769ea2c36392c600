/** What single steps of the runtime do, said without the functions that define the steps. */
module PermitEffects {
  import opened Semaphores
  import opened PermitProtocol

  /** A suspension counts on an open chain, which lends a held permit; a closed one is left alone. */
  lemma SuspendEffect(s: State, c: nat)
    requires Enabled(s, Suspend(c))
    ensures var t := Step(s, Suspend(c));
            if s.chains[c].closed then t == s
            else
              && t.branches == s.branches + [Branch(c, Lent)] && |t.chains| == |s.chains|
              && t.chains[c] == Chain(false, false, s.chains[c].suspended + 1, s.chains[c].lock)
              && (s.chains[c].held && s.sem.waiting == [] ==> t.sem.free == s.sem.free + 1)
              && (s.chains[c].held && s.sem.waiting != [] ==> s.sem.waiting[0] in t.sem.granted)
              && (!s.chains[c].held ==> t.sem == s.sem)
  {
  }

  /** The way of each suspended branch: out of the body to the lock if it is the last of its chain, and
      from the lock through a reacquisition if the chain needs a permit and none can be taken at once. */
  lemma BranchLife(s: State, a: Action, b: nat)
    requires Enabled(s, a) && b < |s.branches|
    ensures b < |Step(s, a).branches| && Step(s, a).branches[b].chain == s.branches[b].chain
    ensures var c, phase := s.branches[b].chain, Step(s, a).branches[b].phase;
            if a == LeaveBody(b) then phase == if s.chains[c].suspended == 1 then AtLock else Done
            else if a == TakeLock(b) then
              phase == if !s.chains[c].closed && !s.chains[c].held && s.chains[c].suspended == 0
                          && (s.sem.free == 0 || s.sem.waiting != [] || s.sem.granted != {}) then Reacquiring else Done
            else if a == CancelAtLock(b) || a == Reacquire(b) || a == CancelReacquire(b) then phase == Done
            else phase == s.branches[b].phase
    ensures |Step(s, a).branches| ==
            |s.branches| + if a.Suspend? && !s.chains[a.chain].closed then 1 else 0
  {
    hide Withdraw;
    hide WakeAll;
    hide Release;
  }

  /** A finished dispatch closes its chain, which keeps nothing. */
  lemma DispatchEnds(s: State, c: nat)
    requires Enabled(s, DispatchDone(c))
    ensures var t := Step(s, DispatchDone(c));
            && |t.chains| == |s.chains| && t.chains[c].closed && !t.chains[c].held
            && (forall d :: 0 <= d < |s.chains| && d != c ==> t.chains[d] == s.chains[d])
            && (s.chains[c].held && s.sem.waiting == [] ==> t.sem.free == s.sem.free + 1)
            && (s.chains[c].held && s.sem.waiting != [] ==> s.sem.waiting[0] in t.sem.granted)
            && (!s.chains[c].held ==> t.sem == s.sem)
  {
  }

  /** The consumer's life: started once at a time, withdrawn by stop(), ended by a cancellation or by an
      error that is no Exception, and waiting exactly when it finds no permit to take. */
  lemma ConsumerLife(s: State, a: Action)
    requires Enabled(s, a)
    ensures var t := Step(s, a);
            match a
            case Start => t.worker == (if s.worker.Off? then AtTop(s.gens) else s.worker)
            case Stop => t.worker.Off?
            case WorkerDone => t.worker.Off?
            case CancelWorker => t.worker == Exited(s.worker.gen)
            case Dequeue(result) => t.worker == (if result.RaisesBase? then Exited(s.worker.gen) else s.worker)
            case ConsumerAcquire(result) =>
              t.worker == (if s.sem.free == 0 || s.sem.waiting != [] || s.sem.granted != {}
                           then AwaitingPermit(s.worker.gen)
                           else if result.RaisesBase? then Exited(s.worker.gen) else AtTop(s.worker.gen))
            case ConsumerGranted(result) =>
              t.worker == (if result.RaisesBase? then Exited(s.worker.gen) else AtTop(s.worker.gen))
            case _ => t.worker == s.worker
    ensures Step(s, a).gens == s.gens + if a.Start? && s.worker.Off? then 1 else 0
  {
    hide Withdraw;
    hide WakeAll;
    hide Release;
  }

  /** A step in which the consumer gets its permit empties the slot and acknowledges its event once.  The
      new chain owns the permit, or is closed and has given it back when preparing the dispatch failed. */
  lemma LaunchEffect(s: State, a: Action, preparation: Attempt)
    requires Enabled(s, a) && (a == ConsumerGranted(preparation) || a == ConsumerAcquire(preparation))
    requires a.ConsumerAcquire? ==> s.sem.free > 0 && s.sem.waiting == [] && s.sem.granted == {}
    ensures var t := Step(s, a);
            && t.pending.None? && t.unfinished == s.unfinished - 1 && t.queue == s.queue
            && t.settled == s.settled + [Settled(s.pending.value, preparation.Succeeds?)]
            && t.outcomes == s.outcomes + [s.pending.value.event]
            && |t.chains| == |s.chains| + 1 && t.chains[..|s.chains|] == s.chains
            && t.chains[|s.chains|].held == preparation.Succeeds?
            && t.chains[|s.chains|].closed == !preparation.Succeeds?
            && (a.ConsumerAcquire? ==> t.sem.free == s.sem.free - if preparation.Succeeds? then 1 else 0)
  {
    hide WakeAll;
  }
}
