/** The mutable context of one execution attempt, and the set of running attempts that a graph keeps.
    Each method is proved to perform one of the context transitions of GraphMachine. */
module GraphContexts {
  import opened Common
  import opened Batch
  import opened GraphMachine

  /** The set object whose `discard` a bound context holds as its terminal callback. */
  class ContextSet {
    var members: set<GraphContext>

    constructor ()
      ensures members == {}
    {
      members := {};
    }

    method Add(x: GraphContext)
      modifies this
      ensures members == old(members) + {x}
    {
      members := members + {x};
    }

    method Discard(x: GraphContext)
      modifies this
      ensures members == old(members) - {x}
    {
      members := members - {x};
    }
  }

  predicate AllowedTransition(from: Status, to: Status) {
    match from
    case Pending => to.Running? || to.Failed? || to.Aborted?
    case Running => to.Failed? || to.Aborted? || to.Finished?
    case _ => false
  }

  class GraphContext {
    var status: Status
    var completion: Completion
    var state: State
    var target: Target
    var steps: nat
    var contextSnapshot: seq<Checkpoint>
    var onTerminal: ContextSet?
    // Where the invoking coroutine stands, and how the attempt was created.
    ghost var invoker: Invoker
    ghost var origin: Checkpoint
    ghost var inherited: seq<Checkpoint>
    ghost var started: nat

    constructor (k: Checkpoint, history: seq<Checkpoint>)
      ensures Valid() && Value() == NewContext(k, history) && onTerminal == null
    {
      status, completion, onTerminal := Pending, Unbound, null;
      state, target, steps, contextSnapshot := k.state, k.target, k.steps, history;
      invoker, origin, inherited, started := NotInvoked, k, history, 0;
    }

    ghost function Value(): Context
      reads this
    {
      Context(status, completion, state, target, steps, contextSnapshot, invoker, origin, inherited, started)
    }

    /** Only a running attempt owns runtime resources. */
    ghost predicate Valid()
      reads this
    {
      && (completion.Waiting? ==> status.Running?)
      && (status.Running? ==> !completion.Unbound?)
      && (onTerminal != null ==> status.Running?)
    }

    ghost function Owners(): set<ContextSet>
      reads this`onTerminal
    {
      if onTerminal == null then {} else {onTerminal}
    }

    /** One validated lifecycle transition; leaving `running` hands the context to its callback. */
    method TransitionTo(to: Status) returns (raised: bool)
      modifies this`status, this`onTerminal, Owners()
      ensures raised <==>
              match old(status)
              case Pending => to.Pending? || to.Finished?
              case Running => to.Pending? || to.Running?
              case _ => to != old(status)
      ensures status == if raised then old(status) else to
      ensures if raised || to.Running? || to == old(status) then
                onTerminal == old(onTerminal) && (onTerminal != null ==> onTerminal.members == old(onTerminal.members))
              else
                onTerminal == null
                && (old(onTerminal) != null ==> old(onTerminal).members == old(onTerminal.members) - {this})
    {
      if to == status && (to.Finished? || to.Failed? || to.Aborted?) {
        return false;
      }
      if !AllowedTransition(status, to) {
        return true;
      }
      status := to;
      if !to.Running? && onTerminal != null {
        var callback := onTerminal;
        onTerminal := null;
        callback.Discard(this);
      }
      raised := false;
    }

    /** Runtime resources are attached to a pending attempt only. */
    method Bind(running: ContextSet) returns (raised: bool)
      requires Valid()
      modifies this`status, this`completion, this`onTerminal, this`invoker, Owners()
      ensures Valid() && (raised <==> !old(status).Pending?)
      ensures raised ==> Value() == old(Value()) && onTerminal == old(onTerminal)
      ensures !raised ==>
                && Value() == old(Value()).(status := Running, completion := Waiting, invoker := Starting)
                && onTerminal == running
      ensures old(onTerminal) != null ==> old(onTerminal).members == old(onTerminal.members)
    {
      raised := TransitionTo(Running);
      if raised {
        return;
      }
      completion := Waiting;
      onTerminal := running;
      invoker := Starting;
    }

    method SetTargetNode(target: Target)
      modifies this`target
      ensures Value() == old(Value()).(target := target)
    {
      this.target := target;
    }

    /** The newest checkpoint is the attempt as it stands; only an active attempt can take one. */
    method TakeASnapshot() returns (raised: bool)
      modifies this`contextSnapshot
      ensures raised <==> !status.Running?
      ensures Value() == if raised then old(Value()) else SnapshotContext(old(Value()))
    {
      raised := !status.Running?;
      if !raised {
        contextSnapshot := contextSnapshot + [Checkpoint(state, target, steps)];
      }
    }

    /** Native list indexing; None stands for a missing checkpoint or IndexError. */
    method GetSnapshot(version: int) returns (r: Option<Checkpoint>)
      ensures var n := |contextSnapshot|;
              && (r.Some? <==> -n <= version < n)
              && (r.Some? ==> r.value == contextSnapshot[if version < 0 then n + version else version])
    {
      var at := ListIndex(version, |contextSnapshot|);
      r := if at.Some? then Some(contextSnapshot[at.value]) else None;
    }

    ghost predicate Released(was: ContextSet?, members: set<GraphContext>)
      reads this`onTerminal, was
    {
      onTerminal == null && (was != null ==> was.members == members - {this})
    }

    ghost function CallbackMembers(): set<GraphContext>
      reads this`onTerminal, Owners()
    {
      if onTerminal == null then {} else onTerminal.members
    }

    method Finish() returns (raised: bool)
      requires Valid()
      modifies this`status, this`completion, this`onTerminal, Owners()
      ensures Valid()
      ensures Value() == if old(status).Running? then FinishContext(old(Value())) else old(Value())
      ensures raised <==> !(old(status).Running? || (old(status).Finished? && !old(completion).Unbound?))
      ensures old(status).Running? ==> Released(old(onTerminal), old(CallbackMembers()))
    {
      if completion.Unbound? {
        return true;
      }
      raised := TransitionTo(Finished);
      if !raised && completion.Waiting? {
        completion := Resolved(state);
      }
    }

    method Fail() returns (raised: bool)
      requires Valid()
      modifies this`status, this`completion, this`onTerminal, Owners()
      ensures Valid()
      ensures Value() == if Terminal(old(status)) then old(Value()) else FailContext(old(Value()))
      ensures raised <==> Terminal(old(status)) && !old(status).Failed?
      ensures !Terminal(old(status)) ==> Released(old(onTerminal), old(CallbackMembers()))
    {
      raised := TransitionTo(Failed);
      if !raised && completion.Waiting? {
        completion := Raised;
      }
    }

    /** The caller receives the newest checkpoint's state, or the live one when there is none. */
    method Abort() returns (raised: bool)
      requires Valid()
      modifies this`status, this`completion, this`onTerminal, Owners()
      ensures Valid() && Value() == AbortContext(old(Value()))
      ensures raised <==> Terminal(old(status)) && !old(status).Aborted?
      ensures !Terminal(old(status)) ==> Released(old(onTerminal), old(CallbackMembers()))
    {
      raised := TransitionTo(Aborted);
      if !raised && completion.Waiting? {
        completion := Resolved(LatestSnapshotState());
      }
    }

    function LatestSnapshotState(): State
      reads this
    {
      if contextSnapshot != [] then contextSnapshot[|contextSnapshot| - 1].state else state
    }

    method Cancel() returns (raised: bool)
      requires Valid()
      modifies this`status, this`completion, this`onTerminal, Owners()
      ensures Valid()
      ensures Value() == if Terminal(old(status)) then old(Value()) else CancelContext(old(Value()))
      ensures raised <==> Terminal(old(status)) && !old(status).Aborted?
      ensures !Terminal(old(status)) ==> Released(old(onTerminal), old(CallbackMembers()))
    {
      raised := TransitionTo(Aborted);
      if !raised && completion.Waiting? {
        completion := Cancelled;
      }
    }
  }
}
