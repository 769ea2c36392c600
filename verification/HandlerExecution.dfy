/** Running one captured handler chain on one event: notifications, core functions, failures and
    cancellation.  What a callback does is unknown: it may accept the event, and it completes, fails
    (a timeout included) or is cancelled. */
module HandlerExecution {
  datatype Phase = OnHasError | OnAccepted | Core | OnError | OnCancelled

  datatype Result = Completes | Fails | Cancels

  datatype Effect = Effect(accepts: bool, result: Result)

  /** Effect of the n-th callback invoked for the event. */
  type Effects = nat -> Effect

  /** A handler's options, and which callbacks it has besides its core. */
  datatype Handler = Handler(
    name: string, onHasError: bool, onAccepted: bool, onError: bool, onCancelled: bool, stopWhenError: bool,
    background: bool)

  /** One callback of the chain's handler at some index. */
  datatype Call = Call(handler: nat, phase: Phase)

  datatype Failure = Failure(name: string, phase: Phase, cancelled: bool)

  datatype Event = Event(accepted: bool, seen: seq<string>, errors: seq<Failure>, calls: seq<Call>)

  const NEW_EVENT := Event(false, [], [], [])

  // --------------------------------------------------------------------------------------------
  // What the runtime does
  // --------------------------------------------------------------------------------------------

  function Recorded(h: Handler, e: Event, i: nat, phase: Phase, eff: Effect): Event {
    Event(e.accepted || eff.accepts, e.seen,
          if eff.result.Completes? || h.background then e.errors
          else e.errors + [Failure(h.name, phase, eff.result.Cancels?)],
          e.calls + [Call(i, phase)])
  }

  /** One phase; a failure outside on_error is reported to on_error once.  True: cancelled. */
  function Invoke(h: Handler, e: Event, i: nat, phase: Phase, effects: Effects): (Event, bool)
    decreases if phase.OnError? then 0 else 1
  {
    var eff := effects(|e.calls|);
    var f := Recorded(h, e, i, phase, eff);
    match eff.result
    case Completes => (f, false)
    case Cancels => (f, true)
    case Fails => if !phase.OnError? && h.onError then Invoke(h, f, i, OnError, effects) else (f, false)
  }

  function Execute(h: Handler, e: Event, i: nat, effects: Effects): (Event, bool) {
    var notified := if e.errors != [] && h.onHasError then Invoke(h, e, i, OnHasError, effects) else (e, false);
    var f := notified.0;
    if notified.1 then notified
    else if f.accepted then (if h.onAccepted then Invoke(h, f, i, OnAccepted, effects) else (f, false))
    else if f.errors != [] && h.stopWhenError then (f, false)
    else Invoke(h, f.(seen := f.seen + [h.name]), i, Core, effects)
  }

  /** The foreground handlers from index i on; background ones only get a task of their own. */
  function RunChain(handlers: seq<Handler>, e: Event, i: nat, effects: Effects): (Event, bool)
    requires i <= |handlers|
    decreases |handlers| - i
  {
    if i == |handlers| then (e, false)
    else if handlers[i].background then RunChain(handlers, e, i + 1, effects)
    else
      var done := Execute(handlers[i], e, i, effects);
      if done.1 then done else RunChain(handlers, done.0, i + 1, effects)
  }

  /** Cancellation is reported to every foreground handler; what the hooks do is only logged. */
  function NotifyAll(handlers: seq<Handler>, e: Event, i: nat, effects: Effects): Event
    requires i <= |handlers|
    decreases |handlers| - i
  {
    if i == |handlers| then e
    else if handlers[i].background || !handlers[i].onCancelled then NotifyAll(handlers, e, i + 1, effects)
    else
      var f := e.(accepted := e.accepted || effects(|e.calls|).accepts, calls := e.calls + [Call(i, OnCancelled)]);
      NotifyAll(handlers, f, i + 1, effects)
  }

  function Dispatch(handlers: seq<Handler>, e: Event, effects: Effects): (Event, bool) {
    var done := RunChain(handlers, e, 0, effects);
    if done.1 then (NotifyAll(handlers, done.0, 0, effects), true) else done
  }

  // --------------------------------------------------------------------------------------------
  // The discipline of a call sequence
  // --------------------------------------------------------------------------------------------

  predicate AcceptedAfter(effects: Effects, n: nat) {
    n > 0 && (AcceptedAfter(effects, n - 1) || effects(n - 1).accepts)
  }

  predicate FailedAfter(effects: Effects, n: nat) {
    n > 0 && (FailedAfter(effects, n - 1) || !effects(n - 1).result.Completes?)
  }

  /** Handler i has made no call yet. */
  predicate Fresh(before: seq<Call>, i: nat) {
    before == [] || before[|before| - 1].handler < i
  }

  /** The last call was handler i's and failed, and on_error has yet to be told. */
  predicate Unreported(h: Handler, effects: Effects, before: seq<Call>, i: nat) {
    var n := |before|;
    n > 0 && before[n - 1].handler == i && !before[n - 1].phase.OnError? && effects(n - 1).result.Fails? && h.onError
  }

  /** Handler i has been told of earlier errors, where it has to be: its acceptance notice or its core
      is what may come next. */
  predicate Decides(h: Handler, effects: Effects, before: seq<Call>, i: nat) {
    var n := |before|;
    if Fresh(before, i) then !(FailedAfter(effects, n) && h.onHasError)
    else
      && !Unreported(h, effects, before, i)
      && (before[n - 1] == Call(i, OnHasError)
          || (before[n - 1] == Call(i, OnError) && n > 1 && before[n - 2] == Call(i, OnHasError)))
  }

  /** The calls a handler's own state calls for after the calls `before`, whoever else has one. */
  predicate Offered(handlers: seq<Handler>, effects: Effects, before: seq<Call>, c: Call) {
    var n := |before|;
    && c.handler < |handlers| && !handlers[c.handler].background
    && (n > 0 ==> before[n - 1].handler <= c.handler && !effects(n - 1).result.Cancels?)
    && var h := handlers[c.handler];
       match c.phase
       case OnHasError => Fresh(before, c.handler) && FailedAfter(effects, n) && h.onHasError
       case OnAccepted => Decides(h, effects, before, c.handler) && AcceptedAfter(effects, n) && h.onAccepted
       case Core =>
         && Decides(h, effects, before, c.handler) && !AcceptedAfter(effects, n)
         && !(FailedAfter(effects, n) && h.stopWhenError)
       case OnError => Unreported(h, effects, before, c.handler)
       case OnCancelled => false
  }

  /** No handler before the i-th has a call to make. */
  ghost predicate Quiet(handlers: seq<Handler>, effects: Effects, calls: seq<Call>, i: nat) {
    forall c: Call :: c.handler < i ==> !Offered(handlers, effects, calls, c)
  }

  /** The next call: the first handler with a call to make makes it. */
  ghost predicate Due(handlers: seq<Handler>, effects: Effects, before: seq<Call>, c: Call) {
    Offered(handlers, effects, before, c) && Quiet(handlers, effects, before, c.handler)
  }

  ghost predicate Disciplined(handlers: seq<Handler>, effects: Effects, calls: seq<Call>) {
    calls == [] ||
    var n := |calls| - 1;
    Disciplined(handlers, effects, calls[..n]) && Due(handlers, effects, calls[..n], calls[n])
  }

  function Cores(handlers: seq<Handler>, calls: seq<Call>): seq<string> {
    if calls == [] then []
    else
      var c := calls[|calls| - 1];
      Cores(handlers, calls[..|calls| - 1])
      + if c.phase.Core? && c.handler < |handlers| then [handlers[c.handler].name] else []
  }

  function Failures(handlers: seq<Handler>, effects: Effects, calls: seq<Call>): seq<Failure> {
    if calls == [] then []
    else
      var n := |calls| - 1;
      Failures(handlers, effects, calls[..n])
      + if effects(n).result.Completes? || calls[n].handler >= |handlers| then []
        else [Failure(handlers[calls[n].handler].name, calls[n].phase, effects(n).result.Cancels?)]
  }

  /** The event shows exactly what the calls did. */
  ghost predicate Faithful(handlers: seq<Handler>, effects: Effects, e: Event) {
    && Disciplined(handlers, effects, e.calls)
    && e.accepted == AcceptedAfter(effects, |e.calls|)
    && e.seen == Cores(handlers, e.calls)
    && e.errors == Failures(handlers, effects, e.calls)
    && (e.errors != [] <==> FailedAfter(effects, |e.calls|))
  }

  predicate UpTo(e: Event, i: nat, inclusive: bool) {
    e.calls == [] || e.calls[|e.calls| - 1].handler < i || (inclusive && e.calls[|e.calls| - 1].handler == i)
  }

  /** The last call, if any, was not cancelled. */
  predicate Alive(e: Event, effects: Effects) {
    e.calls == [] || !effects(|e.calls| - 1).result.Cancels?
  }

  lemma OneCall(handlers: seq<Handler>, effects: Effects, e: Event, i: nat, phase: Phase)
    requires Faithful(handlers, effects, e) && i < |handlers| && !handlers[i].background
    requires Due(handlers, effects, e.calls, Call(i, phase))
    ensures var before := if phase.Core? then e.(seen := e.seen + [handlers[i].name]) else e;
            var f := Recorded(handlers[i], before, i, phase, effects(|e.calls|));
            Faithful(handlers, effects, f) && f.calls == e.calls + [Call(i, phase)]
  {
    var calls := e.calls + [Call(i, phase)];
    assert calls[..|calls| - 1] == e.calls;
  }

  /** What one phase adds: its own call, and that of on_error if it failed. */
  lemma InvokeCalls(h: Handler, e: Event, i: nat, phase: Phase, effects: Effects)
    requires !phase.OnError?
    ensures var f := Invoke(h, e, i, phase, effects); var reports := effects(|e.calls|).result.Fails? && h.onError;
            && f.0.calls == e.calls + [Call(i, phase)] + (if reports then [Call(i, OnError)] else [])
            && (f.1 <==> effects(|f.0.calls| - 1).result.Cancels?)
            && f.0 == (var g := Recorded(h, e, i, phase, effects(|e.calls|));
                       if reports then Recorded(h, g, i, OnError, effects(|g.calls|)) else g)
  {
  }

  /** A call leaves no earlier handler anything to do. */
  lemma CallQuiets(handlers: seq<Handler>, effects: Effects, calls: seq<Call>, c: Call)
    ensures Quiet(handlers, effects, calls + [c], c.handler)
  {
  }

  lemma ErrorIsDue(handlers: seq<Handler>, effects: Effects, calls: seq<Call>, i: nat, phase: Phase)
    requires i < |handlers| && !handlers[i].background && handlers[i].onError && !phase.OnError?
    requires effects(|calls|).result.Fails?
    ensures Due(handlers, effects, calls + [Call(i, phase)], Call(i, OnError))
  {
    hide FailedAfter;
    hide AcceptedAfter;
    CallQuiets(handlers, effects, calls, Call(i, phase));
  }

  lemma InvokeFaithful(handlers: seq<Handler>, effects: Effects, e: Event, i: nat, phase: Phase)
    requires Faithful(handlers, effects, e) && i < |handlers| && !handlers[i].background
    requires Due(handlers, effects, e.calls, Call(i, phase)) && !phase.OnError?
    ensures var before := if phase.Core? then e.(seen := e.seen + [handlers[i].name]) else e;
            var f := Invoke(handlers[i], before, i, phase, effects);
            Faithful(handlers, effects, f.0) && UpTo(f.0, i, true) && (f.1 <==> !Alive(f.0, effects))
  {
    hide Faithful;
    hide Due;
    hide Invoke;
    hide Recorded;
    var before := if phase.Core? then e.(seen := e.seen + [handlers[i].name]) else e;
    var f := Recorded(handlers[i], before, i, phase, effects(|e.calls|));
    OneCall(handlers, effects, e, i, phase);
    InvokeCalls(handlers[i], before, i, phase, effects);
    if effects(|e.calls|).result.Fails? && handlers[i].onError {
      ErrorIsDue(handlers, effects, e.calls, i, phase);
      OneCall(handlers, effects, f, i, OnError);
    }
  }

  /** The calls of one phase, as InvokeCalls gives them. */
  predicate PhaseMade(h: Handler, effects: Effects, before: seq<Call>, i: nat, phase: Phase, calls: seq<Call>) {
    calls == before + [Call(i, phase)] + if effects(|before|).result.Fails? && h.onError then [Call(i, OnError)] else []
  }

  lemma NotifiedDecides(handlers: seq<Handler>, effects: Effects, before: seq<Call>, i: nat, calls: seq<Call>)
    requires i < |handlers| && PhaseMade(handlers[i], effects, before, i, OnHasError, calls)
    ensures Decides(handlers[i], effects, calls, i) && Quiet(handlers, effects, calls, i)
  {
    hide FailedAfter;
    hide AcceptedAfter;
  }

  lemma DecidedQuiets(
    handlers: seq<Handler>, effects: Effects, before: seq<Call>, i: nat, phase: Phase, calls: seq<Call>)
    requires i < |handlers| && PhaseMade(handlers[i], effects, before, i, phase, calls)
    requires phase.OnAccepted? || phase.Core?
    ensures Quiet(handlers, effects, calls, i + 1)
  {
    hide FailedAfter;
    hide AcceptedAfter;
  }

  /** The second half of a handler's turn, once it decides. */
  lemma DecisionFaithful(handlers: seq<Handler>, effects: Effects, e: Event, i: nat)
    requires Faithful(handlers, effects, e) && i < |handlers| && !handlers[i].background
    requires UpTo(e, i, true) && Alive(e, effects)
    requires Decides(handlers[i], effects, e.calls, i) && Quiet(handlers, effects, e.calls, i)
    ensures var h := handlers[i];
            var f := if e.accepted then (if h.onAccepted then Invoke(h, e, i, OnAccepted, effects) else (e, false))
                     else if e.errors != [] && h.stopWhenError then (e, false)
                     else Invoke(h, e.(seen := e.seen + [h.name]), i, Core, effects);
            && Faithful(handlers, effects, f.0) && UpTo(f.0, i, true) && (f.1 <==> !Alive(f.0, effects))
            && Quiet(handlers, effects, f.0.calls, i + 1)
  {
    hide Invoke;
    hide Disciplined;
    var h := handlers[i];
    if e.accepted && h.onAccepted {
      InvokeFaithful(handlers, effects, e, i, OnAccepted);
      InvokeCalls(h, e, i, OnAccepted, effects);
      DecidedQuiets(handlers, effects, e.calls, i, OnAccepted, Invoke(h, e, i, OnAccepted, effects).0.calls);
    } else if !e.accepted && !(e.errors != [] && h.stopWhenError) {
      var before := e.(seen := e.seen + [h.name]);
      InvokeFaithful(handlers, effects, e, i, Core);
      InvokeCalls(h, before, i, Core, effects);
      DecidedQuiets(handlers, effects, e.calls, i, Core, Invoke(h, before, i, Core, effects).0.calls);
    }
  }

  lemma CancelledQuiets(handlers: seq<Handler>, effects: Effects, e: Event)
    requires !Alive(e, effects)
    ensures forall i: nat :: Quiet(handlers, effects, e.calls, i)
  {
    hide FailedAfter;
    hide AcceptedAfter;
  }

  lemma ExecuteFaithful(handlers: seq<Handler>, effects: Effects, e: Event, i: nat)
    requires Faithful(handlers, effects, e) && i < |handlers| && !handlers[i].background
    requires UpTo(e, i, false) && Alive(e, effects) && Quiet(handlers, effects, e.calls, i)
    ensures var f := Execute(handlers[i], e, i, effects);
            && Faithful(handlers, effects, f.0) && UpTo(f.0, i, true) && (f.1 <==> !Alive(f.0, effects))
            && Quiet(handlers, effects, f.0.calls, i + 1)
  {
    hide Invoke;
    hide Disciplined;
    hide Quiet;
    if e.errors != [] && handlers[i].onHasError {
      var f := Invoke(handlers[i], e, i, OnHasError, effects);
      InvokeFaithful(handlers, effects, e, i, OnHasError);
      InvokeCalls(handlers[i], e, i, OnHasError, effects);
      if f.1 {
        CancelledQuiets(handlers, effects, f.0);
      } else {
        NotifiedDecides(handlers, effects, e.calls, i, f.0.calls);
        DecisionFaithful(handlers, effects, f.0, i);
      }
    } else {
      DecisionFaithful(handlers, effects, e, i);
    }
  }

  lemma {:induction false} ChainFaithful(handlers: seq<Handler>, effects: Effects, e: Event, i: nat)
    requires Faithful(handlers, effects, e) && i <= |handlers|
    requires UpTo(e, i, false) && Alive(e, effects) && Quiet(handlers, effects, e.calls, i)
    ensures var f := RunChain(handlers, e, i, effects);
            && Faithful(handlers, effects, f.0) && (f.1 <==> !Alive(f.0, effects))
            && Quiet(handlers, effects, f.0.calls, |handlers|)
    decreases |handlers| - i
  {
    hide Execute;
    hide Faithful;
    if i < |handlers| {
      if handlers[i].background {
        ChainFaithful(handlers, effects, e, i + 1);
      } else {
        ExecuteFaithful(handlers, effects, e, i);
        var done := Execute(handlers[i], e, i, effects);
        if done.1 {
          CancelledQuiets(handlers, effects, done.0);
        } else {
          ChainFaithful(handlers, effects, done.0, i + 1);
        }
      }
    }
  }

  /** Whatever the callbacks do, an event's chain makes in handler order each call that is due and no
      other: error notices before anything else of a handler, a core never after acceptance nor, for
      one that stops on errors, after a failure, on_error right behind the failure it reports, nothing
      behind a cancellation.  At the end no call is left to make, and the event records exactly the
      cores that ran and the calls that failed. */
  lemma NewEventFaithful(handlers: seq<Handler>, effects: Effects)
    ensures var f := RunChain(handlers, NEW_EVENT, 0, effects);
            && Faithful(handlers, effects, f.0) && Quiet(handlers, effects, f.0.calls, |handlers|)
            && (f.1 <==> !Alive(f.0, effects))
  {
    ChainFaithful(handlers, effects, NEW_EVENT, 0);
  }

  /** After given calls there is at most one that is due. */
  lemma DueIsUnique(handlers: seq<Handler>, effects: Effects, before: seq<Call>, c: Call, d: Call)
    requires Due(handlers, effects, before, c) && Due(handlers, effects, before, d)
    ensures c == d
  {
    hide FailedAfter;
    hide AcceptedAfter;
    assert !(c.handler < d.handler) && !(d.handler < c.handler);
  }

  lemma {:induction false} DisciplinedAt(handlers: seq<Handler>, effects: Effects, calls: seq<Call>, k: nat)
    requires Disciplined(handlers, effects, calls) && k < |calls|
    ensures Due(handlers, effects, calls[..k], calls[k])
  {
    hide Due;
    var n := |calls| - 1;
    if k < n {
      DisciplinedAt(handlers, effects, calls[..n], k);
      assert calls[..n][..k] == calls[..k];
    }
  }

  /** Calls that are each due and leave none due: what the callbacks do determines them. */
  lemma {:induction false} CallsDetermined(handlers: seq<Handler>, effects: Effects, calls: seq<Call>, other: seq<Call>)
    requires Disciplined(handlers, effects, calls) && Quiet(handlers, effects, calls, |handlers|)
    requires Disciplined(handlers, effects, other) && Quiet(handlers, effects, other, |handlers|)
    ensures calls == other
  {
    CommonPrefix(handlers, effects, calls, other, |calls|);
    CommonPrefix(handlers, effects, other, calls, |other|);
  }

  lemma {:induction false} CommonPrefix(
    handlers: seq<Handler>, effects: Effects, calls: seq<Call>, other: seq<Call>, k: nat)
    requires Disciplined(handlers, effects, calls)
    requires Disciplined(handlers, effects, other) && Quiet(handlers, effects, other, |handlers|)
    requires k <= |calls|
    ensures k <= |other| && calls[..k] == other[..k]
  {
    hide Disciplined;
    hide Offered;
    if k > 0 {
      CommonPrefix(handlers, effects, calls, other, k - 1);
      DisciplinedAt(handlers, effects, calls, k - 1);
      if k - 1 == |other| {
        assert other[..k - 1] == other;
        NothingOffered(handlers, effects, other, calls[k - 1]);
      }
      DisciplinedAt(handlers, effects, other, k - 1);
      DueIsUnique(handlers, effects, calls[..k - 1], calls[k - 1], other[k - 1]);
      assert calls[..k] == calls[..k - 1] + [calls[k - 1]];
      assert other[..k] == other[..k - 1] + [other[k - 1]];
    }
  }

  lemma OfferedInRange(handlers: seq<Handler>, effects: Effects, before: seq<Call>, c: Call)
    requires Offered(handlers, effects, before, c)
    ensures c.handler < |handlers|
  {
  }

  lemma {:induction false} HandlersAscend(handlers: seq<Handler>, effects: Effects, calls: seq<Call>, j: nat, k: nat)
    requires Disciplined(handlers, effects, calls) && j <= k < |calls|
    ensures calls[j].handler <= calls[k].handler
    decreases k
  {
    hide Disciplined;
    if j < k {
      HandlersAscend(handlers, effects, calls, j, k - 1);
      DisciplinedAt(handlers, effects, calls, k);
    }
  }

  /** Within a handler's turn the error notice can only come first, and behind its acceptance notice or
      core only on_error can come: no handler gets one of the three twice, or both of the latter. */
  lemma {:induction false} AtMostOnce(handlers: seq<Handler>, effects: Effects, calls: seq<Call>, j: nat, k: nat)
    requires Disciplined(handlers, effects, calls) && j < k < |calls| && calls[j].handler == calls[k].handler
    ensures !calls[k].phase.OnHasError?
    ensures calls[j].phase.OnAccepted? || calls[j].phase.Core? ==> calls[k].phase.OnError?
  {
    hide Disciplined;
    hide FailedAfter;
    hide AcceptedAfter;
    HandlersAscend(handlers, effects, calls, j, k - 1);
    HandlersAscend(handlers, effects, calls, k - 1, k);
    DisciplinedAt(handlers, effects, calls, k);
    if calls[k].phase.OnAccepted? || calls[k].phase.Core? {
      var p := if calls[k - 1].phase.OnHasError? then k - 1 else k - 2;
      DisciplinedAt(handlers, effects, calls, p);
      if j < p {
        HandlersAscend(handlers, effects, calls, j, p - 1);
      }
    }
  }

  function Notices(handlers: seq<Handler>, i: nat): seq<Call>
    requires i <= |handlers|
    decreases |handlers| - i
  {
    if i == |handlers| then []
    else
      (if handlers[i].background || !handlers[i].onCancelled then [] else [Call(i, OnCancelled)])
      + Notices(handlers, i + 1)
  }

  /** A cancelled dispatch notifies each foreground handler of its captured chain once, in order, and
      records nothing more. */
  lemma {:induction false} CancellationNotices(handlers: seq<Handler>, e: Event, i: nat, effects: Effects)
    requires i <= |handlers|
    ensures var f := NotifyAll(handlers, e, i, effects);
            f.calls == e.calls + Notices(handlers, i) && f.seen == e.seen && f.errors == e.errors
    decreases |handlers| - i
  {
    if i < |handlers| {
      if handlers[i].background || !handlers[i].onCancelled {
        CancellationNotices(handlers, e, i + 1, effects);
      } else {
        var f := e.(accepted := e.accepted || effects(|e.calls|).accepts, calls := e.calls + [Call(i, OnCancelled)]);
        CancellationNotices(handlers, f, i + 1, effects);
      }
    }
  }

  /** One of the callbacks numbered from m up to n accepts the event. */
  ghost predicate AcceptsFrom(effects: Effects, m: nat, n: nat) {
    exists k: nat :: m <= k < n && effects(k).accepts
  }

  /** A notified handler can still accept the event. */
  lemma {:induction false} NoticesAccept(handlers: seq<Handler>, e: Event, i: nat, effects: Effects)
    requires i <= |handlers|
    ensures var f := NotifyAll(handlers, e, i, effects);
            |f.calls| >= |e.calls| && (f.accepted <==> e.accepted || AcceptsFrom(effects, |e.calls|, |f.calls|))
    decreases |handlers| - i
  {
    hide AcceptsFrom;
    if i == |handlers| {
      AcceptsNone(effects, |e.calls|);
    } else if handlers[i].background || !handlers[i].onCancelled {
      NoticesAccept(handlers, e, i + 1, effects);
    } else {
      var f := e.(accepted := e.accepted || effects(|e.calls|).accepts, calls := e.calls + [Call(i, OnCancelled)]);
      NoticesAccept(handlers, f, i + 1, effects);
      AcceptsSplit(effects, |e.calls|, |NotifyAll(handlers, f, i + 1, effects).calls|);
    }
  }

  lemma AcceptsNone(effects: Effects, n: nat)
    ensures !AcceptsFrom(effects, n, n)
  {
  }

  lemma AcceptsSplit(effects: Effects, m: nat, n: nat)
    requires m < n
    ensures AcceptsFrom(effects, m, n) <==> effects(m).accepts || AcceptsFrom(effects, m + 1, n)
  {
  }

  /** Notices of the foreground handlers with that hook from the i-th on, each once, in order. */
  ghost predicate NoticesOk(handlers: seq<Handler>, i: nat, notices: seq<Call>) {
    && (forall n :: 0 <= n < |notices| ==> notices[n].phase.OnCancelled? && i <= notices[n].handler < |handlers|)
    && (forall m, n :: 0 <= m < n < |notices| ==> notices[m].handler < notices[n].handler)
    && (forall k :: i <= k < |handlers| ==>
          (Call(k, OnCancelled) in notices <==> !handlers[k].background && handlers[k].onCancelled))
  }

  lemma {:induction false} NoticesAre(handlers: seq<Handler>, i: nat)
    requires i <= |handlers|
    ensures NoticesOk(handlers, i, Notices(handlers, i))
    decreases |handlers| - i
  {
    hide NoticesOk;
    if i == |handlers| {
      NoNotices(handlers);
    } else {
      NoticesAre(handlers, i + 1);
      var rest := Notices(handlers, i + 1);
      assert [] + rest == rest;
      if handlers[i].background || !handlers[i].onCancelled {
        NoticeSkipped(handlers, i, rest);
      } else {
        NoticePut(handlers, i, rest);
      }
    }
  }

  lemma NoNotices(handlers: seq<Handler>)
    ensures NoticesOk(handlers, |handlers|, [])
  {
  }

  lemma NoticeSkipped(handlers: seq<Handler>, i: nat, rest: seq<Call>)
    requires i < |handlers| && (handlers[i].background || !handlers[i].onCancelled) && NoticesOk(handlers, i + 1, rest)
    ensures NoticesOk(handlers, i, rest)
  {
    assert forall n :: 0 <= n < |rest| ==> rest[n].handler != i;
  }

  lemma NoticePut(handlers: seq<Handler>, i: nat, rest: seq<Call>)
    requires i < |handlers| && !handlers[i].background && handlers[i].onCancelled && NoticesOk(handlers, i + 1, rest)
    ensures NoticesOk(handlers, i, [Call(i, OnCancelled)] + rest)
  {
    var first := Call(i, OnCancelled);
    var notices := [first] + rest;
    assert notices[0] == first;
    assert forall n :: 0 < n < |notices| ==> notices[n] == rest[n - 1];
    forall k | i <= k < |handlers|
      ensures Call(k, OnCancelled) in notices <==> !handlers[k].background && handlers[k].onCancelled
    {
      assert Call(k, OnCancelled) in notices <==> Call(k, OnCancelled) == first || Call(k, OnCancelled) in rest;
    }
  }

  /** No call of a chain is a cancellation notice. */
  lemma {:induction false} ChainHasNoNotice(handlers: seq<Handler>, effects: Effects, calls: seq<Call>, n: nat)
    requires Disciplined(handlers, effects, calls) && n < |calls|
    ensures !calls[n].phase.OnCancelled? && calls[n].handler < |handlers|
  {
    DisciplinedAt(handlers, effects, calls, n);
    hide Disciplined;
  }

  /** How a dispatched event's calls split: those of its chain, and the notices of its cancellation. */
  ghost predicate SplitAt(handlers: seq<Handler>, effects: Effects, calls: seq<Call>, cancelled: bool, k: nat) {
    && k <= |calls|
    && Disciplined(handlers, effects, calls[..k]) && Quiet(handlers, effects, calls[..k], |handlers|)
    && (forall n :: 0 <= n < |calls| ==> (calls[n].phase.OnCancelled? <==> n >= k))
    && (cancelled <==> k > 0 && effects(k - 1).result.Cancels?)
    && (!cancelled ==> k == |calls|)
    && (forall m, n :: k <= m < n < |calls| ==> calls[m].handler < calls[n].handler)
    && (cancelled ==>
          forall i: nat :: Call(i, OnCancelled) in calls[k..] <==>
            i < |handlers| && !handlers[i].background && handlers[i].onCancelled)
  }

  /** A dispatched event's calls are the due calls of its chain until none is left to make.  If the last
      of them was cancelled, every foreground handler with that hook is told, once and in order; if not,
      none is.  The notices record nothing. */
  lemma DispatchNotifies(handlers: seq<Handler>, effects: Effects)
    ensures var r := Dispatch(handlers, NEW_EVENT, effects);
            && (r.0.accepted <==> AcceptsFrom(effects, 0, |r.0.calls|))
            && exists k: nat ::
                 && SplitAt(handlers, effects, r.0.calls, r.1, k)
                 && r.0.seen == Cores(handlers, r.0.calls[..k])
                 && r.0.errors == Failures(handlers, effects, r.0.calls[..k])
  {
    var done := RunChain(handlers, NEW_EVENT, 0, effects);
    var r := Dispatch(handlers, NEW_EVENT, effects);
    hide RunChain;
    hide NotifyAll;
    hide Disciplined;
    hide Quiet;
    hide Notices;
    hide Cores;
    hide Failures;
    hide SplitAt;
    hide AcceptsFrom;
    NewEventFaithful(handlers, effects);
    AcceptedIs(effects, |done.0.calls|);
    CancellationNotices(handlers, done.0, 0, effects);
    NoticesAccept(handlers, done.0, 0, effects);
    AcceptsJoin(effects, |done.0.calls|, |NotifyAll(handlers, done.0, 0, effects).calls|);
    ChainSplits(handlers, effects, done.0.calls, if r.1 then Notices(handlers, 0) else [], r.1);
    assert done.0.calls + [] == done.0.calls;
    assert r.0.calls[..|done.0.calls|] == done.0.calls;
  }

  lemma ChainSplits(handlers: seq<Handler>, effects: Effects, chain: seq<Call>, notices: seq<Call>, cancelled: bool)
    requires Disciplined(handlers, effects, chain) && Quiet(handlers, effects, chain, |handlers|)
    requires cancelled <==> chain != [] && effects(|chain| - 1).result.Cancels?
    requires notices == if cancelled then Notices(handlers, 0) else []
    ensures SplitAt(handlers, effects, chain + notices, cancelled, |chain|)
  {
    hide Disciplined;
    hide Quiet;
    hide Notices;
    NoticesAre(handlers, 0);
    forall n | 0 <= n < |chain|
      ensures !chain[n].phase.OnCancelled?
    {
      ChainHasNoNotice(handlers, effects, chain, n);
    }
    var calls := chain + notices;
    assert calls[..|chain|] == chain && calls[|chain|..] == notices;
  }

  lemma {:induction false} AcceptedIs(effects: Effects, n: nat)
    ensures AcceptedAfter(effects, n) <==> AcceptsFrom(effects, 0, n)
  {
    if n > 0 {
      AcceptedIs(effects, n - 1);
    }
  }

  lemma AcceptsJoin(effects: Effects, m: nat, n: nat)
    requires m <= n
    ensures AcceptsFrom(effects, 0, n) <==> AcceptsFrom(effects, 0, m) || AcceptsFrom(effects, m, n)
  {
  }

  /** A handler with every callback, as the graph's dispatch handler is. */
  predicate Complete(h: Handler) {
    h.onHasError && h.onAccepted && h.onError && h.onCancelled && h.stopWhenError && !h.background
  }

  /** What a complete handler is called for first. */
  ghost function FirstDue(effects: Effects, n: nat): Phase {
    if FailedAfter(effects, n) then OnHasError else if AcceptedAfter(effects, n) then OnAccepted else Core
  }

  /** A complete handler whose turn has come and has not begun has a call to make. */
  lemma TurnOffered(handlers: seq<Handler>, effects: Effects, before: seq<Call>, i: nat) returns (phase: Phase)
    requires i < |handlers| && Complete(handlers[i]) && Fresh(before, i)
    requires before != [] ==> !effects(|before| - 1).result.Cancels?
    ensures Offered(handlers, effects, before, Call(i, phase))
  {
    hide FailedAfter;
    hide AcceptedAfter;
    phase := FirstDue(effects, |before|);
  }

  /** How many calls handlers before the i-th made. */
  lemma {:induction false} TurnStart(handlers: seq<Handler>, effects: Effects, calls: seq<Call>, i: nat) returns (n: nat)
    requires Disciplined(handlers, effects, calls)
    ensures n <= |calls| && Fresh(calls[..n], i) && (n < |calls| ==> calls[n].handler >= i)
    decreases |calls|
  {
    if calls == [] || calls[|calls| - 1].handler < i {
      n := |calls|;
      assert calls[..n] == calls;
    } else {
      var last := |calls| - 1;
      n := TurnStart(handlers, effects, calls[..last], i);
      assert calls[..last][..n] == calls[..n];
    }
  }

  /** The first call of a complete handler, and the report of its failure behind it. */
  ghost predicate Reported(effects: Effects, calls: seq<Call>, i: nat, n: nat) {
    && n < |calls| && Fresh(calls[..n], i)
    && calls[n] == Call(i, FirstDue(effects, n))
    && (effects(n).result.Fails? ==> n + 1 < |calls| && calls[n + 1] == Call(i, OnError))
  }

  lemma FirstCall(handlers: seq<Handler>, effects: Effects, calls: seq<Call>, i: nat) returns (n: nat)
    requires Disciplined(handlers, effects, calls) && Quiet(handlers, effects, calls, |handlers|)
    requires i < |handlers| && Complete(handlers[i])
    requires calls != [] ==> !effects(|calls| - 1).result.Cancels?
    ensures n < |calls| && Fresh(calls[..n], i) && calls[n].handler == i && Due(handlers, effects, calls[..n], calls[n])
  {
    n := TurnStart(handlers, effects, calls, i);
    hide Disciplined;
    hide Offered;
    hide FailedAfter;
    hide AcceptedAfter;
    if n < |calls| {
      DisciplinedAt(handlers, effects, calls, n);
      AliveBefore(handlers, effects, calls[..n], calls[n]);
      var phase := TurnOffered(handlers, effects, calls[..n], i);
    } else {
      assert calls[..n] == calls;
      var phase := TurnOffered(handlers, effects, calls, i);
      NothingOffered(handlers, effects, calls, Call(i, phase));
    }
  }

  lemma NothingOffered(handlers: seq<Handler>, effects: Effects, calls: seq<Call>, c: Call)
    requires Quiet(handlers, effects, calls, |handlers|)
    ensures !Offered(handlers, effects, calls, c)
  {
    if Offered(handlers, effects, calls, c) {
      OfferedInRange(handlers, effects, calls, c);
    }
  }

  lemma AliveBefore(handlers: seq<Handler>, effects: Effects, before: seq<Call>, c: Call)
    requires Due(handlers, effects, before, c)
    ensures before != [] ==> !effects(|before| - 1).result.Cancels?
  {
  }

  /** A failure that has to be reported is, at once. */
  lemma FailureReported(handlers: seq<Handler>, effects: Effects, calls: seq<Call>, n: nat)
    requires Disciplined(handlers, effects, calls) && Quiet(handlers, effects, calls, |handlers|) && n < |calls|
    requires calls[n].handler < |handlers| && handlers[calls[n].handler].onError && !handlers[calls[n].handler].background
    requires effects(n).result.Fails? && !calls[n].phase.OnError?
    ensures n + 1 < |calls| && calls[n + 1] == Call(calls[n].handler, OnError)
  {
    var i, before := calls[n].handler, calls[..n + 1];
    assert before == calls[..n] + [calls[n]];
    ErrorIsDue(handlers, effects, calls[..n], i, calls[n].phase);
    assert before == calls || n + 1 < |calls|;
    hide Disciplined;
    hide Offered;
    NothingOffered(handlers, effects, calls, Call(i, OnError));
    DisciplinedAt(handlers, effects, calls, n + 1);
    DueIsUnique(handlers, effects, before, calls[n + 1], Call(i, OnError));
  }

  /** No exit of such a handler goes unreported.  If the dispatch was cancelled, in whosever callback, the
      handler is told.  If not, its turn came, and the first call of its turn tells it of an earlier
      failure, else of the acceptance of the event, else is its core; and its failure in that call is
      reported to it at once. */
  lemma EveryExitReported(handlers: seq<Handler>, effects: Effects, i: nat)
    requires i < |handlers| && Complete(handlers[i])
    ensures var r := Dispatch(handlers, NEW_EVENT, effects);
            if r.1 then Call(i, OnCancelled) in r.0.calls else exists n :: Reported(effects, r.0.calls, i, n)
  {
    hide Dispatch;
    hide Cores;
    hide Failures;
    hide SplitAt;
    hide AcceptsFrom;
    hide Reported;
    DispatchNotifies(handlers, effects);
    var r := Dispatch(handlers, NEW_EVENT, effects);
    var k: nat :| SplitAt(handlers, effects, r.0.calls, r.1, k);
    if r.1 {
      ToldOfCancellation(handlers, effects, r.0.calls, k, i);
    } else {
      UncancelledSplit(handlers, effects, r.0.calls, k);
      var n := TurnReported(handlers, effects, r.0.calls, i);
    }
  }

  lemma ToldOfCancellation(handlers: seq<Handler>, effects: Effects, calls: seq<Call>, k: nat, i: nat)
    requires SplitAt(handlers, effects, calls, true, k)
    requires i < |handlers| && !handlers[i].background && handlers[i].onCancelled
    ensures Call(i, OnCancelled) in calls
  {
    hide Disciplined;
    hide Quiet;
    assert Call(i, OnCancelled) in calls[k..];
  }

  lemma UncancelledSplit(handlers: seq<Handler>, effects: Effects, calls: seq<Call>, k: nat)
    requires SplitAt(handlers, effects, calls, false, k)
    ensures Disciplined(handlers, effects, calls) && Quiet(handlers, effects, calls, |handlers|)
    ensures calls != [] ==> !effects(|calls| - 1).result.Cancels?
  {
    hide Disciplined;
    hide Quiet;
    assert calls[..k] == calls;
  }

  lemma TurnReported(handlers: seq<Handler>, effects: Effects, calls: seq<Call>, i: nat) returns (n: nat)
    requires Disciplined(handlers, effects, calls) && Quiet(handlers, effects, calls, |handlers|)
    requires i < |handlers| && Complete(handlers[i])
    requires calls != [] ==> !effects(|calls| - 1).result.Cancels?
    ensures Reported(effects, calls, i, n)
  {
    hide Disciplined;
    hide Quiet;
    hide Due;
    hide FailedAfter;
    hide AcceptedAfter;
    n := FirstCall(handlers, effects, calls, i);
    FirstPhase(handlers, effects, calls[..n], i, calls[n].phase);
    if effects(n).result.Fails? {
      FailureReported(handlers, effects, calls, n);
    }
  }

  lemma FirstPhase(handlers: seq<Handler>, effects: Effects, before: seq<Call>, i: nat, phase: Phase)
    requires i < |handlers| && Complete(handlers[i]) && Fresh(before, i) && Due(handlers, effects, before, Call(i, phase))
    ensures phase == FirstDue(effects, |before|)
  {
    hide FailedAfter;
    hide AcceptedAfter;
    hide Quiet;
  }

  // --------------------------------------------------------------------------------------------
  // The objects
  // --------------------------------------------------------------------------------------------

  class ApixEvent {
    var accepted: bool
    var seen: seq<string>
    var errorStack: seq<Failure>
    var calls: seq<Call>

    constructor ()
      ensures Value() == NEW_EVENT
    {
      accepted, seen, errorStack, calls := false, [], [], [];
    }

    ghost function Value(): Event
      reads this
    {
      Event(accepted, seen, errorStack, calls)
    }

    /** The callback runs; `failure` is what it raised. */
    method Await(i: nat, phase: Phase, effects: Effects) returns (result: Result)
      modifies this
      ensures result == effects(|old(calls)|).result
      ensures Value() == old(Value()).(
                           accepted := old(accepted) || effects(|old(calls)|).accepts,
                           calls := old(calls) + [Call(i, phase)])
    {
      var effect := effects(|calls|);
      calls := calls + [Call(i, phase)];
      if effect.accepts {
        accepted := true;
      }
      result := effect.result;
    }
  }

  method ExecuteFunc(h: Handler, event: ApixEvent, i: nat, phase: Phase, effects: Effects) returns (cancelled: bool)
    modifies event
    ensures (event.Value(), cancelled) == Invoke(h, old(event.Value()), i, phase, effects)
    decreases if phase.OnError? then 0 else 1
  {
    var result := event.Await(i, phase, effects);
    match result {
      case Completes => cancelled := false;
      case Cancels =>
        if !h.background {
          event.errorStack := event.errorStack + [Failure(h.name, phase, true)];
        }
        cancelled := true;
      case Fails =>
        if !h.background {
          event.errorStack := event.errorStack + [Failure(h.name, phase, false)];
        }
        cancelled := false;
        if !phase.OnError? && h.onError {
          cancelled := ExecuteFunc(h, event, i, OnError, effects);
        }
    }
  }

  method ExecuteHandler(h: Handler, event: ApixEvent, i: nat, effects: Effects) returns (cancelled: bool)
    modifies event
    ensures (event.Value(), cancelled) == Execute(h, old(event.Value()), i, effects)
  {
    if event.errorStack != [] && h.onHasError {
      cancelled := ExecuteFunc(h, event, i, OnHasError, effects);
      if cancelled {
        return;
      }
    }
    if event.accepted {
      if h.onAccepted {
        cancelled := ExecuteFunc(h, event, i, OnAccepted, effects);
        return;
      }
      return false;
    }
    if event.errorStack != [] && h.stopWhenError {
      return false;
    }
    event.seen := event.seen + [h.name];
    cancelled := ExecuteFunc(h, event, i, Core, effects);
  }

  /** _dispatch_event: the chain in order, and on cancellation every foreground handler's notice. */
  method DispatchEvent(handlers: seq<Handler>, event: ApixEvent, effects: Effects) returns (cancelled: bool)
    modifies event
    ensures (event.Value(), cancelled) == Dispatch(handlers, old(event.Value()), effects)
  {
    hide Execute;
    hide NotifyAll;
    ghost var was := event.Value();
    cancelled := false;
    var i := 0;
    while i < |handlers| && !cancelled
      invariant 0 <= i <= |handlers|
      invariant RunChain(handlers, was, 0, effects) ==
                if cancelled then (event.Value(), true) else RunChain(handlers, event.Value(), i, effects)
      decreases |handlers| - i, !cancelled
    {
      if !handlers[i].background {
        cancelled := ExecuteHandler(handlers[i], event, i, effects);
      }
      i := i + 1;
    }
    if cancelled {
      NotifyCancelled(handlers, event, effects);
    }
  }

  method NotifyCancelled(handlers: seq<Handler>, event: ApixEvent, effects: Effects)
    modifies event
    ensures event.Value() == NotifyAll(handlers, old(event.Value()), 0, effects)
  {
    for i := 0 to |handlers|
      invariant NotifyAll(handlers, old(event.Value()), 0, effects) == NotifyAll(handlers, event.Value(), i, effects)
    {
      if !handlers[i].background && handlers[i].onCancelled {
        var result := event.Await(i, OnCancelled, effects);
      }
    }
  }
}
