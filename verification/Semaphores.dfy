/** What the runtime relies on of asyncio's bounded semaphore.

    A task that cannot take a permit joins `waiting`, in arrival order.  A release hands a permit
    to the oldest waiter, which is then `granted`: it owns the permit although it has not run yet.
    While a granted waiter has not run, nobody may take a free permit ahead of the queue. */
module Semaphores {

  datatype Semaphore<W> = Semaphore(bound: nat, free: nat, waiting: seq<W>, granted: set<W>)

  predicate Locked<W(==)>(s: Semaphore<W>) {
    s.free == 0 || s.waiting != [] || s.granted != {}
  }

  predicate InPool<W(==)>(s: Semaphore<W>, w: W) {
    w in s.waiting || w in s.granted
  }

  /** Permits that no task body owns: free ones and those on their way to a granted waiter. */
  ghost function Permits<W>(s: Semaphore<W>): nat {
    s.free + |s.granted|
  }

  /** No waiter is listed twice, and a free permit beside a queue means a granted waiter will run. */
  ghost predicate WellFormed<W>(s: Semaphore<W>) {
    && (forall i, j :: 0 <= i < j < |s.waiting| ==> s.waiting[i] != s.waiting[j])
    && (forall w :: w in s.waiting ==> w !in s.granted)
    && (s.free > 0 && s.waiting != [] ==> s.granted != {})
  }

  function WakeNext<W>(s: Semaphore<W>): Semaphore<W> {
    if s.free > 0 && s.waiting != [] then
      s.(free := s.free - 1, waiting := s.waiting[1..], granted := s.granted + {s.waiting[0]})
    else s
  }

  function WakeAll<W>(s: Semaphore<W>): Semaphore<W>
    decreases |s.waiting|
  {
    if s.free > 0 && s.waiting != [] then WakeAll(WakeNext(s)) else s
  }

  /** The fast path of acquire: only legal while !Locked(s). */
  function TakeFree<W>(s: Semaphore<W>): Semaphore<W>
    requires s.free > 0
  {
    s.(free := s.free - 1)
  }

  function Enqueue<W>(s: Semaphore<W>, w: W): Semaphore<W> {
    s.(waiting := s.waiting + [w])
  }

  /** release() of a bounded semaphore; the caller must know that it does not overflow. */
  function Release<W>(s: Semaphore<W>): Semaphore<W> {
    WakeNext(s.(free := s.free + 1))
  }

  /** A granted waiter runs: its permit leaves the semaphore and becomes its own. */
  function Resume<W>(s: Semaphore<W>, w: W): Semaphore<W> {
    WakeAll(s.(granted := s.granted - {w}))
  }

  /** A granted waiter runs, but to a cancellation: its permit goes back first. */
  function CancelGranted<W>(s: Semaphore<W>, w: W): Semaphore<W> {
    WakeAll(s.(granted := s.granted - {w}, free := s.free + 1))
  }

  function Without<W(==)>(q: seq<W>, w: W): seq<W> {
    if q == [] then []
    else if q[0] == w then Without(q[1..], w)
    else [q[0]] + Without(q[1..], w)
  }

  /** A waiter that was not granted yet is cancelled. */
  function CancelWaiting<W(==)>(s: Semaphore<W>, w: W): Semaphore<W> {
    s.(waiting := Without(s.waiting, w))
  }

  lemma WakeNextKeeps<W>(s: Semaphore<W>)
    requires forall i, j :: 0 <= i < j < |s.waiting| ==> s.waiting[i] != s.waiting[j]
    requires forall w :: w in s.waiting ==> w !in s.granted
    ensures Permits(WakeNext(s)) == Permits(s)
    ensures (forall x :: InPool(WakeNext(s), x) <==> InPool(s, x)) && WakeNext(s).bound == s.bound
    ensures s.granted <= WakeNext(s).granted
    ensures forall i, j :: 0 <= i < j < |WakeNext(s).waiting| ==> WakeNext(s).waiting[i] != WakeNext(s).waiting[j]
    ensures forall w :: w in WakeNext(s).waiting ==> w in s.waiting && w !in WakeNext(s).granted
    ensures |WakeNext(s).waiting| <= |s.waiting|
    ensures |WakeNext(s).waiting| + |WakeNext(s).granted| == |s.waiting| + |s.granted|
  {
    if s.free > 0 && s.waiting != [] {
      assert s.waiting == [s.waiting[0]] + s.waiting[1..];
    }
  }

  lemma {:induction false} WakeAllKeeps<W>(s: Semaphore<W>)
    requires forall i, j :: 0 <= i < j < |s.waiting| ==> s.waiting[i] != s.waiting[j]
    requires forall w :: w in s.waiting ==> w !in s.granted
    ensures WellFormed(WakeAll(s)) && Permits(WakeAll(s)) == Permits(s)
    ensures (forall x :: InPool(WakeAll(s), x) <==> InPool(s, x)) && WakeAll(s).bound == s.bound
    ensures s.granted <= WakeAll(s).granted
    ensures forall w :: w in WakeAll(s).waiting ==> w in s.waiting
    ensures |WakeAll(s).waiting| <= |s.waiting|
    ensures |WakeAll(s).waiting| + |WakeAll(s).granted| == |s.waiting| + |s.granted|
    decreases |s.waiting|
  {
    if s.free > 0 && s.waiting != [] {
      WakeNextKeeps(s);
      WakeAllKeeps(WakeNext(s));
    }
  }

  /** release adds one permit and loses no waiter. */
  /** How many waiters the free permits serve. */
  ghost function Served<W>(s: Semaphore<W>): (k: nat)
    ensures k <= |s.waiting| && k <= s.free
  {
    if s.free < |s.waiting| then s.free else |s.waiting|
  }

  lemma {:induction false} WakeAllLeaves<W>(s: Semaphore<W>)
    ensures WakeAll(s).waiting == s.waiting[Served(s)..] && WakeAll(s).free == s.free - Served(s)
    ensures WakeAll(s).bound == s.bound
    decreases |s.waiting|
  {
    if s.free > 0 && s.waiting != [] {
      var next := WakeNext(s);
      WakeAllLeaves(next);
      assert next.waiting[Served(next)..] == s.waiting[Served(s)..];
    }
  }

  lemma {:induction false} WakeAllGrants<W>(s: Semaphore<W>, w: W)
    ensures w in WakeAll(s).granted <==> w in s.granted || w in s.waiting[..Served(s)]
    decreases |s.waiting|
  {
    if s.free > 0 && s.waiting != [] {
      var next := WakeNext(s);
      WakeAllGrants(next, w);
      hide WakeAll;
      assert s.waiting[..Served(s)] == [s.waiting[0]] + next.waiting[..Served(next)];
    }
  }

  /** Free permits go to the waiters that arrived first, one each; the others keep their order. */
  lemma WakeAllInOrder<W>(s: Semaphore<W>)
    ensures var k := if s.free < |s.waiting| then s.free else |s.waiting|; var t := WakeAll(s);
            && t.waiting == s.waiting[k..] && t.free == s.free - k && t.bound == s.bound
            && forall w :: w in t.granted <==> w in s.granted || w in s.waiting[..k]
  {
    hide WakeAll;
    WakeAllLeaves(s);
    forall w
      ensures w in WakeAll(s).granted <==> w in s.granted || w in s.waiting[..Served(s)]
    {
      WakeAllGrants(s, w);
    }
  }

  /** A released permit goes to the waiter that arrived first, or becomes free if nobody waits. */
  lemma ReleaseInOrder<W>(s: Semaphore<W>)
    ensures var t := Release(s);
            if s.waiting == [] then t == s.(free := s.free + 1)
            else t.free == s.free && t.waiting == s.waiting[1..] && t.granted == s.granted + {s.waiting[0]}
  {
  }

  /** Cancelling a waiter leaves the order of the others. */
  lemma {:induction false} WithoutOne<W>(q: seq<W>, w: W, i: nat)
    requires i < |q| && q[i] == w && w !in q[..i] && w !in q[i + 1..]
    ensures Without(q, w) == q[..i] + q[i + 1..]
    decreases |q|
  {
    if i == 0 {
      WithoutAbsent(q[1..], w);
      assert q[..0] + q[1..] == q[1..];
    } else {
      assert q[1..][..i - 1] == q[..i][1..] && q[1..][i..] == q[i + 1..];
      assert q[0] == q[..i][0] && q[0] != w;
      WithoutOne(q[1..], w, i - 1);
      assert q[..i] == [q[0]] + q[1..][..i - 1];
    }
  }

  lemma {:induction false} WithoutAbsent<W>(q: seq<W>, w: W)
    requires w !in q
    ensures Without(q, w) == q
  {
    if q != [] {
      assert q[0] in q;
      WithoutAbsent(q[1..], w);
    }
  }

  lemma ReleaseKeeps<W>(s: Semaphore<W>)
    requires WellFormed(s)
    ensures WellFormed(Release(s)) && Permits(Release(s)) == Permits(s) + 1
    ensures (forall x :: InPool(Release(s), x) <==> InPool(s, x)) && Release(s).bound == s.bound
    ensures s.granted <= Release(s).granted
    ensures forall w :: w in Release(s).waiting ==> w in s.waiting
    ensures |Release(s).waiting| <= |s.waiting|
    ensures |Release(s).waiting| + |Release(s).granted| == |s.waiting| + |s.granted|
  {
    WakeNextKeeps(s.(free := s.free + 1));
  }

  lemma ResumeKeeps<W>(s: Semaphore<W>, w: W)
    requires WellFormed(s) && w in s.granted
    ensures WellFormed(Resume(s, w)) && Permits(Resume(s, w)) == Permits(s) - 1
    ensures (forall x :: InPool(Resume(s, w), x) <==> InPool(s, x) && x != w) && Resume(s, w).bound == s.bound
    ensures s.granted - {w} <= Resume(s, w).granted
    ensures forall x :: x in Resume(s, w).waiting ==> x in s.waiting
    ensures |Resume(s, w).waiting| <= |s.waiting|
    ensures |Resume(s, w).waiting| + |Resume(s, w).granted| == |s.waiting| + |s.granted| - 1
  {
    var t := s.(granted := s.granted - {w});
    WakeAllKeeps(t);
  }

  lemma CancelGrantedKeeps<W>(s: Semaphore<W>, w: W)
    requires WellFormed(s) && w in s.granted
    ensures WellFormed(CancelGranted(s, w)) && Permits(CancelGranted(s, w)) == Permits(s)
    ensures (forall x :: InPool(CancelGranted(s, w), x) <==> InPool(s, x) && x != w) && CancelGranted(s, w).bound == s.bound
    ensures s.granted - {w} <= CancelGranted(s, w).granted
    ensures forall x :: x in CancelGranted(s, w).waiting ==> x in s.waiting
    ensures |CancelGranted(s, w).waiting| <= |s.waiting|
    ensures |CancelGranted(s, w).waiting| + |CancelGranted(s, w).granted| == |s.waiting| + |s.granted| - 1
  {
    var t := s.(granted := s.granted - {w}, free := s.free + 1);
    WakeAllKeeps(t);
  }

  lemma {:induction false} WithoutDistinct<W>(q: seq<W>, w: W)
    requires forall i, j :: 0 <= i < j < |q| ==> q[i] != q[j]
    ensures forall i, j :: 0 <= i < j < |Without(q, w)| ==> Without(q, w)[i] != Without(q, w)[j]
    ensures |Without(q, w)| == |q| - if w in q then 1 else 0
    ensures forall x :: x in Without(q, w) <==> x in q && x != w
  {
    if q != [] {
      assert q == [q[0]] + q[1..];
      WithoutDistinct(q[1..], w);
      var r := Without(q[1..], w);
      assert forall i :: 0 <= i < |r| ==> r[i] in r;
      assert q[0] !in q[1..];
    }
  }

  lemma CancelWaitingKeeps<W>(s: Semaphore<W>, w: W)
    requires WellFormed(s) && w in s.waiting
    ensures WellFormed(CancelWaiting(s, w)) && Permits(CancelWaiting(s, w)) == Permits(s)
    ensures (forall x :: InPool(CancelWaiting(s, w), x) <==> InPool(s, x) && x != w) && CancelWaiting(s, w).bound == s.bound
    ensures |CancelWaiting(s, w).waiting| == |s.waiting| - 1
  {
    WithoutDistinct(s.waiting, w);
  }

  lemma EnqueueKeeps<W>(s: Semaphore<W>, w: W)
    requires WellFormed(s) && !InPool(s, w) && Locked(s)
    ensures WellFormed(Enqueue(s, w)) && Permits(Enqueue(s, w)) == Permits(s)
    ensures forall x :: InPool(Enqueue(s, w), x) <==> InPool(s, x) || x == w
  {
  }
}
