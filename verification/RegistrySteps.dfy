/** Registration, replacement, removal and lookup, and what they keep. */
module RegistrySteps {
  import opened Common
  import opened OrderedKeys
  import opened RegistryModel

  // --------------------------------------------------------------------------------------------
  // Validation
  // --------------------------------------------------------------------------------------------

  /** Patterns without duplicates, or None when there are none or one is empty. */
  function NormalisePatterns(patterns: seq<Pattern>): Option<seq<Pattern>> {
    if patterns == [] || "" in patterns then None else Some(Distinct(patterns))
  }

  function NormaliseFilters(patterns: seq<Pattern>): Option<seq<Pattern>> {
    if patterns == [] then Some([]) else NormalisePatterns(patterns)
  }

  /** Whether the left boundary is not dispatched before the right one. */
  ghost predicate Reversed(b: Buckets, left: Name, right: Name)
    requires left in Order(b) && right in Order(b)
  {
    var p, q := BucketOf(b, left), BucketOf(b, right);
    p < q || (p == q && FirstIndex(b[p], left) >= FirstIndex(b[p], right))
  }

  /** The bucket that boundaries select. */
  ghost function CheckBoundaries(r: Registry, between: Between, name: Name): Outcome<real>
    requires BucketsOk(r)
  {
    var left, right := between.left, between.right;
    if left.None? && right.None? then Bad(BadBoundaries)
    else if left == Some("") || right == Some("") then Bad(BadBoundaries)
    else if left.Some? && left == right then Bad(BadBoundaries)
    else if left == Some(name) || right == Some(name) then Bad(BadBoundaries)
    else if left.Some? && left.value !in r.handlers then Bad(BoundaryNotRegistered)
    else if right.Some? && right.value !in r.handlers then Bad(BoundaryNotRegistered)
    else if left.Some? && right.Some? && Reversed(r.buckets, left.value, right.value) then Bad(BoundariesReversed)
    else if right.Some? then Good(BucketOf(r.buckets, right.value))
    else Good(BucketOf(r.buckets, left.value))
  }

  /** The bucket a handler is to enter, or why it is rejected. */
  ghost function Check(r: Registry, h: Meta, existOk: bool): Outcome<real>
    requires BucketsOk(r)
  {
    if h.name == "" then Bad(EmptyName)
    else if h.name in r.handlers && !existOk then Bad(AlreadyRegistered)
    else if h.priority.Some? && h.between.Some? then Bad(PriorityAndBoundaries)
    else if NormalisePatterns(h.subscribe).None? || NormaliseFilters(h.filterEvent).None? then Bad(BadPatterns)
    else
      match h.between
      case Some(between) => CheckBoundaries(r, between, h.name)
      case None => if h.priority.Some? then Good(h.priority.value) else Bad(NoPriority)
  }

  function Stored(h: Meta, order: nat): Meta
    requires NormalisePatterns(h.subscribe).Some? && NormaliseFilters(h.filterEvent).Some?
  {
    h.(subscribe := NormalisePatterns(h.subscribe).value, filterEvent := NormaliseFilters(h.filterEvent).value,
       registerOrder := order)
  }

  // --------------------------------------------------------------------------------------------
  // Steps
  // --------------------------------------------------------------------------------------------

  function Without(names: seq<Name>, n: Name): seq<Name> {
    if names == [] then []
    else Without(names[..|names| - 1], n) + if names[|names| - 1] == n then [] else [names[|names| - 1]]
  }

  function InsertAt(names: seq<Name>, i: nat, n: Name): seq<Name>
    requires i <= |names|
  {
    names[..i] + [n] + names[i..]
  }

  /** A bucket is stored only while it has names. */
  function SetBucket(b: Buckets, p: real, names: seq<Name>): Buckets {
    if names == [] then b - {p} else b[p := names]
  }

  /** The caches left when those accepted by a handler expire. */
  function Unexpired(glob: Glob, cache: map<EventName, seq<Name>>, h: Meta): map<EventName, seq<Name>> {
    map e | e in cache && !Matches(glob, h, e) :: cache[e]
  }

  ghost function RemoveName(b: Buckets, n: Name): Buckets {
    if n !in Order(b) then b
    else
      var p := BucketOf(b, n);
      SetBucket(b, p, Without(b[p], n))
  }

  ghost function UnregisterStep(glob: Glob, r: Registry, n: Name): Registry {
    if n !in r.handlers then r
    else Registry(r.handlers - {n}, RemoveName(r.buckets, n), Unexpired(glob, r.cache, r.handlers[n]), r.registerOrder)
  }

  /** Where a handler enters its bucket: at the end, just before its right boundary, or else just
      after its left one. */
  function Place(bucket: seq<Name>, between: Option<Between>): (i: nat)
    ensures i <= |bucket|
  {
    match between
    case Some(Between(_, Some(right))) => if right in bucket then FirstIndex(bucket, right) else |bucket|
    case Some(Between(Some(left), None)) => if left in bucket then FirstIndex(bucket, left) + 1 else |bucket|
    case _ => |bucket|
  }

  ghost function InsertStep(glob: Glob, r: Registry, h: Meta, p: real): Registry {
    var bucket := At(r.buckets, p);
    Registry(r.handlers[h.name := h],
             SetBucket(r.buckets, p, InsertAt(bucket, Place(bucket, h.between), h.name)),
             Unexpired(glob, r.cache, h), r.registerOrder + 1)
  }

  ghost function RegisterStep(glob: Glob, r: Registry, h: Meta, existOk: bool): Registry
    requires BucketsOk(r)
  {
    match Check(r, h, existOk)
    case Bad(_) => r
    case Good(p) => InsertStep(glob, UnregisterStep(glob, r, h.name), Stored(h, r.registerOrder), p)
  }

  ghost function QueryStep(glob: Glob, r: Registry, e: EventName): Registry {
    if e == "" || e in r.cache then r else r.(cache := r.cache[e := Chain(glob, r, e)])
  }

  datatype Op = Register(handler: Meta, existOk: bool) | Unregister(name: Name) | Query(event: EventName)

  ghost function Apply(glob: Glob, r: Registry, op: Op): Registry
    requires BucketsOk(r)
  {
    match op
    case Register(h, existOk) => RegisterStep(glob, r, h, existOk)
    case Unregister(n) => UnregisterStep(glob, r, n)
    case Query(e) => QueryStep(glob, r, e)
  }

  // --------------------------------------------------------------------------------------------
  // Lists
  // --------------------------------------------------------------------------------------------

  lemma {:induction false} WithoutConcat(a: seq<Name>, b: seq<Name>, n: Name)
    ensures Without(a + b, n) == Without(a, n) + Without(b, n)
  {
    if b == [] {
      assert a + b == a;
    } else {
      assert (a + b)[..|a + b| - 1] == a + b[..|b| - 1];
      WithoutConcat(a, b[..|b| - 1], n);
    }
  }

  lemma {:induction false} WithoutAbsent(names: seq<Name>, n: Name)
    requires n !in names
    ensures Without(names, n) == names
  {
    if names != [] {
      var front, last := names[..|names| - 1], names[|names| - 1];
      assert names == front + [last] && last in names;
      WithoutAbsent(front, n);
    }
  }

  lemma {:induction false} WithoutMembers(names: seq<Name>, n: Name)
    ensures forall m :: m in Without(names, n) <==> m in names && m != n
    ensures NoDuplicates(names) ==> NoDuplicates(Without(names, n))
  {
    if names != [] {
      var front, last := names[..|names| - 1], names[|names| - 1];
      assert names == front + [last];
      WithoutMembers(front, n);
      if NoDuplicates(names) {
        assert NoDuplicates(front) && last !in front;
        assert last !in Without(front, n);
      }
    }
  }

  lemma WithoutInserted(names: seq<Name>, i: nat, n: Name)
    requires i <= |names| && n !in names
    ensures Without(InsertAt(names, i, n), n) == names
  {
    var front, back := names[..i], names[i..];
    assert names == front + back;
    assert n !in front && n !in back;
    assert Without([n], n) == [];
    hide Without;
    WithoutConcat(front + [n], back, n);
    WithoutConcat(front, [n], n);
    WithoutAbsent(front, n);
    WithoutAbsent(back, n);
  }

  lemma InsertedMembers(names: seq<Name>, i: nat, n: Name)
    requires i <= |names| && n !in names && NoDuplicates(names)
    ensures NoDuplicates(InsertAt(names, i, n))
    ensures forall m :: m in InsertAt(names, i, n) <==> m in names || m == n
  {
    var all := InsertAt(names, i, n);
    assert forall k :: 0 <= k < |all| ==> all[k] == if k < i then names[k] else if k == i then n else names[k - 1];
    forall m | m in names
      ensures m in all
    {
      var k :| 0 <= k < |names| && names[k] == m;
      assert all[if k < i then k else k + 1] == m;
    }
    assert all[i] == n;
  }

  lemma {:induction false} MatchingWithout(
      glob: Glob, handlers: map<Name, Meta>, names: seq<Name>, e: EventName, n: Name)
    requires n in handlers ==> !Matches(glob, handlers[n], e)
    ensures Matching(glob, handlers, Without(names, n), e) == Matching(glob, handlers, names, e)
  {
    if names != [] {
      var front, last := names[..|names| - 1], names[|names| - 1];
      MatchingWithout(glob, handlers, front, e, n);
      if last == n {
        assert Without(names, n) == Without(front, n);
      } else {
        MatchingConcat(glob, handlers, Without(front, n), [last], e);
        assert [last][..0] == [];
      }
    }
  }

  // --------------------------------------------------------------------------------------------
  // Order
  // --------------------------------------------------------------------------------------------

  /** Rewriting one bucket rewrites one stretch of the dispatch order. */
  lemma OrderSet(b: Buckets, p: real, names: seq<Name>)
    ensures Order(SetBucket(b, p, names)) == Order(Above(b, p)) + names + Order(Below(b, p))
  {
    var c := SetBucket(b, p, names);
    OrderSplit(c, p);
    assert Above(c, p) == Above(b, p) && Below(c, p) == Below(b, p);
  }

  /** Removing a name takes it out of the dispatch order and leaves the others as they were. */
  lemma RemoveOrder(b: Buckets, n: Name)
    requires NoDuplicates(Order(b))
    ensures Order(RemoveName(b, n)) == Without(Order(b), n)
  {
    if n in Order(b) {
      var p := BucketOf(b, n);
      OneBucket(b, p, n);
      OrderSplit(b, p);
      OrderSet(b, p, Without(b[p], n));
      var a, z := Order(Above(b, p)), Order(Below(b, p));
      WithoutConcat(a + b[p], z, n);
      WithoutConcat(a, b[p], n);
      WithoutAbsent(a, n);
      WithoutAbsent(z, n);
    } else {
      WithoutAbsent(Order(b), n);
    }
  }

  lemma RemoveKeepsPlaces(b: Buckets, n: Name, m: Name, p: real)
    requires NoDuplicates(Order(b)) && m != n && m in At(b, p)
    ensures m in At(RemoveName(b, n), p)
  {
    if n in Order(b) && p == BucketOf(b, n) {
      WithoutMembers(b[p], n);
    }
  }

  lemma UnregisterKeepsInv(glob: Glob, r: Registry, n: Name)
    requires Inv(glob, r)
    ensures Inv(glob, UnregisterStep(glob, r, n))
  {
    if n in r.handlers {
      var u := UnregisterStep(glob, r, n);
      RemoveOrder(r.buckets, n);
      WithoutMembers(Order(r.buckets), n);
      forall m | m in u.handlers && u.handlers[m].priority.Some?
        ensures m in At(u.buckets, u.handlers[m].priority.value)
      {
        RemoveKeepsPlaces(r.buckets, n, m, u.handlers[m].priority.value);
      }
      forall e | e in u.cache
        ensures u.cache[e] == Chain(glob, u, e)
      {
        MatchingWithout(glob, r.handlers, Order(r.buckets), e, n);
        MatchingAgrees(glob, u.handlers, r.handlers, Without(Order(r.buckets), n), e);
      }
    }
  }

  lemma Splice(a: seq<Name>, m: seq<Name>, z: seq<Name>, k: nat, n: Name)
    requires k <= |m|
    ensures InsertAt(a + m + z, |a| + k, n) == a + InsertAt(m, k, n) + z
  {
    var all := a + m + z;
    assert all[..|a| + k] == a + m[..k];
    assert all[|a| + k..] == m[k..] + z;
  }

  /** Inserting a new name puts it at one place of the dispatch order. */
  lemma InsertOrder(b: Buckets, p: real, k: nat, n: Name)
    requires k <= |At(b, p)|
    ensures var i := |Order(Above(b, p))| + k;
            && i <= |Order(b)|
            && Order(SetBucket(b, p, InsertAt(At(b, p), k, n))) == InsertAt(Order(b), i, n)
  {
    hide Order;
    OrderSplit(b, p);
    OrderSet(b, p, InsertAt(At(b, p), k, n));
    Splice(Order(Above(b, p)), At(b, p), Order(Below(b, p)), k, n);
  }

  lemma InsertKeepsBuckets(glob: Glob, r: Registry, h: Meta, p: real)
    requires BucketsOk(r) && h.name !in r.handlers
    ensures BucketsOk(InsertStep(glob, r, h, p))
  {
    var k := Place(At(r.buckets, p), h.between);
    InsertOrder(r.buckets, p, k, h.name);
    InsertedMembers(Order(r.buckets), |Order(Above(r.buckets, p))| + k, h.name);
  }

  lemma InsertKeepsHandlers(glob: Glob, r: Registry, h: Meta, p: real)
    requires HandlersOk(r) && (h.priority.Some? ==> h.priority.value == p)
    ensures HandlersOk(InsertStep(glob, r, h, p))
  {
    var s := InsertStep(glob, r, h, p);
    var bucket := At(r.buckets, p);
    var k := Place(bucket, h.between);
    assert forall m :: m in bucket || m == h.name ==> m in InsertAt(bucket, k, h.name) by {
      assert bucket == bucket[..k] + bucket[k..];
    }
    hide InsertAt;
    hide Place;
    forall m | m in s.handlers && s.handlers[m].priority.Some?
      ensures m in At(s.buckets, s.handlers[m].priority.value)
    {
      assert m != h.name ==> m in At(r.buckets, r.handlers[m].priority.value);
    }
  }

  /** A handler that does not accept an event has no part in its chain. */
  lemma ChainUnmoved(
      glob: Glob, handlers: map<Name, Meta>, h: Meta, before: seq<Name>, after: seq<Name>, e: EventName)
    requires h.name !in before && Without(after, h.name) == before && !Matches(glob, h, e)
    ensures Matching(glob, handlers[h.name := h], after, e) == Matching(glob, handlers, before, e)
  {
    MatchingWithout(glob, handlers[h.name := h], after, e, h.name);
    MatchingAgrees(glob, handlers[h.name := h], handlers, before, e);
  }

  lemma InsertedOrder(glob: Glob, r: Registry, h: Meta, p: real)
    requires BucketsOk(r) && h.name !in r.handlers
    ensures h.name !in Order(r.buckets)
    ensures Without(Order(InsertStep(glob, r, h, p).buckets), h.name) == Order(r.buckets)
  {
    var k := Place(At(r.buckets, p), h.between);
    InsertOrder(r.buckets, p, k, h.name);
    WithoutInserted(Order(r.buckets), |Order(Above(r.buckets, p))| + k, h.name);
  }

  lemma InsertKeepsCache(glob: Glob, r: Registry, h: Meta, p: real)
    requires BucketsOk(r) && CacheOk(glob, r) && h.name !in r.handlers
    ensures CacheOk(glob, InsertStep(glob, r, h, p))
  {
    hide Order;
    hide Without;
    hide Matching;
    hide InsertAt;
    hide SetBucket;
    hide BucketsOk;
    var s := InsertStep(glob, r, h, p);
    InsertedOrder(glob, r, h, p);
    forall e | e in s.cache
      ensures s.cache[e] == Chain(glob, s, e)
    {
      ChainUnmoved(glob, r.handlers, h, Order(r.buckets), Order(s.buckets), e);
    }
  }

  lemma InsertKeepsInv(glob: Glob, r: Registry, h: Meta, p: real)
    requires Inv(glob, r) && h.name !in r.handlers && (h.priority.Some? ==> h.priority.value == p)
    ensures Inv(glob, InsertStep(glob, r, h, p))
  {
    InsertKeepsBuckets(glob, r, h, p);
    InsertKeepsHandlers(glob, r, h, p);
    InsertKeepsCache(glob, r, h, p);
  }

  /** Every operation keeps the invariant, so every cached chain stays what recomputation gives. */
  lemma ApplyKeepsInv(glob: Glob, r: Registry, op: Op)
    requires Inv(glob, r)
    ensures Inv(glob, Apply(glob, r, op))
  {
    match op
    case Register(h, existOk) =>
      if Check(r, h, existOk).Good? {
        UnregisterKeepsInv(glob, r, h.name);
        InsertKeepsInv(glob, UnregisterStep(glob, r, h.name), Stored(h, r.registerOrder), Check(r, h, existOk).value);
      }
    case Unregister(n) => UnregisterKeepsInv(glob, r, n);
    case Query(e) =>
  }
}
