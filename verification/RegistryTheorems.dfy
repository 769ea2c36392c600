/** What registration guarantees: where a handler ends up, and what lookups see over whole runs. */
module RegistryTheorems {
  import opened Common
  import opened OrderedKeys
  import opened RegistryModel
  import opened RegistrySteps

  // --------------------------------------------------------------------------------------------
  // Positions in the dispatch order
  // --------------------------------------------------------------------------------------------

  /** A name stands behind all higher buckets, at its place in its own one. */
  lemma IndexInOrder(b: Buckets, n: Name)
    requires NoDuplicates(Order(b)) && n in Order(b)
    ensures FirstIndex(Order(b), n) == |Order(Above(b, BucketOf(b, n)))| + FirstIndex(b[BucketOf(b, n)], n)
  {
    var p := BucketOf(b, n);
    var k := FirstIndex(b[p], n);
    OneBucket(b, p, n);
    OrderSplit(b, p);
    var a := Order(Above(b, p));
    assert Order(b)[..|a| + k] == a + b[p][..k];
    FirstIndexIs(Order(b), |a| + k, n);
  }

  lemma HigherComesFirst(b: Buckets, p: real, q: real)
    requires p in b && p > q
    ensures |Order(Above(b, p))| + |b[p]| <= |Order(Above(b, q))|
  {
    OrderSplit(Above(b, q), p);
    assert Above(Above(b, q), p) == Above(b, p);
    assert At(Above(b, q), p) == b[p];
  }

  /** Boundaries are reversed exactly when the right one is dispatched before the left one. */
  lemma ReversedIff(b: Buckets, left: Name, right: Name)
    requires NoDuplicates(Order(b)) && left in Order(b) && right in Order(b) && left != right
    ensures Reversed(b, left, right) <==> FirstIndex(Order(b), right) < FirstIndex(Order(b), left)
  {
    var p, q := BucketOf(b, left), BucketOf(b, right);
    IndexInOrder(b, left);
    IndexInOrder(b, right);
    if p > q {
      HigherComesFirst(b, p, q);
    } else if p < q {
      HigherComesFirst(b, q, p);
    }
  }

  /** Higher priorities are dispatched first. */
  lemma Descending(b: Buckets, i: nat, j: nat)
    requires NoDuplicates(Order(b)) && i < j < |Order(b)|
    ensures BucketOf(b, Order(b)[i]) >= BucketOf(b, Order(b)[j])
  {
    var m, n := Order(b)[i], Order(b)[j];
    IndexInOrder(b, m);
    IndexInOrder(b, n);
    FirstIndexIs(Order(b), i, m);
    FirstIndexIs(Order(b), j, n);
    if BucketOf(b, m) < BucketOf(b, n) {
      HigherComesFirst(b, BucketOf(b, n), BucketOf(b, m));
    }
  }

  // --------------------------------------------------------------------------------------------
  // When a registration is accepted, and what it stores
  // --------------------------------------------------------------------------------------------

  /** At least one boundary, each of them another registered handler, and the left one dispatched before
      the right one. */
  ghost predicate Placeable(r: Registry, between: Between, name: Name) {
    && (between.left.Some? || between.right.Some?)
    && (forall bound :: bound == between.left || bound == between.right ==>
          bound.Some? ==> bound.value != "" && bound.value != name && bound.value in r.handlers)
    && (between.left.Some? && between.right.Some? ==>
          && between.left.value in Order(r.buckets) && between.right.value in Order(r.buckets)
          && FirstIndex(Order(r.buckets), between.left.value) < FirstIndex(Order(r.buckets), between.right.value))
  }

  /** A registration is accepted exactly for a name that is not empty, and not taken unless replacing is
      allowed, with patterns none of which is empty, and with either a priority or usable boundaries.
      Its bucket is that of its priority or of the boundary that decides. */
  lemma AcceptedIff(r: Registry, h: Meta, existOk: bool)
    requires BucketsOk(r)
    ensures var checked := Check(r, h, existOk);
            && (checked.Good? <==>
                  && h.name != "" && (h.name in r.handlers ==> existOk)
                  && h.subscribe != [] && "" !in h.subscribe && "" !in h.filterEvent
                  && (if h.priority.Some? then h.between.None?
                      else h.between.Some? && Placeable(r, h.between.value, h.name)))
            && (checked.Good? && h.priority.Some? ==> checked.value == h.priority.value)
            && (checked.Good? && h.between.Some? ==>
                  var bound := if h.between.value.right.Some? then h.between.value.right else h.between.value.left;
                  bound.Some? && bound.value in Order(r.buckets) && checked.value == BucketOf(r.buckets, bound.value))
  {
    if h.between.Some? {
      PlaceableIff(r, h.between.value, h.name);
    }
    hide Placeable;
    hide CheckBoundaries;
    hide BucketsOk;
    hide BucketOf;
  }

  lemma PlaceableIff(r: Registry, between: Between, name: Name)
    requires BucketsOk(r)
    ensures var checked := CheckBoundaries(r, between, name);
            && (checked.Good? <==> Placeable(r, between, name))
            && (checked.Good? ==>
                  var bound := if between.right.Some? then between.right else between.left;
                  bound.Some? && bound.value in Order(r.buckets) && checked.value == BucketOf(r.buckets, bound.value))
  {
    hide Reversed;
    hide BucketOf;
    hide NoDuplicates;
    var left, right := between.left, between.right;
    if left.Some? && right.Some? && left != right && left.value in r.handlers && right.value in r.handlers {
      ReversedIff(r.buckets, left.value, right.value);
      IndicesDiffer(Order(r.buckets), left.value, right.value);
    }
  }

  lemma IndicesDiffer(names: seq<Name>, m: Name, n: Name)
    requires m in names && n in names
    ensures FirstIndex(names, m) == FirstIndex(names, n) <==> m == n
  {
  }

  /** Each rejection has its reason. */
  lemma RejectedBecause(r: Registry, h: Meta, existOk: bool)
    requires BucketsOk(r) && Check(r, h, existOk).Bad?
    ensures match Check(r, h, existOk).problem
            case EmptyName => h.name == ""
            case AlreadyRegistered => h.name in r.handlers && !existOk
            case PriorityAndBoundaries => h.priority.Some? && h.between.Some?
            case BadPatterns => h.subscribe == [] || "" in h.subscribe || "" in h.filterEvent
            case NoPriority => h.priority.None? && h.between.None?
            case BadBoundaries =>
              && h.between.Some? && var between := h.between.value;
              || (between.left.None? && between.right.None?)
              || between.left == Some("") || between.right == Some("")
              || between.left == between.right
              || between.left == Some(h.name) || between.right == Some(h.name)
            case BoundaryNotRegistered =>
              && h.between.Some?
              && exists bound :: (bound == h.between.value.left || bound == h.between.value.right)
                                 && bound.Some? && bound.value !in r.handlers
            case BoundariesReversed =>
              && h.between.Some? && h.between.value.left.Some? && h.between.value.right.Some?
              && var left, right := h.between.value.left.value, h.between.value.right.value;
              && left in Order(r.buckets) && right in Order(r.buckets)
              && FirstIndex(Order(r.buckets), right) < FirstIndex(Order(r.buckets), left)
            case _ => false
  {
    if h.between.Some? {
      var left, right := h.between.value.left, h.between.value.right;
      if left.Some? && right.Some? && left != right && left.value in r.handlers && right.value in r.handlers {
        ReversedIff(r.buckets, left.value, right.value);
      }
    }
    hide Reversed;
    hide BucketOf;
    hide NoDuplicates;
  }

  /** The patterns kept: the given ones, each once, in order of first occurrence. */
  ghost predicate KeptOnce(given: seq<Pattern>, kept: seq<Pattern>) {
    && NoDuplicates(kept) && (forall p :: p in kept <==> p in given)
    && (forall i, j :: 0 <= i < j < |kept| ==> kept[i] in given && kept[j] in given
                                                && FirstIndex(given, kept[i]) < FirstIndex(given, kept[j]))
  }

  /** An accepted registration stores the handler under its name as it was given, with its patterns
      normalised and the next order number; every other handler stays. */
  lemma RegisteredEntry(glob: Glob, r: Registry, h: Meta, existOk: bool)
    requires BucketsOk(r) && Check(r, h, existOk).Good?
    ensures var s := RegisterStep(glob, r, h, existOk);
            && s.handlers.Keys == r.handlers.Keys + {h.name} && s.registerOrder == r.registerOrder + 1
            && (forall n :: n in r.handlers && n != h.name ==> s.handlers[n] == r.handlers[n])
            && var m := s.handlers[h.name];
            && m.name == h.name && m.priority == h.priority && m.between == h.between && m.options == h.options
            && m.registerOrder == r.registerOrder
            && KeptOnce(h.subscribe, m.subscribe) && KeptOnce(h.filterEvent, m.filterEvent)
  {
    DistinctKeepsFirst(h.subscribe);
    DistinctKeepsFirst(h.filterEvent);
    hide RemoveName;
    hide SetBucket;
    hide Unexpired;
    hide CheckBoundaries;
    hide BucketsOk;
  }

  // --------------------------------------------------------------------------------------------
  // Where a registration goes
  // --------------------------------------------------------------------------------------------

  lemma RemoveAt(b: Buckets, n: Name, p: real)
    requires NoDuplicates(Order(b))
    ensures At(RemoveName(b, n), p) == Without(At(b, p), n)
  {
    if n in At(b, p) {
      OneBucket(b, p, n);
    } else {
      WithoutAbsent(At(b, p), n);
    }
  }

  lemma WithoutKeepsBefore(names: seq<Name>, n: Name, left: Name, right: Name)
    requires right in names && left in names[..FirstIndex(names, right)] && left != n && right != n
    ensures var rest := Without(names, n);
            right in rest && left in rest[..FirstIndex(rest, right)]
  {
    var j := FirstIndex(names, right);
    var front, rest := Without(names[..j], n), Without(names, n);
    assert names == names[..j] + ([right] + names[j + 1..]);
    WithoutConcat(names[..j], [right] + names[j + 1..], n);
    WithoutConcat([right], names[j + 1..], n);
    WithoutAbsent([right], n);
    WithoutMembers(names[..j], n);
    assert rest == front + ([right] + Without(names[j + 1..], n));
    assert rest[..|front|] == front;
    FirstIndexIs(rest, |front|, right);
  }

  /** The index where a handler enters the dispatch order of the others. */
  ghost function Entry(r: Registry, h: Meta, existOk: bool): nat
    requires BucketsOk(r) && Check(r, h, existOk).Good?
  {
    var p := Check(r, h, existOk).value;
    var rest := RemoveName(r.buckets, h.name);
    |Order(Above(rest, p))| + Place(At(rest, p), h.between)
  }

  /** A successful registration inserts the name once into the dispatch order of the other handlers,
      whose relative order stays as it was; its bucket is the one its checks selected. */
  lemma RegisterInserts(glob: Glob, r: Registry, h: Meta, existOk: bool)
    requires Inv(glob, r) && Check(r, h, existOk).Good?
    ensures var s := RegisterStep(glob, r, h, existOk);
            var others := Without(Order(r.buckets), h.name);
            var i := Entry(r, h, existOk);
            && i <= |others| && Order(s.buckets) == InsertAt(others, i, h.name)
            && h.name in Order(s.buckets) && BucketOf(s.buckets, h.name) == Check(r, h, existOk).value
  {
    hide Inv;
    hide RegisterStep;
    hide Check;
    hide RemoveName;
    hide Without;
    hide Order;
    hide InsertAt;
    hide SetBucket;
    hide BucketsOk;
    hide NoDuplicates;
    hide Above;
    hide At;
    hide BucketOf;
    hide Place;
    Coherent(glob, r);
    var p := Check(r, h, existOk).value;
    var rest := RemoveName(r.buckets, h.name);
    RegisteredBuckets(glob, r, h, existOk);
    RegisteredDistinct(glob, r, h, existOk);
    RemoveOrder(r.buckets, h.name);
    Entered(rest, p, Place(At(rest, p), h.between), h.name);
  }

  lemma Coherent(glob: Glob, r: Registry)
    requires Inv(glob, r)
    ensures BucketsOk(r) && NoDuplicates(Order(r.buckets))
  {
  }

  lemma RegisteredDistinct(glob: Glob, r: Registry, h: Meta, existOk: bool)
    requires Inv(glob, r)
    ensures NoDuplicates(Order(RegisterStep(glob, r, h, existOk).buckets))
  {
    ApplyKeepsInv(glob, r, Register(h, existOk));
  }

  lemma Entered(b: Buckets, p: real, k: nat, n: Name)
    requires k <= |At(b, p)| && NoDuplicates(Order(SetBucket(b, p, InsertAt(At(b, p), k, n))))
    ensures var c := SetBucket(b, p, InsertAt(At(b, p), k, n)); var i := |Order(Above(b, p))| + k;
            i <= |Order(b)| && Order(c) == InsertAt(Order(b), i, n) && n in Order(c) && BucketOf(c, n) == p
  {
    InsertOrder(b, p, k, n);
    EntersBucket(b, p, k, n);
  }

  lemma RegisteredBuckets(glob: Glob, r: Registry, h: Meta, existOk: bool)
    requires BucketsOk(r) && Check(r, h, existOk).Good?
    ensures var p := Check(r, h, existOk).value; var rest := RemoveName(r.buckets, h.name);
            RegisterStep(glob, r, h, existOk).buckets ==
            SetBucket(rest, p, InsertAt(At(rest, p), Place(At(rest, p), h.between), h.name))
  {
    hide Check;
    hide Order;
    assert h.name !in r.handlers ==> RemoveName(r.buckets, h.name) == r.buckets;
  }

  lemma EntersBucket(b: Buckets, p: real, k: nat, n: Name)
    requires k <= |At(b, p)| && NoDuplicates(Order(SetBucket(b, p, InsertAt(At(b, p), k, n))))
    ensures var c := SetBucket(b, p, InsertAt(At(b, p), k, n)); n in Order(c) && BucketOf(c, n) == p
  {
    hide Order;
    hide NoDuplicates;
    assert InsertAt(At(b, p), k, n)[k] == n;
    OneBucket(SetBucket(b, p, InsertAt(At(b, p), k, n)), p, n);
  }

  /** The boundary that decides the position: the right one if given. */
  function Decisive(between: Between): Option<Name> {
    if between.right.Some? then between.right else between.left
  }

  lemma DecisiveInBucket(r: Registry, h: Meta, existOk: bool)
    requires BucketsOk(r) && Check(r, h, existOk).Good? && h.between.Some?
    ensures var p := Check(r, h, existOk).value; var bound := Decisive(h.between.value);
            bound.Some? && bound.value != h.name && bound.value in At(r.buckets, p)
  {
  }

  /** Where the decisive boundary stands among the other handlers. */
  lemma DecisivePosition(r: Registry, h: Meta, existOk: bool)
    requires BucketsOk(r) && Check(r, h, existOk).Good? && h.between.Some?
    ensures var others := Without(Order(r.buckets), h.name);
            var bound := Decisive(h.between.value);
            bound.Some? && bound.value in others && NoDuplicates(others) && Order(RemoveName(r.buckets, h.name)) == others
            && Entry(r, h, existOk) ==
               FirstIndex(others, bound.value) + if h.between.value.right.Some? then 0 else 1
  {
    var p := Check(r, h, existOk).value;
    var n, rest := h.name, RemoveName(r.buckets, h.name);
    DecisiveInBucket(r, h, existOk);
    RemoveOrder(r.buckets, n);
    RemoveAt(r.buckets, n, p);
    WithoutMembers(At(r.buckets, p), n);
    WithoutMembers(Order(r.buckets), n);
    hide Check;
    hide Without;
    hide RemoveName;
    hide Order;
    hide Place;
    BoundaryPosition(rest, p, h.between.value);
  }

  lemma BoundaryPosition(b: Buckets, p: real, between: Between)
    requires NoDuplicates(Order(b))
    requires Decisive(between).Some? && Decisive(between).value in At(b, p)
    ensures Decisive(between).value in Order(b)
    ensures |Order(Above(b, p))| + Place(At(b, p), Some(between)) ==
            FirstIndex(Order(b), Decisive(between).value) + if between.right.Some? then 0 else 1
  {
    hide Order;
    OneBucket(b, p, Decisive(between).value);
    IndexInOrder(b, Decisive(between).value);
  }

  /** With a right boundary the handler is placed immediately before it, behind the left one if that
      is given too; with a left boundary only, immediately after it. */
  lemma BoundariesRespected(glob: Glob, r: Registry, h: Meta, existOk: bool)
    requires Inv(glob, r) && Check(r, h, existOk).Good? && h.between.Some?
    ensures var others := Without(Order(r.buckets), h.name);
            var i := Entry(r, h, existOk);
            var left, right := h.between.value.left, h.between.value.right;
            && i <= |others|
            && (right.Some? ==> i < |others| && others[i] == right.value)
            && (right.Some? && left.Some? ==> left.value in others[..i])
            && (right.None? ==> left.Some? && i > 0 && others[i - 1] == left.value)
  {
    DecisivePosition(r, h, existOk);
    var left, right := h.between.value.left, h.between.value.right;
    hide Entry;
    hide Order;
    hide Without;
    hide RemoveName;
    hide HandlersOk;
    hide CacheOk;
    if left.Some? && right.Some? {
      BothBoundaries(r, h, existOk);
      hide Check;
      LeftStaysBefore(r.buckets, h.name, left.value, right.value);
    }
  }

  lemma BothBoundaries(r: Registry, h: Meta, existOk: bool)
    requires BucketsOk(r) && Check(r, h, existOk).Good?
    requires h.between.Some? && h.between.value.left.Some? && h.between.value.right.Some?
    ensures var left, right := h.between.value.left.value, h.between.value.right.value;
            && left in Order(r.buckets) && right in Order(r.buckets)
            && left != right && left != h.name && right != h.name && !Reversed(r.buckets, left, right)
  {
    hide Reversed;
  }

  lemma RestDistinct(b: Buckets, n: Name)
    requires NoDuplicates(Order(b))
    ensures NoDuplicates(Order(RemoveName(b, n)))
  {
    RemoveOrder(b, n);
    WithoutMembers(Order(b), n);
  }

  lemma LeftStaysBefore(b: Buckets, n: Name, left: Name, right: Name)
    requires NoDuplicates(Order(b)) && left in Order(b) && right in Order(b) && left != right && left != n && right != n
    requires !Reversed(b, left, right)
    ensures var rest := Order(RemoveName(b, n)); right in rest && left in rest[..FirstIndex(rest, right)]
  {
    ReversedIff(b, left, right);
    var i, j := FirstIndex(Order(b), left), FirstIndex(Order(b), right);
    assert i != j && Order(b)[..j][i] == left;
    WithoutKeepsBefore(Order(b), n, left, right);
    RemoveOrder(b, n);
  }

  /** With a priority the handler follows every handler of at least that priority and precedes all
      others: ties keep registration order. */
  lemma PriorityRespected(glob: Glob, r: Registry, h: Meta, existOk: bool)
    requires Inv(glob, r) && Check(r, h, existOk).Good? && h.between.None?
    ensures var others := Without(Order(r.buckets), h.name);
            var b := RemoveName(r.buckets, h.name);
            var i := Entry(r, h, existOk);
            && h.priority.Some? && Order(b) == others && i <= |others|
            && (forall j :: 0 <= j < i ==> BucketOf(b, others[j]) >= h.priority.value)
            && (forall j :: i <= j < |others| ==> BucketOf(b, others[j]) < h.priority.value)
  {
    var p := h.priority.value;
    var b := RemoveName(r.buckets, h.name);
    RemoveOrder(r.buckets, h.name);
    RestDistinct(r.buckets, h.name);
    OrderSplit(b, p);
    var a, z := Order(Above(b, p)), Order(Below(b, p));
    forall j | 0 <= j < |Order(b)|
      ensures BucketOf(b, Order(b)[j]) >= p <==> j < |a| + |At(b, p)|
    {
      var n := Order(b)[j];
      IndexInOrder(b, n);
      FirstIndexIs(Order(b), j, n);
      var q := BucketOf(b, n);
      if q > p {
        HigherComesFirst(b, q, p);
      } else if q < p && p in b {
        HigherComesFirst(b, p, q);
      } else if q < p {
        AbsentBetween(b, p, q);
      }
    }
  }

  lemma AbsentBetween(b: Buckets, p: real, q: real)
    requires q in b && q < p
    ensures |Order(Above(b, p))| + |At(b, p)| <= |Order(Above(b, q))|
  {
    OrderSplit(Above(b, q), p);
    assert Above(Above(b, q), p) == Above(b, p);
    assert At(Above(b, q), p) == At(b, p);
  }

  // --------------------------------------------------------------------------------------------
  // Whole runs
  // --------------------------------------------------------------------------------------------

  const EMPTY := Registry(map[], map[], map[], 0)

  ghost function After(glob: Glob, r: Registry, ops: seq<Op>): (s: Registry)
    requires Inv(glob, r)
    ensures Inv(glob, s)
    decreases |ops|
  {
    if ops == [] then r
    else
      ApplyKeepsInv(glob, r, ops[0]);
      After(glob, Apply(glob, r, ops[0]), ops[1..])
  }

  ghost function Reached(glob: Glob, ops: seq<Op>): (r: Registry)
    ensures Inv(glob, r)
  {
    After(glob, EMPTY, ops)
  }

  lemma {:induction false} MatchingOrdered(glob: Glob, handlers: map<Name, Meta>, names: seq<Name>, e: EventName)
    requires NoDuplicates(names)
    ensures NoDuplicates(Matching(glob, handlers, names, e))
    ensures forall n :: n in Matching(glob, handlers, names, e) ==> n in names
    ensures forall i, j :: 0 <= i < j < |Matching(glob, handlers, names, e)| ==>
              FirstIndex(names, Matching(glob, handlers, names, e)[i])
              < FirstIndex(names, Matching(glob, handlers, names, e)[j])
  {
    hide Matches;
    hide FirstIndex;
    if names != [] {
      var front, last := names[..|names| - 1], names[|names| - 1];
      assert names == front + [last];
      MatchingOrdered(glob, handlers, front, e);
      assert NoDuplicates(front) && last !in front;
      FirstIndexIs(names, |front|, last);
      forall n | n in front
        ensures FirstIndex(names, n) == FirstIndex(front, n) < |front|
      {
        FirstIndexPrefix(front, [last], n);
      }
    }
  }

  /** After any sequence of registrations, replacements, removals and lookups, each cached chain is
      what recomputation gives: exactly the registered handlers that accept the event, each once, in
      dispatch order.  So a lookup never meets an unregistered name. */
  lemma CacheCoherent(glob: Glob, ops: seq<Op>, e: EventName)
    requires e in Reached(glob, ops).cache
    ensures var r := Reached(glob, ops); var chain := r.cache[e];
            && chain == Chain(glob, r, e)
            && (forall n :: n in chain <==>
                  && n in r.handlers && (exists p :: p in r.handlers[n].subscribe && glob(e, p))
                  && !(exists p :: p in r.handlers[n].filterEvent && glob(e, p)))
            && NoDuplicates(chain) && (forall n :: n in chain ==> n in Order(r.buckets))
            && (forall i, j :: 0 <= i < j < |chain| ==>
                  FirstIndex(Order(r.buckets), chain[i]) < FirstIndex(Order(r.buckets), chain[j]))
  {
    var r := Reached(glob, ops);
    MatchingOrdered(glob, r.handlers, Order(r.buckets), e);
    forall n
      ensures n in r.cache[e] <==>
              && n in r.handlers && (exists p :: p in r.handlers[n].subscribe && glob(e, p))
              && !(exists p :: p in r.handlers[n].filterEvent && glob(e, p))
    {
      MatchingIn(glob, r.handlers, Order(r.buckets), e, n);
    }
  }
}
