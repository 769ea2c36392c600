/** The handler registry as a value: current handlers, priority buckets and the chain cache. */
module RegistryModel {
  import opened Common
  import opened OrderedKeys

  type Name = string
  type Pattern = string
  type EventName = string

  /** fnmatchcase(event, pattern), of which nothing is assumed. */
  type Glob = (EventName, Pattern) -> bool

  datatype Between = Between(left: Option<Name>, right: Option<Name>)

  /** Execution options, which registration carries along unread. */
  datatype Options = Options(stopWhenError: bool, timeOut: Option<real>, background: bool)

  /** What a handler instance says about its registration. */
  datatype Meta = Meta(
    name: Name,
    subscribe: seq<Pattern>,
    filterEvent: seq<Pattern>,
    priority: Option<real>,
    between: Option<Between>,
    options: Options,
    registerOrder: int)

  type Buckets = map<real, seq<Name>>

  datatype Registry = Registry(
    handlers: map<Name, Meta>, buckets: Buckets, cache: map<EventName, seq<Name>>, registerOrder: nat)

  datatype Problem =
    EmptyName | AlreadyRegistered | PriorityAndBoundaries | BadPatterns | BadBoundaries
    | BoundaryNotRegistered | BoundariesReversed | NoPriority | NotRegistered | PriorityOutOfRange

  datatype Outcome<T> = Good(value: T) | Bad(problem: Problem)

  predicate Matches(glob: Glob, h: Meta, e: EventName) {
    (exists p :: p in h.subscribe && glob(e, p)) && !(exists p :: p in h.filterEvent && glob(e, p))
  }

  // --------------------------------------------------------------------------------------------
  // Dispatch order
  // --------------------------------------------------------------------------------------------

  ghost predicate IsHighest(keys: set<real>, p: real) {
    p in keys && forall q :: q in keys ==> q <= p
  }

  lemma SomeMember<T>(s: set<T>) returns (x: T)
    requires |s| > 0
    ensures x in s
  {
    x :| x in s;
  }

  lemma {:induction false} HighestExists(keys: set<real>)
    requires |keys| > 0
    ensures exists p :: IsHighest(keys, p)
    decreases |keys|
  {
    var q := SomeMember(keys);
    var others := keys - {q};
    if others == {} {
      assert keys == {q} && IsHighest(keys, q);
    } else {
      HighestExists(others);
      var r :| IsHighest(others, r);
      assert forall x :: x in keys ==> x == q || x in others;
      assert IsHighest(keys, if q > r then q else r);
    }
  }

  ghost function Highest(b: Buckets): (p: real)
    requires b != map[]
    ensures IsHighest(b.Keys, p)
  {
    assert |b.Keys| == |b|;
    HighestExists(b.Keys);
    var p :| IsHighest(b.Keys, p);
    p
  }

  lemma HighestIs(b: Buckets, p: real)
    requires IsHighest(b.Keys, p)
    ensures b != map[] && Highest(b) == p
  {
    var q := Highest(b);
    assert q in b.Keys && p in b.Keys;
  }

  /** Every active name: higher priorities first, bucket order within one priority. */
  ghost function Order(b: Buckets): seq<Name>
    decreases |b|
  {
    if b == map[] then []
    else
      var p := Highest(b);
      assert |b - {p}| < |b| by { SmallerWithout(b, p); }
      b[p] + Order(b - {p})
  }

  lemma SmallerWithout(b: Buckets, p: real)
    requires p in b
    ensures |b - {p}| < |b|
  {
    assert b.Keys == (b - {p}).Keys + {p};
    assert |b.Keys| == |b| && |(b - {p}).Keys| == |b - {p}|;
  }

  function At(b: Buckets, p: real): seq<Name> {
    if p in b then b[p] else []
  }

  ghost function Above(b: Buckets, p: real): Buckets {
    map q | q in b && q > p :: b[q]
  }

  ghost function Below(b: Buckets, p: real): Buckets {
    map q | q in b && q < p :: b[q]
  }

  /** The dispatch order around one priority. */
  lemma {:induction false} OrderSplit(b: Buckets, p: real)
    ensures Order(b) == Order(Above(b, p)) + At(b, p) + Order(Below(b, p))
    decreases |b|
  {
    if b == map[] {
      assert Above(b, p) == b && Below(b, p) == b;
    } else {
      var m := Highest(b);
      var rest := b - {m};
      SmallerWithout(b, m);
      if m > p {
        OrderSplit(rest, p);
        assert Above(rest, p) == Above(b, p) - {m} && Below(rest, p) == Below(b, p);
        HighestIs(Above(b, p), m);
        assert Above(b, p)[m] == b[m];
        assert Order(Above(b, p)) == b[m] + Order(Above(rest, p));
      } else {
        assert Above(b, p) == map[];
        if m == p {
          assert Below(b, p) == rest;
        } else {
          assert Below(b, p) == b;
        }
      }
    }
  }

  lemma {:induction false} OrderMembers(b: Buckets, n: Name)
    ensures n in Order(b) <==> exists p :: p in b && n in b[p]
    decreases |b|
  {
    if b != map[] {
      var m := Highest(b);
      SmallerWithout(b, m);
      OrderMembers(b - {m}, n);
      if p :| p in b && n in b[p] {
        assert p != m ==> p in b - {m} && n in (b - {m})[p];
      }
      if p :| p in b - {m} && n in (b - {m})[p] {
        assert n in b[p];
      }
    }
  }

  // --------------------------------------------------------------------------------------------
  // Chains
  // --------------------------------------------------------------------------------------------

  /** The names of a list whose current handler accepts the event, in list order. */
  function Matching(glob: Glob, handlers: map<Name, Meta>, names: seq<Name>, e: EventName): seq<Name> {
    if names == [] then []
    else
      var n := names[|names| - 1];
      Matching(glob, handlers, names[..|names| - 1], e)
      + if n in handlers && Matches(glob, handlers[n], e) then [n] else []
  }

  /** What a freshly computed chain would be. */
  ghost function Chain(glob: Glob, r: Registry, e: EventName): seq<Name> {
    Matching(glob, r.handlers, Order(r.buckets), e)
  }

  lemma {:induction false} MatchingConcat(glob: Glob, handlers: map<Name, Meta>, a: seq<Name>, b: seq<Name>, e: EventName)
    ensures Matching(glob, handlers, a + b, e) == Matching(glob, handlers, a, e) + Matching(glob, handlers, b, e)
  {
    if b == [] {
      assert a + b == a;
    } else {
      var n := |b| - 1;
      assert (a + b)[..|a + b| - 1] == a + b[..n];
      MatchingConcat(glob, handlers, a, b[..n], e);
    }
  }

  lemma {:induction false} MatchingAgrees(
      glob: Glob, g: map<Name, Meta>, h: map<Name, Meta>, names: seq<Name>, e: EventName)
    requires forall n :: n in names ==> (n in g <==> n in h) && (n in g ==> g[n] == h[n])
    ensures Matching(glob, g, names, e) == Matching(glob, h, names, e)
  {
    if names != [] {
      assert names[|names| - 1] in names;
      MatchingAgrees(glob, g, h, names[..|names| - 1], e);
    }
  }

  lemma {:induction false} MatchingIn(glob: Glob, handlers: map<Name, Meta>, names: seq<Name>, e: EventName, n: Name)
    ensures n in Matching(glob, handlers, names, e) <==> n in names && n in handlers && Matches(glob, handlers[n], e)
  {
    if names != [] {
      MatchingIn(glob, handlers, names[..|names| - 1], e, n);
      assert names == names[..|names| - 1] + [names[|names| - 1]];
    }
  }

  // --------------------------------------------------------------------------------------------
  // The invariant
  // --------------------------------------------------------------------------------------------

  /** The names in the buckets are the registered ones, each once; no bucket is empty. */
  ghost predicate BucketsOk(r: Registry) {
    && NoDuplicates(Order(r.buckets))
    && (forall n :: n in Order(r.buckets) <==> n in r.handlers)
    && (forall p :: p in r.buckets ==> r.buckets[p] != [])
  }

  ghost predicate HandlersOk(r: Registry) {
    forall n :: n in r.handlers ==>
      && r.handlers[n].name == n
      && (r.handlers[n].priority.Some? ==> n in At(r.buckets, r.handlers[n].priority.value))
  }

  ghost predicate CacheOk(glob: Glob, r: Registry) {
    forall e :: e in r.cache ==> r.cache[e] == Chain(glob, r, e)
  }

  ghost predicate Inv(glob: Glob, r: Registry) {
    BucketsOk(r) && HandlersOk(r) && CacheOk(glob, r)
  }

  ghost function BucketOf(b: Buckets, n: Name): (p: real)
    requires n in Order(b)
    ensures p in b && n in b[p]
  {
    OrderMembers(b, n);
    var p :| p in b && n in b[p];
    p
  }

  lemma NoDuplicateParts(a: seq<Name>, m: seq<Name>, z: seq<Name>)
    requires NoDuplicates(a + m + z)
    ensures NoDuplicates(a) && NoDuplicates(m) && NoDuplicates(z)
    ensures forall n :: n in m ==> n !in a && n !in z
    ensures forall n :: n in a ==> n !in z
  {
    var all := a + m + z;
    assert forall i :: 0 <= i < |a| ==> all[i] == a[i];
    assert forall i :: 0 <= i < |m| ==> all[|a| + i] == m[i];
    assert forall i :: 0 <= i < |z| ==> all[|a| + |m| + i] == z[i];
  }

  lemma MemberBeside(b: Buckets, p: real, q: real, n: Name)
    requires q in b && n in b[q] && q != p
    ensures n in Order(if q > p then Above(b, p) else Below(b, p))
  {
    var side := if q > p then Above(b, p) else Below(b, p);
    assert side[q] == b[q];
    OrderMembers(side, n);
  }

  /** A name is in one bucket only. */
  lemma OneBucket(b: Buckets, p: real, n: Name)
    requires NoDuplicates(Order(b)) && p in b && n in b[p]
    ensures n in Order(b) && BucketOf(b, n) == p
    ensures n !in Order(Above(b, p)) && n !in Order(Below(b, p)) && NoDuplicates(b[p])
  {
    hide NoDuplicates;
    hide Order;
    OrderMembers(b, n);
    var q := BucketOf(b, n);
    if q != p {
      MemberBeside(b, p, q, n);
    }
    OrderSplit(b, p);
    NoDuplicateParts(Order(Above(b, p)), b[p], Order(Below(b, p)));
  }
}
