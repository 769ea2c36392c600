/** The registry object, its handlers and the lists it hands out, proved against RegistrySteps. */
module HandlerRegistry {
  import opened Common
  import opened OrderedKeys
  import opened RegistryModel
  import opened RegistrySteps
  import opened RegistryTheorems

  class ApixEventHandler {
    var name: Name
    var subscribe: seq<Pattern>
    var filterEvent: seq<Pattern>
    var priority: Option<real>
    var between: Option<Between>
    var options: Options
    var registerOrder: int

    constructor Of(h: Meta)
      ensures Value() == h
    {
      name, subscribe, filterEvent, priority := h.name, h.subscribe, h.filterEvent, h.priority;
      between, options, registerOrder := h.between, h.options, h.registerOrder;
    }

    constructor Copy(h: ApixEventHandler)
      ensures Value() == h.Value()
    {
      name, subscribe, filterEvent, priority := h.name, h.subscribe, h.filterEvent, h.priority;
      between, options, registerOrder := h.between, h.options, h.registerOrder;
    }

    ghost function Value(): Meta
      reads this
    {
      Meta(name, subscribe, filterEvent, priority, between, options, registerOrder)
    }
  }

  /** A chain as callers hold it. */
  class NameList {
    var names: seq<Name>

    constructor ()
      ensures names == []
    {
      names := [];
    }

    method Append(n: Name)
      modifies this
      ensures names == old(names) + [n]
    {
      names := names + [n];
    }
  }

  /** bucket.index(name): None stands for ValueError. */
  method IndexOf(bucket: seq<Name>, n: Name) returns (r: Option<nat>)
    ensures r == if n in bucket then Some(FirstIndex(bucket, n)) else None
  {
    for i := 0 to |bucket|
      invariant n !in bucket[..i]
    {
      if bucket[i] == n {
        FirstIndexIs(bucket, i, n);
        return Some(i);
      }
    }
    r := None;
  }

  lemma PoppedBucket(names: seq<Name>, i: nat, n: Name)
    requires NoDuplicates(names) && i < |names| && names[i] == n
    ensures names[..i] + names[i + 1..] == Without(names, n)
  {
    var front, back := names[..i], names[i + 1..];
    assert names == front + ([n] + back);
    assert n !in front && n !in back;
    assert Without([n], n) == [];
    WithoutConcat(front, [n] + back, n);
    WithoutConcat([n], back, n);
    WithoutAbsent(front, n);
    WithoutAbsent(back, n);
    assert [] + back == back;
  }

  lemma FewerCaches(glob: Glob, r: Registry, s: Registry)
    requires Inv(glob, r) && s.handlers == r.handlers && s.buckets == r.buckets
    requires forall e :: e in s.cache ==> e in r.cache && s.cache[e] == r.cache[e]
    ensures Inv(glob, s)
  {
  }

  lemma CoherentBuckets(glob: Glob, r: Registry)
    requires Inv(glob, r)
    ensures BucketsOk(r)
  {
  }

  /** A lookup leaves the event's chain in the cache, rebuilt or not. */
  lemma QueriedChain(glob: Glob, r: Registry, e: EventName)
    requires Inv(glob, r) && e != ""
    ensures var s := QueryStep(glob, r, e);
            s.handlers == r.handlers && e in s.cache && s.cache[e] == Matching(glob, r.handlers, Order(r.buckets), e)
  {
    hide Order;
    hide Matching;
    hide BucketsOk;
  }

  lemma MatchingStep(glob: Glob, handlers: map<Name, Meta>, names: seq<Name>, i: nat, e: EventName)
    requires i < |names|
    ensures Matching(glob, handlers, names[..i + 1], e) ==
            Matching(glob, handlers, names[..i], e)
            + if names[i] in handlers && Matches(glob, handlers[names[i]], e) then [names[i]] else []
  {
    assert names[..i + 1][..i] == names[..i];
  }

  class ApixHandlerRegistry {
    const fnmatchcase: Glob
    var registry: map<Name, ApixEventHandler>
    var priorityBuckets: Buckets
    var cachedChain: map<EventName, NameList>
    var registerOrder: nat

    constructor (fnmatchcase: Glob)
      ensures Valid() && Abs() == Registry(map[], map[], map[], 0) && this.fnmatchcase == fnmatchcase
    {
      this.fnmatchcase := fnmatchcase;
      registry, priorityBuckets, cachedChain, registerOrder := map[], map[], map[], 0;
    }

    ghost function Abs(): Registry
      reads this, registry.Values, cachedChain.Values
    {
      Registry(Handlers(), priorityBuckets, Cache(), registerOrder)
    }

    ghost function Handlers(): map<Name, Meta>
      reads this`registry, registry.Values
    {
      map n | n in registry :: registry[n].Value()
    }

    ghost function Cache(): map<EventName, seq<Name>>
      reads this`cachedChain, cachedChain.Values
    {
      map e | e in cachedChain :: cachedChain[e].names
    }

    ghost predicate Valid()
      reads this, registry.Values, cachedChain.Values
    {
      Inv(fnmatchcase, Abs())
    }

    predicate MatchesHandler(h: ApixEventHandler, e: EventName)
      reads h
    {
      (exists p :: p in h.subscribe && fnmatchcase(e, p)) && !(exists p :: p in h.filterEvent && fnmatchcase(e, p))
    }

    lemma MatchesValue(n: Name, e: EventName)
      ensures n in registry ==> (MatchesHandler(registry[n], e) <==> Matches(fnmatchcase, Handlers()[n], e))
    {
    }

    // ------------------------------------------------------------------------------------------
    // Buckets
    // ------------------------------------------------------------------------------------------

    method HighestPriority(keys: set<real>) returns (p: real)
      requires keys != {}
      ensures IsHighest(keys, p)
    {
      ghost var some := SomeMember(keys);
      assert some in keys;
      p :| p in keys;
      var rest := keys - {p};
      while rest != {}
        invariant rest <= keys && p in keys
        invariant forall q :: q in keys && q !in rest ==> q <= p
        decreases |rest|
      {
        ghost var another := SomeMember(rest);
        assert another in rest;
        var q :| q in rest;
        rest := rest - {q};
        if q > p {
          p := q;
        }
      }
    }

    /** The active names by descending priority. */
    method IterActiveHandlerNames() returns (names: seq<Name>)
      ensures names == Order(priorityBuckets)
    {
      names := [];
      var rest := priorityBuckets;
      while rest != map[]
        invariant names + Order(rest) == Order(priorityBuckets)
        decreases |rest|
      {
        assert |rest.Keys| == |rest|;
        var p := HighestPriority(rest.Keys);
        HighestIs(rest, p);
        SmallerWithout(rest, p);
        assert Order(rest) == rest[p] + Order(rest - {p});
        names := names + rest[p];
        rest := rest - {p};
      }
      assert names + [] == names;
    }

    method GetHandlerPriority(n: Name) returns (p: Option<real>)
      ensures p == if n in registry then registry[n].priority else None
    {
      p := if n in registry then registry[n].priority else None;
    }

    /** Bucket and index of a name: in the named bucket only, or anywhere when none is named. */
    method FindHandlerPosition(n: Name, priority: Option<real>) returns (at: Option<(real, nat)>)
      ensures at.Some? ==> at.value.0 in priorityBuckets && n in priorityBuckets[at.value.0]
                           && at.value.1 == FirstIndex(priorityBuckets[at.value.0], n)
      ensures priority.Some? ==> (at.Some? <==> n in At(priorityBuckets, priority.value))
                                 && (at.Some? ==> at.value.0 == priority.value)
      ensures priority.None? ==> (at.Some? <==> n in Order(priorityBuckets))
    {
      if priority.Some? {
        if priority.value !in priorityBuckets {
          return None;
        }
        var index := IndexOf(priorityBuckets[priority.value], n);
        return if index.Some? then Some((priority.value, index.value)) else None;
      }
      OrderMembers(priorityBuckets, n);
      var rest := priorityBuckets.Keys;
      while rest != {}
        invariant rest <= priorityBuckets.Keys
        invariant forall p :: p in priorityBuckets && p !in rest ==> n !in priorityBuckets[p]
        decreases |rest|
      {
        ghost var some := SomeMember(rest);
        assert some in rest;
        var p :| p in rest;
        var index := IndexOf(priorityBuckets[p], n);
        if index.Some? {
          return Some((p, index.value));
        }
        rest := rest - {p};
      }
      at := None;
    }

    /** Looking up a name under its own priority finds its bucket, if it is registered. */
    method Locate(n: Name) returns (at: Option<(real, nat)>)
      requires Valid()
      ensures at.Some? <==> n in registry
      ensures at.Some? ==> n in Order(priorityBuckets) && at.value.0 == BucketOf(priorityBuckets, n)
                           && at.value.1 == FirstIndex(priorityBuckets[at.value.0], n)
    {
      var priority := GetHandlerPriority(n);
      assert n in registry <==> n in Abs().handlers;
      at := FindHandlerPosition(n, priority);
      assert n in registry ==> Abs().handlers[n].priority == priority;
      if at.Some? {
        OneBucket(priorityBuckets, at.value.0, n);
      }
    }

    /** The boundaries are checked without touching anything. */
    method ValidateBetweenHandlers(between: Between, name: Name) returns (r: Outcome<real>)
      requires Valid()
      ensures r == CheckBoundaries(Abs(), between, name)
    {
      var left, right := between.left, between.right;
      if left.None? && right.None? {
        return Bad(BadBoundaries);
      }
      if left == Some("") || right == Some("") {
        return Bad(BadBoundaries);
      }
      if left.Some? && left == right {
        return Bad(BadBoundaries);
      }
      if left == Some(name) || right == Some(name) {
        return Bad(BadBoundaries);
      }
      var leftAt: Option<(real, nat)>, rightAt: Option<(real, nat)> := None, None;
      if left.Some? {
        leftAt := Locate(left.value);
      }
      if right.Some? {
        rightAt := Locate(right.value);
      }
      if left.Some? && leftAt.None? {
        return Bad(BoundaryNotRegistered);
      }
      if right.Some? && rightAt.None? {
        return Bad(BoundaryNotRegistered);
      }
      if leftAt.Some? && rightAt.Some? {
        if leftAt.value.0 < rightAt.value.0
           || (leftAt.value.0 == rightAt.value.0 && leftAt.value.1 >= rightAt.value.1)
        {
          return Bad(BoundariesReversed);
        }
        return Good(rightAt.value.0);
      }
      if leftAt.Some? {
        return Good(leftAt.value.0);
      }
      r := Good(rightAt.value.0);
    }

    // ------------------------------------------------------------------------------------------
    // Chains
    // ------------------------------------------------------------------------------------------

    /** Expires the cached chains that a handler takes part in; the lists themselves are not touched. */
    method InvalidateMatchingChains(h: ApixEventHandler)
      modifies this`cachedChain
      ensures Cache() == Unexpired(fnmatchcase, old(Cache()), h.Value())
      ensures forall e :: e in cachedChain ==> e in old(cachedChain) && cachedChain[e] == old(cachedChain)[e]
    {
      var needDelete: set<EventName> := {};
      var rest := cachedChain.Keys;
      while rest != {}
        invariant rest <= cachedChain.Keys
        invariant forall e :: e in needDelete <==> e in cachedChain && e !in rest && MatchesHandler(h, e)
        decreases |rest|
      {
        var e :| e in rest;
        if MatchesHandler(h, e) {
          needDelete := needDelete + {e};
        }
        rest := rest - {e};
      }
      cachedChain := cachedChain - needDelete;
    }

    /** Walks the active names and keeps those whose handler accepts the event, in a new list. */
    method BuildChain(e: EventName) returns (list: NameList)
      ensures fresh(list) && list.names == Chain(fnmatchcase, Abs(), e)
    {
      hide Order;
      hide Matches;
      hide MatchesHandler;
      list := new NameList();
      var names := IterActiveHandlerNames();
      assert names[..0] == [];
      for i := 0 to |names|
        invariant list.names == Matching(fnmatchcase, Handlers(), names[..i], e)
      {
        hide Matching;
        MatchingStep(fnmatchcase, Handlers(), names, i, e);
        MatchesValue(names[i], e);
        if names[i] in registry && MatchesHandler(registry[names[i]], e) {
          list.Append(names[i]);
        }
      }
      assert names[..|names|] == names;
    }

    /** The chain of one event, rebuilt only when it is absent.  The list returned is the cached one. */
    method GetHandlersChainForEvent(e: EventName) returns (chain: NameList?)
      requires Valid()
      modifies this`cachedChain
      ensures Valid() && (chain == null <==> e == "")
      ensures Abs() == QueryStep(fnmatchcase, old(Abs()), e)
      ensures chain != null ==> e in cachedChain && cachedChain[e] == chain
      ensures chain != null && e !in old(cachedChain) ==> fresh(chain)
      ensures forall f :: f in old(cachedChain) ==> f in cachedChain && cachedChain[f] == old(cachedChain)[f]
    {
      hide Inv;
      if e == "" {
        return null;
      }
      ghost var was := Abs();
      if e in cachedChain {
        return cachedChain[e];
      }
      chain := BuildChain(e);
      cachedChain := cachedChain[e := chain];
      assert Handlers() == was.handlers;
      assert Cache() == was.cache[e := Chain(fnmatchcase, was, e)];
      ApplyKeepsInv(fnmatchcase, was, Query(e));
    }

    /** The handlers of an event's chain: every name of it is registered. */
    method GetHandlersForEvent(e: EventName) returns (handlers: seq<ApixEventHandler>)
      requires Valid() && e != ""
      modifies this`cachedChain
      ensures Valid() && Abs() == QueryStep(fnmatchcase, old(Abs()), e)
      ensures var chain := Chain(fnmatchcase, old(Abs()), e);
              |handlers| == |chain|
              && forall i :: 0 <= i < |chain| ==> chain[i] in registry && handlers[i] == registry[chain[i]]
    {
      hide Inv;
      hide Order;
      hide Matching;
      CoherentBuckets(fnmatchcase, Abs());
      ghost var was := Abs();
      QueriedChain(fnmatchcase, was, e);
      var list := GetHandlersChainForEvent(e);
      var names := list.names;
      assert names == Abs().cache[e];
      hide QueryStep;
      handlers := [];
      for i := 0 to |names|
        modifies {}
        invariant |handlers| == i
        invariant forall j :: 0 <= j < i ==> names[j] in registry && handlers[j] == registry[names[j]]
      {
        MatchingIn(fnmatchcase, was.handlers, Order(was.buckets), e, names[i]);
        handlers := handlers + [registry[names[i]]];
      }
    }

    // ------------------------------------------------------------------------------------------
    // Registration
    // ------------------------------------------------------------------------------------------

    /** A bucket loses the name at the given position, and disappears when it was the only one. */
    method RemoveFromBucket(n: Name)
      requires Valid() && n in registry
      modifies this`priorityBuckets
      ensures priorityBuckets == RemoveName(old(priorityBuckets), n)
    {
      ghost var b := priorityBuckets;
      var at := Locate(n);
      var p, index := at.value.0, at.value.1;
      var bucket := priorityBuckets[p];
      OneBucket(b, p, n);
      PoppedBucket(bucket, index, n);
      bucket := bucket[..index] + bucket[index + 1..];
      if bucket == [] {
        priorityBuckets := priorityBuckets - {p};
      } else {
        priorityBuckets := priorityBuckets[p := bucket];
      }
    }

    method UnregisterHandler(n: Name, missingOk: bool) returns (raised: bool)
      requires Valid()
      modifies this
      ensures Valid() && (raised <==> n !in old(registry) && !missingOk)
      ensures Abs() == UnregisterStep(fnmatchcase, old(Abs()), n)
      ensures registry == old(registry) - {n}
      ensures forall e :: e in cachedChain ==> e in old(cachedChain) && cachedChain[e] == old(cachedChain)[e]
    {
      hide Inv;
      hide RemoveName;
      UnregisterKeepsInv(fnmatchcase, Abs(), n);
      if n !in registry {
        assert n !in Abs().handlers && registry - {n} == registry;
        return !missingOk;
      }
      RemoveEntry(n);
      raised := false;
    }

    method RemoveEntry(n: Name)
      requires Valid() && n in registry
      modifies this
      ensures Abs() == UnregisterStep(fnmatchcase, old(Abs()), n) && registry == old(registry) - {n}
      ensures forall e :: e in cachedChain ==> e in old(cachedChain) && cachedChain[e] == old(cachedChain)[e]
    {
      hide Inv;
      hide Unexpired;
      hide RemoveName;
      ghost var was := Abs();
      InvalidateMatchingChains(registry[n]);
      ghost var mid := Abs();
      assert mid.handlers == was.handlers && mid.buckets == was.buckets;
      FewerCaches(fnmatchcase, was, mid);
      RemoveFromBucket(n);
      registry := registry - {n};
      assert Handlers() == was.handlers - {n};
      assert Cache() == Unexpired(fnmatchcase, was.cache, was.handlers[n]);
    }

    /** A name joins its bucket: at the end, before its right boundary, or else after its left one. */
    method InsertInBucket(n: Name, between: Option<Between>, p: real)
      requires between.Some? ==>
                 Decisive(between.value).Some? && Decisive(between.value).value in At(priorityBuckets, p)
      modifies this`priorityBuckets
      ensures var bucket := At(old(priorityBuckets), p);
              priorityBuckets == SetBucket(old(priorityBuckets), p, InsertAt(bucket, Place(bucket, between), n))
    {
      var bucket := At(priorityBuckets, p);
      var index: nat := |bucket|;
      if between.Some? {
        var left, right := between.value.left, between.value.right;
        if right.Some? {
          var at := IndexOf(bucket, right.value);
          index := at.value;
        } else {
          var at := IndexOf(bucket, left.value);
          index := at.value + 1;
        }
      }
      priorityBuckets := priorityBuckets[p := bucket[..index] + [n] + bucket[index..]];
    }

    /** The committing half of a registration: nothing here can fail. */
    method InsertHandler(entry: ApixEventHandler, subscriptions: seq<Pattern>, filters: seq<Pattern>, p: real)
      requires Valid() && entry.name !in registry && entry !in registry.Values
      requires entry.priority.Some? ==> entry.priority.value == p
      requires entry.between.Some? ==>
                 Decisive(entry.between.value).Some? && Decisive(entry.between.value).value in At(priorityBuckets, p)
      modifies this, entry
      ensures Valid() && registry == old(registry)[entry.name := entry]
      ensures entry.Value() == old(entry.Value()).(
                                 subscribe := subscriptions, filterEvent := filters, registerOrder := old(registerOrder))
      ensures Abs() == InsertStep(fnmatchcase, old(Abs()), entry.Value(), p)
    {
      hide Inv;
      hide InsertStep;
      ghost var was := Abs();
      InsertEntry(entry, subscriptions, filters, p);
      InsertKeepsInv(fnmatchcase, was, entry.Value(), p);
    }

    method InsertEntry(entry: ApixEventHandler, subscriptions: seq<Pattern>, filters: seq<Pattern>, p: real)
      requires entry.name !in registry && entry !in registry.Values
      requires entry.between.Some? ==>
                 Decisive(entry.between.value).Some? && Decisive(entry.between.value).value in At(priorityBuckets, p)
      modifies this, entry
      ensures registry == old(registry)[entry.name := entry]
      ensures entry.Value() == old(entry.Value()).(
                                 subscribe := subscriptions, filterEvent := filters, registerOrder := old(registerOrder))
      ensures Abs() == InsertStep(fnmatchcase, old(Abs()), entry.Value(), p)
    {
      hide Place;
      hide Matches;
      hide Order;
      hide SetBucket;
      hide InsertAt;
      hide Unexpired;
      ghost var was := Abs();
      StoreEntry(entry, subscriptions, filters);
      FileEntry(entry, p);
    }

    /** A stored entry joins its bucket, and the chains it belongs to expire. */
    method FileEntry(entry: ApixEventHandler, p: real)
      requires entry.between.Some? ==>
                 Decisive(entry.between.value).Some? && Decisive(entry.between.value).value in At(priorityBuckets, p)
      modifies this`priorityBuckets, this`cachedChain, this`registerOrder
      ensures var was, bucket := old(Abs()), At(old(priorityBuckets), p);
              Abs() == Registry(was.handlers,
                                SetBucket(was.buckets, p, InsertAt(bucket, Place(bucket, entry.between), entry.name)),
                                Unexpired(fnmatchcase, was.cache, entry.Value()), was.registerOrder + 1)
    {
      hide Place;
      hide Matches;
      hide Order;
      hide SetBucket;
      hide InsertAt;
      hide Unexpired;
      ghost var was := Abs();
      InsertInBucket(entry.name, entry.between, p);
      assert Cache() == was.cache;
      InvalidateMatchingChains(entry);
      registerOrder := registerOrder + 1;
      assert Handlers() == was.handlers;
    }

    method StoreEntry(entry: ApixEventHandler, subscriptions: seq<Pattern>, filters: seq<Pattern>)
      requires entry.name !in registry && entry !in registry.Values
      modifies this`registry, entry
      ensures entry.Value() == old(entry.Value()).(
                                 subscribe := subscriptions, filterEvent := filters, registerOrder := registerOrder)
      ensures registry == old(registry)[entry.name := entry]
      ensures Handlers() == old(Handlers())[entry.name := entry.Value()] && Cache() == old(Cache())
    {
      ghost var was := Handlers();
      entry.subscribe, entry.filterEvent, entry.registerOrder := subscriptions, filters, registerOrder;
      assert Handlers() == was;
      registry := registry[entry.name := entry];
      assert Handlers() == was[entry.name := entry.Value()];
    }

    /** Everything that can reject a registration, without touching anything. */
    method CheckHandler(entry: ApixEventHandler, existOk: bool) returns (r: Outcome<real>)
      requires Valid()
      ensures r == Check(Abs(), entry.Value(), existOk)
    {
      if entry.name == "" {
        return Bad(EmptyName);
      }
      assert entry.name in registry <==> entry.name in Abs().handlers;
      if entry.name in registry && !existOk {
        return Bad(AlreadyRegistered);
      }
      if entry.priority.Some? && entry.between.Some? {
        return Bad(PriorityAndBoundaries);
      }
      if NormalisePatterns(entry.subscribe).None? || NormaliseFilters(entry.filterEvent).None? {
        return Bad(BadPatterns);
      }
      if entry.between.Some? {
        r := ValidateBetweenHandlers(entry.between.value, entry.name);
      } else {
        r := if entry.priority.Some? then Good(entry.priority.value) else Bad(NoPriority);
      }
    }

    /** All or nothing: a rejected call leaves registry and entry alone. */
    method RegisterHandler(entry: ApixEventHandler, existOk: bool) returns (problem: Option<Problem>)
      requires Valid()
      modifies this, entry
      ensures Valid()
      ensures var checked := Check(old(Abs()), old(entry.Value()), existOk);
              if checked.Bad? then
                && problem == Some(checked.problem)
                && Abs() == old(Abs()) && registry == old(registry) && entry.Value() == old(entry.Value())
              else
                && problem.None?
                && Abs() == RegisterStep(fnmatchcase, old(Abs()), old(entry.Value()), existOk)
                && registry == old(registry)[entry.name := entry]
                && entry.Value() == Stored(old(entry.Value()), old(registerOrder))
    {
      hide Inv;
      ghost var was := Abs();
      ghost var h := entry.Value();
      CoherentBuckets(fnmatchcase, was);
      var checked := CheckHandler(entry, existOk);
      if checked.Bad? {
        return Some(checked.problem);
      }
      BoundaryRemains(was, h, existOk);
      var raised := UnregisterHandler(entry.name, true);
      assert Abs().buckets == RemoveName(was.buckets, h.name);
      EntryUnregistered(entry);
      assert registry[entry.name := entry] == old(registry)[entry.name := entry];
      var subscriptions, filters := NormalisePatterns(entry.subscribe).value, NormaliseFilters(entry.filterEvent).value;
      InsertHandler(entry, subscriptions, filters, checked.value);
      problem := None;
    }

    lemma EntryUnregistered(entry: ApixEventHandler)
      requires Valid() && entry.name !in registry
      ensures entry !in registry.Values
    {
      forall n | n in registry
        ensures registry[n] != entry
      {
        assert Handlers()[n].name == n;
      }
    }

    lemma BoundaryRemains(r: Registry, h: Meta, existOk: bool)
      requires BucketsOk(r) && Check(r, h, existOk).Good?
      ensures var p := Check(r, h, existOk).value; var rest := RemoveName(r.buckets, h.name);
              && (h.priority.Some? ==> h.priority.value == p)
              && (h.between.Some? ==>
                    Decisive(h.between.value).Some? && Decisive(h.between.value).value in At(rest, p))
              && (h.name !in r.handlers ==> rest == r.buckets)
    {
      if h.between.Some? {
        var p := Check(r, h, existOk).value;
        DecisiveInBucket(r, h, existOk);
        RemoveAt(r.buckets, h.name, p);
        WithoutMembers(At(r.buckets, p), h.name);
      }
    }

    /** Any sequence of registrations (each of a new handler object), removals and lookups. */
    method RunOps(ops: seq<Op>)
      requires Valid()
      modifies this
      ensures Valid() && Abs() == After(fnmatchcase, old(Abs()), ops)
    {
      hide Inv;
      hide Apply;
      ghost var was := Abs();
      assert ops[0..] == ops;
      for i := 0 to |ops|
        invariant Valid() && After(fnmatchcase, was, ops) == After(fnmatchcase, Abs(), ops[i..])
      {
        assert ops[i..][0] == ops[i] && ops[i..][1..] == ops[i + 1..];
        CoherentBuckets(fnmatchcase, Abs());
        Perform(ops[i]);
      }
    }

    method RegisterNew(h: Meta, existOk: bool)
      requires Valid() && BucketsOk(Abs())
      modifies this
      ensures Valid() && Abs() == RegisterStep(fnmatchcase, old(Abs()), h, existOk)
    {
      hide Inv;
      var entry := new ApixEventHandler.Of(h);
      var problem := RegisterHandler(entry, existOk);
    }

    method Perform(op: Op)
      requires Valid() && BucketsOk(Abs())
      modifies this
      ensures Valid() && Abs() == Apply(fnmatchcase, old(Abs()), op)
    {
      hide Inv;
      match op
      case Register(h, existOk) => RegisterNew(h, existOk);
      case Unregister(n) => var raised := UnregisterHandler(n, true);
      case Query(e) => var chain := GetHandlersChainForEvent(e);
    }
  }

  /** The arguments of subscribe(). */
  datatype Request = Request(
    eventNames: seq<Pattern>, filterEvent: Option<seq<Pattern>>, priority: Option<real>, between: Option<Between>,
    stopWhenError: Option<bool>, timeOut: Option<real>, background: Option<bool>, existOk: bool)

  /** The metadata that subscribe() stages: ordering options replace what the handler had, execution
      options only where given. */
  function Staged(h: Meta, q: Request): Meta {
    h.(subscribe := q.eventNames,
       filterEvent := if q.filterEvent.Some? then q.filterEvent.value else [],
       priority := if q.priority.None? && q.between.None? then Some(1.0) else q.priority,
       between := q.between,
       options := Overriding(h.options, q))
  }

  function Overriding(given: Options, q: Request): Options {
    Options(
      if q.stopWhenError.Some? then q.stopWhenError.value else given.stopWhenError,
      if q.timeOut.None? then given.timeOut else if q.timeOut.value > 0.0 then q.timeOut else None,
      if q.background.Some? then q.background.value else given.background)
  }

  /** What subscribe() stages: its own events, filters and place, the default priority only when neither
      a priority nor boundaries are given; of the execution options those given, a timeout that is not
      positive switching the limit off. */
  lemma StagedAttributes(h: Meta, q: Request)
    ensures var m := Staged(h, q);
            && m.name == h.name && m.subscribe == q.eventNames && m.between == q.between
            && m.registerOrder == h.registerOrder
            && m.filterEvent == (if q.filterEvent.Some? then q.filterEvent.value else [])
            && (q.priority.Some? || q.between.Some? ==> m.priority == q.priority)
            && (q.priority.None? && q.between.None? ==> m.priority == Some(1.0))
            && m.options.stopWhenError == (if q.stopWhenError.Some? then q.stopWhenError.value else h.options.stopWhenError)
            && m.options.background == (if q.background.Some? then q.background.value else h.options.background)
            && (q.timeOut.None? ==> m.options.timeOut == h.options.timeOut)
            && (q.timeOut.Some? && q.timeOut.value > 0.0 ==> m.options.timeOut == q.timeOut)
            && (q.timeOut.Some? && q.timeOut.value <= 0.0 ==> m.options.timeOut.None?)
  {
  }

  /** Only subscribe() bounds a priority; registration takes any. */
  lemma CheckIgnoresRange(r: Registry, h: Meta, existOk: bool)
    requires BucketsOk(r)
    ensures Check(r, h, existOk) != Bad(PriorityOutOfRange)
  {
  }

  /** subscribe() on a handler instance: a staged copy is registered first, and only a success
      overwrites the instance and puts it in the copy's place.  So a rejected call changes nothing,
      even when the instance itself is the registered one. */
  method Subscribe(r: ApixHandlerRegistry, func: ApixEventHandler, q: Request) returns (problem: Option<Problem>)
    requires r.Valid()
    modifies r, func
    ensures r.Valid()
    ensures q.priority.Some? && !(-9999.0 <= q.priority.value <= 9999.0) <==> problem == Some(PriorityOutOfRange)
    ensures problem.Some? ==>
              r.Abs() == old(r.Abs()) && r.registry == old(r.registry) && func.Value() == old(func.Value())
    ensures problem != Some(PriorityOutOfRange) ==>
              var staged := Staged(old(func.Value()), q);
              var checked := Check(old(r.Abs()), staged, q.existOk);
              if checked.Bad? then problem == Some(checked.problem)
              else
                && problem.None?
                && r.Abs() == RegisterStep(r.fnmatchcase, old(r.Abs()), staged, q.existOk)
                && r.registry == old(r.registry)[func.name := func]
                && func.Value() == Stored(staged, old(r.registerOrder))
  {
    hide Inv;
    hide Staged;
    hide Check;
    hide RegisterStep;
    hide BucketsOk;
    CoherentBuckets(r.fnmatchcase, r.Abs());
    if q.priority.Some? && (q.priority.value > 9999.0 || q.priority.value < -9999.0) {
      return Some(PriorityOutOfRange);
    }
    CheckIgnoresRange(r.Abs(), Staged(func.Value(), q), q.existOk);
    problem := RegisterStaged(r, func, q);
  }

  method RegisterStaged(r: ApixHandlerRegistry, func: ApixEventHandler, q: Request) returns (problem: Option<Problem>)
    requires r.Valid() && BucketsOk(r.Abs())
    modifies r, func
    ensures r.Valid()
    ensures var staged := Staged(old(func.Value()), q);
            var checked := Check(old(r.Abs()), staged, q.existOk);
            if checked.Bad? then
              && problem == Some(checked.problem)
              && r.Abs() == old(r.Abs()) && r.registry == old(r.registry) && func.Value() == old(func.Value())
            else
              && problem.None?
              && r.Abs() == RegisterStep(r.fnmatchcase, old(r.Abs()), staged, q.existOk)
              && r.registry == old(r.registry)[func.name := func]
              && func.Value() == Stored(staged, old(r.registerOrder))
  {
    hide Inv;
    hide Staged;
    hide Check;
    hide RegisterStep;
    hide BucketsOk;
    var entry := new ApixEventHandler.Copy(func);
    Stage(entry, q);
    problem := r.RegisterHandler(entry, q.existOk);
    if problem.None? {
      Commit(r, func, entry);
    }
  }

  method Stage(entry: ApixEventHandler, q: Request)
    modifies entry
    ensures entry.Value() == Staged(old(entry.Value()), q) && entry.name == old(entry.name)
  {
    entry.subscribe := q.eventNames;
    entry.filterEvent := if q.filterEvent.Some? then q.filterEvent.value else [];
    entry.priority := if q.priority.None? && q.between.None? then Some(1.0) else q.priority;
    entry.between := q.between;
    hide Overriding;
    var options := Overridden(entry.options, q);
    entry.options := options;
  }

  /** Explicit execution options override; a non-positive timeout disables the limit. */
  method Overridden(given: Options, q: Request) returns (options: Options)
    ensures options == Overriding(given, q)
  {
    options := given;
    if q.stopWhenError.Some? {
      options := options.(stopWhenError := q.stopWhenError.value);
    }
    if q.timeOut.Some? {
      options := options.(timeOut := if q.timeOut.value > 0.0 then q.timeOut else None);
    }
    if q.background.Some? {
      options := options.(background := q.background.value);
    }
  }

  /** The instance takes over its registered copy's attributes and place. */
  method Commit(r: ApixHandlerRegistry, func: ApixEventHandler, entry: ApixEventHandler)
    requires r.Valid() && func != entry && func.name in r.registry && r.registry[func.name] == entry
    modifies r`registry, func
    ensures r.Valid() && r.Abs() == old(r.Abs()) && r.registry == old(r.registry)[func.name := func]
    ensures func.Value() == entry.Value()
  {
    hide Inv;
    ghost var was := r.Abs();
    OnlyUnder(r, func, entry);
    TakeOver(func, entry);
    assert r.Handlers() == was.handlers && r.Cache() == was.cache;
    r.registry := r.registry[func.name := func];
    assert r.Handlers() == was.handlers;
  }

  method TakeOver(func: ApixEventHandler, entry: ApixEventHandler)
    requires func.name == entry.name
    modifies func
    ensures func.Value() == old(entry.Value())
  {
    func.subscribe, func.filterEvent, func.priority := entry.subscribe, entry.filterEvent, entry.priority;
    func.between, func.options, func.registerOrder := entry.between, entry.options, entry.registerOrder;
  }

  lemma OnlyUnder(r: ApixHandlerRegistry, func: ApixEventHandler, entry: ApixEventHandler)
    requires r.Valid() && func != entry && func.name in r.registry && r.registry[func.name] == entry
    ensures func !in r.registry.Values && entry.name == func.name
  {
    assert r.Handlers()[func.name].name == func.name;
    forall n | n in r.registry
      ensures r.registry[n] != func
    {
      assert r.Handlers()[n].name == n;
    }
  }
}
