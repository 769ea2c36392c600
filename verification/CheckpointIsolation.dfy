/** Stored checkpoints are out of reach of everything user code can touch, so nothing that nodes,
    callers or in-place merges do afterwards changes them. */
module CheckpointIsolation {
  import opened StateCopy

  /** `users` are the objects ever handed to user code or made by it; each context has a live state
      and its stored checkpoints. */
  datatype World = World(heap: Heap, users: set<Addr>, live: seq<Dict>, stored: seq<seq<Dict>>, keep: set<Key>)

  datatype Act =
    | UserMakes(id: nat, contents: seq<Val>)
    | UserWrites(addr: Addr, contents: seq<Val>)
    | CreateContext(state: Dict)
    | StartNode(ctx: nat)
    | CommitUpdate(ctx: nat, update: Dict)
    | PassToAdd(update: Dict)
    | StoreMerged(ctx: nat, key: Key, value: Val)
    | TakeSnapshot(ctx: nat)
    | GetSnapshot(ctx: nat, version: nat)
    | Restore(ctx: nat, version: nat)
    | RestoreHeld(prefix: seq<Dict>)
    | ReturnLive(ctx: nat)
    | ReturnStored(ctx: nat)

  function AllRefs(ds: seq<Dict>): set<Addr> {
    set d, a | d in ds && a in DictRefs(d) :: a
  }

  function StoredRefs(w: World): set<Addr> {
    set ds, a | ds in w.stored && a in AllRefs(ds) :: a
  }

  /** What user code can start from: its own objects and every live state. */
  function UserRoots(w: World): set<Addr> {
    w.users + AllRefs(w.live)
  }

  ghost predicate Placed(w: World) {
    WellFormed(w.heap) && UserRoots(w) <= w.heap.Keys && StoredRefs(w) <= w.heap.Keys && |w.stored| == |w.live|
  }

  ghost function Touchable(w: World): set<Addr>
    requires Placed(w)
  {
    Reach(w.heap, UserRoots(w))
  }

  /** A closed set of objects that user code cannot reach. */
  ghost predicate Protected(w: World, x: set<Addr>) {
    Placed(w) && x <= w.heap.Keys && Closed(w.heap, x) && x !! Touchable(w)
  }

  ghost predicate Isolated(w: World) {
    Placed(w) && Protected(w, Reach(w.heap, StoredRefs(w)))
  }

  ghost predicate Enabled(w: World, a: Act)
    requires Placed(w)
  {
    match a
    case UserMakes(id, contents) => Made(id) !in w.heap && Refs(contents) <= Touchable(w)
    case UserWrites(addr, contents) => addr in Touchable(w) && Refs(contents) <= Touchable(w)
    case CreateContext(state) => DictRefs(state) <= Touchable(w)
    case StartNode(c) => c < |w.live|
    case CommitUpdate(c, update) => c < |w.live| && DictRefs(update) <= Touchable(w)
    case PassToAdd(update) => DictRefs(update) <= Touchable(w)
    case StoreMerged(c, _, v) => c < |w.live| && (v.Ref? ==> v.addr in Touchable(w))
    case TakeSnapshot(c) => c < |w.live|
    case GetSnapshot(c, k) => c < |w.live| && k < |w.stored[c]|
    case Restore(c, k) => c < |w.live| && k < |w.stored[c]|
    case RestoreHeld(prefix) => prefix != [] && AllRefs(prefix) <= Touchable(w)
    case ReturnLive(c) => c < |w.live|
    case ReturnStored(c) => c < |w.live| && w.stored[c] != []
  }

  lemma RootsKnown(w: World, c: nat)
    requires Placed(w) && c < |w.live|
    ensures DictRefs(w.live[c]) <= UserRoots(w) && AllRefs(w.stored[c]) <= StoredRefs(w)
    ensures forall k :: 0 <= k < |w.stored[c]| ==> DictRefs(w.stored[c][k]) <= AllRefs(w.stored[c])
  {
    assert w.live[c] in w.live && w.stored[c] in w.stored;
  }

  /** The dictionary lands in user hands. */
  function HandedOut(w: World, heap: Heap, d: Dict): World {
    w.(heap := heap, users := w.users + DictRefs(d))
  }

  function MovedAll(ds: seq<Dict>, stamp: nat): seq<Dict> {
    seq(|ds|, i requires 0 <= i < |ds| => MovedDict(ds[i], stamp))
  }

  /** The snapshots a restore starts from: a context's stored ones up to a version, or any that user
      code holds. */
  function Selected(w: World, a: Act): seq<Dict>
    requires a.Restore? ==> a.ctx < |w.stored| && a.version < |w.stored[a.ctx]|
  {
    match a
    case Restore(c, k) => w.stored[c][..k] + [w.stored[c][k]]
    case RestoreHeld(prefix) => prefix
    case _ => []
  }

  /** restore_context: the prefix is deep-copied as a whole, then its last state once more. */
  ghost function RestoreStep(w: World, prefix: seq<Dict>): World
    requires Placed(w) && AllRefs(prefix) <= w.heap.Keys && prefix != []
  {
    DeepCopyIsolates(w.heap, AllRefs(prefix));
    MovedAllRefs(prefix, Fresh(w.heap.Keys));
    var history := MovedAll(prefix, Fresh(w.heap.Keys));
    var once := DeepCopy(w.heap, AllRefs(prefix));
    var last := history[|history| - 1];
    LastRefs(history);
    w.(heap := DeepCopy(once, DictRefs(last)), live := w.live + [MovedDict(last, Fresh(once.Keys))],
       stored := w.stored + [history])
  }

  lemma MovedAllRefs(ds: seq<Dict>, n: nat)
    ensures AllRefs(MovedAll(ds, n)) == MovedSet(AllRefs(ds), n)
  {
    var es := MovedAll(ds, n);
    forall b
      ensures b in AllRefs(es) <==> b in MovedSet(AllRefs(ds), n)
    {
      if b in AllRefs(es) {
        var i :| 0 <= i < |es| && b in DictRefs(es[i]);
        MovedDictRefs(ds[i], n);
        assert ds[i] in ds && b.original in AllRefs(ds);
      }
      if b in MovedSet(AllRefs(ds), n) {
        var i :| 0 <= i < |ds| && b.original in DictRefs(ds[i]);
        MovedDictRefs(ds[i], n);
        assert es[i] in es && b in DictRefs(es[i]);
      }
    }
  }

  lemma LastRefs(ds: seq<Dict>)
    requires ds != []
    ensures DictRefs(ds[|ds| - 1]) <= AllRefs(ds)
  {
    assert ds[|ds| - 1] in ds;
  }

  ghost function Step(w: World, a: Act): World
    requires Placed(w) && Enabled(w, a)
  {
    match a
    case UserMakes(id, contents) => w.(heap := w.heap[Made(id) := contents], users := w.users + {Made(id)})
    case UserWrites(addr, contents) => w.(heap := w.heap[addr := contents])
    case CreateContext(state) =>
      w.(heap := CopyStateHeap(w.heap, state, w.keep), live := w.live + [CopyState(w.heap, state, w.keep)],
         stored := w.stored + [[]])
    case StartNode(c) =>
      RootsKnown(w, c);
      HandedOut(w, CopyStateHeap(w.heap, w.live[c], w.keep), CopyState(w.heap, w.live[c], w.keep))
    case CommitUpdate(c, update) =>
      w.(heap := CopyStateHeap(w.heap, update, w.keep),
         live := w.live[c := w.live[c] + CopyState(w.heap, update, w.keep)])
    case PassToAdd(update) => HandedOut(w, CopyStateHeap(w.heap, update, w.keep), CopyState(w.heap, update, w.keep))
    case StoreMerged(c, key, v) => w.(live := w.live[c := w.live[c][key := v]])
    case TakeSnapshot(c) =>
      RootsKnown(w, c);
      w.(heap := DeepCopy(w.heap, DictRefs(w.live[c])),
         stored := w.stored[c := w.stored[c] + [MovedDict(w.live[c], Fresh(w.heap.Keys))]])
    case GetSnapshot(c, k) =>
      RootsKnown(w, c);
      HandedOut(w, DeepCopy(w.heap, DictRefs(w.stored[c][k])), MovedDict(w.stored[c][k], Fresh(w.heap.Keys)))
    case Restore(_, _) =>
      SelectedRefs(w, a);
      RestoreStep(w, Selected(w, a))
    case RestoreHeld(_) =>
      SelectedRefs(w, a);
      RestoreStep(w, Selected(w, a))
    case ReturnLive(c) =>
      RootsKnown(w, c);
      HandedOut(w, CopyStateHeap(w.heap, w.live[c], w.keep), CopyState(w.heap, w.live[c], w.keep))
    case ReturnStored(c) =>
      RootsKnown(w, c);
      var latest := w.stored[c][|w.stored[c]| - 1];
      HandedOut(w, DeepCopy(w.heap, DictRefs(latest)), MovedDict(latest, Fresh(w.heap.Keys)))
  }

  lemma PrefixRefs(ds: seq<Dict>, k: nat)
    requires k < |ds|
    ensures AllRefs(ds[..k] + [ds[k]]) <= AllRefs(ds)
  {
    forall a | a in AllRefs(ds[..k] + [ds[k]])
      ensures a in AllRefs(ds)
    {
      var i :| 0 <= i < k + 1 && a in DictRefs((ds[..k] + [ds[k]])[i]);
      assert ds[i] in ds;
    }
  }

  lemma SelectedRefs(w: World, a: Act)
    requires Placed(w) && Enabled(w, a) && (a.Restore? || a.RestoreHeld?)
    ensures Selected(w, a) != [] && AllRefs(Selected(w, a)) <= w.heap.Keys
  {
    hide Reach;
    if a.Restore? {
      RootsKnown(w, a.ctx);
      PrefixRefs(w.stored[a.ctx], a.version);
    }
  }

  // --------------------------------------------------------------------------------------------
  // Every step keeps checkpoints out of reach
  // --------------------------------------------------------------------------------------------

  ghost predicate Untouched(w: World, v: World, x: set<Addr>) {
    forall a :: a in x ==> a in w.heap && a in v.heap && v.heap[a] == w.heap[a]
  }

  /** If user roots lie within u and checkpoints within y, two closed sets without a common object,
      the new world is isolated. */
  lemma Landing(v: World, u: set<Addr>, y: set<Addr>)
    requires WellFormed(v.heap) && |v.stored| == |v.live|
    requires UserRoots(v) <= u <= v.heap.Keys && Closed(v.heap, u)
    requires StoredRefs(v) <= y <= v.heap.Keys && Closed(v.heap, y) && y !! u
    ensures Isolated(v) && Touchable(v) <= u
  {
    ReachLeast(v.heap, UserRoots(v), u);
    ReachLeast(v.heap, StoredRefs(v), y);
  }

  lemma StaysProtected(w: World, v: World, u: set<Addr>, x: set<Addr>)
    requires Protected(w, x) && Placed(v) && Touchable(v) <= u && x !! u && Untouched(w, v, x)
    ensures Protected(v, x)
  {
    ClosedStays(w.heap, v.heap, x);
  }

  lemma ClosedUnion(h: Heap, x: set<Addr>, y: set<Addr>)
    requires Closed(h, x) && Closed(h, y)
    ensures Closed(h, x + y)
  {
    forall b | b in Children(h, x + y)
      ensures b in x + y
    {
      var a :| a in x + y && a in h && b in Refs(h[a]);
      if a in x {
        ClosedEdge(h, x, a, b);
      } else {
        ClosedEdge(h, y, a, b);
      }
    }
  }

  /** A world whose heap only gained the closed set `copied` of new objects. */
  ghost predicate Gained(w: World, v: World, copied: set<Addr>) {
    && WellFormed(w.heap) && WellFormed(v.heap)
    && v.heap.Keys == w.heap.Keys + copied && copied !! w.heap.Keys && Closed(v.heap, copied)
    && forall a :: a in w.heap ==> v.heap[a] == w.heap[a]
  }

  /** New objects go to user code, as copies handed out or as live state. */
  lemma CopyToUser(w: World, v: World, copied: set<Addr>, x: set<Addr>)
    requires Isolated(w) && Protected(w, x) && Gained(w, v, copied) && |v.stored| == |v.live|
    requires UserRoots(v) <= Touchable(w) + copied && StoredRefs(v) <= StoredRefs(w)
    ensures Isolated(v) && Protected(v, x) && Untouched(w, v, x)
  {
    var u, y := Touchable(w) + copied, Reach(w.heap, StoredRefs(w));
    ClosedStays(w.heap, v.heap, Touchable(w));
    ClosedStays(w.heap, v.heap, y);
    ClosedUnion(v.heap, Touchable(w), copied);
    Landing(v, u, y);
    StaysProtected(w, v, u, x);
  }

  /** New objects become checkpoints. */
  lemma CopyToStore(w: World, v: World, copied: set<Addr>, x: set<Addr>)
    requires Isolated(w) && Protected(w, x) && Gained(w, v, copied) && |v.stored| == |v.live|
    requires UserRoots(v) <= Touchable(w) && StoredRefs(v) <= StoredRefs(w) + copied
    ensures Isolated(v) && Protected(v, x) && Untouched(w, v, x)
  {
    var u, y := Touchable(w), Reach(w.heap, StoredRefs(w)) + copied;
    ClosedStays(w.heap, v.heap, u);
    ClosedStays(w.heap, v.heap, Reach(w.heap, StoredRefs(w)));
    ClosedUnion(v.heap, Reach(w.heap, StoredRefs(w)), copied);
    Landing(v, u, y);
    StaysProtected(w, v, u, x);
  }

  lemma UserMakesKeeps(w: World, id: nat, contents: seq<Val>, x: set<Addr>)
    requires Isolated(w) && Protected(w, x) && Enabled(w, UserMakes(id, contents))
    ensures var v := Step(w, UserMakes(id, contents)); Isolated(v) && Protected(v, x) && Untouched(w, v, x)
  {
    var v := Step(w, UserMakes(id, contents));
    var u, y := Touchable(w) + {Made(id)}, Reach(w.heap, StoredRefs(w));
    ClosedStays(w.heap, v.heap, y);
    forall b | b in Children(v.heap, u)
      ensures b in u
    {
      var a :| a in u && a in v.heap && b in Refs(v.heap[a]);
      if a != Made(id) {
        ClosedEdge(w.heap, Touchable(w), a, b);
      }
    }
    Landing(v, u, y);
    StaysProtected(w, v, u, x);
  }

  lemma UserWritesKeeps(w: World, addr: Addr, contents: seq<Val>, x: set<Addr>)
    requires Isolated(w) && Protected(w, x) && Enabled(w, UserWrites(addr, contents))
    ensures var v := Step(w, UserWrites(addr, contents)); Isolated(v) && Protected(v, x) && Untouched(w, v, x)
  {
    var v := Step(w, UserWrites(addr, contents));
    var u, y := Touchable(w), Reach(w.heap, StoredRefs(w));
    ClosedStays(w.heap, v.heap, y);
    forall b | b in Children(v.heap, u)
      ensures b in u
    {
      var a :| a in u && a in v.heap && b in Refs(v.heap[a]);
      if a != addr {
        ClosedEdge(w.heap, u, a, b);
      }
    }
    Landing(v, u, y);
    StaysProtected(w, v, u, x);
  }

  lemma CopiedStateRefs(h: Heap, d: Dict, keep: set<Key>)
    requires WellFormed(h) && DictRefs(d) <= h.Keys
    ensures DictRefs(CopyState(h, d, keep)) <=
            DictRefs(d) + MovedSet(Reach(h, DictRefs(Ordinary(d, keep))), Fresh(h.Keys))
  {
    CopyStateShares(h, d, keep);
    var e := CopyState(h, d, keep);
    forall a | a in DictRefs(e)
      ensures a in DictRefs(d) || a in MovedSet(Reach(h, DictRefs(Ordinary(d, keep))), Fresh(h.Keys))
    {
      var k :| k in e && e[k] == Ref(a);
      assert k in keep ==> a in DictRefs(d);
    }
  }

  lemma AllRefsOf(ds: seq<Dict>, c: nat, d: Dict)
    ensures AllRefs(ds + [d]) <= AllRefs(ds) + DictRefs(d)
    ensures c < |ds| ==> AllRefs(ds[c := d]) <= AllRefs(ds) + DictRefs(d)
  {
    assert forall e :: e in ds + [d] ==> e in ds || e == d;
    assert c < |ds| ==> forall e :: e in ds[c := d] ==> e in ds || e == d;
  }

  lemma StoredRefsOf(w: World, v: World, c: nat, ds: seq<Dict>)
    requires v.stored == w.stored + [ds] || (c < |w.stored| && v.stored == w.stored[c := ds])
    ensures StoredRefs(v) <= StoredRefs(w) + AllRefs(ds)
  {
    assert forall es :: es in v.stored ==> es in w.stored || es == ds;
  }

  lemma MergedRefs(d: Dict, e: Dict)
    ensures DictRefs(d + e) <= DictRefs(d) + DictRefs(e)
  {
    forall a | a in DictRefs(d + e)
      ensures a in DictRefs(d) + DictRefs(e)
    {
      var k :| k in d + e && (d + e)[k] == Ref(a);
      assert if k in e then e[k] == Ref(a) else d[k] == Ref(a);
    }
  }

  /** The touchable part of a dictionary's copy. */
  lemma CopyKeeps(w: World, v: World, d: Dict, x: set<Addr>)
    requires Isolated(w) && Protected(w, x) && DictRefs(d) <= Touchable(w)
    requires v.heap == CopyStateHeap(w.heap, d, w.keep) && |v.stored| == |v.live|
    requires UserRoots(v) <= Touchable(w) + DictRefs(CopyState(w.heap, d, w.keep))
    requires StoredRefs(v) <= StoredRefs(w)
    ensures Isolated(v) && Protected(v, x) && Untouched(w, v, x)
  {
    var copied := MovedSet(Reach(w.heap, DictRefs(Ordinary(d, w.keep))), Fresh(w.heap.Keys));
    CopyStateShares(w.heap, d, w.keep);
    CopiedStateRefs(w.heap, d, w.keep);
    CopyToUser(w, v, copied, x);
  }

  lemma CopyStepKeeps(w: World, a: Act, x: set<Addr>)
    requires Isolated(w) && Protected(w, x) && Enabled(w, a)
    requires a.CreateContext? || a.StartNode? || a.CommitUpdate? || a.PassToAdd? || a.ReturnLive?
    ensures var v := Step(w, a); Isolated(v) && Protected(v, x) && Untouched(w, v, x)
  {
    var v := Step(w, a);
    match a
    case CreateContext(state) =>
      AllRefsOf(w.live, 0, CopyState(w.heap, state, w.keep));
      StoredRefsOf(w, v, 0, []);
      CopyKeeps(w, v, state, x);
    case StartNode(c) =>
      RootsKnown(w, c);
      CopyKeeps(w, v, w.live[c], x);
    case CommitUpdate(c, update) =>
      RootsKnown(w, c);
      AllRefsOf(w.live, c, v.live[c]);
      MergedRefs(w.live[c], CopyState(w.heap, update, w.keep));
      CopyKeeps(w, v, update, x);
    case PassToAdd(update) => CopyKeeps(w, v, update, x);
    case ReturnLive(c) =>
      RootsKnown(w, c);
      CopyKeeps(w, v, w.live[c], x);
  }

  lemma StoreMergedKeeps(w: World, c: nat, key: Key, value: Val, x: set<Addr>)
    requires Isolated(w) && Protected(w, x) && Enabled(w, StoreMerged(c, key, value))
    ensures var v := Step(w, StoreMerged(c, key, value)); Isolated(v) && Protected(v, x) && Untouched(w, v, x)
  {
    var v := Step(w, StoreMerged(c, key, value));
    RootsKnown(w, c);
    MergedRefs(w.live[c], map[key := value]);
    assert w.live[c] + map[key := value] == v.live[c];
    assert DictRefs(map[key := value]) <= Touchable(w);
    AllRefsOf(w.live, c, v.live[c]);
    Landing(v, Touchable(w), Reach(w.heap, StoredRefs(w)));
    StaysProtected(w, v, Touchable(w), x);
  }

  lemma TakeSnapshotKeeps(w: World, c: nat, x: set<Addr>)
    requires Isolated(w) && Protected(w, x) && Enabled(w, TakeSnapshot(c))
    ensures var v := Step(w, TakeSnapshot(c)); Isolated(v) && Protected(v, x) && Untouched(w, v, x)
  {
    var v := Step(w, TakeSnapshot(c));
    RootsKnown(w, c);
    var s, n := DictRefs(w.live[c]), Fresh(w.heap.Keys);
    DeepCopyIsolates(w.heap, s);
    MovedDictRefs(w.live[c], n);
    StoredRefsOf(w, v, c, v.stored[c]);
    AllRefsOf(w.stored[c], 0, MovedDict(w.live[c], n));
    assert MovedSet(s, n) <= MovedSet(Reach(w.heap, s), n);
    CopyToStore(w, v, MovedSet(Reach(w.heap, s), n), x);
  }

  lemma HandOutKeeps(w: World, a: Act, d: Dict, x: set<Addr>)
    requires Isolated(w) && Protected(w, x) && Enabled(w, a) && (a.GetSnapshot? || a.ReturnStored?)
    requires DictRefs(d) <= StoredRefs(w)
    requires Step(w, a) == HandedOut(w, DeepCopy(w.heap, DictRefs(d)), MovedDict(d, Fresh(w.heap.Keys)))
    ensures var v := Step(w, a); Isolated(v) && Protected(v, x) && Untouched(w, v, x)
  {
    var s, n := DictRefs(d), Fresh(w.heap.Keys);
    DeepCopyIsolates(w.heap, s);
    MovedDictRefs(d, n);
    assert MovedSet(s, n) <= MovedSet(Reach(w.heap, s), n);
    CopyToUser(w, Step(w, a), MovedSet(Reach(w.heap, s), n), x);
  }

  /** The history is copied, as if another context with an empty state had stored it. */
  ghost function HistoryCopied(w: World, prefix: seq<Dict>): World
    requires Placed(w) && AllRefs(prefix) <= w.heap.Keys
  {
    w.(heap := DeepCopy(w.heap, AllRefs(prefix)), live := w.live + [map[]],
       stored := w.stored + [MovedAll(prefix, Fresh(w.heap.Keys))])
  }

  lemma HistoryCopiedKeeps(w: World, prefix: seq<Dict>, x: set<Addr>)
    requires Isolated(w) && Protected(w, x) && AllRefs(prefix) <= w.heap.Keys
    ensures var v := HistoryCopied(w, prefix); Isolated(v) && Protected(v, x) && Untouched(w, v, x)
  {
    var s, n := AllRefs(prefix), Fresh(w.heap.Keys);
    DeepCopyIsolates(w.heap, s);
    MovedAllRefs(prefix, n);
    hide DeepCopy;
    hide Reach;
    assert MovedSet(s, n) <= MovedSet(Reach(w.heap, s), n);
    AllRefsOf(w.live, 0, map[]);
    StoredRefsOf(w, HistoryCopied(w, prefix), 0, MovedAll(prefix, n));
    CopyToStore(w, HistoryCopied(w, prefix), MovedSet(Reach(w.heap, s), n), x);
  }

  /** Its last state is copied once more, into the live state. */
  lemma LiveCopiedKeeps(w: World, v: World, last: Dict, x: set<Addr>)
    requires Isolated(w) && Protected(w, x) && DictRefs(last) <= w.heap.Keys && w.live != []
    requires var c := |w.live| - 1;
             v == w.(heap := DeepCopy(w.heap, DictRefs(last)), live := w.live[c := MovedDict(last, Fresh(w.heap.Keys))])
    ensures Isolated(v) && Protected(v, x) && Untouched(w, v, x)
  {
    var s, n := DictRefs(last), Fresh(w.heap.Keys);
    DeepCopyIsolates(w.heap, s);
    MovedDictRefs(last, n);
    hide DeepCopy;
    hide Reach;
    assert MovedSet(s, n) <= MovedSet(Reach(w.heap, s), n);
    AllRefsOf(w.live, |w.live| - 1, MovedDict(last, n));
    CopyToUser(w, v, MovedSet(Reach(w.heap, s), n), x);
  }

  lemma RestoreKeeps(w: World, prefix: seq<Dict>, x: set<Addr>)
    requires Isolated(w) && Protected(w, x) && AllRefs(prefix) <= w.heap.Keys && prefix != []
    ensures var v := RestoreStep(w, prefix); Isolated(v) && Protected(v, x) && Untouched(w, v, x)
  {
    hide Protected;
    hide Reach;
    hide DeepCopy;
    var mid, history := HistoryCopied(w, prefix), MovedAll(prefix, Fresh(w.heap.Keys));
    HistoryCopiedKeeps(w, prefix, x);
    DeepCopyIsolates(w.heap, AllRefs(prefix));
    MovedAllRefs(prefix, Fresh(w.heap.Keys));
    LastRefs(history);
    var v := RestoreStep(w, prefix);
    assert v.live == mid.live[|w.live| := v.live[|w.live|]];
    LiveCopiedKeeps(mid, v, history[|history| - 1], x);
  }

  lemma StoredHandedOut(w: World, a: Act, x: set<Addr>)
    requires Isolated(w) && Protected(w, x) && Enabled(w, a) && (a.GetSnapshot? || a.ReturnStored?)
    ensures var v := Step(w, a); Isolated(v) && Protected(v, x) && Untouched(w, v, x)
  {
    RootsKnown(w, a.ctx);
    HandOutKeeps(w, a, w.stored[a.ctx][if a.GetSnapshot? then a.version else |w.stored[a.ctx]| - 1], x);
  }

  lemma RestoreActKeeps(w: World, a: Act, x: set<Addr>)
    requires Isolated(w) && Protected(w, x) && Enabled(w, a) && (a.Restore? || a.RestoreHeld?)
    ensures var v := Step(w, a); Isolated(v) && Protected(v, x) && Untouched(w, v, x)
  {
    hide RestoreStep;
    SelectedRefs(w, a);
    RestoreKeeps(w, Selected(w, a), x);
  }

  /** Whatever is protected stays protected and unchanged, and so do all checkpoints. */
  lemma StepKeeps(w: World, a: Act, x: set<Addr>)
    requires Isolated(w) && Protected(w, x) && Enabled(w, a)
    ensures var v := Step(w, a); Isolated(v) && Protected(v, x) && Untouched(w, v, x)
  {
    hide Step;
    hide Isolated;
    hide Protected;
    hide Untouched;
    match a
    case UserMakes(id, contents) => UserMakesKeeps(w, id, contents, x);
    case UserWrites(addr, contents) => UserWritesKeeps(w, addr, contents, x);
    case StoreMerged(c, key, value) => StoreMergedKeeps(w, c, key, value, x);
    case TakeSnapshot(c) => TakeSnapshotKeeps(w, c, x);
    case GetSnapshot(_, _) => StoredHandedOut(w, a, x);
    case ReturnStored(_) => StoredHandedOut(w, a, x);
    case Restore(_, _) => RestoreActKeeps(w, a, x);
    case RestoreHeld(_) => RestoreActKeeps(w, a, x);
    case _ => CopyStepKeeps(w, a, x);
  }

  // --------------------------------------------------------------------------------------------
  // Only copies change hands
  // --------------------------------------------------------------------------------------------

  /** An object that did not exist, or the value of a KeepRef field of d. */
  ghost predicate NewOrKept(w: World, d: Dict, x: Addr) {
    x !in w.heap || exists k :: k in w.keep && k in d && d[k] == Ref(x)
  }

  /** Only the objects of a copy of d came into user hands. */
  ghost predicate HandsOutCopyOf(w: World, v: World, d: Dict) {
    && v.live == w.live && v.stored == w.stored
    && forall x :: x in v.users ==> x in w.users || NewOrKept(w, d, x)
  }

  lemma CopyIsNewOrKept(w: World, d: Dict, x: Addr)
    requires Placed(w) && DictRefs(d) <= w.heap.Keys && x in DictRefs(CopyState(w.heap, d, w.keep))
    ensures NewOrKept(w, d, x)
  {
    CopyStateShares(w.heap, d, w.keep);
    var e := CopyState(w.heap, d, w.keep);
    var k :| k in e && e[k] == Ref(x);
    if k in w.keep {
      assert d[k] == Ref(x);
    }
  }

  lemma DeepCopyIsNew(w: World, d: Dict, x: Addr)
    requires Placed(w) && x in DictRefs(MovedDict(d, Fresh(w.heap.Keys)))
    ensures x !in w.heap
  {
    MovedDictRefs(d, Fresh(w.heap.Keys));
  }

  lemma HandedCopy(w: World, d: Dict)
    requires Placed(w) && DictRefs(d) <= w.heap.Keys
    ensures HandsOutCopyOf(w, HandedOut(w, CopyStateHeap(w.heap, d, w.keep), CopyState(w.heap, d, w.keep)), d)
  {
    hide CopyState;
    hide CopyStateHeap;
    hide NewOrKept;
    forall x | x in DictRefs(CopyState(w.heap, d, w.keep))
      ensures NewOrKept(w, d, x)
    {
      CopyIsNewOrKept(w, d, x);
    }
  }

  /** Nodes, merges and callers are given copies: everything of theirs is new but the KeepRef values.  A
      caller's snapshot is new altogether. */
  lemma OnlyCopiesAreGiven(w: World, a: Act)
    requires Placed(w) && Enabled(w, a)
    ensures var v := Step(w, a);
            match a
            case StartNode(c) => HandsOutCopyOf(w, v, w.live[c])
            case ReturnLive(c) => HandsOutCopyOf(w, v, w.live[c])
            case PassToAdd(update) => HandsOutCopyOf(w, v, update)
            case GetSnapshot(_, _) =>
              v.live == w.live && v.stored == w.stored && forall x :: x in v.users - w.users ==> x !in w.heap
            case ReturnStored(_) =>
              v.live == w.live && v.stored == w.stored && forall x :: x in v.users - w.users ==> x !in w.heap
            case _ => true
  {
    hide CopyState;
    hide CopyStateHeap;
    hide DeepCopy;
    hide Reach;
    hide HandsOutCopyOf;
    match a
    case StartNode(c) =>
      RootsKnown(w, c);
      HandedCopy(w, w.live[c]);
    case ReturnLive(c) =>
      RootsKnown(w, c);
      HandedCopy(w, w.live[c]);
    case PassToAdd(update) => HandedCopy(w, update);
    case GetSnapshot(c, k) => SnapshotIsNew(w, w.stored[c][k]);
    case ReturnStored(c) => SnapshotIsNew(w, w.stored[c][|w.stored[c]| - 1]);
    case _ =>
  }

  lemma SnapshotIsNew(w: World, d: Dict)
    requires Placed(w)
    ensures forall x :: x in DictRefs(MovedDict(d, Fresh(w.heap.Keys))) ==> x !in w.heap
  {
    forall x | x in DictRefs(MovedDict(d, Fresh(w.heap.Keys)))
      ensures x !in w.heap
    {
      DeepCopyIsNew(w, d, x);
    }
  }

  /** And they give copies: a state taken over from them is new but for its KeepRef values, field by
      field; a checkpoint is new altogether. */
  lemma OnlyCopiesAreTaken(w: World, a: Act)
    requires Placed(w) && Enabled(w, a)
    ensures var v := Step(w, a);
            match a
            case CreateContext(state) =>
              && |v.live| == |w.live| + 1 && v.users == w.users && v.live[|w.live|].Keys == state.Keys
              && forall x :: x in DictRefs(v.live[|w.live|]) ==> NewOrKept(w, state, x)
            case CommitUpdate(c, update) =>
              && |v.live| == |w.live| && v.users == w.users && v.live[c].Keys == w.live[c].Keys + update.Keys
              && (forall k :: k in w.live[c] && k !in update ==> v.live[c][k] == w.live[c][k])
              && (forall k :: k in update && k in w.keep ==> v.live[c][k] == update[k])
              && forall k :: k in update && k !in w.keep && v.live[c][k].Ref? ==> v.live[c][k].addr !in w.heap
            case TakeSnapshot(c) =>
              && |v.stored| == |w.stored| && v.users == w.users && v.live == w.live
              && |v.stored[c]| == |w.stored[c]| + 1
              && forall x :: x in DictRefs(v.stored[c][|w.stored[c]|]) ==> x !in w.heap
            case _ => true
  {
    hide DeepCopy;
    hide Reach;
    hide CopyStateHeap;
    match a
    case CreateContext(state) =>
      hide NewOrKept;
      forall x | x in DictRefs(CopyState(w.heap, state, w.keep))
        ensures NewOrKept(w, state, x)
      {
        CopyIsNewOrKept(w, state, x);
      }
    case CommitUpdate(c, update) => CopyStateShares(w.heap, update, w.keep);
    case TakeSnapshot(c) => SnapshotIsNew(w, w.live[c]);
    case _ =>
  }

  // --------------------------------------------------------------------------------------------
  // Whole runs
  // --------------------------------------------------------------------------------------------

  ghost predicate Runs(w: World, acts: seq<Act>)
    requires Isolated(w)
    decreases |acts|
  {
    acts == [] ||
    (Enabled(w, acts[0]) && (StepIsolated(w, acts[0]); Runs(Step(w, acts[0]), acts[1..])))
  }

  lemma StepIsolated(w: World, a: Act)
    requires Isolated(w) && Enabled(w, a)
    ensures Isolated(Step(w, a))
  {
    StepKeeps(w, a, {});
  }

  ghost function After(w: World, acts: seq<Act>): (v: World)
    requires Isolated(w) && Runs(w, acts)
    ensures Isolated(v)
    decreases |acts|
  {
    if acts == [] then w
    else
      StepIsolated(w, acts[0]);
      After(Step(w, acts[0]), acts[1..])
  }

  /** Stored histories only grow. */
  ghost predicate HistoriesGrow(w: World, v: World) {
    |w.stored| <= |v.stored| && forall c :: 0 <= c < |w.stored| ==> w.stored[c] <= v.stored[c]
  }

  lemma StepGrows(w: World, a: Act)
    requires Placed(w) && Enabled(w, a)
    ensures HistoriesGrow(w, Step(w, a))
  {
  }

  /** No run of user code and graph steps changes an object of a protected set: in particular none
      reachable from a checkpoint stored before. */
  lemma {:induction false} RunKeeps(w: World, acts: seq<Act>, x: set<Addr>)
    requires Isolated(w) && Protected(w, x) && Runs(w, acts)
    ensures var v := After(w, acts); Protected(v, x) && Untouched(w, v, x) && HistoriesGrow(w, v)
    decreases |acts|
  {
    if acts != [] {
      StepKeeps(w, acts[0], x);
      StepGrows(w, acts[0]);
      RunKeeps(Step(w, acts[0]), acts[1..], x);
    }
  }

  /** A world without contexts, in which everything belongs to user code. */
  ghost function Beginning(heap: Heap, keep: set<Key>): (w: World)
    requires WellFormed(heap)
    ensures Isolated(w)
  {
    var w := World(heap, heap.Keys, [], [], keep);
    assert StoredRefs(w) == {};
    Landing(w, heap.Keys, {});
    w
  }

  /** From there every run leaves each checkpoint apart: it shares no object with any live state, nor
      with anything user code was ever given or made, KeepRef field or not. */
  lemma NothingSharedWithCheckpoints(heap: Heap, keep: set<Key>, acts: seq<Act>, c: nat, d: nat, k: nat)
    requires WellFormed(heap) && Runs(Beginning(heap, keep), acts)
    requires var v := After(Beginning(heap, keep), acts); c < |v.live| && d < |v.stored| && k < |v.stored[d]|
    ensures var v := After(Beginning(heap, keep), acts);
            && DictRefs(v.live[c]) + v.users <= v.heap.Keys && DictRefs(v.stored[d][k]) <= v.heap.Keys
            && Reach(v.heap, DictRefs(v.live[c]) + v.users) !! Reach(v.heap, DictRefs(v.stored[d][k]))
  {
    var v := After(Beginning(heap, keep), acts);
    RootsKnown(v, c);
    RootsKnown(v, d);
    ReachLeast(v.heap, DictRefs(v.live[c]) + v.users, Touchable(v));
    ReachLeast(v.heap, DictRefs(v.stored[d][k]), Reach(v.heap, StoredRefs(v)));
  }

  lemma CopiedContents(h: Heap, s: set<Addr>, d: Dict)
    requires WellFormed(h) && s <= h.Keys && DictRefs(d) <= s
    ensures SameDict(h, d, DeepCopy(h, s), MovedDict(d, Fresh(h.Keys)))
  {
    forall k, n: nat | k in d
      ensures Same(h, d[k], DeepCopy(h, s), MovedDict(d, Fresh(h.Keys))[k], n)
    {
      if d[k].Ref? {
        assert d[k].addr in DictRefs(d);
      }
      DeepCopySame(h, s, d[k], n);
    }
  }

  lemma ContentsLater(h: Heap, d: Dict, c: Heap, e: Dict, later: Heap, x: set<Addr>)
    requires SameDict(h, d, c, e) && Closed(c, x) && DictRefs(e) <= x
    requires forall a :: a in x ==> a in c && a in later && later[a] == c[a]
    ensures SameDict(h, d, later, e)
  {
    forall k, n: nat | k in d
      ensures Same(h, d[k], later, e[k], n)
    {
      assert Same(h, d[k], c, e[k], n);
      if e[k].Ref? {
        assert e[k].addr in DictRefs(e);
      }
      SameLater(h, d[k], c, e[k], later, x, n);
    }
  }

  /** A checkpoint records the live state of its moment for good: after any later run it still has the
      contents, to every depth, that the state had when it was taken. */
  lemma CheckpointKeepsContents(w: World, c: nat, acts: seq<Act>)
    requires Isolated(w) && Enabled(w, TakeSnapshot(c)) && Isolated(Step(w, TakeSnapshot(c)))
    requires Runs(Step(w, TakeSnapshot(c)), acts)
    ensures var v := After(Step(w, TakeSnapshot(c)), acts); var k := |w.stored[c]|;
            c < |v.stored| && k < |v.stored[c]| && SameDict(w.heap, w.live[c], v.heap, v.stored[c][k])
  {
    var u := Step(w, TakeSnapshot(c));
    var v, k := After(u, acts), |w.stored[c]|;
    var x := Reach(u.heap, StoredRefs(u));
    RootsKnown(w, c);
    CopiedContents(w.heap, DictRefs(w.live[c]), w.live[c]);
    RunKeeps(u, acts, x);
    RootsKnown(u, c);
    assert u.stored[c][k] == MovedDict(w.live[c], Fresh(w.heap.Keys));
    ContentsLater(w.heap, w.live[c], u.heap, u.stored[c][k], v.heap, x);
  }

  /** Any stored checkpoint is the same value with the same contents after any run. */
  lemma CheckpointsFrozen(w: World, c: nat, k: nat, acts: seq<Act>)
    requires Isolated(w) && Runs(w, acts) && c < |w.stored| && k < |w.stored[c]|
    ensures var v := After(w, acts);
            && c < |v.stored| && k < |v.stored[c]| && v.stored[c][k] == w.stored[c][k]
            && DictRefs(w.stored[c][k]) <= w.heap.Keys
            && forall a :: a in Reach(w.heap, DictRefs(w.stored[c][k])) ==> a in v.heap && v.heap[a] == w.heap[a]
  {
    var x := Reach(w.heap, StoredRefs(w));
    RunKeeps(w, acts, x);
    RootsKnown(w, c);
    ReachLeast(w.heap, DictRefs(w.stored[c][k]), x);
  }

  /** A restored history has, to every depth, the contents of the snapshots it was restored from:
      stored checkpoints or held snapshots, whatever the latter share with each other or with live
      states. */
  lemma RestoredContents(w: World, a: Act, i: nat)
    requires Placed(w) && Enabled(w, a) && (a.Restore? || a.RestoreHeld?) && i < |Selected(w, a)|
    ensures var v := Step(w, a); var restored := v.stored[|w.stored|];
            |restored| == |Selected(w, a)| && SameDict(w.heap, Selected(w, a)[i], v.heap, restored[i])
  {
    SelectedRefs(w, a);
    PrefixContents(w, Selected(w, a), i);
  }

  lemma PrefixContents(w: World, prefix: seq<Dict>, i: nat)
    requires Placed(w) && i < |prefix| && AllRefs(prefix) <= w.heap.Keys
    ensures var v := RestoreStep(w, prefix); SameDict(w.heap, prefix[i], v.heap, v.stored[|w.stored|][i])
  {
    hide DeepCopy;
    hide Reach;
    hide SameDict;
    var s, n := AllRefs(prefix), Fresh(w.heap.Keys);
    var history, once := MovedAll(prefix, n), DeepCopy(w.heap, s);
    DeepCopyIsolates(w.heap, s);
    MovedAllRefs(prefix, n);
    LastRefs(history);
    DeepCopyIsolates(once, DictRefs(history[|history| - 1]));
    assert prefix[i] in prefix;
    CopiedContents(w.heap, s, prefix[i]);
    MovedDictRefs(prefix[i], n);
    var x := MovedSet(Reach(w.heap, s), n);
    assert DictRefs(history[i]) <= x;
    ContentsLater(w.heap, prefix[i], once, history[i], RestoreStep(w, prefix).heap, x);
  }

  /** The restored attempt's live state has the contents of the last of those snapshots. */
  lemma RestoredLiveContents(w: World, a: Act)
    requires Placed(w) && Enabled(w, a) && (a.Restore? || a.RestoreHeld?)
    ensures var v := Step(w, a); var restored := v.stored[|w.stored|];
            restored != [] && SameDict(v.heap, restored[|restored| - 1], v.heap, v.live[|w.live|])
  {
    hide SameDict;
    hide Reach;
    SelectedRefs(w, a);
    var prefix := Selected(w, a);
    var history, once := MovedAll(prefix, Fresh(w.heap.Keys)), DeepCopy(w.heap, AllRefs(prefix));
    DeepCopyIsolates(w.heap, AllRefs(prefix));
    MovedAllRefs(prefix, Fresh(w.heap.Keys));
    LastRefs(history);
    hide DeepCopy;
    var last := history[|history| - 1];
    DeepCopyIsolates(once, DictRefs(last));
    CopiedContents(once, DictRefs(last), last);
    SameSource(once, last, Step(w, a).heap, Step(w, a).live[|w.live|]);
  }

  /** The contents compared with may be read in any larger heap. */
  lemma SameSource(h: Heap, d: Dict, c: Heap, e: Dict)
    requires SameDict(h, d, c, e) && WellFormed(h) && DictRefs(d) <= h.Keys
    requires forall a :: a in h ==> a in c && c[a] == h[a]
    ensures SameDict(c, d, c, e)
  {
    forall k, n: nat | k in d
      ensures Same(c, d[k], c, e[k], n)
    {
      assert Same(h, d[k], c, e[k], n);
      if d[k].Ref? {
        assert d[k].addr in DictRefs(d);
      }
      SourceLater(h, d[k], c, e[k], n);
    }
  }

  lemma {:induction false} SourceLater(h: Heap, v: Val, c: Heap, w: Val, n: nat)
    requires Same(h, v, c, w, n) && WellFormed(h) && (v.Ref? ==> v.addr in h)
    requires forall a :: a in h ==> a in c && c[a] == h[a]
    ensures Same(c, v, c, w, n)
    decreases n
  {
    if n > 0 && v.Ref? {
      forall i | 0 <= i < |h[v.addr]|
        ensures Same(c, h[v.addr][i], c, c[w.addr][i], n - 1)
      {
        var u := h[v.addr][i];
        if u.Ref? {
          assert u.addr in Refs(h[v.addr]);
        }
        SourceLater(h, u, c, c[w.addr][i], n - 1);
      }
    }
  }
}
