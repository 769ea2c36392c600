/** Mutable values on a heap, deep copies, and the graph's copy policy for states. */
module StateCopy {

  type Key = string
  /** Names of objects.  An object made by a deep copy is named after its original and the copy's
      stamp, which no name in use carries. */
  datatype Addr = Made(id: nat) | CopyOf(original: Addr, stamp: nat)

  /** A field value: something immutable, or a reference to a mutable object. */
  datatype Val = Atom(value: int) | Ref(addr: Addr)

  /** Each object is the list of the values it holds. */
  type Heap = map<Addr, seq<Val>>

  /** A state dictionary; every copy makes a new dictionary, so only its values can be shared. */
  type Dict = map<Key, Val>

  function Refs(o: seq<Val>): set<Addr> {
    set v | v in o && v.Ref? :: v.addr
  }

  function DictRefs(d: Dict): set<Addr> {
    set k | k in d && d[k].Ref? :: d[k].addr
  }

  ghost predicate WellFormed(h: Heap) {
    forall a :: a in h ==> Refs(h[a]) <= h.Keys
  }

  function Children(h: Heap, s: set<Addr>): set<Addr> {
    set a, b | a in s && a in h && b in Refs(h[a]) :: b
  }

  ghost predicate Closed(h: Heap, s: set<Addr>) {
    Children(h, s) <= s
  }

  /** The objects that can be reached from s. */
  function Reach(h: Heap, s: set<Addr>): (r: set<Addr>)
    requires WellFormed(h) && s <= h.Keys
    ensures s <= r <= h.Keys && Closed(h, r)
    decreases |h.Keys - s|
  {
    var t := s + Children(h, s);
    if t == s then s
    else
      assert h.Keys - t < h.Keys - s by {
        assert t <= h.Keys;
        assert exists a :: a in t && a !in s;
      }
      SmallerSet(h.Keys - t, h.Keys - s);
      Reach(h, t)
  }

  lemma SmallerSet(a: set<Addr>, b: set<Addr>)
    requires a < b
    ensures |a| < |b|
  {
    var rest := b - a;
    assert b == a + rest && rest != {};
  }

  /** Reach is the smallest closed set. */
  lemma {:induction false} ReachLeast(h: Heap, s: set<Addr>, x: set<Addr>)
    requires WellFormed(h) && s <= h.Keys && s <= x && Closed(h, x)
    ensures Reach(h, s) <= x
    decreases |h.Keys - s|
  {
    var t := s + Children(h, s);
    if t != s {
      assert Children(h, s) <= Children(h, x);
      SmallerSet(h.Keys - t, h.Keys - s);
      ReachLeast(h, t, x);
    }
  }

  lemma ClosedEdge(h: Heap, x: set<Addr>, a: Addr, b: Addr)
    requires Closed(h, x) && a in x && a in h && b in Refs(h[a])
    ensures b in x
  {
    assert b in Children(h, x);
  }

  // --------------------------------------------------------------------------------------------
  // Deep copies
  // --------------------------------------------------------------------------------------------

  function Stamp(a: Addr): nat {
    if a.Made? then 0 else a.stamp
  }

  /** A stamp beyond every one in use. */
  ghost function Fresh(used: set<Addr>): (n: nat)
    ensures forall a :: a in used ==> Stamp(a) < n
    decreases |used|
  {
    if used == {} then 0
    else
      var a :| a in used;
      var n := Fresh(used - {a});
      assert used == (used - {a}) + {a};
      if n > Stamp(a) then n else Stamp(a) + 1
  }

  function Moved(v: Val, stamp: nat): Val {
    if v.Ref? then Ref(CopyOf(v.addr, stamp)) else v
  }

  function MovedObject(o: seq<Val>, stamp: nat): seq<Val> {
    seq(|o|, i requires 0 <= i < |o| => Moved(o[i], stamp))
  }

  function MovedDict(d: Dict, stamp: nat): Dict {
    map k | k in d :: Moved(d[k], stamp)
  }

  function MovedSet(s: set<Addr>, stamp: nat): set<Addr> {
    set a | a in s :: CopyOf(a, stamp)
  }

  /** copy.deepcopy of everything reachable from s: new objects, same contents, same aliasing. */
  ghost function DeepCopy(h: Heap, s: set<Addr>): Heap
    requires WellFormed(h) && s <= h.Keys
  {
    var n := Fresh(h.Keys);
    h + map a | a in MovedSet(Reach(h, s), n) :: MovedObject(h[a.original], n)
  }

  lemma MovedRefs(o: seq<Val>, n: nat)
    ensures Refs(MovedObject(o, n)) == MovedSet(Refs(o), n)
  {
    forall b
      ensures b in Refs(MovedObject(o, n)) <==> b in MovedSet(Refs(o), n)
    {
      if b in MovedSet(Refs(o), n) {
        var i :| 0 <= i < |o| && o[i] == Ref(b.original);
        assert MovedObject(o, n)[i] == Ref(b);
      }
      if b in Refs(MovedObject(o, n)) {
        var i :| 0 <= i < |o| && MovedObject(o, n)[i] == Ref(b);
        assert b.original in Refs(o);
      }
    }
  }

  lemma MovedDictRefs(d: Dict, n: nat)
    ensures DictRefs(MovedDict(d, n)) == MovedSet(DictRefs(d), n)
  {
    forall b
      ensures b in DictRefs(MovedDict(d, n)) <==> b in MovedSet(DictRefs(d), n)
    {
      if b in MovedSet(DictRefs(d), n) {
        var k :| k in d && d[k] == Ref(b.original);
        assert MovedDict(d, n)[k] == Ref(b);
      }
      if b in DictRefs(MovedDict(d, n)) {
        var k :| k in d && MovedDict(d, n)[k] == Ref(b);
        assert b.original in DictRefs(d);
      }
    }
  }

  lemma MovedWithin(h: Heap, r: set<Addr>, a: Addr, n: nat)
    requires a in r && a in h && Closed(h, r)
    ensures Refs(MovedObject(h[a], n)) <= MovedSet(r, n)
  {
    MovedRefs(h[a], n);
    forall b | b in Refs(h[a])
      ensures b in r
    {
      ClosedEdge(h, r, a, b);
    }
  }

  lemma DeepCopyObjects(h: Heap, s: set<Addr>)
    requires WellFormed(h) && s <= h.Keys
    ensures var c, n := DeepCopy(h, s), Fresh(h.Keys); var copied := MovedSet(Reach(h, s), n);
            && c.Keys == h.Keys + copied && copied !! h.Keys
            && (forall a :: a in h ==> c[a] == h[a])
            && (forall a :: a in Reach(h, s) ==> CopyOf(a, n) in c && c[CopyOf(a, n)] == MovedObject(h[a], n))
  {
    hide Reach;
    hide Fresh;
    hide Closed;
    var n, c, r := Fresh(h.Keys), DeepCopy(h, s), Reach(h, s);
    forall a | a in r
      ensures CopyOf(a, n) in c && c[CopyOf(a, n)] == MovedObject(h[a], n)
    {
      assert CopyOf(a, n) in MovedSet(r, n);
    }
  }

  /** A deep copy leaves every existing object alone, and its own objects are new and refer only to
      each other. */
  lemma DeepCopyIsolates(h: Heap, s: set<Addr>)
    requires WellFormed(h) && s <= h.Keys
    ensures var c, n := DeepCopy(h, s), Fresh(h.Keys); var copied := MovedSet(Reach(h, s), n);
            && WellFormed(c) && c.Keys == h.Keys + copied && copied !! h.Keys
            && (forall a :: a in h ==> c[a] == h[a])
            && (forall a :: a in Reach(h, s) ==> CopyOf(a, n) in c && c[CopyOf(a, n)] == MovedObject(h[a], n))
            && Closed(c, copied)
  {
    hide DeepCopy;
    hide Reach;
    hide Fresh;
    DeepCopyObjects(h, s);
    var n, c, r := Fresh(h.Keys), DeepCopy(h, s), Reach(h, s);
    forall b | b in MovedSet(r, n)
      ensures Refs(c[b]) <= MovedSet(r, n)
    {
      MovedWithin(h, r, b.original, n);
    }
    hide MovedSet;
    hide Refs;
    hide MovedObject;
  }

  /** A set of old objects that is closed stays closed when new objects are added. */
  lemma ClosedStays(h: Heap, c: Heap, x: set<Addr>)
    requires Closed(h, x) && x <= h.Keys && (forall a :: a in x ==> a in c && c[a] == h[a])
    ensures Closed(c, x)
  {
    forall b | b in Children(c, x)
      ensures b in x
    {
      var a :| a in x && a in c && b in Refs(c[a]);
      ClosedEdge(h, x, a, b);
    }
  }

  // --------------------------------------------------------------------------------------------
  // Equal contents
  // --------------------------------------------------------------------------------------------

  /** Two values look the same down to depth n. */
  ghost predicate Same(h: Heap, v: Val, c: Heap, w: Val, n: nat)
    decreases n
  {
    n == 0 ||
    match (v, w)
    case (Atom(x), Atom(y)) => x == y
    case (Ref(a), Ref(b)) =>
      a in h && b in c && |h[a]| == |c[b]| && forall i :: 0 <= i < |h[a]| ==> Same(h, h[a][i], c, c[b][i], n - 1)
    case _ => false
  }

  /** Two dictionaries have the same keys and, under each, the same contents to every depth. */
  ghost predicate SameDict(h: Heap, d: Dict, c: Heap, e: Dict) {
    d.Keys == e.Keys && forall k, n: nat :: k in d ==> Same(h, d[k], c, e[k], n)
  }

  lemma CopiedObject(h: Heap, s: set<Addr>, a: Addr)
    requires WellFormed(h) && s <= h.Keys && a in Reach(h, s)
    ensures var c, n := DeepCopy(h, s), Fresh(h.Keys);
            && CopyOf(a, n) in c && |c[CopyOf(a, n)]| == |h[a]|
            && forall i :: 0 <= i < |h[a]| ==>
                 && c[CopyOf(a, n)][i] == Moved(h[a][i], n)
                 && (h[a][i].Ref? ==> h[a][i].addr in Reach(h, s))
  {
    hide DeepCopy;
    hide Reach;
    hide Fresh;
    hide MovedSet;
    hide WellFormed;
    hide Closed;
    DeepCopyIsolates(h, s);
    forall i | 0 <= i < |h[a]| && h[a][i].Ref?
      ensures h[a][i].addr in Reach(h, s)
    {
      assert h[a][i].addr in Refs(h[a]);
      ClosedEdge(h, Reach(h, s), a, h[a][i].addr);
    }
  }

  lemma {:induction false} DeepCopySame(h: Heap, s: set<Addr>, v: Val, n: nat)
    requires WellFormed(h) && s <= h.Keys && (v.Ref? ==> v.addr in Reach(h, s))
    ensures Same(h, v, DeepCopy(h, s), Moved(v, Fresh(h.Keys)), n)
    decreases n
  {
    hide DeepCopy;
    hide Reach;
    hide Fresh;
    hide WellFormed;
    hide Refs;
    if n > 0 && v.Ref? {
      CopiedObject(h, s, v.addr);
      forall i | 0 <= i < |h[v.addr]|
        ensures Same(h, h[v.addr][i], DeepCopy(h, s), Moved(h[v.addr][i], Fresh(h.Keys)), n - 1)
      {
        DeepCopySame(h, s, h[v.addr][i], n - 1);
      }
    }
  }

  /** Contents are unaffected by what happens outside a closed set. */
  lemma {:induction false} SameLater(h: Heap, v: Val, c: Heap, w: Val, d: Heap, x: set<Addr>, n: nat)
    requires Same(h, v, c, w, n) && Closed(c, x) && (w.Ref? ==> w.addr in x)
    requires forall a :: a in x ==> a in c && a in d && d[a] == c[a]
    ensures Same(h, v, d, w, n)
    decreases n
  {
    if n > 0 && v.Ref? {
      forall i | 0 <= i < |h[v.addr]|
        ensures Same(h, h[v.addr][i], d, d[w.addr][i], n - 1)
      {
        var u := c[w.addr][i];
        if u.Ref? {
          assert u.addr in Refs(c[w.addr]);
          ClosedEdge(c, x, w.addr, u.addr);
        }
        SameLater(h, h[v.addr][i], c, u, d, x, n - 1);
      }
    }
  }

  // --------------------------------------------------------------------------------------------
  // copy_state
  // --------------------------------------------------------------------------------------------

  /** The fields that are deep-copied: all but the KeepRef ones. */
  function Ordinary(d: Dict, keep: set<Key>): Dict {
    map k | k in d && k !in keep :: d[k]
  }

  /** Heap after copy_state; the KeepRef fields are left out before copying. */
  ghost function CopyStateHeap(h: Heap, d: Dict, keep: set<Key>): Heap
    requires WellFormed(h) && DictRefs(d) <= h.Keys
  {
    OrdinaryRefs(d, keep);
    DeepCopy(h, DictRefs(Ordinary(d, keep)))
  }

  ghost function CopyState(h: Heap, d: Dict, keep: set<Key>): Dict
    requires WellFormed(h) && DictRefs(d) <= h.Keys
  {
    map k | k in d :: if k in keep then d[k] else Moved(d[k], Fresh(h.Keys))
  }

  lemma OrdinaryRefs(d: Dict, keep: set<Key>)
    ensures DictRefs(Ordinary(d, keep)) <= DictRefs(d)
  {
    forall a | a in DictRefs(Ordinary(d, keep))
      ensures a in DictRefs(d)
    {
      var k :| k in Ordinary(d, keep) && Ordinary(d, keep)[k] == Ref(a);
      assert d[k] == Ref(a);
    }
  }

  /** A copied state has the same fields with the same contents; it shares exactly the KeepRef values,
      and all else is new. */
  lemma CopyStateShares(h: Heap, d: Dict, keep: set<Key>)
    requires WellFormed(h) && DictRefs(d) <= h.Keys
    ensures var c, e := CopyStateHeap(h, d, keep), CopyState(h, d, keep);
            var copied := MovedSet(Reach(h, DictRefs(Ordinary(d, keep))), Fresh(h.Keys));
            && WellFormed(c) && c.Keys == h.Keys + copied && copied !! h.Keys && Closed(c, copied)
            && (forall a :: a in h ==> c[a] == h[a])
            && e.Keys == d.Keys
            && (forall k :: k in d && k in keep ==> e[k] == d[k])
            && (forall k :: k in d && k !in keep && e[k].Ref? ==> e[k].addr in copied)
            && DictRefs(e) <= c.Keys
  {
    var s := DictRefs(Ordinary(d, keep));
    var e := CopyState(h, d, keep);
    OrdinaryRefs(d, keep);
    DeepCopyIsolates(h, s);
    forall k | k in d && k !in keep && e[k].Ref?
      ensures e[k].addr in MovedSet(Reach(h, s), Fresh(h.Keys))
    {
      assert Ordinary(d, keep)[k] == d[k];
      assert d[k].addr in s;
    }
    forall a | a in DictRefs(e)
      ensures a in CopyStateHeap(h, d, keep)
    {
      var k :| k in e && e[k] == Ref(a);
      assert k in keep ==> a in DictRefs(d);
    }
  }

  /** The ordinary fields of a copied state have the contents of the originals. */
  lemma CopyStateSame(h: Heap, d: Dict, keep: set<Key>, k: Key, n: nat)
    requires WellFormed(h) && DictRefs(d) <= h.Keys && k in d && k !in keep
    ensures Same(h, d[k], CopyStateHeap(h, d, keep), CopyState(h, d, keep)[k], n)
  {
    var s := DictRefs(Ordinary(d, keep));
    OrdinaryRefs(d, keep);
    if d[k].Ref? {
      assert Ordinary(d, keep)[k] == d[k];
      assert d[k].addr in s;
    }
    DeepCopySame(h, s, d[k], n);
  }
}
