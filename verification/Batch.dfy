/** Committing one batch: the ordered application of every command, and the next target. */
module Batch {
  import opened Common

  type Key = string
  type Name = string
  /** State values: nothing is known of them but equality. */
  type V(==, !new)

  type State = map<Key, V>

  const END: Name := "__end__"

  /** A dispatch target: one node (or END), or a concurrent batch. */
  datatype Target = Single(name: Name) | Listed(names: seq<Name>)

  datatype Write = Put(value: V) | Reset(value: V)

  /** A command's update in its dictionary order, and its goto. */
  datatype Command = Command(update: seq<(Key, Write)>, goto: Option<Target>)

  /** The commands returned by one batch member. */
  type Member = seq<Command>

  /** AutoMerge fields, and __add__: None where it is missing or returns NotImplemented. */
  datatype Policy = Policy(autoMerge: set<Key>, add: (V, V) -> Option<V>)

  datatype CommitError = Conflict(key: Key) | NotAddable(key: Key)

  /** The live state when committing stopped, and why it stopped early if it did. */
  datatype Commit = Commit(state: State, error: Option<CommitError>)

  /** One write of the batch, tagged with the index of its member. */
  datatype Item = Item(member: nat, key: Key, write: Write)

  /** One place in a batch: a member, one of its commands, and a position in its update or goto. */
  datatype Place = Place(member: nat, command: nat, position: nat)

  /** Member order, then command order, then order within one update or goto. */
  predicate Before(a: Place, b: Place) {
    || a.member < b.member
    || (a.member == b.member && a.command < b.command)
    || (a.member == b.member && a.command == b.command && a.position < b.position)
  }

  function Get(st: State, k: Key): Option<V> {
    if k in st then Some(st[k]) else None
  }

  function WriteKey(p: Policy, st: State, k: Key, w: Write): Option<State> {
    if w.Put? && k in p.autoMerge && k in st then
      match p.add(st[k], w.value)
      case None => None
      case Some(merged) => Some(st[k := merged])
    else Some(st[k := w.value])
  }

  predicate Clashes(p: Policy, owner: map<Key, nat>, item: Item) {
    item.key !in p.autoMerge && item.key in owner && owner[item.key] != item.member
  }

  /** Applies the items in order; `owner` remembers which member wrote each ordinary key. */
  function ApplyItems(p: Policy, st: State, owner: map<Key, nat>, items: seq<Item>): Commit
    decreases |items|
  {
    if items == [] then Commit(st, None)
    else
      var item := items[0];
      if Clashes(p, owner, item) then Commit(st, Some(Conflict(item.key)))
      else
        match WriteKey(p, st, item.key, item.write)
        case None => Commit(st, Some(NotAddable(item.key)))
        case Some(next) => ApplyItems(p, next, Owning(p, owner, item), items[1..])
  }

  function Owning(p: Policy, owner: map<Key, nat>, item: Item): map<Key, nat> {
    if item.key in p.autoMerge then owner else owner[item.key := item.member]
  }

  function UpdateItems(i: nat, update: seq<(Key, Write)>): seq<Item> {
    if update == [] then []
    else [Item(i, update[0].0, update[0].1)] + UpdateItems(i, update[1..])
  }

  function MemberItems(i: nat, member: Member): seq<Item> {
    if member == [] then [] else UpdateItems(i, member[0].update) + MemberItems(i, member[1..])
  }

  /** Every write in node, then command, then dictionary order; members are numbered from i. */
  function BatchItems(i: nat, members: seq<Member>): seq<Item>
    decreases |members|
  {
    if members == [] then [] else MemberItems(i, members[0]) + BatchItems(i + 1, members[1..])
  }

  function CommitBatch(p: Policy, st: State, members: seq<Member>): Commit {
    ApplyItems(p, st, map[], BatchItems(0, members))
  }

  // --------------------------------------------------------------------------------------------
  // Reference: what each key ends up with, looked at on its own
  // --------------------------------------------------------------------------------------------

  function WritesTo(items: seq<Item>, k: Key): seq<Write> {
    if items == [] then []
    else (if items[0].key == k then [items[0].write] else []) + WritesTo(items[1..], k)
  }

  /** The writes to an AutoMerge key from the last Reset on, that Reset included. */
  function SinceReset(ws: seq<Write>): (r: seq<Write>)
    ensures forall i :: 0 < i < |r| ==> r[i].Put?
  {
    if ws == [] then []
    else
      var n := |ws| - 1;
      if ws[n].Reset? then [ws[n]] else SinceReset(ws[..n]) + [ws[n]]
  }

  /** init + u1 + u2 + ..., where an absent value is replaced by the first update. */
  function Plus(p: Policy, a: Option<V>, b: V): Option<V> {
    match a
    case None => Some(b)
    case Some(x) => p.add(x, b)
  }

  /** Whether every addition in a left-to-right merge is defined. */
  predicate Addable(p: Policy, init: Option<V>, ws: seq<Write>)
    decreases |ws|
  {
    ws == [] || (Next(p, init, ws[0]).Some? && Addable(p, Next(p, init, ws[0]), ws[1..]))
  }

  function Next(p: Policy, init: Option<V>, w: Write): Option<V> {
    if w.Reset? then Some(w.value) else Plus(p, init, w.value)
  }

  function Total(p: Policy, init: Option<V>, ws: seq<Write>): Option<V>
    requires Addable(p, init, ws)
    decreases |ws|
  {
    if ws == [] then init else Total(p, Next(p, init, ws[0]), ws[1..])
  }

  /** No ordinary key is written by two different batch members. */
  ghost predicate ConflictFree(p: Policy, items: seq<Item>) {
    forall a, b :: 0 <= a < b < |items| && items[a].key == items[b].key && items[a].key !in p.autoMerge
                   ==> items[a].member == items[b].member
  }

  /** Every __add__ that the batch would perform on its own key is defined. */
  ghost predicate AddsDefined(p: Policy, st: State, items: seq<Item>) {
    forall k :: k in p.autoMerge ==> Addable(p, Get(st, k), WritesTo(items, k))
  }

  /** What key k holds after a committed batch. */
  ghost function Outcome(p: Policy, st: State, items: seq<Item>, k: Key): Option<V>
    requires AddsDefined(p, st, items)
  {
    var ws := WritesTo(items, k);
    if k in p.autoMerge then Total(p, Get(st, k), ws)
    else if ws == [] then Get(st, k)
    else Some(ws[|ws| - 1].value)
  }

  /** No item clashes with an owner recorded earlier, nor two items with each other. */
  ghost predicate Compatible(p: Policy, owner: map<Key, nat>, items: seq<Item>) {
    ConflictFree(p, items) && forall a :: 0 <= a < |items| ==> !Clashes(p, owner, items[a])
  }

  lemma {:induction false} CompatibleTail(p: Policy, owner: map<Key, nat>, items: seq<Item>)
    requires items != []
    ensures Compatible(p, owner, items) <==>
            !Clashes(p, owner, items[0]) && Compatible(p, Owning(p, owner, items[0]), items[1..])
  {
    var rest, next := items[1..], Owning(p, owner, items[0]);
    assert items == [items[0]] + rest;
    if Compatible(p, owner, items) {
      forall a | 0 <= a < |rest|
        ensures !Clashes(p, next, rest[a])
      {
        assert items[a + 1] == rest[a] && !Clashes(p, owner, items[a + 1]);
      }
    }
    if !Clashes(p, owner, items[0]) && Compatible(p, next, rest) {
      forall b | 0 < b < |items|
        ensures !Clashes(p, owner, items[b])
        ensures items[0].key == items[b].key && items[0].key !in p.autoMerge ==> items[0].member == items[b].member
      {
        assert items[b] == rest[b - 1] && !Clashes(p, next, rest[b - 1]);
      }
    }
  }

  lemma {:induction false} DefinedTail(p: Policy, st: State, items: seq<Item>)
    requires items != []
    ensures AddsDefined(p, st, items) <==>
            WriteKey(p, st, items[0].key, items[0].write).Some?
            && AddsDefined(p, WriteKey(p, st, items[0].key, items[0].write).value, items[1..])
  {
    var item := items[0];
    var wrote := WriteKey(p, st, item.key, item.write);
    if wrote.Some? {
      forall k | k in p.autoMerge
        ensures Addable(p, Get(st, k), WritesTo(items, k)) <==> Addable(p, Get(wrote.value, k), WritesTo(items[1..], k))
      {
        FirstWrite(p, st, items, k);
      }
    } else {
      FirstWrite(p, st, items, item.key);
      assert !Addable(p, Get(st, item.key), WritesTo(items, item.key));
    }
  }

  lemma FirstWrite(p: Policy, st: State, items: seq<Item>, k: Key)
    requires items != []
    ensures items[0].key == k ==>
              WritesTo(items, k) != [] && WritesTo(items, k)[0] == items[0].write
              && WritesTo(items, k)[1..] == WritesTo(items[1..], k)
    ensures items[0].key != k ==> WritesTo(items, k) == WritesTo(items[1..], k)
  {
  }

  /** The commit fails exactly when two members clash or an addition is undefined, and each cause
      alone is reported as such. */
  lemma {:induction false} CommitFailsIff(p: Policy, st: State, owner: map<Key, nat>, items: seq<Item>)
    ensures var error := ApplyItems(p, st, owner, items).error;
            && (error.None? <==> Compatible(p, owner, items) && AddsDefined(p, st, items))
            && (AddsDefined(p, st, items) && error.Some? ==> error.value.Conflict?)
            && (Compatible(p, owner, items) && error.Some? ==> error.value.NotAddable?)
    decreases |items|
  {
    if items != [] {
      var item := items[0];
      CompatibleTail(p, owner, items);
      DefinedTail(p, st, items);
      var wrote := WriteKey(p, st, item.key, item.write);
      if !Clashes(p, owner, item) && wrote.Some? {
        CommitFailsIff(p, wrote.value, Owning(p, owner, item), items[1..]);
      }
    }
  }

  /** The first write carries every key one step towards its reference value. */
  lemma OutcomeTail(p: Policy, st: State, items: seq<Item>, next: State, k: Key)
    requires items != [] && WriteKey(p, st, items[0].key, items[0].write) == Some(next)
    requires AddsDefined(p, st, items) && AddsDefined(p, next, items[1..])
    ensures Outcome(p, st, items, k) == Outcome(p, next, items[1..], k)
  {
    var init, ws, rest := Get(st, k), WritesTo(items, k), WritesTo(items[1..], k);
    FirstWrite(p, st, items, k);
    if items[0].key == k {
      assert ws == [items[0].write] + rest;
      if k in p.autoMerge {
        assert Addable(p, init, ws) && Total(p, init, ws) == Total(p, Next(p, init, ws[0]), rest);
        assert Get(next, k) == Next(p, init, ws[0]);
      }
    } else {
      assert Get(next, k) == init;
    }
  }

  /** A successful commit gives every key its reference value. */
  lemma {:induction false} CommitValue(p: Policy, st: State, owner: map<Key, nat>, items: seq<Item>, k: Key)
    requires ApplyItems(p, st, owner, items).error.None?
    ensures AddsDefined(p, st, items) && Get(ApplyItems(p, st, owner, items).state, k) == Outcome(p, st, items, k)
    decreases |items|
  {
    CommitFailsIff(p, st, owner, items);
    hide Compatible;
    hide AddsDefined;
    if items != [] {
      hide Outcome;
      var item := items[0];
      var next := WriteKey(p, st, item.key, item.write).value;
      CommitValue(p, next, Owning(p, owner, item), items[1..], k);
      OutcomeTail(p, st, items, next, k);
    }
  }

  lemma {:induction false} TotalAppend(p: Policy, init: Option<V>, ws: seq<Write>, w: Write)
    ensures Addable(p, init, ws + [w]) <==> Addable(p, init, ws) && Next(p, Total(p, init, ws), w).Some?
    ensures Addable(p, init, ws + [w]) ==> Total(p, init, ws + [w]) == Next(p, Total(p, init, ws), w)
    decreases |ws|
  {
    if ws == [] {
      assert ws + [w] == [w];
    } else {
      assert (ws + [w])[1..] == ws[1..] + [w];
      if Next(p, init, ws[0]).Some? {
        TotalAppend(p, Next(p, init, ws[0]), ws[1..], w);
      }
    }
  }

  lemma TotalOfNothing(p: Policy, init: Option<V>)
    ensures Addable(p, init, []) && Total(p, init, []) == init
  {
  }

  /** An AutoMerge key's total is its last Reset value, or else its initial value, plus the updates
      after it in order: writes before the last Reset do not matter. */
  lemma {:induction false} TotalSinceReset(p: Policy, init: Option<V>, ws: seq<Write>)
    requires Addable(p, init, ws)
    ensures var tail := SinceReset(ws);
            && |tail| <= |ws| && tail == ws[|ws| - |tail|..]
            && (tail == ws || tail[0].Reset?)
            && (forall i :: 0 < i < |tail| ==> tail[i].Put?)
            && Addable(p, init, tail) && Total(p, init, ws) == Total(p, init, tail)
    decreases |ws|
  {
    hide Addable;
    hide Total;
    if ws != [] {
      var n, w := |ws| - 1, ws[|ws| - 1];
      var front := ws[..n];
      var tail := SinceReset(front);
      assert ws == front + [w];
      TotalAppend(p, init, front, w);
      TotalSinceReset(p, init, front);
      if w.Put? {
        TotalAppend(p, init, tail, w);
        assert front[n - |tail|..] + [w] == ws[n - |tail|..];
      } else {
        TotalAppend(p, init, [], w);
        assert [] + [w] == [w];
        TotalOfNothing(p, init);
      }
    }
  }
}
