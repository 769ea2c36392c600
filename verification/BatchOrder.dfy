/** How much of a batch commit depends on the order of its members. */
module BatchOrder {
  import opened Common
  import opened Batch

  function Remove<T>(s: seq<T>, i: nat): seq<T>
    requires i < |s|
  {
    s[..i] + s[i + 1..]
  }

  function Fold<A, B>(f: (B, A) -> B, b: B, s: seq<A>): B
    decreases |s|
  {
    if s == [] then b else Fold(f, f(b, s[0]), s[1..])
  }

  ghost predicate LeftCommutes<A(!new), B(!new)>(f: (B, A) -> B) {
    forall b, x, y :: f(f(b, x), y) == f(f(b, y), x)
  }

  lemma {:induction false} FoldMovesFront<A(!new), B(!new)>(f: (B, A) -> B, b: B, s: seq<A>, i: nat)
    requires LeftCommutes(f) && i < |s|
    ensures Fold(f, b, s) == Fold(f, f(b, s[i]), Remove(s, i))
    decreases |s|
  {
    if i == 0 {
      assert Remove(s, 0) == s[1..];
    } else {
      FoldMovesFront(f, f(b, s[0]), s[1..], i - 1);
      assert Remove(s, i)[1..] == Remove(s[1..], i - 1);
      assert Remove(s, i)[0] == s[0];
    }
  }

  lemma RemoveFromMultiset<T>(s: seq<T>, i: nat)
    requires i < |s|
    ensures multiset(Remove(s, i)) == multiset(s) - multiset{s[i]}
  {
    assert s == s[..i] + [s[i]] + s[i + 1..];
  }

  /** A left-commutative fold sees only the multiset of its arguments. */
  lemma {:induction false} FoldPermuted<A(!new), B(!new)>(f: (B, A) -> B, b: B, s: seq<A>, t: seq<A>)
    requires LeftCommutes(f) && multiset(s) == multiset(t)
    ensures Fold(f, b, s) == Fold(f, b, t)
    decreases |s|
  {
    if s == [] {
      assert |t| == |multiset(t)| == |multiset(s)| == 0;
    } else {
      assert s[0] in multiset(t);
      var i :| 0 <= i < |t| && t[i] == s[0];
      FoldMovesFront(f, b, t, i);
      RemoveFromMultiset(t, i);
      RemoveFromMultiset(s, 0);
      assert Remove(s, 0) == s[1..];
      FoldPermuted(f, f(b, s[0]), s[1..], Remove(t, i));
    }
  }

  // --------------------------------------------------------------------------------------------
  // Writes, member by member
  // --------------------------------------------------------------------------------------------

  /** What one member writes to key k, in order. */
  function WritesOf(member: Member, k: Key): seq<Write> {
    WritesTo(MemberItems(0, member), k)
  }

  lemma {:induction false} WritesToConcat(xs: seq<Item>, ys: seq<Item>, k: Key)
    ensures WritesTo(xs + ys, k) == WritesTo(xs, k) + WritesTo(ys, k)
    decreases |xs|
  {
    if xs == [] {
      assert xs + ys == ys;
    } else {
      assert (xs + ys)[1..] == xs[1..] + ys;
      WritesToConcat(xs[1..], ys, k);
    }
  }

  lemma {:induction false} UpdateWrites(i: nat, update: seq<(Key, Write)>, k: Key)
    ensures WritesTo(UpdateItems(i, update), k) == WritesTo(UpdateItems(0, update), k)
    ensures forall a :: 0 <= a < |UpdateItems(i, update)| ==> UpdateItems(i, update)[a].member == i
    decreases |update|
  {
    if update != [] {
      UpdateWrites(i, update[1..], k);
      assert UpdateItems(i, update)[1..] == UpdateItems(i, update[1..]);
      assert UpdateItems(0, update)[1..] == UpdateItems(0, update[1..]);
    }
  }

  /** The writes of a member do not depend on its number, which tags all of its items. */
  lemma {:induction false} MemberWrites(i: nat, member: Member, k: Key)
    ensures WritesTo(MemberItems(i, member), k) == WritesOf(member, k)
    ensures forall a :: 0 <= a < |MemberItems(i, member)| ==> MemberItems(i, member)[a].member == i
    decreases |member|
  {
    if member != [] {
      UpdateWrites(i, member[0].update, k);
      MemberWrites(i, member[1..], k);
      WritesToConcat(UpdateItems(i, member[0].update), MemberItems(i, member[1..]), k);
      WritesToConcat(UpdateItems(0, member[0].update), MemberItems(0, member[1..]), k);
    }
  }

  function AllWrites(members: seq<Member>, k: Key): seq<Write> {
    if members == [] then [] else WritesOf(members[0], k) + AllWrites(members[1..], k)
  }

  lemma {:induction false} BatchWrites(i: nat, members: seq<Member>, k: Key)
    ensures WritesTo(BatchItems(i, members), k) == AllWrites(members, k)
    ensures forall a :: 0 <= a < |BatchItems(i, members)| ==> BatchItems(i, members)[a].member >= i
    decreases |members|
  {
    if members != [] {
      MemberWrites(i, members[0], k);
      BatchWrites(i + 1, members[1..], k);
      WritesToConcat(MemberItems(i, members[0]), BatchItems(i + 1, members[1..]), k);
    }
  }

  /** How many members write key k. */
  function Writers(k: Key): (nat, Member) -> nat {
    (n: nat, member: Member) => n + if WritesOf(member, k) != [] then 1 else 0
  }

  lemma WrittenKey(items: seq<Item>, k: Key)
    ensures WritesTo(items, k) != [] <==> exists a :: 0 <= a < |items| && items[a].key == k
    decreases |items|
  {
    if items != [] {
      WrittenKey(items[1..], k);
      if WritesTo(items[1..], k) != [] {
        var a :| 0 <= a < |items[1..]| && items[1..][a].key == k;
        assert items[a + 1].key == k;
      }
      if a :| 0 <= a < |items| && items[a].key == k {
        assert a > 0 ==> items[1..][a - 1].key == k;
      }
    }
  }

  lemma {:induction false} FoldWriters(members: seq<Member>, k: Key, n: nat)
    ensures Fold(Writers(k), n, members) == n + Fold(Writers(k), 0, members)
    decreases |members|
  {
    if members != [] {
      var w := if WritesOf(members[0], k) != [] then 1 else 0;
      FoldWriters(members[1..], k, n + w);
      FoldWriters(members[1..], k, w);
    }
  }

  lemma {:induction false} NoWriters(members: seq<Member>, k: Key)
    ensures Fold(Writers(k), 0, members) == 0 <==> AllWrites(members, k) == []
    decreases |members|
  {
    if members != [] {
      FoldWriters(members[1..], k, if WritesOf(members[0], k) != [] then 1 else 0);
      NoWriters(members[1..], k);
    }
  }

  ghost predicate SameOwner(items: seq<Item>, k: Key) {
    forall a, b :: 0 <= a < b < |items| && items[a].key == k && items[b].key == k ==> items[a].member == items[b].member
  }

  lemma SameOwnerConcat(i: nat, mine: seq<Item>, rest: seq<Item>, k: Key)
    requires forall a :: 0 <= a < |mine| ==> mine[a].member == i
    requires forall b :: 0 <= b < |rest| ==> rest[b].member > i
    ensures SameOwner(mine + rest, k) <==>
            SameOwner(rest, k) && (WritesTo(mine, k) == [] || WritesTo(rest, k) == [])
  {
    var items := mine + rest;
    WrittenKey(mine, k);
    WrittenKey(rest, k);
    if WritesTo(mine, k) != [] && WritesTo(rest, k) != [] {
      var a :| 0 <= a < |mine| && mine[a].key == k;
      var b :| 0 <= b < |rest| && rest[b].key == k;
      assert items[a] == mine[a] && items[|mine| + b] == rest[b];
      assert items[a].member != items[|mine| + b].member;
    } else if SameOwner(items, k) {
      forall a, b | 0 <= a < b < |rest| && rest[a].key == k && rest[b].key == k
        ensures rest[a].member == rest[b].member
      {
        assert items[|mine| + a] == rest[a] && items[|mine| + b] == rest[b];
      }
    }
  }

  /** A key is free of conflict exactly when at most one member writes it. */
  lemma {:induction false} SameOwnerIff(i: nat, members: seq<Member>, k: Key)
    ensures SameOwner(BatchItems(i, members), k) <==> Fold(Writers(k), 0, members) <= 1
    decreases |members|
  {
    if members != [] {
      var mine, rest := MemberItems(i, members[0]), BatchItems(i + 1, members[1..]);
      MemberWrites(i, members[0], k);
      BatchWrites(i + 1, members[1..], k);
      SameOwnerConcat(i, mine, rest, k);
      SameOwnerIff(i + 1, members[1..], k);
      FoldWriters(members[1..], k, if WritesOf(members[0], k) != [] then 1 else 0);
      NoWriters(members[1..], k);
    }
  }

  ghost predicate AtMostOneWriter(p: Policy, members: seq<Member>) {
    forall k :: k !in p.autoMerge ==> Fold(Writers(k), 0, members) <= 1
  }

  lemma ConflictFreeIff(p: Policy, members: seq<Member>)
    ensures Compatible(p, map[], BatchItems(0, members)) <==> AtMostOneWriter(p, members)
  {
    var items := BatchItems(0, members);
    forall k
      ensures SameOwner(items, k) <==> Fold(Writers(k), 0, members) <= 1
    {
      SameOwnerIff(0, members, k);
    }
    if Compatible(p, map[], items) {
      forall k | k !in p.autoMerge
        ensures SameOwner(items, k)
      {
      }
    }
    if AtMostOneWriter(p, members) {
      forall a, b | 0 <= a < b < |items| && items[a].key == items[b].key && items[a].key !in p.autoMerge
        ensures items[a].member == items[b].member
      {
        assert SameOwner(items, items[a].key);
      }
    }
  }

  lemma WritersCommute(k: Key)
    ensures LeftCommutes(Writers(k))
  {
  }

  lemma AtMostOneWriterPermuted(p: Policy, members: seq<Member>, other: seq<Member>)
    requires multiset(members) == multiset(other)
    ensures AtMostOneWriter(p, members) <==> AtMostOneWriter(p, other)
  {
    forall k
      ensures Fold(Writers(k), 0, members) == Fold(Writers(k), 0, other)
    {
      WritersCommute(k);
      FoldPermuted(Writers(k), 0, members, other);
    }
  }

  /** With a single writer, the batch's writes to k are that member's. */
  lemma {:induction false} SoleWriter(members: seq<Member>, k: Key, i: nat)
    requires Fold(Writers(k), 0, members) <= 1
    requires i < |members| && WritesOf(members[i], k) != []
    ensures AllWrites(members, k) == WritesOf(members[i], k)
    decreases |members|
  {
    FoldWriters(members[1..], k, if WritesOf(members[0], k) != [] then 1 else 0);
    NoWriters(members[1..], k);
    if i > 0 {
      if WritesOf(members[0], k) != [] {
        WriterAmong(members[1..], k, i - 1);
      }
      SoleWriter(members[1..], k, i - 1);
    }
  }

  lemma {:induction false} WriterAmong(members: seq<Member>, k: Key, i: nat)
    requires i < |members| && WritesOf(members[i], k) != []
    ensures AllWrites(members, k) != []
    decreases |members|
  {
    if i > 0 {
      WriterAmong(members[1..], k, i - 1);
    }
  }

  lemma {:induction false} SomeWriter(members: seq<Member>, k: Key) returns (i: nat)
    requires AllWrites(members, k) != []
    ensures i < |members| && WritesOf(members[i], k) != []
    decreases |members|
  {
    if WritesOf(members[0], k) != [] {
      i := 0;
    } else {
      i := SomeWriter(members[1..], k);
      i := i + 1;
    }
  }

  /** Permuting the members keeps the writes to every key with at most one writer. */
  lemma SoleWritesPermuted(members: seq<Member>, other: seq<Member>, k: Key)
    requires multiset(members) == multiset(other) && Fold(Writers(k), 0, members) <= 1
    ensures AllWrites(members, k) == AllWrites(other, k)
  {
    WritersCommute(k);
    FoldPermuted(Writers(k), 0, members, other);
    NoWriters(members, k);
    NoWriters(other, k);
    if AllWrites(members, k) != [] {
      var i := SomeWriter(members, k);
      SoleWriter(members, k, i);
      assert members[i] in multiset(other);
      var j :| 0 <= j < |other| && other[j] == members[i];
      SoleWriter(other, k, j);
    }
  }

  // --------------------------------------------------------------------------------------------
  // AutoMerge keys under an associative and commutative addition
  // --------------------------------------------------------------------------------------------

  /** a + b where both may be undefined. */
  function Added(p: Policy, a: Option<V>, b: Option<V>): Option<V> {
    if a.Some? && b.Some? then p.add(a.value, b.value) else None
  }

  /** Laws of a partial addition: where one side is undefined, so is the other. */
  ghost predicate AssociativeCommutative(p: Policy) {
    && (forall a, b :: p.add(a, b) == p.add(b, a))
    && (forall a, b, c :: Added(p, p.add(a, b), Some(c)) == Added(p, Some(a), p.add(b, c)))
  }

  ghost predicate NoReset(ws: seq<Write>) {
    forall i :: 0 <= i < |ws| ==> ws[i].Put?
  }

  /** A running merge: None once an addition was undefined, else what the key holds. */
  type Running = Option<Option<V>>

  function AddOne(p: Policy, sum: Running, b: V): Running {
    if sum.None? then None
    else
      match Plus(p, sum.value, b)
      case None => None
      case Some(v) => Some(Some(v))
  }

  /** Adding one update's value to a running merge. */
  function AddTo(p: Policy): (Running, Write) -> Running {
    (sum: Running, w: Write) => AddOne(p, sum, w.value)
  }

  lemma {:induction false} StaysUndefined(p: Policy, ws: seq<Write>)
    ensures Fold(AddTo(p), None, ws) == None
    decreases |ws|
  {
    if ws != [] {
      StaysUndefined(p, ws[1..]);
    }
  }

  /** Without Reset, merging is a fold of additions, undefined exactly when one of them is. */
  lemma {:induction false} MergeIsFold(p: Policy, init: Option<V>, ws: seq<Write>)
    requires NoReset(ws)
    ensures Fold(AddTo(p), Some(init), ws) == if Addable(p, init, ws) then Some(Total(p, init, ws)) else None
    decreases |ws|
  {
    if ws != [] {
      assert ws[0].Put?;
      assert NoReset(ws[1..]) by {
        assert forall i :: 0 <= i < |ws[1..]| ==> ws[1..][i] == ws[i + 1];
      }
      if Next(p, init, ws[0]).Some? {
        MergeIsFold(p, Next(p, init, ws[0]), ws[1..]);
      } else {
        StaysUndefined(p, ws[1..]);
      }
    }
  }

  lemma Commutes(p: Policy, a: V, b: V)
    requires AssociativeCommutative(p)
    ensures p.add(a, b) == p.add(b, a)
  {
  }

  lemma Associates(p: Policy, a: V, b: V, c: V)
    requires AssociativeCommutative(p)
    ensures Added(p, p.add(a, b), Some(c)) == Added(p, Some(a), p.add(b, c))
  {
  }

  lemma TwoAdditions(p: Policy, sum: Running, x: V, y: V)
    requires AssociativeCommutative(p)
    ensures AddOne(p, AddOne(p, sum, x), y) == AddOne(p, AddOne(p, sum, y), x)
  {
    hide AssociativeCommutative;
    Commutes(p, x, y);
    if sum.Some? && sum.value.Some? {
      Associates(p, sum.value.value, x, y);
      Associates(p, sum.value.value, y, x);
    }
  }

  lemma AdditionsCommute(p: Policy)
    requires AssociativeCommutative(p)
    ensures LeftCommutes(AddTo(p))
  {
    hide AssociativeCommutative;
    hide AddOne;
    forall sum: Running, v: Write, w: Write
      ensures AddTo(p)(AddTo(p)(sum, v), w) == AddTo(p)(AddTo(p)(sum, w), v)
    {
      TwoAdditions(p, sum, v.value, w.value);
    }
  }

  /** Members that carry no Reset for key k. */
  ghost predicate PlainMembers(members: seq<Member>, k: Key) {
    forall i :: 0 <= i < |members| ==> NoReset(WritesOf(members[i], k))
  }

  lemma {:induction false} PlainWrites(members: seq<Member>, k: Key)
    requires PlainMembers(members, k)
    ensures NoReset(AllWrites(members, k))
    decreases |members|
  {
    if members != [] {
      assert NoReset(WritesOf(members[0], k));
      assert PlainMembers(members[1..], k) by {
        assert forall i :: 0 <= i < |members[1..]| ==> members[1..][i] == members[i + 1];
      }
      PlainWrites(members[1..], k);
    }
  }

  lemma {:induction false} WritesWithout(members: seq<Member>, k: Key, i: nat)
    requires i < |members|
    ensures multiset(AllWrites(members, k)) == multiset(WritesOf(members[i], k)) + multiset(AllWrites(Remove(members, i), k))
    decreases |members|
  {
    hide WritesOf;
    if i == 0 {
      assert Remove(members, 0) == members[1..];
    } else {
      WritesWithout(members[1..], k, i - 1);
      assert Remove(members, i)[1..] == Remove(members[1..], i - 1);
      assert Remove(members, i)[0] == members[0];
    }
  }

  /** Permuting the members permutes the writes to each key. */
  lemma {:induction false} WritesPermuted(members: seq<Member>, other: seq<Member>, k: Key)
    requires multiset(members) == multiset(other)
    ensures multiset(AllWrites(members, k)) == multiset(AllWrites(other, k))
    decreases |members|
  {
    if members == [] {
      assert |other| == |multiset(other)| == |multiset(members)| == 0;
    } else {
      assert members[0] in multiset(other);
      var i :| 0 <= i < |other| && other[i] == members[0];
      RemoveFromMultiset(other, i);
      RemoveFromMultiset(members, 0);
      assert Remove(members, 0) == members[1..];
      WritesWithout(members, k, 0);
      WritesWithout(other, k, i);
      WritesPermuted(members[1..], Remove(other, i), k);
    }
  }

  /** An AutoMerge key without Resets: whether its additions are defined, and their total, do not
      depend on the order of the members. */
  lemma MergePermuted(p: Policy, init: Option<V>, members: seq<Member>, other: seq<Member>, k: Key)
    requires AssociativeCommutative(p) && PlainMembers(members, k) && multiset(members) == multiset(other)
    ensures Addable(p, init, AllWrites(members, k)) <==> Addable(p, init, AllWrites(other, k))
    ensures Addable(p, init, AllWrites(members, k)) ==>
              Total(p, init, AllWrites(members, k)) == Total(p, init, AllWrites(other, k))
  {
    forall j | 0 <= j < |other|
      ensures NoReset(WritesOf(other[j], k))
    {
      assert other[j] in multiset(members);
    }
    PlainWrites(members, k);
    PlainWrites(other, k);
    WritesPermuted(members, other, k);
    AdditionsCommute(p);
    FoldPermuted(AddTo(p), Some(init), AllWrites(members, k), AllWrites(other, k));
    MergeIsFold(p, init, AllWrites(members, k));
    MergeIsFold(p, init, AllWrites(other, k));
  }

  // --------------------------------------------------------------------------------------------
  // The results
  // --------------------------------------------------------------------------------------------

  /** A batch commits exactly when no ordinary key has two writers and every addition is defined;
      each key then holds its reference value. */
  lemma BatchCharacterised(p: Policy, st: State, members: seq<Member>)
    ensures var c := CommitBatch(p, st, members); var items := BatchItems(0, members);
            && (c.error.None? <==> AtMostOneWriter(p, members) && AddsDefined(p, st, items))
            && (AddsDefined(p, st, items) && c.error.Some? ==> c.error.value.Conflict?)
            && (AtMostOneWriter(p, members) && c.error.Some? ==> c.error.value.NotAddable?)
            && (c.error.None? ==> forall k :: Get(c.state, k) == Outcome(p, st, items, k))
  {
    CommitFailsIff(p, st, map[], BatchItems(0, members));
    ConflictFreeIff(p, members);
    var c := CommitBatch(p, st, members);
    if c.error.None? {
      forall k
        ensures Get(c.state, k) == Outcome(p, st, BatchItems(0, members), k)
      {
        CommitValue(p, st, map[], BatchItems(0, members), k);
      }
    }
  }

  lemma OrdinaryOutcomePermuted(p: Policy, st: State, members: seq<Member>, other: seq<Member>, k: Key)
    requires multiset(members) == multiset(other) && k !in p.autoMerge
    requires AtMostOneWriter(p, members)
    requires AddsDefined(p, st, BatchItems(0, members)) && AddsDefined(p, st, BatchItems(0, other))
    ensures Outcome(p, st, BatchItems(0, members), k) == Outcome(p, st, BatchItems(0, other), k)
  {
    hide AddsDefined;
    BatchWrites(0, members, k);
    BatchWrites(0, other, k);
    SoleWritesPermuted(members, other, k);
  }

  /** Whether two members clash, and what the ordinary fields of a committed batch hold, do not
      depend on the order of the members. */
  lemma OrdinaryFieldsPermuted(p: Policy, st: State, members: seq<Member>, other: seq<Member>)
    requires multiset(members) == multiset(other)
    ensures AtMostOneWriter(p, members) <==> AtMostOneWriter(p, other)
    ensures CommitBatch(p, st, members).error.None? && CommitBatch(p, st, other).error.None? ==>
              forall k :: k !in p.autoMerge ==>
                Get(CommitBatch(p, st, members).state, k) == Get(CommitBatch(p, st, other).state, k)
  {
    hide CommitBatch;
    hide AtMostOneWriter;
    hide AddsDefined;
    hide Outcome;
    AtMostOneWriterPermuted(p, members, other);
    BatchCharacterised(p, st, members);
    BatchCharacterised(p, st, other);
    if CommitBatch(p, st, members).error.None? && CommitBatch(p, st, other).error.None? {
      forall k | k !in p.autoMerge
        ensures Get(CommitBatch(p, st, members).state, k) == Get(CommitBatch(p, st, other).state, k)
      {
        OrdinaryOutcomePermuted(p, st, members, other, k);
      }
    }
  }

  /** With an associative and commutative addition, which may be undefined between some values, and no
      Reset, acceptance and the whole resulting state are independent of the order of the members. */
  lemma BatchPermuted(p: Policy, st: State, members: seq<Member>, other: seq<Member>)
    requires multiset(members) == multiset(other) && AssociativeCommutative(p)
    requires forall k :: k in p.autoMerge ==> PlainMembers(members, k)
    ensures CommitBatch(p, st, members).error.None? <==> CommitBatch(p, st, other).error.None?
    ensures CommitBatch(p, st, members).error.None? ==>
              CommitBatch(p, st, members).state == CommitBatch(p, st, other).state
  {
    OrdinaryFieldsPermuted(p, st, members, other);
    BatchCharacterised(p, st, members);
    BatchCharacterised(p, st, other);
    forall k | k in p.autoMerge
      ensures Addable(p, Get(st, k), WritesTo(BatchItems(0, members), k))
              <==> Addable(p, Get(st, k), WritesTo(BatchItems(0, other), k))
      ensures Addable(p, Get(st, k), WritesTo(BatchItems(0, members), k)) ==>
                Total(p, Get(st, k), WritesTo(BatchItems(0, members), k))
                == Total(p, Get(st, k), WritesTo(BatchItems(0, other), k))
    {
      BatchWrites(0, members, k);
      BatchWrites(0, other, k);
      MergePermuted(p, Get(st, k), members, other, k);
    }
    if CommitBatch(p, st, members).error.None? {
      SameState(CommitBatch(p, st, members).state, CommitBatch(p, st, other).state);
    }
  }

  lemma SameState(one: State, two: State)
    requires forall k :: Get(one, k) == Get(two, k)
    ensures one == two
  {
    forall k
      ensures k in one <==> k in two
      ensures k in one ==> one[k] == two[k]
    {
      assert Get(one, k) == Get(two, k);
    }
  }
}
