/** What a commit does, read off the commands themselves. */
module BatchPlaces {
  import opened Common
  import opened Batch

  /** The batch has a write at that place. */
  predicate IsWrite(members: seq<Member>, at: Place) {
    && at.member < |members| && at.command < |members[at.member]|
    && at.position < |members[at.member][at.command].update|
  }

  function WriteAt(members: seq<Member>, at: Place): (Key, Write)
    requires IsWrite(members, at)
  {
    members[at.member][at.command].update[at.position]
  }

  // --------------------------------------------------------------------------------------------
  // The items of a batch are its writes, in order
  // --------------------------------------------------------------------------------------------

  /** The places of one member's writes, from its command n on. */
  ghost predicate MemberListed(member: Member, n: nat, items: seq<Item>, i: nat, places: seq<Place>) {
    && |places| == |items|
    && (forall a :: 0 <= a < |places| ==>
          && places[a].member == i && n <= places[a].command < |member|
          && places[a].position < |member[places[a].command].update|
          && var write := member[places[a].command].update[places[a].position];
          items[a] == Item(i, write.0, write.1))
    && (forall a, b :: 0 <= a < b < |places| ==> Before(places[a], places[b]))
    && (forall at: Place :: at.member == i && n <= at.command < |member| && at.position < |member[at.command].update|
                            ==> at in places)
  }

  lemma {:induction false} UpdateListed(i: nat, n: nat, update: seq<(Key, Write)>, j: nat) returns (places: seq<Place>)
    requires j <= |update|
    ensures var items := UpdateItems(i, update[j..]);
            && |places| == |items| == |update| - j
            && forall a :: 0 <= a < |places| ==>
                 places[a] == Place(i, n, j + a) && items[a] == Item(i, update[j + a].0, update[j + a].1)
    decreases |update| - j
  {
    if j == |update| {
      places := [];
    } else {
      var rest := UpdateListed(i, n, update, j + 1);
      assert update[j..][1..] == update[j + 1..];
      places := [Place(i, n, j)] + rest;
    }
  }

  lemma {:induction false} MemberIsListed(i: nat, member: Member, n: nat) returns (places: seq<Place>)
    requires n <= |member|
    ensures MemberListed(member, n, MemberItems(i, member[n..]), i, places)
    decreases |member| - n
  {
    if n == |member| {
      places := [];
    } else {
      var rest := MemberIsListed(i, member, n + 1);
      var update := member[n].update;
      var own := UpdateListed(i, n, update, 0);
      assert update[0..] == update;
      assert member[n..][1..] == member[n + 1..];
      places := own + rest;
      JoinMember(i, member, n, own, rest);
    }
  }

  lemma JoinMember(i: nat, member: Member, n: nat, own: seq<Place>, rest: seq<Place>)
    requires n < |member| && |own| == |member[n].update| == |UpdateItems(i, member[n].update)|
    requires forall a :: 0 <= a < |own| ==>
               && own[a] == Place(i, n, a)
               && UpdateItems(i, member[n].update)[a] == Item(i, member[n].update[a].0, member[n].update[a].1)
    requires MemberListed(member, n + 1, MemberItems(i, member[n + 1..]), i, rest)
    ensures MemberListed(member, n, UpdateItems(i, member[n].update) + MemberItems(i, member[n + 1..]), i, own + rest)
  {
    hide UpdateItems;
    hide MemberItems;
    var places, items := own + rest, UpdateItems(i, member[n].update) + MemberItems(i, member[n + 1..]);
    forall a | 0 <= a < |places|
      ensures && places[a].member == i && n <= places[a].command < |member|
              && places[a].position < |member[places[a].command].update|
              && var write := member[places[a].command].update[places[a].position];
              items[a] == Item(i, write.0, write.1)
    {
      if a >= |own| {
        assert places[a] == rest[a - |own|] && items[a] == MemberItems(i, member[n + 1..])[a - |own|];
      }
    }
    forall a, b | 0 <= a < b < |places|
      ensures Before(places[a], places[b])
    {
      if a >= |own| {
        assert places[a] == rest[a - |own|] && places[b] == rest[b - |own|];
      } else if b >= |own| {
        assert places[b] == rest[b - |own|] && places[b].member == i && places[b].command > n;
      }
    }
    forall at: Place | at.member == i && n <= at.command < |member| && at.position < |member[at.command].update|
      ensures at in places
    {
      if at.command == n {
        assert places[at.position] == at;
      } else {
        assert at in rest;
      }
    }
  }

  ghost predicate Listed(members: seq<Member>, i: nat, items: seq<Item>, places: seq<Place>) {
    && |places| == |items|
    && (forall a :: 0 <= a < |places| ==>
          && IsWrite(members, places[a]) && i <= places[a].member
          && items[a] == Item(places[a].member, WriteAt(members, places[a]).0, WriteAt(members, places[a]).1))
    && (forall a, b :: 0 <= a < b < |places| ==> Before(places[a], places[b]))
    && (forall at :: IsWrite(members, at) && i <= at.member ==> at in places)
  }

  lemma {:induction false} BatchIsListed(members: seq<Member>, i: nat) returns (places: seq<Place>)
    requires i <= |members|
    ensures Listed(members, i, BatchItems(i, members[i..]), places)
    decreases |members| - i
  {
    if i == |members| {
      places := [];
    } else {
      var rest := BatchIsListed(members, i + 1);
      var own := MemberIsListed(i, members[i], 0);
      assert members[i][0..] == members[i];
      assert members[i..][1..] == members[i + 1..];
      places := own + rest;
      JoinBatch(members, i, own, rest);
    }
  }

  lemma JoinBatch(members: seq<Member>, i: nat, own: seq<Place>, rest: seq<Place>)
    requires i < |members| && MemberListed(members[i], 0, MemberItems(i, members[i]), i, own)
    requires Listed(members, i + 1, BatchItems(i + 1, members[i + 1..]), rest)
    ensures Listed(members, i, MemberItems(i, members[i]) + BatchItems(i + 1, members[i + 1..]), own + rest)
  {
    hide MemberItems;
    hide BatchItems;
    var first, more := MemberItems(i, members[i]), BatchItems(i + 1, members[i + 1..]);
    var places, items := own + rest, first + more;
    forall a | 0 <= a < |places|
      ensures && IsWrite(members, places[a]) && i <= places[a].member
              && items[a] == Item(places[a].member, WriteAt(members, places[a]).0, WriteAt(members, places[a]).1)
    {
      if a >= |own| {
        assert places[a] == rest[a - |own|] && items[a] == more[a - |own|];
      } else {
        assert places[a] == own[a] && items[a] == first[a];
      }
    }
    forall a, b | 0 <= a < b < |places|
      ensures Before(places[a], places[b])
    {
      if a >= |own| {
        assert places[a] == rest[a - |own|] && places[b] == rest[b - |own|];
      } else if b >= |own| {
        assert places[a] == own[a] && places[b] == rest[b - |own|];
      }
    }
    forall at | IsWrite(members, at) && i <= at.member
      ensures at in places
    {
      if at.member == i {
        assert at in own;
      } else {
        assert at in rest;
      }
    }
  }

  /** The commit works through exactly the writes of the batch, each once, tagged with its member, in
      member, command and dictionary order. */
  lemma ItemsAreWrites(members: seq<Member>) returns (places: seq<Place>)
    ensures var items := BatchItems(0, members);
            && |places| == |items|
            && (forall a :: 0 <= a < |places| ==>
                  && IsWrite(members, places[a])
                  && items[a] == Item(places[a].member, WriteAt(members, places[a]).0, WriteAt(members, places[a]).1))
            && (forall a, b :: 0 <= a < b < |places| ==> Before(places[a], places[b]))
            && (forall at :: IsWrite(members, at) ==> at in places)
  {
    assert members[0..] == members;
    places := BatchIsListed(members, 0);
  }

  // --------------------------------------------------------------------------------------------
  // What a committed batch holds
  // --------------------------------------------------------------------------------------------

  lemma {:induction false} LastItem(items: seq<Item>, k: Key) returns (a: int)
    ensures -1 <= a < |items| && (a < 0 <==> WritesTo(items, k) == [])
    ensures forall b :: a < b < |items| ==> items[b].key != k
    ensures a >= 0 ==>
              items[a].key == k && WritesTo(items, k)[|WritesTo(items, k)| - 1] == items[a].write
    decreases |items|
  {
    if items == [] {
      a := -1;
    } else {
      var rest := LastItem(items[1..], k);
      a := if rest >= 0 then rest + 1 else if items[0].key == k then 0 else -1;
      assert forall b :: 0 < b < |items| ==> items[b] == items[1..][b - 1];
    }
  }

  /** After a successful commit an ordinary field has the value of its last write, or its old value if
      the batch does not write it. */
  lemma LastWriteWins(p: Policy, st: State, members: seq<Member>, k: Key)
    requires CommitBatch(p, st, members).error.None? && k !in p.autoMerge
    ensures var value := Get(CommitBatch(p, st, members).state, k);
            || (value == Get(st, k) && forall at :: IsWrite(members, at) ==> WriteAt(members, at).0 != k)
            || exists at :: IsWrite(members, at) && WriteAt(members, at).0 == k
                            && value == Some(WriteAt(members, at).1.value)
                            && forall b :: IsWrite(members, b) && Before(at, b) ==> WriteAt(members, b).0 != k
  {
    hide AddsDefined;
    hide ApplyItems;
    hide BatchItems;
    hide WritesTo;
    var items := BatchItems(0, members);
    CommitValue(p, st, map[], items, k);
    var places := ItemsAreWrites(members);
    var a := LastItem(items, k);
    if a < 0 {
      forall at | IsWrite(members, at)
        ensures WriteAt(members, at).0 != k
      {
        var b :| 0 <= b < |places| && places[b] == at;
      }
    } else {
      var at := places[a];
      forall c | 0 <= c <= a
        ensures !Before(at, places[c])
      {
        assert c < a ==> Before(places[c], places[a]);
      }
      forall b | IsWrite(members, b) && Before(at, b)
        ensures WriteAt(members, b).0 != k
      {
        var c :| 0 <= c < |places| && places[c] == b;
        assert items[c].key != k;
      }
    }
  }

  /** One plain update of one field: an AutoMerge field that has a value gets it added to, which fails
      the commit where __add__ does; any other field is replaced. */
  lemma OneUpdate(p: Policy, st: State, k: Key, v: V, goto: Option<Target>)
    ensures var commit := CommitBatch(p, st, [[Command([(k, Put(v))], goto)]]);
            if k !in p.autoMerge || k !in st then commit == Commit(st[k := v], None)
            else
              match p.add(st[k], v)
              case Some(sum) => commit == Commit(st[k := sum], None)
              case None => commit == Commit(st, Some(NotAddable(k)))
  {
    OneItem(p, st, k, Put(v), goto);
  }

  /** A Reset replaces the value of any field. */
  lemma OneReset(p: Policy, st: State, k: Key, v: V, goto: Option<Target>)
    ensures CommitBatch(p, st, [[Command([(k, Reset(v))], goto)]]) == Commit(st[k := v], None)
  {
    OneItem(p, st, k, Reset(v), goto);
  }

  lemma OneItem(p: Policy, st: State, k: Key, w: Write, goto: Option<Target>)
    ensures CommitBatch(p, st, [[Command([(k, w)], goto)]]) == ApplyItems(p, st, map[], [Item(0, k, w)])
    ensures [Item(0, k, w)][1..] == []
  {
    var update := [(k, w)];
    var member: Member := [Command(update, goto)];
    assert update[1..] == [] && UpdateItems(0, update) == [Item(0, k, w)] + [];
    assert member[1..] == [] && MemberItems(0, member) == [Item(0, k, w)];
    assert [member][1..] == [] && BatchItems(0, [member]) == [Item(0, k, w)];
  }

  // --------------------------------------------------------------------------------------------
  // What a failed commit leaves
  // --------------------------------------------------------------------------------------------

  /** A failed commit leaves the live state as the writes before the failing one left it: they stay. */
  lemma {:induction false} FailedCommitStops(p: Policy, st: State, owner: map<Key, nat>, items: seq<Item>) returns (a: nat)
    requires ApplyItems(p, st, owner, items).error.Some?
    ensures a < |items| && ApplyItems(p, st, owner, items[..a]) == Commit(ApplyItems(p, st, owner, items).state, None)
    ensures ApplyItems(p, st, owner, items).error.value.key == items[a].key
    ensures ApplyItems(p, st, owner, items[..a + 1]) == ApplyItems(p, st, owner, items)
    decreases |items|
  {
    var item := items[0];
    if Clashes(p, owner, item) || WriteKey(p, st, item.key, item.write).None? {
      a := 0;
      assert items[..0] == [] && items[..1][0] == item;
    } else {
      var next := WriteKey(p, st, item.key, item.write).value;
      var rest := FailedCommitStops(p, next, Owning(p, owner, item), items[1..]);
      a := rest + 1;
      assert items[..a][1..] == items[1..][..rest] && items[..a][0] == item;
      assert items[..a + 1][1..] == items[1..][..rest + 1] && items[..a + 1][0] == item;
    }
  }
}
