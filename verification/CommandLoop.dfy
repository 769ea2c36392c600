/** The loops of apply_command.  They write the live state in place and keep two key sets and an
    ordered dictionary of targets; each is proved to do its share of ApplyItems and of the next
    target, stopping where ApplyItems stops. */
module CommandLoop {
  import opened Common
  import opened Batch
  import opened Targets
  import opened OrderedKeys
  import opened GraphContexts

  /** Keys written so far, and keys written so far by the current member i. */
  ghost predicate Tracks(owner: map<Key, nat>, i: nat, updated: set<Key>, current: set<Key>) {
    && owner.Keys == updated
    && (forall k :: k in owner ==> owner[k] <= i)
    && current == set k | k in owner && owner[k] == i
  }

  ghost predicate TracksEarlier(owner: map<Key, nat>, i: nat, updated: set<Key>) {
    owner.Keys == updated && forall k :: k in owner ==> owner[k] < i
  }

  lemma NextItem(p: Policy, st: State, owner: map<Key, nat>, i: nat, update: seq<(Key, Write)>, j: nat, rest: seq<Item>)
    requires j < |update|
    ensures var item := Item(i, update[j].0, update[j].1);
            ApplyItems(p, st, owner, UpdateItems(i, update[j..]) + rest) ==
            if Clashes(p, owner, item) then Commit(st, Some(Conflict(item.key)))
            else
              match WriteKey(p, st, item.key, item.write)
              case None => Commit(st, Some(NotAddable(item.key)))
              case Some(next) => ApplyItems(p, next, Owning(p, owner, item), UpdateItems(i, update[j + 1..]) + rest)
  {
    var item := Item(i, update[j].0, update[j].1);
    var items := UpdateItems(i, update[j..]) + rest;
    assert update[j..][1..] == update[j + 1..];
    assert items[0] == item && items[1..] == UpdateItems(i, update[j + 1..]) + rest;
  }

  method ApplyUpdate(
      p: Policy, context: GraphContext, ghost i: nat, update: seq<(Key, Write)>,
      updated0: set<Key>, current0: set<Key>, ghost owner0: map<Key, nat>, ghost rest: seq<Item>)
    returns (updated: set<Key>, current: set<Key>, error: Option<CommitError>, ghost owner: map<Key, nat>)
    requires Tracks(owner0, i, updated0, current0)
    modifies context`state
    ensures var done := ApplyItems(p, old(context.state), owner0, UpdateItems(i, update) + rest);
            if error.Some? then done == Commit(context.state, error)
            else done == ApplyItems(p, context.state, owner, rest) && Tracks(owner, i, updated, current)
  {
    updated, current, owner, error := updated0, current0, owner0, None;
    assert update[0..] == update;
    for j := 0 to |update|
      invariant error.None? && Tracks(owner, i, updated, current)
      invariant ApplyItems(p, old(context.state), owner0, UpdateItems(i, update) + rest) ==
                ApplyItems(p, context.state, owner, UpdateItems(i, update[j..]) + rest)
    {
      NextItem(p, context.state, owner, i, update, j, rest);
      var key, value := update[j].0, update[j].1;
      if key !in p.autoMerge {
        if key in updated && key !in current {
          error := Some(Conflict(key));
          return;
        }
        updated, current := updated + {key}, current + {key};
        owner := owner[key := i];
      }
      if value.Reset? {
        context.state := context.state[key := value.value];
      } else if key in p.autoMerge && key in context.state {
        var merged := p.add(context.state[key], value.value);
        if merged.None? {
          error := Some(NotAddable(key));
          return;
        }
        context.state := context.state[key := merged.value];
      } else {
        context.state := context.state[key := value.value];
      }
    }
    assert update[|update|..] == [];
    assert [] + rest == rest;
  }

  lemma SelectedMore(before: seq<Option<Target>>, goto: Option<Target>)
    ensures Selected(before + [goto]) == Selected(before) + GotoNames(goto)
    ensures AnyBatch(before + [goto]) <==> AnyBatch(before) || SelectsBatch(goto)
  {
    var after := before + [goto];
    assert after[..|after| - 1] == before;
    if SelectsBatch(goto) {
      assert SelectsBatch(after[|before|]);
    }
    if AnyBatch(before) {
      var i :| 0 <= i < |before| && SelectsBatch(before[i]);
      assert SelectsBatch(after[i]);
    }
  }

  lemma GotoRecorded(before: seq<Option<Target>>, goto: Option<Target>)
    ensures Distinct(Selected(before)) <= Distinct(Selected(before + [goto]))
    ensures forall n :: n in Distinct(Selected(before + [goto])) <==> n in Distinct(Selected(before)) || Names(goto, n)
    ensures SelectsBatch(goto) <==>
            goto.Some? && goto.value.Listed? && exists n :: n in goto.value.names && n != END
  {
    SelectedMore(before, goto);
    DistinctKeepsFirst(Selected(before));
    DistinctKeepsFirst(Selected(before + [goto]));
    DistinctGrows(Selected(before), GotoNames(goto));
    if SelectsBatch(goto) {
      assert GotoNames(goto)[0] in goto.value.names && GotoNames(goto)[0] != END;
    }
  }

  lemma {:induction false} DistinctGrows(names: seq<Name>, more: seq<Name>)
    ensures Distinct(names) <= Distinct(names + more)
    decreases |more|
  {
    if more == [] {
      assert names + more == names;
    } else {
      var front := more[..|more| - 1];
      assert (names + more)[..|names + more| - 1] == names + front;
      DistinctGrows(names, front);
    }
  }

  lemma InsertLast(names: seq<Name>, n: Name)
    ensures Distinct(names + [n]) == Insert(Distinct(names), n)
  {
    assert (names + [n])[..|names|] == names;
  }

  lemma RecordOne(all: seq<Name>, names: seq<Name>, j: nat)
    requires j < |names|
    ensures NonEnd(names[..j + 1]) == NonEnd(names[..j]) + if names[j] == END then [] else [names[j]]
    ensures Distinct(all + NonEnd(names[..j + 1])) ==
            if names[j] == END then Distinct(all + NonEnd(names[..j]))
            else Insert(Distinct(all + NonEnd(names[..j])), names[j])
  {
    var done := all + NonEnd(names[..j]);
    assert names[..j + 1][..j] == names[..j];
    InsertLast(done, names[j]);
    assert names[j] == END ==> all + NonEnd(names[..j + 1]) == done;
    assert names[j] != END ==> all + NonEnd(names[..j + 1]) == done + [names[j]];
  }

  /** Records the nodes of a list; `any` says whether there was one. */
  method RecordList(names: seq<Name>, targets0: seq<Name>, ghost all: seq<Name>)
    returns (targets: seq<Name>, any: bool)
    requires targets0 == Distinct(all)
    ensures targets == Distinct(all + NonEnd(names)) && (any <==> NonEnd(names) != [])
  {
    hide NonEnd;
    hide Distinct;
    targets, any := targets0, false;
    NothingRecorded(all, names);
    for j := 0 to |names|
      invariant targets == Distinct(all + NonEnd(names[..j]))
      invariant any <==> NonEnd(names[..j]) != []
    {
      RecordOne(all, names, j);
      if names[j] != END {
        any := true;
        targets := Insert(targets, names[j]);
      }
    }
    assert names[..|names|] == names;
  }

  lemma NothingRecorded(all: seq<Name>, names: seq<Name>)
    ensures NonEnd(names[..0]) == [] && all + NonEnd(names[..0]) == all
  {
  }

  /** Records one goto in the ordered targets: a list that selects a node makes the batch concurrent. */
  method RecordGoto(goto: Option<Target>, targets0: seq<Name>, concurrent0: bool, ghost before: seq<Option<Target>>)
    returns (targets: seq<Name>, concurrent: bool)
    requires targets0 == Distinct(Selected(before)) && concurrent0 == AnyBatch(before)
    ensures targets == Distinct(Selected(before + [goto])) && concurrent == AnyBatch(before + [goto])
    ensures targets0 <= targets && forall n :: n in targets <==> n in targets0 || Names(goto, n)
    ensures concurrent <==>
            concurrent0 || (goto.Some? && goto.value.Listed? && exists n :: n in goto.value.names && n != END)
  {
    hide NonEnd;
    hide Distinct;
    hide AnyBatch;
    hide Selected;
    targets, concurrent := targets0, concurrent0;
    SelectedMore(before, goto);
    GotoRecorded(before, goto);
    ghost var all := Selected(before);
    match goto
    case None => assert all + [] == all;
    case Some(Listed(names)) =>
      var any: bool;
      targets, any := RecordList(names, targets, all);
      concurrent := concurrent || any;
    case Some(Single(name)) =>
      RecordOne(all, [name], 0);
      NothingRecorded(all, [name]);
      assert [name][..1] == [name];
      if name != END {
        targets := Insert(targets, name);
      }
  }

  lemma NextUpdate(i: nat, member: Member, n: nat, rest: seq<Item>)
    requires n < |member|
    ensures MemberItems(i, member[n..]) + rest ==
            UpdateItems(i, member[n].update) + (MemberItems(i, member[n + 1..]) + rest)
  {
    assert member[n..][1..] == member[n + 1..];
  }

  lemma NextGoto(before: seq<Option<Target>>, member: Member, n: nat)
    requires n < |member|
    ensures before + MemberGotos(member[..n + 1]) == before + MemberGotos(member[..n]) + [member[n].goto]
  {
    assert member[..n + 1][..n] == member[..n];
  }

  method ApplyMember(
      p: Policy, context: GraphContext, ghost i: nat, member: Member, updated0: set<Key>, targets0: seq<Name>,
      concurrent0: bool, ghost owner0: map<Key, nat>, ghost rest: seq<Item>, ghost before: seq<Option<Target>>)
    returns (updated: set<Key>, targets: seq<Name>, concurrent: bool, error: Option<CommitError>,
             ghost owner: map<Key, nat>)
    requires TracksEarlier(owner0, i, updated0)
    requires targets0 == Distinct(Selected(before)) && concurrent0 == AnyBatch(before)
    modifies context`state
    ensures var done := ApplyItems(p, old(context.state), owner0, MemberItems(i, member) + rest);
            if error.Some? then done == Commit(context.state, error)
            else
              && done == ApplyItems(p, context.state, owner, rest) && TracksEarlier(owner, i + 1, updated)
              && targets == Distinct(Selected(before + MemberGotos(member)))
              && concurrent == AnyBatch(before + MemberGotos(member))
  {
    hide Distinct;
    hide Selected;
    hide AnyBatch;
    hide ApplyItems;
    updated, targets, concurrent, owner, error := updated0, targets0, concurrent0, owner0, None;
    var current: set<Key> := {};
    assert member[0..] == member && before + MemberGotos(member[..0]) == before;
    for n := 0 to |member|
      invariant error.None? && Tracks(owner, i, updated, current)
      invariant ApplyItems(p, old(context.state), owner0, MemberItems(i, member) + rest) ==
                ApplyItems(p, context.state, owner, MemberItems(i, member[n..]) + rest)
      invariant targets == Distinct(Selected(before + MemberGotos(member[..n])))
      invariant concurrent == AnyBatch(before + MemberGotos(member[..n]))
    {
      NextUpdate(i, member, n, rest);
      updated, current, error, owner :=
        ApplyUpdate(p, context, i, member[n].update, updated, current, owner, MemberItems(i, member[n + 1..]) + rest);
      if error.Some? {
        return;
      }
      NextGoto(before, member, n);
      targets, concurrent := RecordGoto(member[n].goto, targets, concurrent, before + MemberGotos(member[..n]));
    }
    assert member[|member|..] == [] && member[..|member|] == member;
    assert [] + rest == rest;
  }

  lemma NextMember(i: nat, members: seq<Member>)
    requires i < |members|
    ensures BatchItems(i, members[i..]) == MemberItems(i, members[i]) + BatchItems(i + 1, members[i + 1..])
    ensures Gotos(members[..i + 1]) == Gotos(members[..i]) + MemberGotos(members[i])
  {
    assert members[i..][1..] == members[i + 1..];
    assert members[..i + 1][..i] == members[..i];
  }

  /** The whole loop of apply_command: the live state ends as CommitBatch says, partial writes of a
      failed commit included, and a success yields the next target. */
  method ApplyMembers(p: Policy, context: GraphContext, members: seq<Member>)
    returns (error: Option<CommitError>, next: Target)
    modifies context`state
    ensures CommitBatch(p, old(context.state), members) == Commit(context.state, error)
    ensures error.None? ==> next == NextTarget(members)
  {
    var updated: set<Key>, targets: seq<Name>, concurrent := {}, [], false;
    ghost var owner: map<Key, nat> := map[];
    error, next := None, Single(END);
    assert members[0..] == members && members[..0] == [];
    for i := 0 to |members|
      invariant error.None? && TracksEarlier(owner, i, updated)
      invariant CommitBatch(p, old(context.state), members) ==
                ApplyItems(p, context.state, owner, BatchItems(i, members[i..]))
      invariant targets == Distinct(Selected(Gotos(members[..i])))
      invariant concurrent == AnyBatch(Gotos(members[..i]))
    {
      NextMember(i, members);
      updated, targets, concurrent, error, owner :=
        ApplyMember(p, context, i, members[i], updated, targets, concurrent, owner,
                    BatchItems(i + 1, members[i + 1..]), Gotos(members[..i]));
      if error.Some? {
        return;
      }
    }
    assert members[|members|..] == [] && members[..|members|] == members;
    if targets == [] {
      next := Single(END);
    } else if concurrent || |targets| > 1 {
      next := Listed(targets);
    } else {
      next := Single(targets[0]);
    }
  }
}
