/** The next target of a batch, read off the commands themselves. */
module NextTargets {
  import opened Common
  import opened Batch
  import opened Targets
  import opened OrderedKeys

  /** The goto at that place names node n. */
  predicate Picks(members: seq<Member>, at: Place, n: Name) {
    && n != END && at.member < |members| && at.command < |members[at.member]|
    && match members[at.member][at.command].goto
       case None => false
       case Some(Single(name)) => at.position == 0 && name == n
       case Some(Listed(names)) => at.position < |names| && names[at.position] == n
  }

  ghost predicate Picked(members: seq<Member>, n: Name) {
    exists at :: Picks(members, at, n)
  }

  /** Some command's goto is a list with a node in it. */
  ghost predicate PickedByList(members: seq<Member>) {
    exists at, n :: Picks(members, at, n) && members[at.member][at.command].goto.value.Listed?
  }

  // --------------------------------------------------------------------------------------------
  // Places and positions in the collected names
  // --------------------------------------------------------------------------------------------

  function ListOf(goto: Option<Target>): seq<Name> {
    match goto
    case None => []
    case Some(target) => NamesOf(target)
  }

  /** How many names are collected before a place. */
  function Collected(members: seq<Member>, at: Place): nat
    requires at.member < |members| && at.command < |members[at.member]|
    requires at.position <= |ListOf(members[at.member][at.command].goto)|
  {
    |Selected(Gotos(members[..at.member]) + MemberGotos(members[at.member][..at.command]))|
    + |NonEnd(ListOf(members[at.member][at.command].goto)[..at.position])|
  }

  lemma GotoList(goto: Option<Target>)
    ensures GotoNames(goto) == NonEnd(ListOf(goto))
  {
  }

  lemma {:induction false} NonEndConcat(a: seq<Name>, b: seq<Name>)
    ensures NonEnd(a + b) == NonEnd(a) + NonEnd(b)
    decreases |b|
  {
    if b == [] {
      assert a + b == a;
    } else {
      assert (a + b)[..|a + b| - 1] == a + b[..|b| - 1];
      NonEndConcat(a, b[..|b| - 1]);
    }
  }

  lemma {:induction false} SelectedConcat(a: seq<Option<Target>>, b: seq<Option<Target>>)
    ensures Selected(a + b) == Selected(a) + Selected(b)
    decreases |b|
  {
    hide GotoNames;
    if b == [] {
      assert a + b == a;
    } else {
      var front, last := b[..|b| - 1], b[|b| - 1];
      assert (a + b)[..|a + b| - 1] == a + front && (a + b)[|a + b| - 1] == last;
      SelectedConcat(a, front);
      assert Selected(b) == Selected(front) + GotoNames(last);
    }
  }

  lemma {:induction false} MemberGotosConcat(a: Member, b: Member)
    ensures MemberGotos(a + b) == MemberGotos(a) + MemberGotos(b)
    decreases |b|
  {
    if b == [] {
      assert a + b == a;
    } else {
      assert (a + b)[..|a + b| - 1] == a + b[..|b| - 1];
      MemberGotosConcat(a, b[..|b| - 1]);
    }
  }

  lemma {:induction false} GotosConcat(a: seq<Member>, b: seq<Member>)
    ensures Gotos(a + b) == Gotos(a) + Gotos(b)
    decreases |b|
  {
    if b == [] {
      assert a + b == a;
    } else {
      assert (a + b)[..|a + b| - 1] == a + b[..|b| - 1];
      GotosConcat(a, b[..|b| - 1]);
    }
  }

  lemma OneCommand(command: Command)
    ensures MemberGotos([command]) == [command.goto] && Selected([command.goto]) == NonEnd(ListOf(command.goto))
  {
    GotoList(command.goto);
    assert [command][..0] == [] && [command.goto][..0] == [];
  }

  lemma OneMember(member: Member)
    ensures Gotos([member]) == MemberGotos(member)
  {
    assert [member][..0] == [];
  }

  /** The gotos split around one command. */
  lemma GotosAround(members: seq<Member>, i: nat, n: nat) returns (back: seq<Option<Target>>)
    requires i < |members| && n < |members[i]|
    ensures Gotos(members) == (Gotos(members[..i]) + MemberGotos(members[i][..n])) + ([members[i][n].goto] + back)
  {
    hide Gotos;
    hide MemberGotos;
    var m := members[i];
    back := MemberGotos(m[n + 1..]) + Gotos(members[i + 1..]);
    assert members == members[..i] + ([m] + members[i + 1..]) && m == m[..n] + ([m[n]] + m[n + 1..]);
    GotosConcat(members[..i], [m] + members[i + 1..]);
    GotosConcat([m], members[i + 1..]);
    OneMember(m);
    MemberGotosConcat(m[..n], [m[n]] + m[n + 1..]);
    MemberGotosConcat([m[n]], m[n + 1..]);
    OneCommand(m[n]);
  }

  /** The collected names split around one command. */
  lemma SelectedAround(members: seq<Member>, i: nat, n: nat) returns (after: seq<Name>)
    requires i < |members| && n < |members[i]|
    ensures Selected(Gotos(members)) ==
            Selected(Gotos(members[..i]) + MemberGotos(members[i][..n])) + (NonEnd(ListOf(members[i][n].goto)) + after)
  {
    hide Gotos;
    hide MemberGotos;
    hide Selected;
    var front, goto := Gotos(members[..i]) + MemberGotos(members[i][..n]), [members[i][n].goto];
    var back := GotosAround(members, i, n);
    SelectedConcat(front, goto + back);
    SelectedConcat(goto, back);
    OneCommand(members[i][n]);
    after := Selected(back);
  }

  lemma NonEndOne(n: Name)
    requires n != END
    ensures NonEnd([n]) == [n]
  {
    assert [n][..0] == [];
  }

  lemma NonEndSplit(names: seq<Name>, j: nat)
    requires j < |names| && names[j] != END
    ensures NonEnd(names) == NonEnd(names[..j]) + ([names[j]] + NonEnd(names[j + 1..]))
  {
    hide NonEnd;
    var n := names[j];
    assert names == names[..j] + ([n] + names[j + 1..]);
    NonEndConcat(names[..j], [n] + names[j + 1..]);
    NonEndConcat([n], names[j + 1..]);
    NonEndOne(n);
  }

  lemma PicksListed(members: seq<Member>, at: Place, n: Name)
    requires Picks(members, at, n)
    ensures n != END && at.member < |members| && at.command < |members[at.member]|
    ensures var names := ListOf(members[at.member][at.command].goto); at.position < |names| && names[at.position] == n
  {
  }

  /** A picked node is collected at its place's position. */
  lemma PickCollected(members: seq<Member>, at: Place, n: Name)
    requires Picks(members, at, n)
    ensures at.position < |ListOf(members[at.member][at.command].goto)|
    ensures Collected(members, at) < |Selected(Gotos(members))| && Selected(Gotos(members))[Collected(members, at)] == n
  {
    PicksListed(members, at, n);
    hide Picks;
    hide Gotos;
    hide MemberGotos;
    hide Selected;
    hide NonEnd;
    hide ListOf;
    var names := ListOf(members[at.member][at.command].goto);
    var after := SelectedAround(members, at.member, at.command);
    NonEndSplit(names, at.position);
  }

  lemma NonEndGrows(names: seq<Name>, j: nat, k: nat)
    requires j < k <= |names| && names[j] != END
    ensures |NonEnd(names[..j])| < |NonEnd(names[..k])|
  {
    assert names[..k][..j] == names[..j];
    NonEndSplit(names[..k], j);
  }

  /** Everything a command collects is collected before any later command. */
  lemma LaterCommand(members: seq<Member>, a: Place, b: Place)
    requires a.member < |members| && a.command < |members[a.member]|
    requires b.member < |members| && b.command < |members[b.member]|
    requires a.member < b.member || (a.member == b.member && a.command < b.command)
    ensures |Selected(Gotos(members[..a.member]) + MemberGotos(members[a.member][..a.command]))|
            + |NonEnd(ListOf(members[a.member][a.command].goto))|
            <= |Selected(Gotos(members[..b.member]) + MemberGotos(members[b.member][..b.command]))|
  {
    var x, y := members[a.member], members[b.member];
    if a.member == b.member {
      var part := members[..a.member] + [x[..b.command]];
      var after := SelectedAround(part, a.member, a.command);
      assert part[..a.member] == members[..a.member] && part[a.member][..a.command] == x[..a.command];
      LastMember(members[..a.member], x[..b.command]);
    } else {
      var part := members[..b.member] + [y[..b.command]];
      var after := SelectedAround(part, a.member, a.command);
      assert part[..a.member] == members[..a.member] && part[a.member] == x;
      LastMember(members[..b.member], y[..b.command]);
    }
  }

  lemma LastMember(front: seq<Member>, last: Member)
    ensures Gotos(front + [last]) == Gotos(front) + MemberGotos(last)
  {
    assert (front + [last])[..|front|] == front;
  }

  /** Earlier picks are collected earlier. */
  lemma CollectedInOrder(members: seq<Member>, a: Place, x: Name, b: Place, y: Name)
    requires Picks(members, a, x) && Picks(members, b, y) && Before(a, b)
    ensures a.position < |ListOf(members[a.member][a.command].goto)|
    ensures b.position < |ListOf(members[b.member][b.command].goto)|
    ensures Collected(members, a) < Collected(members, b)
  {
    PickCollected(members, a, x);
    PickCollected(members, b, y);
    var names := ListOf(members[a.member][a.command].goto);
    if a.member == b.member && a.command == b.command {
      NonEndGrows(names, a.position, b.position);
    } else {
      NonEndGrows(names, a.position, |names|);
      assert names[..|names|] == names;
      LaterCommand(members, a, b);
    }
  }

  /** Every collected name was picked somewhere. */
  lemma CollectedIsPicked(members: seq<Member>, n: Name)
    requires n in Selected(Gotos(members))
    ensures Picked(members, n)
  {
    hide Gotos;
    hide Selected;
    hide NonEnd;
    var goto := SelectedBy(Gotos(members), n);
    var i, k := GotoOf(members, goto);
    var names := ListOf(goto);
    GotoList(goto);
    assert n in NonEnd(names);
    var j :| 0 <= j < |names| && names[j] == n;
    assert Picks(members, Place(i, k, j), n);
  }

  lemma {:induction false} SelectedBy(gotos: seq<Option<Target>>, n: Name) returns (goto: Option<Target>)
    requires n in Selected(gotos)
    ensures goto in gotos && n in GotoNames(goto)
  {
    var last := |gotos| - 1;
    if n in GotoNames(gotos[last]) {
      goto := gotos[last];
    } else {
      goto := SelectedBy(gotos[..last], n);
    }
  }

  lemma {:induction false} GotoOf(members: seq<Member>, goto: Option<Target>) returns (i: nat, k: nat)
    requires goto in Gotos(members)
    ensures i < |members| && k < |members[i]| && members[i][k].goto == goto
  {
    var last := |members| - 1;
    if goto in MemberGotos(members[last]) {
      i := last;
      k := CommandOf(members[last], goto);
    } else {
      i, k := GotoOf(members[..last], goto);
    }
  }

  lemma {:induction false} CommandOf(member: Member, goto: Option<Target>) returns (k: nat)
    requires goto in MemberGotos(member)
    ensures k < |member| && member[k].goto == goto
  {
    var last := |member| - 1;
    if member[last].goto == goto {
      k := last;
    } else {
      k := CommandOf(member[..last], goto);
    }
  }

  /** The place at which a name was collected first. */
  lemma FirstPick(members: seq<Member>, n: Name) returns (at: Place)
    requires n in Selected(Gotos(members))
    ensures Picks(members, at, n)
    ensures forall b :: Picks(members, b, n) ==> b == at || Before(at, b)
    ensures at.position < |ListOf(members[at.member][at.command].goto)|
  {
    CollectedIsPicked(members, n);
    var first: Place :| Picks(members, first, n);
    PickCollected(members, first, n);
    at := EarliestPick(members, n, first);
    PickCollected(members, at, n);
  }

  lemma {:induction false} EarliestPick(members: seq<Member>, n: Name, found: Place) returns (at: Place)
    requires Picks(members, found, n)
    requires found.position <= |ListOf(members[found.member][found.command].goto)|
    ensures Picks(members, at, n)
    ensures forall b :: Picks(members, b, n) ==> b == at || Before(at, b)
    decreases Collected(members, found)
  {
    if earlier: Place :| Picks(members, earlier, n) && Before(earlier, found) {
      CollectedInOrder(members, earlier, n, found, n);
      at := EarliestPick(members, n, earlier);
    } else {
      at := found;
    }
  }

  lemma ByListIff(members: seq<Member>)
    ensures AnyBatch(Gotos(members)) <==> PickedByList(members)
  {
    if AnyBatch(Gotos(members)) {
      var g :| 0 <= g < |Gotos(members)| && SelectsBatch(Gotos(members)[g]);
      var goto := Gotos(members)[g];
      var i, k := GotoOf(members, goto);
      assert GotoNames(goto)[0] in goto.value.names;
      var j :| 0 <= j < |goto.value.names| && goto.value.names[j] == GotoNames(goto)[0];
      assert GotoNames(goto)[0] != END;
      assert Picks(members, Place(i, k, j), goto.value.names[j]);
    }
    if at, n :| Picks(members, at, n) && members[at.member][at.command].goto.value.Listed? {
      var goto := members[at.member][at.command].goto;
      assert n in GotoNames(goto);
      GotoListed(members, at.member, at.command);
      var g :| 0 <= g < |Gotos(members)| && Gotos(members)[g] == goto;
      assert SelectsBatch(Gotos(members)[g]);
    }
  }

  lemma GotoListed(members: seq<Member>, i: nat, n: nat)
    requires i < |members| && n < |members[i]|
    ensures members[i][n].goto in Gotos(members)
  {
    var back := GotosAround(members, i, n);
  }

  lemma PickedIff(members: seq<Member>, n: Name)
    ensures n in Selected(Gotos(members)) <==> Picked(members, n)
  {
    if n in Selected(Gotos(members)) {
      CollectedIsPicked(members, n);
    }
    if at :| Picks(members, at, n) {
      PickCollected(members, at, n);
    }
  }

  // --------------------------------------------------------------------------------------------
  // The results
  // --------------------------------------------------------------------------------------------

  /** Read off the commands: the next target names exactly the nodes that some goto names, each once.
      It is END exactly when there is none, and a list exactly when some goto is a list with a node in
      it or two different nodes are named. */
  lemma NextTargetShape(members: seq<Member>)
    ensures var target := NextTarget(members);
            && (target == Single(END) <==> forall n :: !Picked(members, n))
            && (target != Single(END) ==>
                  NoDuplicates(NamesOf(target)) && forall n :: n in NamesOf(target) <==> Picked(members, n))
            && (target.Listed? <==>
                  PickedByList(members) || exists m, n :: m != n && Picked(members, m) && Picked(members, n))
  {
    var gotos, target := Gotos(members), NextTarget(members);
    var all := Selected(gotos);
    NextTargetCharacterised(members);
    SelectedWithoutEnd(gotos);
    ByListIff(members);
    forall n
      ensures n in all <==> Picked(members, n)
    {
      PickedIff(members, n);
    }
    hide Picked;
    hide PickedByList;
    hide Selected;
    hide AnyBatch;
    hide NextTarget;
    if all == [] {
      assert target == Single(END);
    } else {
      assert all[0] in all && Picked(members, all[0]);
      var names := NamesOf(target);
      if |names| > 1 {
        assert names[0] != names[1] && Picked(members, names[0]) && Picked(members, names[1]);
      } else {
        assert |names| == 1;
        forall m, n | Picked(members, m) && Picked(members, n)
          ensures m == n
        {
          assert m in names && n in names;
        }
      }
    }
  }

  /** And in order of first naming: member by member, command by command, along each list. */
  lemma NextTargetOrder(members: seq<Member>, i: nat, j: nat)
    requires NextTarget(members) != Single(END) && i < j < |NamesOf(NextTarget(members))|
    ensures var names := NamesOf(NextTarget(members));
            exists at :: Picks(members, at, names[i]) && forall b :: Picks(members, b, names[j]) ==> Before(at, b)
  {
    NextTargetCharacterised(members);
    hide NextTarget;
    hide Gotos;
    hide Selected;
    hide AnyBatch;
    var names, all := NamesOf(NextTarget(members)), Selected(Gotos(members));
    var m, n := names[i], names[j];
    assert m in all && n in all && FirstIndex(all, m) < FirstIndex(all, n);
    var at := FirstPick(members, m);
    forall b | Picks(members, b, n)
      ensures Before(at, b)
    {
      PickCollected(members, b, n);
      IndexAfterFirst(all, n, Collected(members, b));
      var a := PickedBefore(members, b, m, FirstIndex(all, m));
    }
  }

  lemma IndexAfterFirst(names: seq<Name>, n: Name, k: nat)
    requires k < |names| && names[k] == n
    ensures FirstIndex(names, n) <= k
  {
    var first := FirstIndex(names, n);
    assert forall i :: 0 <= i < first ==> names[i] in names[..first];
  }

  /** What is collected before a place was picked before it. */
  lemma PickedBefore(members: seq<Member>, b: Place, n: Name, k: nat) returns (a: Place)
    requires b.member < |members| && b.command < |members[b.member]|
    requires b.position < |ListOf(members[b.member][b.command].goto)|
    requires k < Collected(members, b) && k < |Selected(Gotos(members))| && Selected(Gotos(members))[k] == n
    ensures Picks(members, a, n) && Before(a, b)
  {
    hide Gotos;
    hide MemberGotos;
    hide Selected;
    hide NonEnd;
    var m := members[b.member];
    var names := ListOf(m[b.command].goto);
    var last := Command([], Some(Listed(names[..b.position])));
    var cut := members[..b.member] + [m[..b.command] + [last]];
    CutCollects(members[..b.member], m[..b.command], last);
    var after := SelectedAround(members, b.member, b.command);
    NonEndPrefix(names, b.position);
    assert Selected(Gotos(cut))[k] == n;
    CollectedIsPicked(cut, n);
    a :| Picks(cut, a, n);
  }

  lemma CutCollects(front: seq<Member>, m: Member, last: Command)
    ensures Selected(Gotos(front + [m + [last]])) ==
            Selected(Gotos(front) + MemberGotos(m)) + NonEnd(ListOf(last.goto))
  {
    hide Gotos;
    hide MemberGotos;
    hide Selected;
    LastMember(front, m + [last]);
    MemberGotosConcat(m, [last]);
    OneCommand(last);
    assert Gotos(front) + (MemberGotos(m) + [last.goto]) == (Gotos(front) + MemberGotos(m)) + [last.goto];
    SelectedConcat(Gotos(front) + MemberGotos(m), [last.goto]);
  }

  lemma NonEndPrefix(names: seq<Name>, j: nat)
    requires j <= |names|
    ensures NonEnd(names[..j]) <= NonEnd(names)
  {
    hide NonEnd;
    assert names == names[..j] + names[j..];
    NonEndConcat(names[..j], names[j..]);
  }
}
