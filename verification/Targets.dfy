/** Where a batch goes next: collecting, normalising and budgeting targets. */
module Targets {
  import opened Common
  import opened Batch
  import opened OrderedKeys

  function NonEnd(names: seq<Name>): (r: seq<Name>)
    ensures forall n :: n in r <==> n in names && n != END
  {
    if names == [] then []
    else NonEnd(names[..|names| - 1]) + if names[|names| - 1] == END then [] else [names[|names| - 1]]
  }

  /** The nodes that one goto selects, in order. */
  function GotoNames(goto: Option<Target>): seq<Name> {
    match goto
    case None => []
    case Some(Single(n)) => NonEnd([n])
    case Some(Listed(ns)) => NonEnd(ns)
  }

  /** A list that selects at least one node keeps the concurrent shape. */
  predicate SelectsBatch(goto: Option<Target>) {
    goto.Some? && goto.value.Listed? && GotoNames(goto) != []
  }

  function Gotos(members: seq<Member>): seq<Option<Target>> {
    if members == [] then []
    else Gotos(members[..|members| - 1]) + MemberGotos(members[|members| - 1])
  }

  function MemberGotos(member: Member): seq<Option<Target>> {
    if member == [] then [] else MemberGotos(member[..|member| - 1]) + [member[|member| - 1].goto]
  }

  function Selected(gotos: seq<Option<Target>>): seq<Name> {
    if gotos == [] then [] else Selected(gotos[..|gotos| - 1]) + GotoNames(gotos[|gotos| - 1])
  }

  predicate AnyBatch(gotos: seq<Option<Target>>) {
    exists i :: 0 <= i < |gotos| && SelectsBatch(gotos[i])
  }

  predicate NothingSelected(gotos: seq<Option<Target>>) {
    forall i :: 0 <= i < |gotos| ==> GotoNames(gotos[i]) == []
  }

  function TargetOf(names: seq<Name>, concurrent: bool): Target {
    if names == [] then Single(END)
    else if concurrent || |names| > 1 then Listed(names)
    else Single(names[0])
  }

  function NextTarget(members: seq<Member>): Target {
    TargetOf(Distinct(Selected(Gotos(members))), AnyBatch(Gotos(members)))
  }

  datatype TargetError = UnknownNode | OutOfSteps
  datatype Checked = Ok(target: Target) | Rejected(error: TargetError)

  function Normalise(nodes: set<Name>, target: Option<Target>): Checked {
    match target
    case None => Ok(Single(END))
    case Some(Single(n)) => if n == END || n in nodes then Ok(Single(n)) else Rejected(UnknownNode)
    case Some(Listed(ns)) =>
      var names := Distinct(NonEnd(ns));
      if names == [] then Ok(Single(END))
      else if forall n :: n in names ==> n in nodes then Ok(Listed(names))
      else Rejected(UnknownNode)
  }

  function Validate(nodes: set<Name>, maxSteps: int, target: Option<Target>, steps: nat): Checked {
    var checked := Normalise(nodes, target);
    if checked.Ok? && checked.target != Single(END) && steps >= maxSteps then Rejected(OutOfSteps) else checked
  }

  function NamesOf(target: Target): seq<Name> {
    match target
    case Single(n) => [n]
    case Listed(ns) => ns
  }

  // --------------------------------------------------------------------------------------------

  lemma {:induction false} NonEndOfNonEnd(names: seq<Name>)
    requires END !in names
    ensures NonEnd(names) == names
    decreases |names|
  {
    if names != [] {
      NonEndOfNonEnd(names[..|names| - 1]);
      assert names == names[..|names| - 1] + [names[|names| - 1]];
    }
  }

  lemma {:induction false} SelectedWithoutEnd(gotos: seq<Option<Target>>)
    ensures END !in Selected(gotos)
    ensures AnyBatch(gotos) ==> Selected(gotos) != []
    ensures Selected(gotos) == [] <==> NothingSelected(gotos)
    decreases |gotos|
  {
    if gotos != [] {
      hide GotoNames;
      var front, last := gotos[..|gotos| - 1], gotos[|gotos| - 1];
      SelectedWithoutEnd(front);
      GotoWithoutEnd(last);
      assert gotos == front + [last];
      assert AnyBatch(gotos) ==> AnyBatch(front) || SelectsBatch(last);
      assert NothingSelected(gotos) <==> NothingSelected(front) && GotoNames(last) == [];
    }
  }

  lemma GotoWithoutEnd(goto: Option<Target>)
    ensures END !in GotoNames(goto)
  {
  }

  lemma TargetOfCharacterised(all: seq<Name>, concurrent: bool)
    requires END !in all && (concurrent ==> all != [])
    ensures var target := TargetOf(Distinct(all), concurrent);
            && (target == Single(END) <==> all == [])
            && (target != Single(END) ==>
                  NamesOf(target) == Distinct(all) && (target.Single? <==> |Distinct(all)| == 1 && !concurrent))
  {
    DistinctKeepsFirst(all);
    if all != [] {
      assert Distinct(all)[0] in all;
    }
  }

  /** The next target is END exactly when no command selects a node.  Otherwise it names every
      selected node once, in order of first selection, as a bare name exactly when there is only one
      and no list selected it. */
  lemma NextTargetCharacterised(members: seq<Member>)
    ensures var gotos := Gotos(members); var target := NextTarget(members); var all := Selected(gotos);
            && (target == Single(END) <==> NothingSelected(gotos))
            && (target != Single(END) ==>
                  var names := NamesOf(target);
                  && NoDuplicates(names) && (forall n :: n in names <==> n in all)
                  && (forall i, j :: 0 <= i < j < |names| ==> FirstIndex(all, names[i]) < FirstIndex(all, names[j]))
                  && (target.Single? <==> |names| == 1 && !AnyBatch(gotos)))
  {
    var gotos := Gotos(members);
    SelectedWithoutEnd(gotos);
    TargetOfCharacterised(Selected(gotos), AnyBatch(gotos));
    DistinctKeepsFirst(Selected(gotos));
  }

  /** A target names a node. */
  predicate Names(target: Option<Target>, n: Name) {
    n != END && target.Some? && (target.value == Single(n) || (target.value.Listed? && n in target.value.names))
  }

  /** A target is rejected as unknown exactly when it names a node that the graph lacks.  Otherwise it
      becomes END exactly when it names no node, and else keeps its shape and the nodes it names, each
      once in order of first occurrence. */
  lemma NormaliseIff(nodes: set<Name>, target: Option<Target>)
    ensures var checked := Normalise(nodes, target);
            && (checked.Rejected? <==> exists n :: Names(target, n) && n !in nodes)
            && (checked.Rejected? ==> checked.error.UnknownNode?)
            && (checked.Ok? ==>
                  && (checked.target == Single(END) <==> forall n :: !Names(target, n))
                  && (checked.target != Single(END) ==>
                        && (checked.target.Single? <==> target.value.Single?) && NoDuplicates(NamesOf(checked.target))
                        && forall n :: n in NamesOf(checked.target) <==> Names(target, n)))
  {
    if target.Some? && target.value.Listed? {
      var names := target.value.names;
      DistinctKeepsFirst(NonEnd(names));
      forall n
        ensures n in Distinct(NonEnd(names)) <==> Names(target, n)
      {
      }
      if Distinct(NonEnd(names)) != [] {
        assert Names(target, Distinct(NonEnd(names))[0]);
      }
    } else if target.Some? {
      assert forall n :: Names(target, n) ==> n == target.value.name;
      assert target.value.name != END ==> Names(target, target.value.name);
    }
  }

  lemma {:induction false} NonEndOrder(names: seq<Name>, m: Name, n: Name)
    requires m in NonEnd(names) && n in NonEnd(names)
    ensures FirstIndex(NonEnd(names), m) < FirstIndex(NonEnd(names), n) <==> FirstIndex(names, m) < FirstIndex(names, n)
    decreases |names|
  {
    var front, last := names[..|names| - 1], names[|names| - 1];
    assert names == front + [last];
    FirstIn(front, last, m);
    FirstIn(front, last, n);
    if m in front && n in front {
      NonEndOrder(front, m, n);
    }
  }

  /** Where a name stands first, when one more name is appended. */
  lemma FirstIn(front: seq<Name>, last: Name, n: Name)
    requires n in front + [last] && n != END
    ensures var before, more := NonEnd(front), NonEnd(front + [last]);
            && n in more
            && (n in front ==>
                  && FirstIndex(front + [last], n) == FirstIndex(front, n) < |front|
                  && FirstIndex(more, n) == FirstIndex(before, n) < |before|)
            && (n !in front ==> FirstIndex(front + [last], n) == |front| && FirstIndex(more, n) == |before|)
  {
    var before, more := NonEnd(front), NonEnd(front + [last]);
    assert (front + [last])[..|front|] == front;
    if n in front {
      FirstIndexPrefix(front, [last], n);
      FirstIndexPrefix(before, if last == END then [] else [last], n);
      assert before + [] == before;
    } else {
      assert n == last && more == before + [n];
      FirstIndexLast(front, n);
      FirstIndexLast(before, n);
    }
  }

  lemma FirstIndexLast(names: seq<Name>, n: Name)
    requires n !in names
    ensures FirstIndex(names + [n], n) == |names|
  {
    assert (names + [n])[..|names|] == names;
    FirstIndexIs(names + [n], |names|, n);
  }

  /** The order in which a normalised list names its nodes is that of the list. */
  lemma NormaliseOrder(nodes: set<Name>, names: seq<Name>, i: nat, j: nat)
    requires Normalise(nodes, Some(Listed(names))).Ok?
    requires i < j < |NamesOf(Normalise(nodes, Some(Listed(names))).target)|
    ensures var kept := NamesOf(Normalise(nodes, Some(Listed(names))).target);
            kept[i] in names && kept[j] in names && FirstIndex(names, kept[i]) < FirstIndex(names, kept[j])
  {
    var kept := NamesOf(Normalise(nodes, Some(Listed(names))).target);
    DistinctKeepsFirst(NonEnd(names));
    assert kept == Distinct(NonEnd(names));
    assert kept[i] in NonEnd(names) && kept[j] in NonEnd(names);
    NonEndOrder(names, kept[i], kept[j]);
  }

  /** Budget: END may always be the target, any other one only while fewer than max_steps batches have
      been committed. */
  lemma ValidateIff(nodes: set<Name>, maxSteps: int, target: Option<Target>, steps: nat)
    ensures var checked := Validate(nodes, maxSteps, target, steps);
            var unknown, selects := exists n :: Names(target, n) && n !in nodes, exists n :: Names(target, n);
            && (checked == Rejected(UnknownNode) <==> unknown)
            && (checked == Rejected(OutOfSteps) <==> !unknown && selects && steps >= maxSteps)
            && (checked.Ok? ==> checked == Normalise(nodes, target))
  {
    NormaliseIff(nodes, target);
  }

  /** Normalising is idempotent, and leaves the next target of a batch as it is unless it names an
      unknown node. */
  lemma NormaliseIdempotent(nodes: set<Name>, target: Option<Target>)
    requires Normalise(nodes, target).Ok?
    ensures Normalise(nodes, Some(Normalise(nodes, target).target)) == Normalise(nodes, target)
  {
    if target.Some? && target.value.Listed? {
      var names := Distinct(NonEnd(target.value.names));
      DistinctKeepsFirst(NonEnd(target.value.names));
      NonEndOfNonEnd(names);
      DistinctOfDistinct(names);
    }
  }

  lemma NextTargetNormal(nodes: set<Name>, members: seq<Member>)
    ensures var target := NextTarget(members);
            Normalise(nodes, Some(target)) ==
            if forall n :: n in Selected(Gotos(members)) ==> n in nodes then Ok(target) else Rejected(UnknownNode)
  {
    var all := Selected(Gotos(members));
    var names := Distinct(all);
    SelectedWithoutEnd(Gotos(members));
    DistinctKeepsFirst(all);
    NonEndOfNonEnd(names);
    DistinctOfDistinct(names);
    if names != [] {
      assert names[0] in all;
    }
  }
}
