/** Insertion-ordered dictionaries used as ordered sets of names. */
module OrderedKeys {

  /** Keys of an insertion-ordered dictionary filled with `names`. */
  function Distinct(names: seq<string>): seq<string> {
    if names == [] then []
    else Insert(Distinct(names[..|names| - 1]), names[|names| - 1])
  }

  function Insert(keys: seq<string>, n: string): seq<string> {
    if n in keys then keys else keys + [n]
  }

  ghost predicate NoDuplicates(names: seq<string>) {
    forall i, j :: 0 <= i < j < |names| ==> names[i] != names[j]
  }

  function FirstIndex(names: seq<string>, n: string): (i: nat)
    requires n in names
    ensures i < |names| && names[i] == n && n !in names[..i]
  {
    if names[0] == n then 0 else 1 + FirstIndex(names[1..], n)
  }

  lemma {:induction false} FirstIndexPrefix(names: seq<string>, more: seq<string>, n: string)
    requires n in names
    ensures n in names + more && FirstIndex(names + more, n) == FirstIndex(names, n)
    decreases |names|
  {
    if names[0] != n {
      assert (names + more)[1..] == names[1..] + more;
      FirstIndexPrefix(names[1..], more, n);
    }
  }

  lemma {:induction false} FirstIndexIs(names: seq<string>, i: nat, n: string)
    requires i < |names| && names[i] == n && n !in names[..i]
    ensures FirstIndex(names, n) == i
    decreases i
  {
    if i > 0 {
      assert names[0] == names[..i][0];
      assert names[1..][..i - 1] == names[..i][1..];
      FirstIndexIs(names[1..], i - 1, n);
    }
  }

  /** Distinct keeps each name once, in the order of first occurrence. */
  lemma {:induction false} DistinctKeepsFirst(names: seq<string>)
    ensures NoDuplicates(Distinct(names)) && (Distinct(names) == [] <==> names == [])
    ensures forall n :: n in Distinct(names) <==> n in names
    ensures forall i, j :: 0 <= i < j < |Distinct(names)| ==>
              FirstIndex(names, Distinct(names)[i]) < FirstIndex(names, Distinct(names)[j])
    decreases |names|
  {
    if names != [] {
      var front, last := names[..|names| - 1], names[|names| - 1];
      assert names == front + [last];
      DistinctKeepsFirst(front);
      forall n | n in front
        ensures FirstIndex(names, n) == FirstIndex(front, n) < |front|
      {
        FirstIndexPrefix(front, [last], n);
      }
      if last !in front {
        assert names[..|front|] == front;
        assert FirstIndex(names, last) == |front|;
      }
    }
  }

  lemma {:induction false} DistinctOfDistinct(names: seq<string>)
    requires NoDuplicates(names)
    ensures Distinct(names) == names
    decreases |names|
  {
    if names != [] {
      var front, last := names[..|names| - 1], names[|names| - 1];
      assert NoDuplicates(front) && last !in front;
      DistinctOfDistinct(front);
      assert Distinct(names) == Insert(front, last) == front + [last] == names;
    }
  }
}
