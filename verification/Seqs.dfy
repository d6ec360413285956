/** Facts about sequences that several components need. */
module Seqs {
  ghost predicate NoDup<T>(s: seq<T>) {
    forall i, j :: 0 <= i < j < |s| ==> s[i] != s[j]
  }

  ghost predicate Rising(at: seq<nat>) {
    forall j, k :: 0 <= j < k < |at| ==> at[j] < at[k]
  }

  function Elems<T>(s: seq<T>): set<T> {
    set x | x in s
  }

  /** A sequence over a finite set that is longer than the set repeats an element. */
  lemma {:induction false} Pigeonhole<T>(s: seq<T>, u: set<T>) returns (i: nat, j: nat)
    requires forall x <- s :: x in u
    requires |s| > |u|
    ensures i < j < |s| && s[i] == s[j]
    decreases |s|
  {
    var last := s[|s| - 1];
    var front := s[..|s| - 1];
    if last in front {
      i :| 0 <= i < |front| && front[i] == last;
      j := |s| - 1;
    } else {
      forall x | x in front ensures x in u - {last} {
        assert x in s;
      }
      assert last in s;
      i, j := Pigeonhole(front, u - {last});
    }
  }

  lemma {:induction false} NoDupMultiset<T>(s: seq<T>)
    requires NoDup(s)
    ensures multiset(s) == multiset(Elems(s))
    decreases |s|
  {
    if s != [] {
      var front, last := s[..|s| - 1], s[|s| - 1];
      NoDupMultiset(front);
      assert s == front + [last];
      assert Elems(s) == Elems(front) + {last};
    }
  }
}
