/** The bounded memory of reply ids that keeps a self-resent reply from being handled twice. */
module Dedup {
  import opened Messages
  import opened Seqs

  /** `capacity.max(1)` */
  ghost function AtLeastOne(capacity: nat): nat {
    if capacity == 0 then 1 else capacity
  }

  ghost function LastOf<T>(s: seq<T>, n: nat): (r: seq<T>)
    ensures |r| == if |s| <= n then |s| else n
  {
    if |s| <= n then s else s[|s| - n..]
  }

  /** `c` is among the last `n` entries of `r`. */
  ghost predicate Recent(r: seq<Uuid>, n: nat, c: Uuid) {
    exists i :: 0 <= i < |r| && |r| <= i + n && r[i] == c
  }

  /** The ids recorded while looking up `cids` one after another in an empty memory. */
  ghost function Recorded(cids: seq<Uuid>, capacity: nat): seq<Uuid> {
    if cids == [] then []
    else
      var before, c := Recorded(cids[..|cids| - 1], capacity), cids[|cids| - 1];
      if Recent(before, AtLeastOne(capacity), c) then before else before + [c]
  }

  /** Whether the lookup of `cids[k]` passes, that is, records its id. */
  ghost predicate Passes(cids: seq<Uuid>, capacity: nat, k: nat)
    requires k < |cids|
  {
    !Recent(Recorded(cids[..k], capacity), AtLeastOne(capacity), cids[k])
  }

  lemma RecordSnoc(cids: seq<Uuid>, capacity: nat, c: Uuid)
    ensures Passes(cids + [c], capacity, |cids|) <==> !Recent(Recorded(cids, capacity), AtLeastOne(capacity), c)
    ensures Recorded(cids + [c], capacity) ==
            Recorded(cids, capacity) + if Passes(cids + [c], capacity, |cids|) then [c] else []
  {
    assert (cids + [c])[..|cids|] == cids;
  }

  lemma RecentIsInLast(r: seq<Uuid>, n: nat, c: Uuid)
    ensures Recent(r, n, c) <==> c in LastOf(r, n)
  {
    var last := LastOf(r, n);
    assert forall i :: 0 <= i < |last| ==> last[i] == r[|r| - |last| + i];
    if Recent(r, n, c) {
      var i :| 0 <= i < |r| && |r| <= i + n && r[i] == c;
      assert last[i - (|r| - |last|)] == c;
    }
  }

  lemma LastOfSnoc<T>(s: seq<T>, n: nat, x: T)
    requires n > 0
    ensures LastOf(s + [x], n) == (if |LastOf(s, n)| == n then LastOf(s, n)[1..] else LastOf(s, n)) + [x]
  {
  }

  class InboundDedupCache {
    const capacity: nat
    /** Least recently recorded first: a lookup that hits does not move its entry. */
    var entries: seq<Uuid>
    ghost var calls: seq<Uuid>

    ghost predicate Valid()
      reads this
    {
      && capacity > 0 && NoDup(entries) && |entries| <= capacity
      && entries == LastOf(Recorded(calls, capacity), capacity)
    }

    constructor (capacity: nat)
      ensures Valid() && calls == [] && entries == [] && this.capacity == AtLeastOne(capacity)
    {
      this.capacity := if capacity < 1 then 1 else capacity;
      entries, calls := [], [];
    }

    /** True exactly when the id is among the last `capacity` recorded; otherwise records it. */
    method CheckAndRecord(cid: Uuid) returns (duplicate: bool)
      requires Valid()
      modifies this
      ensures Valid() && calls == old(calls) + [cid]
      ensures duplicate <==> Recent(Recorded(old(calls), capacity), capacity, cid)
      ensures duplicate <==> !Passes(calls, capacity, |calls| - 1)
      ensures duplicate ==> entries == old(entries)
    {
      RecordSnoc(calls, capacity, cid);
      LastOfSnoc(Recorded(calls, capacity), capacity, cid);
      RecentIsInLast(Recorded(calls, capacity), capacity, cid);
      calls := calls + [cid];
      if cid in entries {
        return true;
      }
      if |entries| == capacity {
        entries := entries[1..];
      }
      entries := entries + [cid];
      return false;
    }
  }

  /** Equal entries are more than `n` apart. */
  ghost predicate FarApart(r: seq<Uuid>, n: nat) {
    forall i, j :: 0 <= i < j < |r| && r[i] == r[j] ==> j - i > n
  }

  lemma {:induction false} RecordedFarApart(cids: seq<Uuid>, capacity: nat)
    ensures FarApart(Recorded(cids, capacity), AtLeastOne(capacity))
    decreases |cids|
  {
    if cids != [] {
      var front, c := cids[..|cids| - 1], cids[|cids| - 1];
      var before := Recorded(front, capacity);
      RecordedFarApart(front, capacity);
    }
  }

  lemma {:induction false} RecordedGrows(cids: seq<Uuid>, capacity: nat, n: nat)
    requires n <= |cids|
    ensures Recorded(cids[..n], capacity) <= Recorded(cids, capacity)
    decreases |cids|
  {
    if n < |cids| {
      RecordedGrows(cids[..|cids| - 1], capacity, n);
      assert cids[..|cids| - 1][..n] == cids[..n];
    } else {
      assert cids[..n] == cids;
    }
  }

  lemma LaterExtends(cids: seq<Uuid>, capacity: nat, m: nat, n: nat)
    requires m <= n <= |cids|
    ensures Recorded(cids[..m], capacity) <= Recorded(cids[..n], capacity)
  {
    RecordedGrows(cids[..n], capacity, m);
    assert cids[..n][..m] == cids[..m];
  }

  /** A passing lookup appends its id at the position that counts the passes before it. */
  lemma PassRecords(cids: seq<Uuid>, capacity: nat, k: nat)
    requires k < |cids| && Passes(cids, capacity, k)
    ensures Recorded(cids[..k + 1], capacity) == Recorded(cids[..k], capacity) + [cids[k]]
  {
    assert cids[..k + 1][..k] == cids[..k];
  }

  /** Between two equal entries, the first `n` are pairwise different and different from them. */
  lemma WindowDistinct(r: seq<Uuid>, n: nat, first: seq<Uuid>, c: Uuid, between: seq<Uuid>)
    requires FarApart(r, n) && r == first + [c] + between + [c]
    ensures |between| >= n && NoDup(between[..n]) && c !in between[..n]
  {
    var i := |first|;
    assert r[i] == c && r[i + 1 + |between|] == c;
    assert forall k :: 0 <= k < |between| ==> between[k] == r[i + 1 + k];
  }

  /**
   * Two passes for one id have at least `max(1, capacity)` passes between them, the first that many for
   * pairwise different ids, all different from this one. `between` is their list.
   */
  lemma PassesFarApart(cids: seq<Uuid>, capacity: nat, a: nat, b: nat) returns (between: seq<Uuid>)
    requires a < b < |cids| && cids[a] == cids[b] && Passes(cids, capacity, a) && Passes(cids, capacity, b)
    ensures Recorded(cids[..b], capacity) == Recorded(cids[..a], capacity) + [cids[a]] + between
    ensures |between| >= AtLeastOne(capacity)
    ensures NoDup(between[..AtLeastOne(capacity)]) && cids[a] !in between[..AtLeastOne(capacity)]
  {
    between := SecondPass(cids, capacity, a, b);
    RecordedFarApart(cids[..b + 1], capacity);
    WindowDistinct(Recorded(cids[..b + 1], capacity), AtLeastOne(capacity), Recorded(cids[..a], capacity), cids[a],
        between);
  }

  lemma SecondPass(cids: seq<Uuid>, capacity: nat, a: nat, b: nat) returns (between: seq<Uuid>)
    requires a < b < |cids| && Passes(cids, capacity, a) && Passes(cids, capacity, b)
    ensures Recorded(cids[..b], capacity) == Recorded(cids[..a], capacity) + [cids[a]] + between
    ensures Recorded(cids[..b + 1], capacity) == Recorded(cids[..a], capacity) + [cids[a]] + between + [cids[b]]
  {
    PassRecords(cids, capacity, a);
    PassRecords(cids, capacity, b);
    LaterExtends(cids, capacity, a + 1, b);
    between := Recorded(cids[..b], capacity)[|Recorded(cids[..a], capacity)| + 1..];
  }

  /** A hit does not refresh: with two slots, looking `x` up again does not save it from the next id. */
  lemma HitDoesNotRefresh(x: Uuid, y: Uuid, z: Uuid)
    requires x != y && y != z && x != z
    ensures !Passes([x, y, x], 2, 2) && Passes([x, y, x, z, x], 2, 4)
  {
    RecordSnoc([], 2, x);
    assert [] + [x] == [x];
    RecordSnoc([x], 2, y);
    assert [x] + [y] == [x, y];
    RecordSnoc([x, y], 2, x);
    assert [x, y] + [x] == [x, y, x];
    RecordSnoc([x, y, x], 2, z);
    assert [x, y, x] + [z] == [x, y, x, z];
    RecordSnoc([x, y, x, z], 2, x);
    assert [x, y, x, z] + [x] == [x, y, x, z, x];
  }
}
