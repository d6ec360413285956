/**
 * The calls of one tool call set as a graph: `blocked_by` edges point from a call to the calls
 * it waits for. Everything the executor promises is phrased with the notions defined here, none
 * of which mentions how the executor computes them.
 */
module Dag {
  import opened Wrappers
  import opened Seqs

  datatype ToolCallItem = ToolCallItem(
    id: string,
    tool: string,
    params: Json,
    blockedBy: seq<string>,
    blocking: seq<string>)

  function Ids(calls: seq<ToolCallItem>): set<string> {
    set c | c in calls :: c.id
  }

  ghost predicate DistinctIds(calls: seq<ToolCallItem>) {
    forall i, j :: 0 <= i < j < |calls| ==> calls[i].id != calls[j].id
  }

  /** The first call with this id, as `calls.iter().find(..)` picks it. */
  function Find(calls: seq<ToolCallItem>, id: string): (r: Option<ToolCallItem>)
    ensures r.Some? <==> id in Ids(calls)
    ensures r.Some? ==> r.value in calls && r.value.id == id
  {
    if calls == [] then None
    else if calls[0].id == id then Some(calls[0])
    else
      assert calls == [calls[0]] + calls[1..];
      Find(calls[1..], id)
  }

  /** The first call with this id is at `i`. */
  ghost predicate FirstWith(calls: seq<ToolCallItem>, id: string, i: nat) {
    i < |calls| && calls[i].id == id && forall j :: 0 <= j < i ==> calls[j].id != id
  }

  lemma {:induction false} FindIsFirst(calls: seq<ToolCallItem>, id: string) returns (i: nat)
    requires id in Ids(calls)
    ensures FirstWith(calls, id, i) && Find(calls, id) == Some(calls[i])
    decreases |calls|
  {
    if calls[0].id == id {
      i := 0;
    } else {
      assert calls == [calls[0]] + calls[1..];
      var k := FindIsFirst(calls[1..], id);
      i := k + 1;
      assert forall j :: 0 < j < i ==> calls[j] == calls[1..][j - 1];
    }
  }

  lemma {:induction false} FindDistinct(calls: seq<ToolCallItem>, i: nat)
    requires DistinctIds(calls) && i < |calls|
    ensures Find(calls, calls[i].id) == Some(calls[i])
    decreases |calls|
  {
    if i > 0 {
      FindDistinct(calls[1..], i - 1);
    }
  }

  ghost function Blockers(calls: seq<ToolCallItem>, id: string): seq<string> {
    match Find(calls, id)
    case Some(c) => c.blockedBy
    case None => []
  }

  function Blocks(calls: seq<ToolCallItem>, id: string): seq<string> {
    match Find(calls, id)
    case Some(c) => c.blocking
    case None => []
  }

  /** Every `blocked_by` entry names a call of the set. */
  ghost predicate KnownBlockers(calls: seq<ToolCallItem>) {
    forall c <- calls :: forall d <- c.blockedBy :: d in Ids(calls)
  }

  /** A nonempty walk along `blocked_by`, each element waiting for the next. */
  ghost predicate IsChain(calls: seq<ToolCallItem>, p: seq<string>) {
    && |p| > 0
    && forall i :: 0 <= i < |p| - 1 ==> p[i + 1] in Blockers(calls, p[i])
  }

  ghost predicate IsCycle(calls: seq<ToolCallItem>, p: seq<string>) {
    IsChain(calls, p) && |p| > 1 && p[0] == p[|p| - 1]
  }

  ghost predicate HasCycle(calls: seq<ToolCallItem>) {
    exists p :: IsCycle(calls, p)
  }

  ghost predicate WellFormed(calls: seq<ToolCallItem>) {
    DistinctIds(calls) && KnownBlockers(calls) && !HasCycle(calls)
  }

  /** Every element's blockers stand strictly before it. */
  ghost predicate IsTopological(calls: seq<ToolCallItem>, order: seq<string>) {
    forall i :: 0 <= i < |order| ==> forall d <- Blockers(calls, order[i]) :: d in order[..i]
  }

  lemma {:induction false} KnownBlockersOf(calls: seq<ToolCallItem>, id: string)
    requires KnownBlockers(calls)
    ensures forall d <- Blockers(calls, id) :: d in Ids(calls)
  {
  }

  lemma {:induction false} ChainStaysInside(calls: seq<ToolCallItem>, p: seq<string>, k: nat)
    requires KnownBlockers(calls) && IsChain(calls, p) && p[0] in Ids(calls) && k < |p|
    ensures p[k] in Ids(calls)
    decreases k
  {
    if k > 0 {
      ChainStaysInside(calls, p, k - 1);
      KnownBlockersOf(calls, p[k - 1]);
    }
  }

  /** First position of an element. */
  ghost function IndexOf(order: seq<string>, x: string): (r: nat)
    requires x in order
    ensures r < |order| && order[r] == x
    ensures forall j :: 0 <= j < |order| && order[j] == x ==> r <= j
  {
    if order[0] == x then 0
    else
      assert order == [order[0]] + order[1..];
      IndexOf(order[1..], x) + 1
  }

  lemma {:induction false} BlockerIsEarlier(calls: seq<ToolCallItem>, order: seq<string>, x: string, d: string)
    requires IsTopological(calls, order) && x in order && d in Blockers(calls, x)
    ensures d in order && IndexOf(order, d) < IndexOf(order, x)
  {
    var i := IndexOf(order, x);
    assert d in order[..i];
    var j :| 0 <= j < i && order[j] == d;
  }

  lemma {:induction false} ChainDescends(calls: seq<ToolCallItem>, order: seq<string>, p: seq<string>, k: nat)
    requires IsTopological(calls, order) && IsChain(calls, p) && p[0] in order && k < |p|
    ensures p[k] in order && IndexOf(order, p[k]) + k <= IndexOf(order, p[0])
    decreases k
  {
    if k > 0 {
      ChainDescends(calls, order, p, k - 1);
      BlockerIsEarlier(calls, order, p[k - 1], p[k]);
    }
  }

  /** A topological order of all ids leaves no room for a cycle. */
  lemma {:induction false} TopologicalMeansAcyclic(calls: seq<ToolCallItem>, order: seq<string>)
    requires IsTopological(calls, order) && Ids(calls) <= Elems(order)
    ensures !HasCycle(calls)
  {
    if HasCycle(calls) {
      var p :| IsCycle(calls, p);
      assert p[1] in Blockers(calls, p[0]);
      assert p[0] in Ids(calls);
      ChainDescends(calls, order, p, |p| - 1);
      assert false;
    }
  }

  // ── Layers ──────────────────────────────────────────────────────────

  /** Ids that need at most `k` rounds: all their blockers need at most `k - 1`. */
  ghost function Settled(calls: seq<ToolCallItem>, k: nat): set<string> {
    if k == 0 then {}
    else NextSettled(calls, Settled(calls, k - 1))
  }

  ghost function NextSettled(calls: seq<ToolCallItem>, before: set<string>): set<string> {
    set c | c in calls && Ready(c, before) :: c.id
  }

  ghost predicate Ready(c: ToolCallItem, before: set<string>) {
    forall d | d in c.blockedBy :: d in before
  }

  ghost predicate InLayer(calls: seq<ToolCallItem>, id: string, n: nat) {
    id in Settled(calls, n + 1) && id !in Settled(calls, n)
  }

  lemma {:induction false} SettledStep(calls: seq<ToolCallItem>, id: string, k: nat)
    requires DistinctIds(calls) && id in Ids(calls)
    ensures id in Settled(calls, k + 1) <==> forall d <- Blockers(calls, id) :: d in Settled(calls, k)
  {
    var i :| 0 <= i < |calls| && calls[i].id == id;
    FindDistinct(calls, i);
    var before := Settled(calls, k);
    if id in Settled(calls, k + 1) {
      var c :| c in calls && Ready(c, before) && c.id == id;
      assert c == calls[i];
    } else {
      assert calls[i] in calls;
      assert !Ready(calls[i], before);
    }
  }

  lemma {:induction false} SettledGrows(calls: seq<ToolCallItem>, j: nat, k: nat)
    requires j <= k
    ensures Settled(calls, j) <= Settled(calls, k) <= Ids(calls)
    decreases k, j
  {
    if 0 < j {
      SettledGrows(calls, j - 1, k - 1);
    }
  }

  /** A call that has not settled after `k` rounds has a chain of `k + 1` ids hanging off it. */
  lemma {:induction false} UnsettledChain(calls: seq<ToolCallItem>, id: string, k: nat) returns (p: seq<string>)
    requires DistinctIds(calls) && KnownBlockers(calls)
    requires id in Ids(calls) && id !in Settled(calls, k)
    ensures IsChain(calls, p) && |p| == k + 1 && p[0] == id
  {
    RoundsFall(calls, k);
    p := ChainThrough(calls, id, Rounds(calls, k));
  }

  /** `Settled(0)` to `Settled(k)`. */
  ghost function Rounds(calls: seq<ToolCallItem>, k: nat): (r: seq<set<string>>)
    ensures |r| == k + 1 && forall i :: 0 <= i <= k ==> r[i] == Settled(calls, i)
  {
    seq(k + 1, i requires 0 <= i <= k => Settled(calls, i))
  }

  ghost predicate Misses(rounds: seq<set<string>>, i: nat, id: string)
    requires i < |rounds|
  {
    id !in rounds[i]
  }

  /** Whoever is missing from a round waits for someone missing from the round before it. */
  ghost predicate Falls(calls: seq<ToolCallItem>, rounds: seq<set<string>>) {
    forall i, x {:trigger Misses(rounds, i, x)} :: 0 < i < |rounds| && x in Ids(calls) && Misses(rounds, i, x) ==>
      exists d <- Blockers(calls, x) :: d in Ids(calls) && d !in rounds[i - 1]
  }

  lemma {:induction false} RoundsFall(calls: seq<ToolCallItem>, k: nat)
    requires DistinctIds(calls) && KnownBlockers(calls)
    ensures Falls(calls, Rounds(calls, k))
  {
    var rounds := Rounds(calls, k);
    forall i, x | 0 < i < |rounds| && x in Ids(calls) && Misses(rounds, i, x)
      ensures exists d <- Blockers(calls, x) :: d in Ids(calls) && d !in rounds[i - 1]
    {
      var d := UnsettledBlocker(calls, x, i);
    }
  }

  lemma {:induction false} ChainThrough(calls: seq<ToolCallItem>, id: string, rounds: seq<set<string>>)
    returns (p: seq<string>)
    requires Falls(calls, rounds) && rounds != [] && id in Ids(calls) && id !in rounds[|rounds| - 1]
    ensures IsChain(calls, p) && |p| == |rounds| && p[0] == id
    decreases |rounds|
  {
    if |rounds| == 1 {
      p := [id];
    } else {
      var front := rounds[..|rounds| - 1];
      assert Misses(rounds, |rounds| - 1, id);
      var d :| d in Blockers(calls, id) && d in Ids(calls) && d !in rounds[|rounds| - 2];
      FallsFront(calls, rounds);
      var q := ChainThrough(calls, d, front);
      p := ChainCons(calls, id, q);
    }
  }

  lemma {:induction false} FallsFront(calls: seq<ToolCallItem>, rounds: seq<set<string>>)
    requires Falls(calls, rounds) && |rounds| > 1
    ensures Falls(calls, rounds[..|rounds| - 1])
  {
    var front := rounds[..|rounds| - 1];
    forall i, x | 0 < i < |front| && x in Ids(calls) && Misses(front, i, x)
      ensures exists d <- Blockers(calls, x) :: d in Ids(calls) && d !in front[i - 1]
    {
      assert Misses(rounds, i, x);
    }
  }

  lemma {:induction false} UnsettledBlocker(calls: seq<ToolCallItem>, id: string, k: nat) returns (d: string)
    requires DistinctIds(calls) && KnownBlockers(calls) && 0 < k
    requires id in Ids(calls) && id !in Settled(calls, k)
    ensures d in Blockers(calls, id) && d in Ids(calls) && d !in Settled(calls, k - 1)
  {
    SettledStep(calls, id, k - 1);
    KnownBlockersOf(calls, id);
    d :| d in Blockers(calls, id) && d !in Settled(calls, k - 1);
  }

  lemma {:induction false} ChainCons(calls: seq<ToolCallItem>, id: string, q: seq<string>) returns (p: seq<string>)
    requires IsChain(calls, q) && q[0] in Blockers(calls, id)
    ensures IsChain(calls, p) && |p| == |q| + 1 && p[0] == id
  {
    p := [id] + q;
    forall i | 0 <= i < |p| - 1 ensures p[i + 1] in Blockers(calls, p[i]) {
      if i > 0 {
        assert q[i - 1 + 1] in Blockers(calls, q[i - 1]);
      }
    }
  }

  lemma {:induction false} ChainUnsettles(calls: seq<ToolCallItem>, p: seq<string>)
    requires DistinctIds(calls) && KnownBlockers(calls) && IsChain(calls, p) && p[0] in Ids(calls)
    ensures p[0] !in Settled(calls, |p| - 1)
    decreases |p|
  {
    if |p| > 1 {
      ChainTail(calls, p);
      ChainUnsettles(calls, p[1..]);
      UnsettledByBlocker(calls, p[0], p[1], |p| - 1);
    }
  }

  lemma {:induction false} ChainTail(calls: seq<ToolCallItem>, p: seq<string>)
    requires DistinctIds(calls) && KnownBlockers(calls) && IsChain(calls, p) && p[0] in Ids(calls) && |p| > 1
    ensures IsChain(calls, p[1..]) && p[1] in Blockers(calls, p[0]) && p[1] in Ids(calls)
  {
    KnownBlockersOf(calls, p[0]);
    assert p[0 + 1] in Blockers(calls, p[0]);
    forall i | 0 <= i < |p[1..]| - 1 ensures p[1..][i + 1] in Blockers(calls, p[1..][i]) {
      assert p[i + 1 + 1] in Blockers(calls, p[i + 1]);
    }
  }

  lemma {:induction false} UnsettledByBlocker(calls: seq<ToolCallItem>, id: string, d: string, k: nat)
    requires DistinctIds(calls) && id in Ids(calls) && d in Blockers(calls, id) && 0 < k && d !in Settled(calls, k - 1)
    ensures id !in Settled(calls, k)
  {
    SettledStep(calls, id, k - 1);
  }

  /** Without cycles everything settles within as many rounds as there are ids. */
  lemma {:induction false} AcyclicSettles(calls: seq<ToolCallItem>, k: nat)
    requires WellFormed(calls) && k >= |Ids(calls)|
    ensures Settled(calls, k) == Ids(calls)
  {
    SettledGrows(calls, 0, k);
    forall id | id in Ids(calls) ensures id in Settled(calls, k) {
      if id !in Settled(calls, k) {
        var p := UnsettledChain(calls, id, k);
        forall x | x in p ensures x in Ids(calls) {
          var m :| 0 <= m < |p| && p[m] == x;
          ChainStaysInside(calls, p, m);
        }
        RepeatMakesCycle(calls, p);
      }
    }
  }

  lemma {:induction false} RepeatMakesCycle(calls: seq<ToolCallItem>, p: seq<string>)
    requires IsChain(calls, p) && |p| > |Ids(calls)| && forall x <- p :: x in Ids(calls)
    ensures HasCycle(calls)
  {
    var i, j := Pigeonhole(p, Ids(calls));
    var q := p[i..j + 1];
    forall m | 0 <= m < |q| - 1 ensures q[m + 1] in Blockers(calls, q[m]) {
      assert p[i + m + 1] in Blockers(calls, p[i + m]);
    }
    assert IsCycle(calls, q);
  }

  lemma {:induction false} LayerExistsBelow(calls: seq<ToolCallItem>, id: string, k: nat) returns (n: nat)
    requires id in Settled(calls, k)
    ensures n < k && InLayer(calls, id, n)
    decreases k
  {
    if id in Settled(calls, k - 1) {
      n := LayerExistsBelow(calls, id, k - 1);
    } else {
      n := k - 1;
    }
  }

  lemma {:induction false} LayerUnique(calls: seq<ToolCallItem>, id: string, m: nat, n: nat)
    requires InLayer(calls, id, m) && InLayer(calls, id, n)
    ensures m == n
  {
    if m < n {
      SettledGrows(calls, m + 1, n);
    } else if n < m {
      SettledGrows(calls, n + 1, m);
    }
  }

  /** Every call of a well-formed set sits in exactly one layer. */
  lemma {:induction false} LayersPartition(calls: seq<ToolCallItem>, id: string) returns (n: nat)
    requires WellFormed(calls) && id in Ids(calls)
    ensures InLayer(calls, id, n)
    ensures forall m :: InLayer(calls, id, m) ==> m == n
  {
    AcyclicSettles(calls, |Ids(calls)|);
    n := LayerExistsBelow(calls, id, |Ids(calls)|);
    forall m | InLayer(calls, id, m) ensures m == n {
      LayerUnique(calls, id, m, n);
    }
  }

  /** A call's layer is the length of the longest chain of blockers hanging off it. */
  lemma {:induction false} LayerIsLongestChain(calls: seq<ToolCallItem>, id: string, n: nat)
    requires DistinctIds(calls) && KnownBlockers(calls) && id in Ids(calls)
    ensures InLayer(calls, id, n) <==>
            && (exists p :: IsChain(calls, p) && p[0] == id && |p| == n + 1)
            && (forall p :: IsChain(calls, p) && p[0] == id ==> |p| <= n + 1)
  {
    if InLayer(calls, id, n) {
      var p := UnsettledChain(calls, id, n);
      forall p | IsChain(calls, p) && p[0] == id ensures |p| <= n + 1 {
        SettledBoundsChain(calls, p, n + 1);
      }
    }
    if (exists p :: IsChain(calls, p) && p[0] == id && |p| == n + 1)
       && (forall p :: IsChain(calls, p) && p[0] == id ==> |p| <= n + 1) {
      var p :| IsChain(calls, p) && p[0] == id && |p| == n + 1;
      ChainUnsettles(calls, p);
      NoLongerChainSettles(calls, id, n + 1);
    }
  }

  lemma {:induction false} SettledBoundsChain(calls: seq<ToolCallItem>, p: seq<string>, k: nat)
    requires DistinctIds(calls) && KnownBlockers(calls) && IsChain(calls, p) && p[0] in Settled(calls, k)
    ensures |p| <= k
  {
    SettledGrows(calls, k, k);
    if |p| > k {
      ChainUnsettles(calls, p);
      SettledGrows(calls, k, |p| - 1);
    }
  }

  lemma {:induction false} NoLongerChainSettles(calls: seq<ToolCallItem>, id: string, k: nat)
    requires DistinctIds(calls) && KnownBlockers(calls) && id in Ids(calls)
    requires forall p :: IsChain(calls, p) && p[0] == id ==> |p| <= k
    ensures id in Settled(calls, k)
  {
    if id !in Settled(calls, k) {
      var q := UnsettledChain(calls, id, k);
    }
  }

  /** Layer 0 has no blockers; layer n+1 has all blockers at most at n and one exactly there. */
  lemma {:induction false} LayerEquation(calls: seq<ToolCallItem>, id: string, n: nat)
    requires DistinctIds(calls) && KnownBlockers(calls) && id in Ids(calls)
    ensures InLayer(calls, id, 0) <==> Blockers(calls, id) == []
    ensures InLayer(calls, id, n + 1) <==>
            && (forall d <- Blockers(calls, id) :: d in Settled(calls, n + 1))
            && (exists d <- Blockers(calls, id) :: InLayer(calls, d, n))
  {
    SettledStep(calls, id, 0);
    SettledStep(calls, id, n);
    SettledStep(calls, id, n + 1);
    if Blockers(calls, id) != [] {
      assert Blockers(calls, id)[0] in Blockers(calls, id);
    }
    if InLayer(calls, id, n + 1) {
      var d :| d in Blockers(calls, id) && d !in Settled(calls, n);
      assert InLayer(calls, d, n);
    }
  }
}
