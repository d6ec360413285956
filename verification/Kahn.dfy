/** Building in-degrees, detecting cycles by depth-first search, and sorting into layers. */
module Kahn {
  import opened Wrappers
  import opened Seqs
  import opened Dag

  // ── Cycle detection ─────────────────────────────────────────────────

  /** The two sets the depth-first search marks, and the order in which it finished ids. */
  class CycleSearch {
    var visited: set<string>
    var recStack: set<string>
    ghost var finished: seq<string>

    constructor ()
      ensures visited == {} && recStack == {} && finished == []
    {
      visited, recStack, finished := {}, {}, [];
    }

    /** `stack` lists the ids being explored, outermost first. */
    ghost predicate Valid(calls: seq<ToolCallItem>, stack: seq<string>)
      reads this
    {
      && recStack == Elems(stack)
      && visited == recStack + Elems(finished)
      && recStack !! Elems(finished)
      && visited <= Ids(calls)
      && IsTopological(calls, finished)
    }

    /** Explores `node`; a hit on the stack is a cycle, an unsuccessful search finishes `node`. */
    method DfsCycle(node: string, calls: seq<ToolCallItem>, ghost stack: seq<string>) returns (cyclic: bool)
      requires KnownBlockers(calls) && node in Ids(calls)
      requires Valid(calls, stack) && IsChain(calls, stack + [node])
      modifies this
      ensures cyclic ==> HasCycle(calls)
      ensures !cyclic ==> Valid(calls, stack) && node in finished
      ensures !cyclic ==> recStack == old(recStack) && old(finished) <= finished && old(visited) <= visited
      decreases Ids(calls) - visited
    {
      if node in recStack {
        StackHitIsCycle(calls, stack, node);
        return true;
      }
      if node in visited {
        return false;
      }
      visited := visited + {node};
      recStack := recStack + {node};
      ghost var here := stack + [node];
      assert Elems(here) == Elems(stack) + {node};

      var call := Find(calls, node);
      if call.Some? {
        var deps := call.value.blockedBy;
        for i := 0 to |deps|
          invariant Valid(calls, here)
          invariant recStack == old(recStack) + {node}
          invariant old(visited) + {node} <= visited && old(finished) <= finished
          invariant forall k :: 0 <= k < i ==> deps[k] in finished
        {
          KnownBlockersOf(calls, node);
          ExtendChain(calls, stack, node, deps[i]);
          var found := DfsCycle(deps[i], calls, here);
          if found {
            return true;
          }
        }
      }

      recStack := recStack - {node};
      finished := finished + [node];
      assert Elems(finished) == Elems(finished[..|finished| - 1]) + {node};
      return false;
    }
  }

  lemma {:induction false} StackHitIsCycle(calls: seq<ToolCallItem>, stack: seq<string>, node: string)
    requires IsChain(calls, stack + [node]) && node in stack
    ensures HasCycle(calls)
  {
    var p := stack + [node];
    var i :| 0 <= i < |stack| && stack[i] == node;
    var q := p[i..];
    forall m | 0 <= m < |q| - 1 ensures q[m + 1] in Blockers(calls, q[m]) {
      assert p[i + m + 1] in Blockers(calls, p[i + m]);
    }
    assert IsCycle(calls, q);
  }

  lemma {:induction false} ExtendChain(calls: seq<ToolCallItem>, stack: seq<string>, node: string, dep: string)
    requires IsChain(calls, stack + [node]) && dep in Blockers(calls, node)
    ensures IsChain(calls, stack + [node] + [dep])
  {
    var p := stack + [node];
    var q := p + [dep];
    forall m | 0 <= m < |q| - 1 ensures q[m + 1] in Blockers(calls, q[m]) {
      if m < |p| - 1 {
        assert p[m + 1] in Blockers(calls, p[m]);
      }
    }
  }

  /** A message exactly when some blocker is unknown or the blockers run in a circle. */
  method DetectCycle(calls: seq<ToolCallItem>) returns (problem: Option<string>)
    ensures problem.None? <==> KnownBlockers(calls) && !HasCycle(calls)
  {
    var callIds := Ids(calls);
    for i := 0 to |calls|
      invariant forall m :: 0 <= m < i ==> forall d <- calls[m].blockedBy :: d in callIds
    {
      var deps := calls[i].blockedBy;
      for j := 0 to |deps|
        invariant forall m :: 0 <= m < j ==> deps[m] in callIds
      {
        if deps[j] !in callIds {
          assert calls[i] in calls && deps[j] in calls[i].blockedBy;
          return Some("call '" + calls[i].id + "' depends on unknown call '" + deps[j] + "'");
        }
      }
    }

    var search := new CycleSearch();
    for i := 0 to |calls|
      invariant search.Valid(calls, [])
      invariant forall m :: 0 <= m < i ==> calls[m].id in search.finished
    {
      if calls[i].id !in search.visited {
        var cyclic := search.DfsCycle(calls[i].id, calls, []);
        if cyclic {
          return Some("dependency cycle detected");
        }
      }
    }
    TopologicalMeansAcyclic(calls, search.finished);
    return None;
  }

  // ── In-degrees ──────────────────────────────────────────────────────

  /** How many entries of `bs` (repeats included) are not yet in `done`. */
  ghost function Pending(bs: seq<string>, done: set<string>): nat {
    if bs == [] then 0
    else (if bs[0] in done then 0 else 1) + Pending(bs[1..], done)
  }

  lemma {:induction false} PendingNothingDone(bs: seq<string>)
    ensures Pending(bs, {}) == |bs|
  {
    if bs != [] {
      PendingNothingDone(bs[1..]);
    }
  }

  lemma {:induction false} PendingZero(bs: seq<string>, done: set<string>)
    ensures Pending(bs, done) == 0 <==> forall d <- bs :: d in done
  {
    if bs != [] {
      PendingZero(bs[1..], done);
      assert forall d :: d in bs <==> d == bs[0] || d in bs[1..];
    }
  }

  /** Every call's degree counts its blocker entries that are not done. */
  ghost predicate DegreesCount(calls: seq<ToolCallItem>, deg: map<string, nat>, done: set<string>) {
    && deg.Keys == Ids(calls)
    && forall id :: id in deg ==> deg[id] == Pending(Blockers(calls, id), done)
  }

  /** All `blocked_by` entries under this id, over every call that carries it. */
  ghost function AllBlockers(calls: seq<ToolCallItem>, id: string): seq<string> {
    if calls == [] then []
    else AllBlockers(calls[..|calls| - 1], id) + Own(calls[|calls| - 1], id)
  }

  ghost function Own(call: ToolCallItem, id: string): seq<string> {
    if call.id == id then call.blockedBy else []
  }

  lemma AllBlockersSnoc(calls: seq<ToolCallItem>, c: ToolCallItem, id: string)
    ensures AllBlockers(calls + [c], id) == AllBlockers(calls, id) + Own(c, id)
  {
    assert (calls + [c])[..|calls|] == calls;
  }

  lemma {:induction false} BlockersOfNone(calls: seq<ToolCallItem>, id: string)
    requires id !in Ids(calls)
    ensures AllBlockers(calls, id) == []
    decreases |calls|
  {
    if calls != [] {
      assert calls[|calls| - 1] in calls && forall c <- calls[..|calls| - 1] :: c in calls;
      BlockersOfNone(calls[..|calls| - 1], id);
    }
  }

  /** With distinct ids there is one call to look at. */
  lemma {:induction false} BlockersDistinct(calls: seq<ToolCallItem>, id: string)
    requires DistinctIds(calls)
    ensures AllBlockers(calls, id) == Blockers(calls, id)
    decreases |calls|
  {
    if id !in Ids(calls) {
      BlockersOfNone(calls, id);
    } else {
      var m :| 0 <= m < |calls| && calls[m].id == id;
      FindDistinct(calls, m);
      OnlyBlockers(calls, m);
    }
  }

  lemma {:induction false} OnlyBlockers(calls: seq<ToolCallItem>, m: nat)
    requires DistinctIds(calls) && m < |calls|
    ensures AllBlockers(calls, calls[m].id) == calls[m].blockedBy
    decreases |calls|
  {
    var front := calls[..|calls| - 1];
    if m < |front| {
      OnlyBlockers(front, m);
    } else {
      BlockersOfNone(front, calls[m].id);
    }
  }

  /** Adds up the entries of every call with the same id. */
  method BuildInDegree(calls: seq<ToolCallItem>) returns (inDegree: map<string, nat>)
    ensures Counted(calls, inDegree)
    ensures DistinctIds(calls) ==> DegreesCount(calls, inDegree, {})
  {
    inDegree := map[];
    for i := 0 to |calls|
      invariant Counted(calls[..i], inDegree)
    {
      var before := calls[..i];
      assert calls[..i + 1] == before + [calls[i]];
      forall id ensures AllBlockers(calls[..i + 1], id) == AllBlockers(before, id) + Own(calls[i], id) {
        AllBlockersSnoc(before, calls[i], id);
      }
      if calls[i].id !in inDegree {
        BlockersOfNone(before, calls[i].id);
      }
      inDegree := inDegree[calls[i].id := GetOr(inDegree, calls[i].id, 0) + |calls[i].blockedBy|];
    }
    assert calls[..|calls|] == calls;
    if DistinctIds(calls) {
      forall id | id in inDegree ensures inDegree[id] == Pending(Blockers(calls, id), {}) {
        BlockersDistinct(calls, id);
        PendingNothingDone(Blockers(calls, id));
      }
    }
  }

  /** Every id's degree is the number of entries under it. */
  ghost predicate Counted(calls: seq<ToolCallItem>, inDegree: map<string, nat>) {
    inDegree.Keys == Ids(calls) && forall id <- inDegree :: inDegree[id] == |AllBlockers(calls, id)|
  }

  // ── Dependents ──────────────────────────────────────────────────────

  /** How often `x` is listed under `b`. */
  function Listed(dependents: map<string, seq<string>>, b: string, x: string): nat {
    multiset(GetOr(dependents, b, []))[x]
  }

  function Push(dependents: map<string, seq<string>>, b: string, x: string): (r: map<string, seq<string>>)
    ensures forall b', x' :: Listed(r, b', x') == Listed(dependents, b', x') + if b' == b && x' == x then 1 else 0
  {
    dependents[b := GetOr(dependents, b, []) + [x]]
  }

  /** The reverse of `blocked_by`: an id is listed under a blocker as often as its calls list that. */
  ghost predicate Reverses(calls: seq<ToolCallItem>, dependents: map<string, seq<string>>) {
    forall b, x :: Listed(dependents, b, x) == multiset(AllBlockers(calls, x))[b]
  }

  /** Lists each call under each of its blockers. */
  method BuildDependents(calls: seq<ToolCallItem>) returns (dependents: map<string, seq<string>>)
    ensures Reverses(calls, dependents)
  {
    hide AllBlockers, Push, Listed;
    dependents := map[];
    assert Reverses([], dependents) by { NothingListed(dependents); }
    for i := 0 to |calls|
      invariant Reverses(calls[..i], dependents)
    {
      var bs := calls[i].blockedBy;
      for j := 0 to |bs|
        invariant forall b, x :: Listed(dependents, b, x) == WithOwn(calls[..i], calls[i].id, bs[..j], b, x)
      {
        assert bs[..j + 1] == bs[..j] + [bs[j]];
        dependents := Push(dependents, bs[j], calls[i].id);
      }
      assert bs[..|bs|] == bs;
      assert calls[..i + 1] == calls[..i] + [calls[i]];
      forall b, x ensures Listed(dependents, b, x) == multiset(AllBlockers(calls[..i + 1], x))[b] {
        AllBlockersSnoc(calls[..i], calls[i], x);
      }
    }
    assert calls[..|calls|] == calls;
  }

  /** What the calls before contribute, and the first entries of one more call. */
  ghost function WithOwn(calls: seq<ToolCallItem>, id: string, bs: seq<string>, b: string, x: string): nat {
    multiset(AllBlockers(calls, x))[b] + if id == x then multiset(bs)[b] else 0
  }

  lemma NothingListed(dependents: map<string, seq<string>>)
    requires dependents == map[]
    ensures Reverses([], dependents)
  {
  }

  // ── The drain ───────────────────────────────────────────────────────

  /** How often `x` was taken from `popped`, added up over the entries `x` of this list. */
  ghost function Hits(bs: seq<string>, popped: seq<string>): nat {
    if bs == [] then 0 else multiset(popped)[bs[0]] + Hits(bs[1..], popped)
  }

  lemma {:induction false} HitsSnoc(bs: seq<string>, popped: seq<string>, node: string)
    ensures Hits(bs, popped + [node]) == Hits(bs, popped) + multiset(bs)[node]
  {
    if bs != [] {
      HitsSnoc(bs[1..], popped, node);
      assert bs == [bs[0]] + bs[1..];
    }
  }

  lemma {:induction false} HitsNone(bs: seq<string>)
    ensures Hits(bs, []) == 0
  {
    if bs != [] {
      HitsNone(bs[1..]);
    }
  }

  /** Entries popped at most once each are hit no more often than there are entries. */
  lemma {:induction false} HitsAtMost(bs: seq<string>, popped: seq<string>)
    requires forall d <- bs :: multiset(popped)[d] <= 1
    ensures Hits(bs, popped) <= |bs|
  {
    if bs != [] {
      HitsAtMost(bs[1..], popped);
    }
  }

  /** Entries that were all popped are hit at least that often, and more often if one was popped twice. */
  lemma {:induction false} HitsAtLeast(bs: seq<string>, popped: seq<string>)
    requires forall d <- bs :: d in popped
    ensures Hits(bs, popped) >= |bs|
    ensures (exists d <- bs :: multiset(popped)[d] > 1) ==> Hits(bs, popped) > |bs|
  {
    if bs != [] {
      HitsAtLeast(bs[1..], popped);
      assert bs[0] in bs && forall d :: d in bs <==> d == bs[0] || d in bs[1..];
      assert multiset(popped)[bs[0]] > 0;
    }
  }

  /** Entries popped at most once each are hit as often as they are no longer pending. */
  lemma {:induction false} HitsPending(bs: seq<string>, popped: seq<string>)
    requires forall d <- bs :: multiset(popped)[d] <= 1
    ensures Hits(bs, popped) + Pending(bs, Elems(popped)) == |bs|
  {
    if bs != [] {
      HitsPending(bs[1..], popped);
      assert bs[0] in popped <==> multiset(popped)[bs[0]] > 0;
    }
  }

  /** How many calls carry this id. */
  ghost function Copies(calls: seq<ToolCallItem>, id: string): nat {
    if calls == [] then 0
    else Copies(calls[..|calls| - 1], id) + if calls[|calls| - 1].id == id then 1 else 0
  }

  lemma CopiesSnoc(calls: seq<ToolCallItem>, c: ToolCallItem, id: string)
    ensures Copies(calls + [c], id) == Copies(calls, id) + if c.id == id then 1 else 0
  {
    assert (calls + [c])[..|calls|] == calls;
  }

  lemma {:induction false} CopiesCount(calls: seq<ToolCallItem>, id: string)
    ensures Copies(calls, id) > 0 <==> id in Ids(calls)
    ensures DistinctIds(calls) ==> Copies(calls, id) <= 1
    decreases |calls|
  {
    if calls != [] {
      var front, last := calls[..|calls| - 1], calls[|calls| - 1];
      CopiesCount(front, id);
      assert calls == front + [last];
      if DistinctIds(calls) && last.id == id {
        assert id !in Ids(front);
      }
    }
  }

  /** How often an id enters the queue: a root once per call, any other id once when its degree reaches zero. */
  ghost function Entering(calls: seq<ToolCallItem>, deg: map<string, nat>, x: string): nat {
    if x !in deg then 0
    else if AllBlockers(calls, x) == [] then Copies(calls, x)
    else if deg[x] == 0 then 1 else 0
  }

  /** The degrees account for what was popped, with `part` of the last node's dependents released. */
  ghost predicate Accounts(calls: seq<ToolCallItem>, deg: map<string, nat>, popped: seq<string>, part: seq<string>) {
    && deg.Keys == Ids(calls)
    && forall x <- deg :: deg[x] + Hits(AllBlockers(calls, x), popped) + multiset(part)[x] == |AllBlockers(calls, x)|
  }

  /** What was popped or waits in the queue. */
  ghost predicate Queued(calls: seq<ToolCallItem>, deg: map<string, nat>, all: seq<string>) {
    forall x :: multiset(all)[x] == Entering(calls, deg, x)
  }

  ghost predicate Drained(calls: seq<ToolCallItem>, deg: map<string, nat>, popped: seq<string>, queue: seq<string>) {
    Accounts(calls, deg, popped, []) && Queued(calls, deg, popped + queue)
  }

  /**
   * Some id is carried by two calls, none of which waits for anything, and a call waits for it. The source checks
   * nothing of the kind.
   */
  ghost predicate RepeatedRoot(calls: seq<ToolCallItem>) {
    exists r :: Copies(calls, r) > 1 && AllBlockers(calls, r) == [] && IsListed(calls, r)
  }

  ghost predicate IsListed(calls: seq<ToolCallItem>, r: string) {
    exists c <- calls :: r in c.blockedBy
  }

  lemma {:induction false} EntryIsListed(calls: seq<ToolCallItem>, x: string, d: string)
    requires d in AllBlockers(calls, x)
    ensures IsListed(calls, d)
    decreases |calls|
  {
    var front, last := calls[..|calls| - 1], calls[|calls| - 1];
    assert calls == front + [last];
    if d in AllBlockers(front, x) {
      EntryIsListed(front, x, d);
      var c :| c in front && d in c.blockedBy;
      assert c in calls;
    }
  }

  lemma {:induction false} ListedIsEntry(calls: seq<ToolCallItem>, c: ToolCallItem, d: string)
    requires c in calls && d in c.blockedBy
    ensures d in AllBlockers(calls, c.id)
    decreases |calls|
  {
    var front, last := calls[..|calls| - 1], calls[|calls| - 1];
    assert calls == front + [last];
    if c != last {
      ListedIsEntry(front, c, d);
    }
  }

  /** A degree from which more would be taken than it holds betrays a repeated root. */
  lemma OverdrawnIsRepeated(calls: seq<ToolCallItem>, deg: map<string, nat>, popped: seq<string>, queue: seq<string>,
                            x: string)
    requires Queued(calls, deg, popped + queue) && Hits(AllBlockers(calls, x), popped) > |AllBlockers(calls, x)|
    ensures RepeatedRoot(calls)
  {
    hide AllBlockers, Hits, Copies;
    var bs := AllBlockers(calls, x);
    if forall d <- bs :: multiset(popped)[d] <= 1 {
      HitsAtMost(bs, popped);
    } else {
      var d :| d in bs && multiset(popped)[d] > 1;
      assert multiset(popped + queue)[d] >= multiset(popped)[d];
      EntryIsListed(calls, x, d);
    }
  }

  /** One `*count -= 1`, queueing the call whose count reaches zero; no result if the count is zero already. */
  method Decrement(calls: seq<ToolCallItem>, deg0: map<string, nat>, next0: seq<string>, dep: string,
                   ghost before: seq<string>)
    returns (r: Option<(map<string, nat>, seq<string>)>)
    requires dep in deg0 && AllBlockers(calls, dep) != [] && Queued(calls, deg0, before + next0)
    ensures r.None? <==> deg0[dep] == 0
    ensures r.Some? ==>
              && r.value.0 == deg0[dep := deg0[dep] - 1] && Queued(calls, r.value.0, before + r.value.1)
              && r.value.1 == next0 + if deg0[dep] == 1 then [dep] else []
  {
    hide AllBlockers, Copies;
    if deg0[dep] == 0 {
      return None;
    }
    var count: nat := deg0[dep] - 1;
    var next := next0;
    if count == 0 {
      next := next + [dep];
    }
    DecrementQueues(calls, deg0, before + next0, dep);
    assert before + (next0 + [dep]) == before + next0 + [dep];
    r := Some((deg0[dep := count], next));
  }

  lemma DecrementQueues(calls: seq<ToolCallItem>, deg: map<string, nat>, all: seq<string>, dep: string)
    requires dep in deg && deg[dep] > 0 && AllBlockers(calls, dep) != [] && Queued(calls, deg, all)
    ensures Queued(calls, deg[dep := deg[dep] - 1], if deg[dep] == 1 then all + [dep] else all)
  {
    hide AllBlockers, Copies;
    var less := deg[dep := deg[dep] - 1];
    assert forall x :: x != dep ==> Entering(calls, less, x) == Entering(calls, deg, x);
  }

  /** Degrees only fall, and what is queued next has just reached zero. */
  ghost predicate Falling(deg0: map<string, nat>, deg: map<string, nat>, next: seq<string>) {
    && deg.Keys == deg0.Keys && (forall x <- deg :: deg[x] <= deg0[x])
    && forall x <- next :: x in deg && deg[x] == 0 < deg0[x]
  }

  /** Takes one finished node off the degrees of everything listed as waiting for it. */
  method Release(calls: seq<ToolCallItem>, node: string, deps: seq<string>, start: map<string, nat>,
                 deg0: map<string, nat>, next0: seq<string>, ghost popped: seq<string>, ghost rest: seq<string>)
    returns (r: Option<(map<string, nat>, seq<string>)>)
    requires forall x :: multiset(deps)[x] == multiset(AllBlockers(calls, x))[node]
    requires Accounts(calls, deg0, popped, []) && Queued(calls, deg0, popped + [node] + rest + next0)
    requires Falling(start, deg0, next0)
    ensures r.None? ==> RepeatedRoot(calls)
    ensures r.Some? ==>
              && Accounts(calls, r.value.0, popped + [node], [])
              && Queued(calls, r.value.0, popped + [node] + rest + r.value.1) && Falling(start, r.value.0, r.value.1)
  {
    hide AllBlockers, Hits, Accounts, Queued, Falling, RepeatedRoot;
    var deg, next := deg0, next0;
    ghost var before := popped + [node] + rest;
    for j := 0 to |deps|
      invariant Accounts(calls, deg, popped, deps[..j]) && Queued(calls, deg, before + next)
      invariant Falling(start, deg, next)
    {
      var dep := deps[j];
      DependentIsKnown(calls, node, deps, j, deg, popped);
      var one := Decrement(calls, deg, next, dep, before);
      if one.None? {
        assert before + next == popped + [node] + (rest + next);
        AccountsOverdrawn(calls, node, deps, j, deg, popped);
        OverdrawnIsRepeated(calls, deg, popped + [node], rest + next, dep);
        return None;
      }
      FallsFurther(start, deg, next, dep);
      AccountsStep(calls, deps, j, deg, popped);
      deg, next := one.value.0, one.value.1;
    }
    assert deps[..|deps|] == deps;
    AccountsDone(calls, node, deps, deg, popped);
    r := Some((deg, next));
  }

  lemma AccountsStep(calls: seq<ToolCallItem>, deps: seq<string>, j: nat, deg: map<string, nat>, popped: seq<string>)
    requires j < |deps| && Accounts(calls, deg, popped, deps[..j]) && deps[j] in deg && deg[deps[j]] > 0
    ensures Accounts(calls, deg[deps[j] := deg[deps[j]] - 1], popped, deps[..j + 1])
  {
    hide AllBlockers, Hits;
    assert deps[..j + 1] == deps[..j] + [deps[j]];
  }

  lemma AccountsDone(calls: seq<ToolCallItem>, node: string, deps: seq<string>, deg: map<string, nat>,
                     popped: seq<string>)
    requires Accounts(calls, deg, popped, deps)
    requires forall x :: multiset(deps)[x] == multiset(AllBlockers(calls, x))[node]
    ensures Accounts(calls, deg, popped + [node], [])
  {
    hide AllBlockers, Hits;
    forall x ensures Hits(AllBlockers(calls, x), popped + [node]) ==
                     Hits(AllBlockers(calls, x), popped) + multiset(deps)[x] {
      HitsSnoc(AllBlockers(calls, x), popped, node);
    }
  }

  /** One more entry than the degree holds. */
  lemma AccountsOverdrawn(calls: seq<ToolCallItem>, node: string, deps: seq<string>, j: nat, deg: map<string, nat>,
                          popped: seq<string>)
    requires j < |deps| && Accounts(calls, deg, popped, deps[..j]) && deps[j] in deg && deg[deps[j]] == 0
    requires forall x :: multiset(deps)[x] == multiset(AllBlockers(calls, x))[node]
    ensures Hits(AllBlockers(calls, deps[j]), popped + [node]) > |AllBlockers(calls, deps[j])|
  {
    hide AllBlockers, Hits;
    assert deps == deps[..j] + [deps[j]] + deps[j + 1..];
    HitsSnoc(AllBlockers(calls, deps[j]), popped, node);
  }

  lemma FallsFurther(start: map<string, nat>, deg: map<string, nat>, next: seq<string>, dep: string)
    requires Falling(start, deg, next) && dep in deg && deg[dep] > 0
    ensures Falling(start, deg[dep := deg[dep] - 1], next + if deg[dep] == 1 then [dep] else [])
  {
  }

  lemma DependentIsKnown(calls: seq<ToolCallItem>, node: string, deps: seq<string>, j: nat, deg: map<string, nat>,
                         popped: seq<string>)
    requires forall x :: multiset(deps)[x] == multiset(AllBlockers(calls, x))[node]
    requires j < |deps| && Accounts(calls, deg, popped, deps[..j])
    ensures deps[j] in deg && AllBlockers(calls, deps[j]) != []
  {
    hide AllBlockers, Hits;
    var dep := deps[j];
    assert multiset(AllBlockers(calls, dep))[node] > 0;
    if dep !in Ids(calls) {
      BlockersOfNone(calls, dep);
    }
  }

  lemma WaitersAreListed(calls: seq<ToolCallItem>, dependents: map<string, seq<string>>, node: string)
    requires Reverses(calls, dependents)
    ensures forall x :: multiset(GetOr(dependents, node, []))[x] == multiset(AllBlockers(calls, x))[node]
  {
    forall x ensures multiset(GetOr(dependents, node, []))[x] == multiset(AllBlockers(calls, x))[node] {
      assert Listed(dependents, node, x) == multiset(AllBlockers(calls, x))[node];
    }
  }

  lemma FallsNowhere(deg: map<string, nat>)
    ensures Falling(deg, deg, [])
  {
  }

  /** Drains one layer from the queue; what it frees becomes the next queue. */
  method ReleaseLayer(calls: seq<ToolCallItem>, layer: seq<string>, dependents: map<string, seq<string>>,
                      deg0: map<string, nat>, ghost popped0: seq<string>)
    returns (r: Option<(map<string, nat>, seq<string>)>)
    requires Reverses(calls, dependents) && Drained(calls, deg0, popped0, layer)
    ensures r.None? ==> RepeatedRoot(calls)
    ensures r.Some? ==>
              Drained(calls, r.value.0, popped0 + layer, r.value.1) && Falling(deg0, r.value.0, r.value.1)
  {
    hide AllBlockers, Accounts, Queued, Falling, Reverses;
    var deg, next := deg0, [];
    var queue := layer;
    ghost var popped := popped0;
    assert popped0 + layer == popped + queue + next;
    FallsNowhere(deg0);
    for k := 0 to |layer|
      invariant queue == layer[k..] && popped == popped0 + layer[..k]
      invariant Accounts(calls, deg, popped, []) && Queued(calls, deg, popped + queue + next)
      invariant Falling(deg0, deg, next)
    {
      var node := queue[0];
      assert popped + queue + next == popped + [node] + queue[1..] + next;
      queue := queue[1..];
      var deps := GetOr(dependents, node, []);
      WaitersAreListed(calls, dependents, node);
      var one := Release(calls, node, deps, deg0, deg, next, popped, queue);
      if one.None? {
        return None;
      }
      deg, next := one.value.0, one.value.1;
      popped := popped + [node];
      assert layer[..k + 1] == layer[..k] + [node];
    }
    assert layer[..|layer|] == layer;
    assert popped + queue + next == popped + next;
    r := Some((deg, next));
  }

  /** The ids of the calls without entries, call by call. */
  method InitialQueue(calls: seq<ToolCallItem>, deg: map<string, nat>) returns (queue: seq<string>)
    requires Counted(calls, deg)
    ensures Drained(calls, deg, [], queue)
    ensures forall x :: multiset(queue)[x] == if AllBlockers(calls, x) == [] then Copies(calls, x) else 0
  {
    hide AllBlockers, Copies, Hits, Drained;
    queue := [];
    assert forall x :: Copies([], x) == 0 by { NoCopies(); }
    for i := 0 to |calls|
      invariant forall x :: multiset(queue)[x] == if AllBlockers(calls, x) == [] then Copies(calls[..i], x) else 0
    {
      assert calls[..i + 1] == calls[..i] + [calls[i]];
      forall x ensures Copies(calls[..i + 1], x) == Copies(calls[..i], x) + if calls[i].id == x then 1 else 0 {
        CopiesSnoc(calls[..i], calls[i], x);
      }
      if deg[calls[i].id] == 0 {
        queue := queue + [calls[i].id];
      }
    }
    assert calls[..|calls|] == calls;
    RootsQueued(calls, deg, queue);
  }

  lemma NoCopies()
    ensures forall x :: Copies([], x) == 0
  {
  }

  lemma RootsQueued(calls: seq<ToolCallItem>, deg: map<string, nat>, queue: seq<string>)
    requires Counted(calls, deg)
    requires forall x :: multiset(queue)[x] == if AllBlockers(calls, x) == [] then Copies(calls, x) else 0
    ensures Drained(calls, deg, [], queue)
  {
    hide AllBlockers, Copies, Hits;
    forall x ensures Hits(AllBlockers(calls, x), []) == 0 && (x in Ids(calls) <==> Copies(calls, x) > 0) {
      HitsNone(AllBlockers(calls, x));
      CopiesCount(calls, x);
    }
    assert [] + queue == queue;
  }

  // ── Call sets that can be ordered ───────────────────────────────────

  /** Each id, with the entries of all its calls, can be put after everything it waits for. */
  ghost predicate Orders(calls: seq<ToolCallItem>, order: seq<string>) {
    && Ids(calls) <= Elems(order)
    && forall i :: 0 <= i < |order| ==> forall d <- AllBlockers(calls, order[i]) :: d in order[..i]
  }

  ghost predicate Orderable(calls: seq<ToolCallItem>) {
    KnownBlockers(calls) && exists order :: Orders(calls, order)
  }

  /** Everything in the order has been popped once the queue is empty. */
  lemma {:induction false} AllPopped(calls: seq<ToolCallItem>, order: seq<string>, deg: map<string, nat>,
                                     popped: seq<string>, n: nat)
    requires KnownBlockers(calls) && Orders(calls, order) && Drained(calls, deg, popped, []) && n <= |order|
    ensures forall x <- order[..n] :: x in Ids(calls) ==> x in popped
    decreases n
  {
    hide AllBlockers, Copies, Hits;
    if n > 0 {
      AllPopped(calls, order, deg, popped, n - 1);
      var x := order[n - 1];
      assert order[..n] == order[..n - 1] + [x];
      if x in Ids(calls) {
        forall d | d in AllBlockers(calls, x) ensures d in popped {
          EntryIsListed(calls, x, d);
        }
        HitsAtLeast(AllBlockers(calls, x), popped);
        CopiesCount(calls, x);
        assert popped + [] == popped;
        assert multiset(popped)[x] > 0;
      }
    }
  }

  lemma OrderedArePopped(calls: seq<ToolCallItem>, deg: map<string, nat>, popped: seq<string>)
    requires Orderable(calls) && Drained(calls, deg, popped, [])
    ensures Elems(popped) == Ids(calls)
  {
    hide AllBlockers, Copies, Hits;
    var order :| Orders(calls, order);
    AllPopped(calls, order, deg, popped, |order|);
    assert order[..|order|] == order;
    forall x ensures x in popped <==> x in Ids(calls) {
      assert x in Ids(calls) ==> x in Elems(order);
      assert popped + [] == popped && (x in popped <==> multiset(popped)[x] > 0);
    }
  }

  /** A set with a repeated root cannot have been drained to the end. */
  lemma RepeatedIsNotDrained(calls: seq<ToolCallItem>, deg: map<string, nat>, popped: seq<string>)
    requires Orderable(calls) && Drained(calls, deg, popped, [])
    ensures !RepeatedRoot(calls)
  {
    hide AllBlockers, Copies, Hits;
    if RepeatedRoot(calls) {
      var r :| Copies(calls, r) > 1 && AllBlockers(calls, r) == [] && IsListed(calls, r);
      var c :| c in calls && r in c.blockedBy;
      OrderedArePopped(calls, deg, popped);
      ListedIsEntry(calls, c, r);
      forall d | d in AllBlockers(calls, c.id) ensures d in popped {
        EntryIsListed(calls, c.id, d);
        assert d in Elems(popped);
      }
      CopiesCount(calls, r);
      assert popped + [] == popped;
      assert multiset(popped)[r] > 1;
      HitsAtLeast(AllBlockers(calls, c.id), popped);
      assert false;
    }
  }

  // ── Layers ──────────────────────────────────────────────────────────

  /** What being next in line means once the first `k` layers are done. */
  lemma {:induction false} ReadyIsSettled(calls: seq<ToolCallItem>, deg: map<string, nat>, k: nat)
    requires DistinctIds(calls) && DegreesCount(calls, deg, Settled(calls, k))
    ensures forall id :: id in deg ==> (deg[id] == 0 <==> id in Settled(calls, k + 1))
  {
    forall id | id in deg ensures deg[id] == 0 <==> id in Settled(calls, k + 1) {
      SettledStep(calls, id, k);
      PendingZero(Blockers(calls, id), Settled(calls, k));
    }
  }

  lemma {:induction false} SettledStable(calls: seq<ToolCallItem>, j: nat, k: nat)
    requires j <= k && Settled(calls, j + 1) == Settled(calls, j)
    ensures Settled(calls, k) == Settled(calls, j)
    decreases k
  {
    if j < k {
      SettledStable(calls, j, k - 1);
    }
  }

  /** `layer` lists layer `n` without repeats. */
  ghost predicate IsLayer(calls: seq<ToolCallItem>, layer: seq<string>, n: nat) {
    && layer != []
    && NoDup(layer)
    && Elems(layer) == Settled(calls, n + 1) - Settled(calls, n)
  }

  ghost predicate AreLayers(calls: seq<ToolCallItem>, layers: seq<seq<string>>) {
    forall n :: 0 <= n < |layers| ==> IsLayer(calls, layers[n], n)
  }

  lemma {:induction false} LayersSnoc(calls: seq<ToolCallItem>, layers: seq<seq<string>>, queue: seq<string>)
    requires AreLayers(calls, layers) && queue != [] && NoDup(queue)
    requires Elems(queue) == Settled(calls, |layers| + 1) - Settled(calls, |layers|)
    ensures AreLayers(calls, layers + [queue])
  {
    var more := layers + [queue];
    forall n | 0 <= n < |more| ensures IsLayer(calls, more[n], n) {
      if n < |layers| {
        assert more[n] == layers[n];
      }
    }
  }

  /** The sort's state after `n` layers: degrees count what is left, the queue holds layer `n`. */
  ghost predicate AtLayer(calls: seq<ToolCallItem>, deg: map<string, nat>, queue: seq<string>, n: nat) {
    && NoDup(queue)
    && Elems(queue) == Settled(calls, n + 1) - Settled(calls, n)
    && DegreesCount(calls, deg, Settled(calls, n))
  }

  /** With distinct ids, the queue between two layers is the next layer. */
  lemma DrainedIsAtLayer(calls: seq<ToolCallItem>, deg: map<string, nat>, popped: seq<string>, queue: seq<string>,
                         n: nat)
    requires DistinctIds(calls) && Drained(calls, deg, popped, queue) && Elems(popped) == Settled(calls, n)
    ensures AtLayer(calls, deg, queue, n)
  {
    hide AllBlockers, Hits, Copies, Pending;
    QueueIsZeroes(calls, deg, popped, queue);
    CountsPending(calls, deg, popped, queue);
    hide Drained;
    ReadyIsSettled(calls, deg, n);
    SettledGrows(calls, n, n + 1);
    hide Settled;
    forall x ensures x in queue <==> x in Settled(calls, n + 1) - Settled(calls, n) {
      assert x in popped <==> x in Elems(popped);
    }
  }

  /** With distinct ids the queue holds, once each, the ids whose count is zero and that were not popped. */
  lemma QueueIsZeroes(calls: seq<ToolCallItem>, deg: map<string, nat>, popped: seq<string>, queue: seq<string>)
    requires DistinctIds(calls) && Drained(calls, deg, popped, queue)
    ensures NoDup(queue) && NoDup(popped) && forall x :: x in queue <==> x in deg && deg[x] == 0 && x !in popped
  {
    hide AllBlockers, Hits, Copies, Pending;
    var all := popped + queue;
    forall x ensures multiset(all)[x] == multiset(popped)[x] + multiset(queue)[x] == if x in deg && deg[x] == 0 then 1
        else 0
    {
      EntersOnce(calls, deg, popped, x);
    }
    CountsOnce(queue);
    CountsOnce(popped);
  }

  lemma CountsPending(calls: seq<ToolCallItem>, deg: map<string, nat>, popped: seq<string>, queue: seq<string>)
    requires DistinctIds(calls) && Drained(calls, deg, popped, queue) && NoDup(popped)
    ensures DegreesCount(calls, deg, Elems(popped))
  {
    hide AllBlockers, Hits, Copies, Pending;
    forall x ensures multiset(popped)[x] <= 1 {
      NoDupMultiset(popped);
    }
    forall id | id in deg ensures deg[id] == Pending(Blockers(calls, id), Elems(popped)) {
      BlockersDistinct(calls, id);
      HitsPending(AllBlockers(calls, id), popped);
    }
  }

  lemma EntersOnce(calls: seq<ToolCallItem>, deg: map<string, nat>, popped: seq<string>, x: string)
    requires DistinctIds(calls) && Accounts(calls, deg, popped, [])
    ensures Entering(calls, deg, x) == if x in deg && deg[x] == 0 then 1 else 0
  {
    CopiesCount(calls, x);
  }

  lemma CountsOnce(s: seq<string>)
    requires forall x :: multiset(s)[x] <= 1
    ensures NoDup(s)
  {
    forall i, j | 0 <= i < j < |s| ensures s[i] != s[j] {
      var front, back := s[..i + 1], s[i + 1..];
      assert s == front + back && s[i] == front[i] && s[j] == back[j - i - 1];
      assert multiset(s)[s[i]] == multiset(front)[s[i]] + multiset(back)[s[i]] && s[i] in front && s[j] in back;
    }
  }

  /** Without a repeated root, whatever waits in the queue waits for nothing that was not popped. */
  lemma QueueIsReady(calls: seq<ToolCallItem>, deg: map<string, nat>, popped: seq<string>, queue: seq<string>)
    requires Drained(calls, deg, popped, queue) && !RepeatedRoot(calls)
    ensures forall x <- queue :: forall d <- AllBlockers(calls, x) :: d in popped
  {
    hide AllBlockers, Hits, Copies, Pending;
    forall x, d | x in queue && d in AllBlockers(calls, x) ensures d in popped {
      var bs := AllBlockers(calls, x);
      assert multiset(popped + queue)[x] > 0;
      forall b | b in bs ensures multiset(popped)[b] <= 1 {
        EntryIsListed(calls, x, b);
        assert multiset(popped + queue)[b] >= multiset(popped)[b];
      }
      HitsPending(bs, popped);
      PendingZero(bs, Elems(popped));
    }
  }

  /** Each layer waits only for the layers before it. */
  ghost predicate Layered(calls: seq<ToolCallItem>, layers: seq<seq<string>>) {
    forall n :: 0 <= n < |layers| ==> WaitsFor(calls, layers[n], Concat(layers[..n]))
  }

  ghost predicate WaitsFor(calls: seq<ToolCallItem>, layer: seq<string>, before: seq<string>) {
    forall x <- layer :: forall d <- AllBlockers(calls, x) :: d in before
  }

  lemma LayeredSnoc(calls: seq<ToolCallItem>, layers: seq<seq<string>>, queue: seq<string>)
    requires Layered(calls, layers) && WaitsFor(calls, queue, Concat(layers))
    ensures Layered(calls, layers + [queue])
  {
    hide WaitsFor;
    var more := layers + [queue];
    forall n | 0 <= n < |more| ensures WaitsFor(calls, more[n], Concat(more[..n])) {
      assert more[..n] == layers[..n];
      assert n == |layers| ==> layers[..n] == layers;
    }
  }

  /** One layer after the other, and distinct ids drained as far as `Settled` says. */
  ghost predicate Sorting(calls: seq<ToolCallItem>, layers: seq<seq<string>>, deg: map<string, nat>,
                          popped: seq<string>, queue: seq<string>)
  {
    && Drained(calls, deg, popped, queue) && popped == Concat(layers)
    && (!RepeatedRoot(calls) ==> Layered(calls, layers))
    && (DistinctIds(calls) ==> AreLayers(calls, layers) && Elems(popped) == Settled(calls, |layers|))
  }

  ghost function Concat(layers: seq<seq<string>>): seq<string> {
    if layers == [] then [] else Concat(layers[..|layers| - 1]) + layers[|layers| - 1]
  }

  lemma NextSorting(calls: seq<ToolCallItem>, layers: seq<seq<string>>, deg0: map<string, nat>, popped: seq<string>,
                    queue: seq<string>, deg: map<string, nat>, next: seq<string>)
    requires Sorting(calls, layers, deg0, popped, queue) && queue != []
    requires Drained(calls, deg, popped + queue, next)
    ensures Sorting(calls, layers + [queue], deg, popped + queue, next)
  {
    hide Settled, Drained, IsLayer, Layered, RepeatedRoot;
    assert (layers + [queue])[..|layers|] == layers;
    if !RepeatedRoot(calls) {
      QueueIsReady(calls, deg0, popped, queue);
      LayeredSnoc(calls, layers, queue);
    }
    if DistinctIds(calls) {
      DrainedIsAtLayer(calls, deg0, popped, queue, |layers|);
      LayersSnoc(calls, layers, queue);
      SettledGrows(calls, |layers|, |layers| + 1);
      assert Elems(popped + queue) == Elems(popped) + Elems(queue);
    }
  }

  /** Each root stands in the first layer as often as calls carry its id, every other id at most once. */
  ghost predicate Enters(calls: seq<ToolCallItem>, layers: seq<seq<string>>) {
    && (forall x :: multiset(Concat(layers))[x] <= if AllBlockers(calls, x) == [] then Copies(calls, x) else 1)
    && (forall x <- Concat(layers) :: x in Ids(calls))
    && forall x <- Ids(calls) :: AllBlockers(calls, x) == [] ==>
          layers != [] && multiset(layers[0])[x] == Copies(calls, x)
  }

  /**
   * Sorts into layers; without a result if a count would fall below zero. If the calls can be ordered at all, that
   * happens exactly for a repeated root; if not, every id is in a layer, after everything its calls wait for. With
   * distinct ids the layers are layers 0, 1, 2, … in order, until every id is in one.
   */
  method KahnSort(calls: seq<ToolCallItem>, inDegree: map<string, nat>) returns (r: Option<seq<seq<string>>>)
    requires Counted(calls, inDegree)
    ensures r.None? ==> RepeatedRoot(calls)
    ensures Orderable(calls) ==> (r.None? <==> RepeatedRoot(calls))
    ensures r.Some? ==> Enters(calls, r.value) && (!RepeatedRoot(calls) ==> Layered(calls, r.value))
    ensures r.Some? && Orderable(calls) ==> Elems(Concat(r.value)) == Ids(calls)
    ensures WellFormed(calls) ==>
              r.Some? && AreLayers(calls, r.value) && Settled(calls, |r.value|) == Ids(calls)
  {
    hide AllBlockers, Copies, Drained, IsLayer, Settled, HasCycle, KnownBlockers, Orderable, DistinctIds, RepeatedRoot,
        Reverses, Enters, Layered, Falling, Positive;
    var deg := inDegree;
    var queue := InitialQueue(calls, deg);
    var dependents := BuildDependents(calls);
    var layers := [];
    ghost var popped := [];
    ghost var first := queue;
    NoRepeatsNoRoot(calls);
    NothingSorted(calls, deg, queue);

    while queue != []
      invariant Sorting(calls, layers, deg, popped, queue)
      invariant if layers == [] then queue == first else layers[0] == first
      decreases Positive(deg), |queue|
    {
      var step := ReleaseLayer(calls, queue, dependents, deg, popped);
      if step.None? {
        return None;
      }
      NextSorting(calls, layers, deg, popped, queue, step.value.0, step.value.1);
      Shrinks(deg, step.value.0, step.value.1);
      layers, popped := layers + [queue], popped + queue;
      deg, queue := step.value.0, step.value.1;
    }
    SortedEnters(calls, layers, deg, popped, first);
    if Orderable(calls) {
      RepeatedIsNotDrained(calls, deg, popped);
      OrderedArePopped(calls, deg, popped);
    }
    if WellFormed(calls) {
      DrainedIsAtLayer(calls, deg, popped, [], |layers|);
      QueueEmptyMeansAll(calls, |layers|);
    }
    r := Some(layers);
  }

  lemma NothingSorted(calls: seq<ToolCallItem>, deg: map<string, nat>, queue: seq<string>)
    requires Drained(calls, deg, [], queue)
    ensures Sorting(calls, [], deg, [], queue)
  {
    hide Drained;
  }

  lemma NoRepeatsNoRoot(calls: seq<ToolCallItem>)
    ensures DistinctIds(calls) ==> !RepeatedRoot(calls)
  {
    if DistinctIds(calls) && RepeatedRoot(calls) {
      var r :| Copies(calls, r) > 1 && AllBlockers(calls, r) == [] && IsListed(calls, r);
      CopiesCount(calls, r);
    }
  }

  lemma SortedEnters(calls: seq<ToolCallItem>, layers: seq<seq<string>>, deg: map<string, nat>, popped: seq<string>,
                     first: seq<string>)
    requires Sorting(calls, layers, deg, popped, [])
    requires if layers == [] then first == [] else layers[0] == first
    requires forall x :: multiset(first)[x] == if AllBlockers(calls, x) == [] then Copies(calls, x) else 0
    ensures Enters(calls, layers)
  {
    hide AllBlockers, Copies, Hits, Concat, IsLayer, Settled, Layered;
    assert popped + [] == popped;
    forall x | x in popped ensures x in Ids(calls) {
      assert multiset(popped)[x] > 0;
    }
    forall x ensures x in Ids(calls) <==> Copies(calls, x) > 0 {
      CopiesCount(calls, x);
    }
  }

  /** The ids whose degree is not zero. */
  ghost function Positive(deg: map<string, nat>): set<string> {
    set x | x in deg && deg[x] > 0
  }

  lemma Shrinks(deg0: map<string, nat>, deg: map<string, nat>, next: seq<string>)
    requires Falling(deg0, deg, next)
    ensures Positive(deg) <= Positive(deg0) && (next != [] ==> Positive(deg) < Positive(deg0))
  {
    if next != [] {
      assert next[0] in Positive(deg0) && next[0] !in Positive(deg);
    }
  }

  lemma {:induction false} QueueEmptyMeansAll(calls: seq<ToolCallItem>, n: nat)
    requires WellFormed(calls) && Settled(calls, n + 1) - Settled(calls, n) == {}
    ensures Settled(calls, n) == Ids(calls)
  {
    var k := n + |Ids(calls)|;
    NothingNew(calls, n);
    SettledStable(calls, n, k);
    AcyclicSettles(calls, k);
  }

  lemma {:induction false} NothingNew(calls: seq<ToolCallItem>, n: nat)
    requires Settled(calls, n + 1) - Settled(calls, n) == {}
    ensures Settled(calls, n + 1) == Settled(calls, n)
  {
    SettledGrows(calls, n, n + 1);
    SameSet(Settled(calls, n), Settled(calls, n + 1));
  }

  lemma SameSet(a: set<string>, b: set<string>)
    requires a <= b && b - a == {}
    ensures a == b
  {
    forall x | x in b ensures x in a {
      assert x !in b - a;
    }
  }
}
