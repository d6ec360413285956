/** Running a validated tool call set layer by layer and cancelling what a failure reaches. */
module Executor {
  import opened Wrappers
  import opened Seqs
  import opened Dag
  import Kahn

  datatype Status = Success | Error | Cancelled

  datatype ToolResultItem = ToolResultItem(
    callId: string,
    name: string,
    status: Status,
    result: Json,
    error: Option<string>)

  datatype ToolCallSet = ToolCallSet(sessionId: string, calls: seq<ToolCallItem>, timeoutMs: Option<nat>)

  datatype ToolResultSet = ToolResultSet(sessionId: string, results: seq<ToolResultItem>)

  /** How one invocation of a tool ends, and after how long. */
  datatype Finish = Returned(value: Json) | Failed(message: string) | Panicked(text: Option<string>)
  datatype ToolRun = ToolRun(finish: Finish, millis: nat)

  /** A tool is an oracle: since a call runs at most once, its answer may depend on anything. */
  type Tool = ToolCallItem -> ToolRun

  // ── One call ────────────────────────────────────────────────────────

  function ErrorItem(call: ToolCallItem, message: string): ToolResultItem {
    ToolResultItem(call.id, call.tool, Error, Null, Some(message))
  }

  function CancelledItem(call: ToolCallItem, message: string): ToolResultItem {
    ToolResultItem(call.id, call.tool, Cancelled, Null, Some(message))
  }

  /** It took longer than the set allows. */
  ghost predicate IsLate(run: ToolRun, timeoutMs: Option<nat>) {
    timeoutMs.Some? && run.millis > timeoutMs.value
  }

  /** The tool exists, and returned in time. */
  ghost predicate Returns(call: ToolCallItem, tools: map<string, Tool>, timeoutMs: Option<nat>) {
    call.tool in tools && !IsLate(tools[call.tool](call), timeoutMs) && tools[call.tool](call).finish.Returned?
  }

  /**
   * What a call that is run reports: a success with the value its tool returned in time; cancelled, for a timeout, if
   * it took longer; an error with the tool's message, with its panic's text, or because there is no such tool.
   */
  ghost predicate Reports(call: ToolCallItem, tools: map<string, Tool>, timeoutMs: Option<nat>, item: ToolResultItem) {
    && item.callId == call.id && item.name == call.tool
    && if call.tool !in tools then
         item.status == Error && item.result == Null && item.error == Some("tool not found: " + call.tool)
       else
         var run := tools[call.tool](call);
         if IsLate(run, timeoutMs) then item.status == Cancelled && item.result == Null && item.error == Some("timeout")
         else
           match run.finish
           case Returned(v) => item.status == Success && item.result == v && item.error == None
           case Failed(m) => item.status == Error && item.result == Null && item.error == Some(m)
           case Panicked(Some(text)) => item.status == Error && item.result == Null
              && item.error == Some("panic: " + text)
           case Panicked(None) => item.status == Error && item.result == Null && item.error == Some("panic: <unknown>")
  }

  /** The status tells how the run ended, and a success its value. */
  lemma ReportsIff(call: ToolCallItem, tools: map<string, Tool>, timeoutMs: Option<nat>, item: ToolResultItem, v: Json)
    requires Reports(call, tools, timeoutMs, item)
    ensures item.status == Success <==> Returns(call, tools, timeoutMs)
    ensures item.status == Success && item.result == v <==>
            Returns(call, tools, timeoutMs) && tools[call.tool](call).finish == Returned(v)
    ensures item.status == Cancelled <==> call.tool in tools && IsLate(tools[call.tool](call), timeoutMs)
    ensures item.status == Error <==>
            call.tool !in tools || (!IsLate(tools[call.tool](call), timeoutMs)
                                    && !tools[call.tool](call).finish.Returned?)
  {
  }

  function ExecuteOne(call: ToolCallItem, tools: map<string, Tool>, timeoutMs: Option<nat>): (r: ToolResultItem)
    ensures Reports(call, tools, timeoutMs, r)
  {
    if call.tool !in tools then ErrorItem(call, "tool not found: " + call.tool)
    else
      var run := tools[call.tool](call);
      if timeoutMs.Some? && run.millis > timeoutMs.value then CancelledItem(call, "timeout")
      else
        match run.finish
        case Returned(v) => ToolResultItem(call.id, call.tool, Success, v, None)
        case Failed(m) => ErrorItem(call, m)
        case Panicked(Some(t)) => ErrorItem(call, "panic: " + t)
        case Panicked(None) => ErrorItem(call, "panic: <unknown>")
  }

  function ErrorAll(calls: seq<ToolCallItem>, message: string): (r: seq<ToolResultItem>)
    ensures |r| == |calls|
    ensures forall i :: 0 <= i < |calls| ==> r[i] == ErrorItem(calls[i], message)
  {
    seq(|calls|, i requires 0 <= i < |calls| => ErrorItem(calls[i], message))
  }

  // ── Lock validation ─────────────────────────────────────────────────

  /** Whoever a call says it blocks says, in turn, that it is blocked by that call. */
  ghost predicate LocksConsistent(calls: seq<ToolCallItem>) {
    forall a <- calls :: forall b <- a.blocking :: b in Ids(calls) ==> a.id in Blockers(calls, b)
  }

  method ValidateBidirectionalLock(calls: seq<ToolCallItem>) returns (r: Option<seq<ToolResultItem>>)
    ensures r.None? <==> LocksConsistent(calls)
    ensures r.Some? ==> exists message :: r.value == ErrorAll(calls, message)
  {
    for i := 0 to |calls|
      invariant forall m :: 0 <= m < i ==>
        forall b <- calls[m].blocking :: b in Ids(calls) ==> calls[m].id in Blockers(calls, b)
    {
      var a := calls[i];
      for j := 0 to |a.blocking|
        invariant forall m :: 0 <= m < j ==>
          a.blocking[m] in Ids(calls) ==> a.id in Blockers(calls, a.blocking[m])
      {
        var bId := a.blocking[j];
        var b := Find(calls, bId);
        if b.Some? && a.id !in b.value.blockedBy {
          assert a in calls && bId in a.blocking;
          return Some(ErrorAll(calls,
            "inconsistent lock: '" + a.id + "' .blocking includes '" + bId + "' but '" + bId +
            "' .blocked_by does not include '" + a.id + "'"));
        }
      }
    }
    return None;
  }

  // ── What a call set is supposed to do ───────────────────────────────

  /** The result of actually running call `id`. */
  function Outcome(cs: ToolCallSet, tools: map<string, Tool>, id: string): (r: ToolResultItem)
    requires id in Ids(cs.calls)
    ensures Reports(Find(cs.calls, id).value, tools, cs.timeoutMs, r)
    ensures r.status == Success <==> Succeeds(cs, tools, id)
  {
    ExecuteOne(Find(cs.calls, id).value, tools, cs.timeoutMs)
  }

  /** The call with this id is there, and its tool returns in time. */
  ghost predicate Succeeds(cs: ToolCallSet, tools: map<string, Tool>, id: string) {
    id in Ids(cs.calls) && Returns(Find(cs.calls, id).value, tools, cs.timeoutMs)
  }

  ghost predicate AllSucceed(cs: ToolCallSet, tools: map<string, Tool>, ids: set<string>) {
    forall id <- ids :: Succeeds(cs, tools, id)
  }

  /** A call is due iff every call of a lower layer succeeds. */
  ghost predicate Due(cs: ToolCallSet, tools: map<string, Tool>, id: string) {
    exists n :: InLayer(cs.calls, id, n) && AllSucceed(cs, tools, Settled(cs.calls, n))
  }

  ghost predicate Failing(cs: ToolCallSet, tools: map<string, Tool>, id: string) {
    Due(cs, tools, id) && !Succeeds(cs, tools, id)
  }

  /** A walk along `blocking`. */
  ghost predicate IsBlockingPath(calls: seq<ToolCallItem>, p: seq<string>) {
    && |p| > 0
    && forall i :: 0 <= i < |p| - 1 ==> p[i + 1] in Blocks(calls, p[i])
  }

  ghost predicate LeadsTo(calls: seq<ToolCallItem>, p: seq<string>, u: string, v: string) {
    IsBlockingPath(calls, p) && |p| > 1 && p[0] == u && p[|p| - 1] == v
  }

  /** Some failing call blocks `id`, directly or through others. */
  ghost predicate DownstreamOfFailure(cs: ToolCallSet, tools: map<string, Tool>, id: string) {
    exists p, u :: Failing(cs, tools, u) && LeadsTo(cs.calls, p, u, id)
  }

  const UPSTREAM_FAILED := "cancelled: upstream dependency failed"

  function UpstreamFailed(id: string): string {
    "cancelled: upstream dependency '" + id + "' failed"
  }

  // ── Cascade ─────────────────────────────────────────────────────────

  predicate NonSuccess(table: map<string, ToolResultItem>, id: string) {
    id in table && table[id].status != Success
  }

  function ToolOf(calls: seq<ToolCallItem>, id: string): string {
    match Find(calls, id)
    case Some(c) => c.tool
    case None => ""
  }

  /** An entry the cascade may add: cancelled because of a direct upstream that did not succeed. */
  ghost predicate CascadedFrom(calls: seq<ToolCallItem>, table: map<string, ToolResultItem>, id: string, up: string) {
    && NonSuccess(table, up)
    && id in Blocks(calls, up)
    && id in table
    && table[id] == ToolResultItem(id, ToolOf(calls, id), Cancelled, Null, Some(UpstreamFailed(up)))
  }

  /** A walk along `blocking` from a call that had failed before the cascade began. */
  ghost predicate FromSeed(calls: seq<ToolCallItem>, table: map<string, ToolResultItem>, id: string, p: seq<string>) {
    |p| > 0 && NonSuccess(table, p[0]) && LeadsTo(calls, p, p[0], id)
  }

  /** For each entry the cascade added: the upstream it names, and a walk from an original failure. */
  datatype Reason = Reason(up: string, route: seq<string>)

  /** `table` extends `table0` by properly justified cancellations only. */
  ghost predicate Extends(calls: seq<ToolCallItem>, table0: map<string, ToolResultItem>,
                          table: map<string, ToolResultItem>, why: map<string, Reason>)
  {
    && table.Keys == table0.Keys + why.Keys
    && (forall id :: id in table0 ==> id !in why && table[id] == table0[id])
    && (forall id :: id in why ==> CascadedFrom(calls, table, id, why[id].up))
    && (forall id :: id in why ==> FromSeed(calls, table0, id, why[id].route))
  }

  /** Every call blocked by `id` has an entry. */
  ghost predicate Expanded(calls: seq<ToolCallItem>, table: map<string, ToolResultItem>, id: string) {
    forall k <- Blocks(calls, id) :: k in table
  }

  ghost function Mentioned(calls: seq<ToolCallItem>): set<string> {
    set c, k | c in calls && k in c.blocking :: k
  }

  lemma {:induction false} BlocksAreMentioned(calls: seq<ToolCallItem>, id: string)
    ensures forall k <- Blocks(calls, id) :: k in Mentioned(calls)
  {
  }

  lemma {:induction false} RouteOneMore(calls: seq<ToolCallItem>, table: map<string, ToolResultItem>,
                                        p: seq<string>, u: string, k: string)
    requires FromSeed(calls, table, u, p) && k in Blocks(calls, u)
    ensures FromSeed(calls, table, k, p + [k])
  {
    var q := p + [k];
    forall i | 0 <= i < |q| - 1 ensures q[i + 1] in Blocks(calls, q[i]) {
      if i < |p| - 1 {
        assert p[i + 1] in Blocks(calls, p[i]);
      }
    }
  }

  ghost function ReasonFor(why: map<string, Reason>, up: string, k: string): Reason {
    Reason(up, if up in why then why[up].route + [k] else [up, k])
  }

  method Seeds(calls: seq<ToolCallItem>, table: map<string, ToolResultItem>) returns (queue: seq<string>)
    ensures forall id :: id in queue <==> id in Ids(calls) && NonSuccess(table, id)
  {
    queue := [];
    for i := 0 to |calls|
      invariant forall id :: id in queue <==> id in Ids(calls[..i]) && NonSuccess(table, id)
    {
      assert calls[..i + 1] == calls[..i] + [calls[i]];
      if NonSuccess(table, calls[i].id) {
        queue := queue + [calls[i].id];
      }
    }
    assert calls[..|calls|] == calls;
  }

  lemma {:induction false} ExtendsByOne(calls: seq<ToolCallItem>, table0: map<string, ToolResultItem>,
                                        table: map<string, ToolResultItem>, why: map<string, Reason>,
                                        up: string, k: string, item: ToolResultItem)
    requires Extends(calls, table0, table, why) && NonSuccess(table, up)
    requires k in Blocks(calls, up) && k !in table
    requires item == ToolResultItem(k, ToolOf(calls, k), Cancelled, Null, Some(UpstreamFailed(up)))
    ensures Extends(calls, table0, table[k := item], why[k := ReasonFor(why, up, k)])
  {
    var more, reason := table[k := item], ReasonFor(why, up, k);
    assert FromSeed(calls, table0, k, reason.route) by {
      if up in why {
        RouteOneMore(calls, table0, why[up].route, up, k);
      } else {
        assert reason.route == [up, k];
      }
    }
    assert CascadedFrom(calls, more, k, up);
    forall id | id in why
      ensures CascadedFrom(calls, more, id, why[id].up)
      ensures FromSeed(calls, table0, id, why[id].route)
    {
      assert CascadedFrom(calls, table, id, why[id].up);
    }
    AddReason(calls, table0, more, why, k, reason);
  }

  lemma {:induction false} AddReason(calls: seq<ToolCallItem>, table0: map<string, ToolResultItem>,
                                     table: map<string, ToolResultItem>, why: map<string, Reason>,
                                     k: string, reason: Reason)
    requires table.Keys == table0.Keys + why.Keys + {k} && k !in table0 && k !in why
    requires forall id :: id in table0 ==> id !in why && table[id] == table0[id]
    requires forall id :: id in why ==>
               CascadedFrom(calls, table, id, why[id].up) && FromSeed(calls, table0, id, why[id].route)
    requires CascadedFrom(calls, table, k, reason.up) && FromSeed(calls, table0, k, reason.route)
    ensures Extends(calls, table0, table, why[k := reason])
  {
    var more := why[k := reason];
    assert more.Keys == why.Keys + {k};
    forall id | id in more
      ensures CascadedFrom(calls, table, id, more[id].up)
      ensures FromSeed(calls, table0, id, more[id].route)
    {
      if id != k {
        assert more[id] == why[id];
      }
    }
  }

  /** Adds cancelled entries for what `id` blocks; returns those newly added. */
  method CancelBlocked(calls: seq<ToolCallItem>, id: string, table1: map<string, ToolResultItem>,
                       ghost table0: map<string, ToolResultItem>, ghost why1: map<string, Reason>)
    returns (table: map<string, ToolResultItem>, added: seq<string>, ghost why: map<string, Reason>)
    requires Extends(calls, table0, table1, why1) && NonSuccess(table1, id)
    ensures Extends(calls, table0, table, why)
    ensures table.Keys == table1.Keys + Elems(added) && Elems(added) !! table1.Keys
    ensures Elems(added) <= Mentioned(calls)
    ensures forall k :: k in table1 ==> table[k] == table1[k]
    ensures forall k <- added :: NonSuccess(table, k)
    ensures Expanded(calls, table, id)
  {
    table, added, why := table1, [], why1;
    var blocked := Blocks(calls, id);
    for i := 0 to |blocked|
      invariant Extends(calls, table0, table, why)
      invariant Grown(table1, table, added)
      invariant Elems(added) <= Elems(blocked[..i]) <= table.Keys
    {
      var k := blocked[i];
      assert blocked[..i + 1] == blocked[..i] + [k];
      if k !in table {
        var item := ToolResultItem(k, ToolOf(calls, k), Cancelled, Null, Some(UpstreamFailed(id)));
        ExtendsByOne(calls, table0, table, why, id, k, item);
        GrownByOne(table1, table, added, k, item);
        why := why[k := ReasonFor(why, id, k)];
        table := table[k := item];
        added := added + [k];
      }
    }
    assert blocked[..|blocked|] == blocked;
    BlocksAreMentioned(calls, id);
  }

  /** `added` are the keys of the entries that came on top, none of them a success. */
  ghost predicate Grown(before: map<string, ToolResultItem>, after: map<string, ToolResultItem>, added: seq<string>) {
    && after.Keys == before.Keys + Elems(added) && Elems(added) !! before.Keys
    && (forall k :: k in before ==> after[k] == before[k])
    && (forall k <- added :: NonSuccess(after, k))
  }

  lemma {:induction false} GrownByOne(before: map<string, ToolResultItem>, after: map<string, ToolResultItem>,
                                      added: seq<string>,
                                      k: string, item: ToolResultItem)
    requires Grown(before, after, added) && k !in after && item.status != Success
    ensures Grown(before, after[k := item], added + [k]) && Elems(added + [k]) == Elems(added) + {k}
  {
    assert Elems(added + [k]) == Elems(added) + {k};
  }

  /** Whatever is not queued has been expanded. */
  ghost predicate Covered(calls: seq<ToolCallItem>, table: map<string, ToolResultItem>, queue: seq<string>) {
    forall id :: NonSuccess(table, id) && id in Ids(calls) && id !in queue ==> Expanded(calls, table, id)
  }

  lemma {:induction false} StillCovered(calls: seq<ToolCallItem>, before: map<string, ToolResultItem>,
                                        after: map<string, ToolResultItem>, queue: seq<string>, added: seq<string>)
    requires queue != [] && Covered(calls, before, queue)
    requires after.Keys == before.Keys + Elems(added) && forall k :: k in before ==> after[k] == before[k]
    requires Expanded(calls, after, queue[0])
    ensures Covered(calls, after, queue[1..] + added)
  {
    forall id | NonSuccess(after, id) && id in Ids(calls) && id !in queue[1..] + added
      ensures Expanded(calls, after, id)
    {
      assert id !in added && id in before;
      if id != queue[0] {
        assert queue == [queue[0]] + queue[1..];
        assert Expanded(calls, before, id);
      }
    }
  }

  /**
   * Breadth-first along `blocking` from every call that did not succeed: existing entries stay,
   * every addition is justified, and no call that did not succeed is left unexpanded.
   */
  method CascadeCancel(calls: seq<ToolCallItem>, table0: map<string, ToolResultItem>)
    returns (table: map<string, ToolResultItem>, ghost why: map<string, Reason>)
    ensures Extends(calls, table0, table, why)
    ensures Covered(calls, table, [])
  {
    table, why := table0, map[];
    var queue := Seeds(calls, table0);
    ghost var todo := Mentioned(calls) - table.Keys;
    while queue != []
      invariant Extends(calls, table0, table, why)
      invariant todo == Mentioned(calls) - table.Keys
      invariant forall id <- queue :: NonSuccess(table, id)
      invariant Covered(calls, table, queue)
      decreases todo, |queue|
    {
      var failed := queue[0];
      ghost var before := table;
      var added;
      table, added, why := CancelBlocked(calls, failed, table, table0, why);
      StillCovered(calls, before, table, queue, added);
      forall id | id in queue[1..] ensures NonSuccess(table, id) {
        assert id in queue;
      }
      queue := queue[1..] + added;
      todo := Mentioned(calls) - table.Keys;
      assert added != [] ==> added[0] in Elems(added);
    }
  }

  // ── Layers ──────────────────────────────────────────────────────────

  /** The tools of one layer start in any order, one per entry; results come back in layer order. */
  method RunLayer(cs: ToolCallSet, tools: map<string, Tool>, layer: seq<string>)
    returns (items: seq<ToolResultItem>, started: seq<string>)
    requires forall id <- layer :: id in Ids(cs.calls)
    ensures |items| == |layer|
    ensures forall i :: 0 <= i < |layer| ==> items[i] == Outcome(cs, tools, layer[i])
    ensures StartedFrom(cs, tools, layer, started)
  {
    hide Outcome, ToolOf, Reports, Succeeds, Find;
    items := [];
    var waiting := [];
    for i := 0 to |layer|
      invariant |items| == i
      invariant forall m :: 0 <= m < i ==> items[m] == Outcome(cs, tools, layer[m])
      invariant StartedFrom(cs, tools, layer[..i], waiting)
    {
      assert layer[..i + 1] == layer[..i] + [layer[i]];
      items := items + [Outcome(cs, tools, layer[i])];
      if ToolOf(cs.calls, layer[i]) in tools {
        waiting := waiting + [layer[i]];
      }
    }
    assert layer[..|layer|] == layer;
    var pending := multiset(waiting);
    started := [];
    while pending != multiset{}
      invariant multiset(started) + pending == multiset(waiting)
      decreases |pending|
    {
      var id :| id in pending;
      started := started + [id];
      pending := pending - multiset{id};
    }
  }

  /** One tool per entry of the layer, if there is such a tool. */
  ghost predicate StartedFrom(cs: ToolCallSet, tools: map<string, Tool>, layer: seq<string>, started: seq<string>) {
    forall x :: multiset(started)[x] == if ToolOf(cs.calls, x) in tools then multiset(layer)[x] else 0
  }

  /** Every entry is what running that call gives. */
  ghost predicate HoldsOutcomes(cs: ToolCallSet, tools: map<string, Tool>, completed: map<string, ToolResultItem>) {
    && completed.Keys <= Ids(cs.calls)
    && forall id :: id in completed ==> completed[id] == Outcome(cs, tools, id)
  }

  /** Records a layer's results; true if one of them is not a success. */
  method Record(cs: ToolCallSet, tools: map<string, Tool>, items: seq<ToolResultItem>, ghost layer: seq<string>,
                completed0: map<string, ToolResultItem>)
    returns (completed: map<string, ToolResultItem>, anyFailed: bool)
    requires HoldsOutcomes(cs, tools, completed0)
    requires forall id <- layer :: id in Ids(cs.calls)
    requires |items| == |layer| && forall i :: 0 <= i < |layer| ==> items[i] == Outcome(cs, tools, layer[i])
    ensures HoldsOutcomes(cs, tools, completed)
    ensures completed.Keys == completed0.Keys + Elems(layer)
    ensures anyFailed <==> !AllSucceed(cs, tools, Elems(layer))
  {
    hide Outcome, Succeeds, AllSucceed, HoldsOutcomes;
    completed, anyFailed := completed0, false;
    assert AllSucceed(cs, tools, Elems([])) by { NothingFails(cs, tools); }
    for i := 0 to |items|
      invariant HoldsOutcomes(cs, tools, completed)
      invariant completed.Keys == completed0.Keys + Elems(layer[..i])
      invariant anyFailed <==> !AllSucceed(cs, tools, Elems(layer[..i]))
    {
      assert layer[..i + 1] == layer[..i] + [layer[i]];
      RecordOne(cs, tools, completed, layer[..i], layer[i]);
      if items[i].status != Success {
        anyFailed := true;
      }
      completed := completed[items[i].callId := items[i]];
    }
    assert layer[..|layer|] == layer;
  }

  lemma NothingFails(cs: ToolCallSet, tools: map<string, Tool>)
    ensures AllSucceed(cs, tools, Elems([]))
  {
  }

  lemma RecordOne(cs: ToolCallSet, tools: map<string, Tool>, completed: map<string, ToolResultItem>,
                  before: seq<string>, id: string)
    requires id in Ids(cs.calls) && HoldsOutcomes(cs, tools, completed)
    ensures var item := Outcome(cs, tools, id);
            && item.callId == id && HoldsOutcomes(cs, tools, completed[id := item])
            && (AllSucceed(cs, tools, Elems(before + [id])) <==>
                AllSucceed(cs, tools, Elems(before)) && item.status == Success)
    ensures Elems(before + [id]) == Elems(before) + {id}
  {
    hide ExecuteOne, Find;
    assert Elems(before + [id]) == Elems(before) + {id};
    assert id in Elems(before + [id]);
  }

  /** Whatever a started tool's calls wait for was started before and succeeded. */
  ghost predicate BlockersFirst(cs: ToolCallSet, tools: map<string, Tool>, invoked: seq<string>) {
    forall i :: 0 <= i < |invoked| ==>
      forall d <- Kahn.AllBlockers(cs.calls, invoked[i]) :: d in invoked[..i] && Succeeds(cs, tools, d)
  }

  /** Exactly the layers `done` have run. */
  ghost predicate Ran(cs: ToolCallSet, tools: map<string, Tool>, done: seq<string>,
                      completed: map<string, ToolResultItem>, invoked: seq<string>)
  {
    && completed.Keys == Elems(done) && HoldsOutcomes(cs, tools, completed) && StartedFrom(cs, tools, done, invoked)
    && (!Kahn.RepeatedRoot(cs.calls) ==> BlockersFirst(cs, tools, invoked))
  }

  lemma {:induction false} SuccessStarts(cs: ToolCallSet, tools: map<string, Tool>, id: string)
    requires Succeeds(cs, tools, id)
    ensures ToolOf(cs.calls, id) in tools
  {
  }

  /** Starting a layer that waits only for what ran, all of it with success, keeps the order. */
  lemma StartsInOrder(cs: ToolCallSet, tools: map<string, Tool>, done: seq<string>, layer: seq<string>,
                      invoked: seq<string>, started: seq<string>)
    requires Kahn.WaitsFor(cs.calls, layer, done) && AllSucceed(cs, tools, Elems(done))
    requires StartedFrom(cs, tools, done, invoked) && StartedFrom(cs, tools, layer, started)
    requires BlockersFirst(cs, tools, invoked)
    ensures BlockersFirst(cs, tools, invoked + started)
  {
    hide Kahn.AllBlockers, Succeeds, ToolOf;
    var all := invoked + started;
    forall i, d | 0 <= i < |all| && d in Kahn.AllBlockers(cs.calls, all[i])
      ensures d in all[..i] && Succeeds(cs, tools, d)
    {
      if i < |invoked| {
        assert all[..i] == invoked[..i] && all[i] == invoked[i];
      } else {
        assert all[i] == started[i - |invoked|] && multiset(started)[all[i]] > 0;
        assert all[i] in layer && d in done && d in Elems(done);
        SuccessStarts(cs, tools, d);
        assert multiset(invoked)[d] > 0;
        assert all[..i] == invoked + started[..i - |invoked|];
      }
    }
  }

  /** One turn of the layer loop. */
  method RunNext(cs: ToolCallSet, tools: map<string, Tool>, layer: seq<string>, ghost done: seq<string>,
                 completed0: map<string, ToolResultItem>, invoked0: seq<string>)
    returns (completed: map<string, ToolResultItem>, invoked: seq<string>, anyFailed: bool)
    requires forall id <- layer :: id in Ids(cs.calls)
    requires !Kahn.RepeatedRoot(cs.calls) ==> Kahn.WaitsFor(cs.calls, layer, done)
    requires Ran(cs, tools, done, completed0, invoked0) && AllSucceed(cs, tools, Elems(done))
    ensures Ran(cs, tools, done + layer, completed, invoked)
    ensures anyFailed <==> !AllSucceed(cs, tools, Elems(done + layer))
  {
    hide Kahn.RepeatedRoot, Kahn.WaitsFor, BlockersFirst, Succeeds;
    var items, started := RunLayer(cs, tools, layer);
    if !Kahn.RepeatedRoot(cs.calls) {
      StartsInOrder(cs, tools, done, layer, invoked0, started);
    }
    invoked := invoked0 + started;
    completed, anyFailed := Record(cs, tools, items, layer, completed0);
    assert Elems(done + layer) == Elems(done) + Elems(layer);
  }

  // ── End to end ──────────────────────────────────────────────────────

  /** What the set must satisfy for any tool to run. */
  ghost predicate Runnable(calls: seq<ToolCallItem>) {
    LocksConsistent(calls) && KnownBlockers(calls) && !HasCycle(calls)
  }

  /** The call was cancelled, and the answer says because of whom. */
  ghost predicate Blames(call: ToolCallItem, up: string, item: ToolResultItem) {
    && item.callId == call.id && item.name == call.tool && item.status == Cancelled && item.result == Null
    && item.error == Some("cancelled: upstream dependency '" + up + "' failed")
  }

  /** The result call `id` is owed. */
  ghost predicate Owed(cs: ToolCallSet, tools: map<string, Tool>, call: ToolCallItem, item: ToolResultItem)
    requires call.id in Ids(cs.calls)
  {
    if Due(cs, tools, call.id) then
      Reports(call, tools, cs.timeoutMs, item)
    else if DownstreamOfFailure(cs, tools, call.id) then
      exists up :: BlamedOn(cs, tools, call.id, up) && Blames(call, up, item)
    else
      item == CancelledItem(call, UPSTREAM_FAILED)
  }

  /** `up` blocks `id` directly and itself failed or was cancelled because of a failure. */
  ghost predicate BlamedOn(cs: ToolCallSet, tools: map<string, Tool>, id: string, up: string) {
    && id in Blocks(cs.calls, up)
    && (Failing(cs, tools, up) || (!Due(cs, tools, up) && DownstreamOfFailure(cs, tools, up)))
  }

  /** With the first failures in layer `f`, the due calls are those of layers 0 to `f`. */
  lemma {:induction false} DueUpTo(cs: ToolCallSet, tools: map<string, Tool>, f: nat, id: string)
    requires AllSucceed(cs, tools, Settled(cs.calls, f))
    requires !AllSucceed(cs, tools, Settled(cs.calls, f + 1))
    ensures Due(cs, tools, id) <==> id in Settled(cs.calls, f + 1)
  {
    if id in Settled(cs.calls, f + 1) {
      var n := LayerExistsBelow(cs.calls, id, f + 1);
      SettledGrows(cs.calls, n, f);
    }
    if Due(cs, tools, id) {
      var n: nat :| InLayer(cs.calls, id, n) && AllSucceed(cs, tools, Settled(cs.calls, n));
      DueIsShallow(cs, tools, f, id, n);
    }
  }

  lemma {:induction false} DueIsShallow(cs: ToolCallSet, tools: map<string, Tool>, f: nat, id: string, n: nat)
    requires !AllSucceed(cs, tools, Settled(cs.calls, f + 1))
    requires id in Settled(cs.calls, n + 1) && AllSucceed(cs, tools, Settled(cs.calls, n))
    ensures id in Settled(cs.calls, f + 1)
  {
    if n > f {
      SettledGrows(cs.calls, f + 1, n);
      assert false;
    }
    SettledGrows(cs.calls, n + 1, f + 1);
  }

  lemma {:induction false} DueWithoutFailure(cs: ToolCallSet, tools: map<string, Tool>, n: nat, id: string)
    requires AllSucceed(cs, tools, Settled(cs.calls, n)) && id in Settled(cs.calls, n)
    ensures Due(cs, tools, id)
  {
    var m := LayerExistsBelow(cs.calls, id, n);
    SettledGrows(cs.calls, m, n);
  }

  /** Nothing blocked by a call outside the first `f` layers is inside the first `f + 1`. */
  lemma {:induction false} BlockedIsDeeper(calls: seq<ToolCallItem>, u: string, v: string, f: nat)
    requires DistinctIds(calls) && LocksConsistent(calls)
    requires u !in Settled(calls, f) && v in Blocks(calls, u) && v in Ids(calls)
    ensures v !in Settled(calls, f + 1)
  {
    assert u in Blockers(calls, v);
    SettledStep(calls, v, f);
  }

  /** The facts that hold once the cascade has run after a failure in layer `f`. */
  ghost predicate Cascaded(cs: ToolCallSet, tools: map<string, Tool>, f: nat, completed: map<string, ToolResultItem>,
                           table: map<string, ToolResultItem>, why: map<string, Reason>)
  {
    && DistinctIds(cs.calls) && LocksConsistent(cs.calls)
    && AllSucceed(cs, tools, Settled(cs.calls, f)) && !AllSucceed(cs, tools, Settled(cs.calls, f + 1))
    && completed.Keys == Settled(cs.calls, f + 1) && HoldsOutcomes(cs, tools, completed)
    && Extends(cs.calls, completed, table, why)
    && Covered(cs.calls, table, [])
  }

  lemma {:induction false} SeedsFail(cs: ToolCallSet, tools: map<string, Tool>, f: nat,
                                     completed: map<string, ToolResultItem>, id: string)
    requires AllSucceed(cs, tools, Settled(cs.calls, f)) && !AllSucceed(cs, tools, Settled(cs.calls, f + 1))
    requires completed.Keys == Settled(cs.calls, f + 1) && HoldsOutcomes(cs, tools, completed)
    ensures NonSuccess(completed, id) <==> Failing(cs, tools, id)
  {
    hide Reports, Returns, Settled;
    DueUpTo(cs, tools, f, id);
  }

  /** Everything on a blocking walk from a failing call, past its start, is cancelled. */
  lemma {:induction false} WalkIsCancelled(cs: ToolCallSet, tools: map<string, Tool>, f: nat,
                                           completed: map<string, ToolResultItem>, table: map<string, ToolResultItem>,
                                           why: map<string, Reason>, p: seq<string>, k: nat)
    requires Cascaded(cs, tools, f, completed, table, why)
    requires IsBlockingPath(cs.calls, p) && Failing(cs, tools, p[0]) && k < |p|
    ensures NonSuccess(table, p[k])
    ensures p[k] !in Settled(cs.calls, f)
    ensures k > 0 ==> p[k] !in completed
    decreases k
  {
    hide Settled, Covered, DistinctIds, LocksConsistent, Blocks;
    if k == 0 {
      SeedsFail(cs, tools, f, completed, p[0]);
    } else {
      WalkIsCancelled(cs, tools, f, completed, table, why, p, k - 1);
      assert p[k - 1 + 1] in Blocks(cs.calls, p[k - 1]);
      StepIsCancelled(cs, tools, f, completed, table, why, p[k - 1], p[k]);
    }
  }

  lemma {:induction false} StepIsCancelled(cs: ToolCallSet, tools: map<string, Tool>, f: nat,
                                           completed: map<string, ToolResultItem>, table: map<string, ToolResultItem>,
                                           why: map<string, Reason>, u: string, v: string)
    requires Cascaded(cs, tools, f, completed, table, why)
    requires NonSuccess(table, u) && u !in Settled(cs.calls, f) && v in Blocks(cs.calls, u)
    ensures NonSuccess(table, v) && v !in Settled(cs.calls, f) && v !in completed
  {
    assert u in Ids(cs.calls);
    assert Expanded(cs.calls, table, u);
    if v in Ids(cs.calls) {
      BlockedIsDeeper(cs.calls, u, v, f);
    }
    SettledGrows(cs.calls, f, f + 1);
    assert v in why;
    assert CascadedFrom(cs.calls, table, v, why[v].up);
  }

  lemma {:induction false} CascadeIsExact(cs: ToolCallSet, tools: map<string, Tool>, f: nat,
                                          completed: map<string, ToolResultItem>, table: map<string, ToolResultItem>,
                                          why: map<string, Reason>, id: string)
    requires Cascaded(cs, tools, f, completed, table, why)
    ensures id in why <==> DownstreamOfFailure(cs, tools, id)
    ensures DownstreamOfFailure(cs, tools, id) ==> !Due(cs, tools, id)
  {
    hide Settled, Covered, HoldsOutcomes, DistinctIds, LocksConsistent, Due, AllSucceed, Succeeds;
    if id in why {
      var p := why[id].route;
      SeedsFail(cs, tools, f, completed, p[0]);
      assert LeadsTo(cs.calls, p, p[0], id);
    }
    if DownstreamOfFailure(cs, tools, id) {
      var p, u :| Failing(cs, tools, u) && LeadsTo(cs.calls, p, u, id);
      WalkIsCancelled(cs, tools, f, completed, table, why, p, |p| - 1);
      DueUpTo(cs, tools, f, id);
    }
  }

  lemma {:induction false} AssembledAfterFailure(cs: ToolCallSet, tools: map<string, Tool>, f: nat,
                                                 completed: map<string, ToolResultItem>,
                                                 table: map<string, ToolResultItem>, why: map<string, Reason>, i: nat)
    requires Cascaded(cs, tools, f, completed, table, why) && i < |cs.calls|
    ensures Owed(cs, tools, cs.calls[i], GetOr(table, cs.calls[i].id, CancelledItem(cs.calls[i], UPSTREAM_FAILED)))
  {
    hide Settled, Find, Due, DownstreamOfFailure, LocksConsistent, HasCycle, KnownBlockers, Covered;
    var call := cs.calls[i];
    FindDistinct(cs.calls, i);
    DueUpTo(cs, tools, f, call.id);
    CascadeIsExact(cs, tools, f, completed, table, why, call.id);
    if call.id in why {
      var up := why[call.id].up;
      assert CascadedFrom(cs.calls, table, call.id, up);
      SeedsFail(cs, tools, f, completed, up);
      CascadeIsExact(cs, tools, f, completed, table, why, up);
      assert BlamedOn(cs, tools, call.id, up);
    }
  }

  /** The layers as the sort returns them. */
  ghost predicate Sorted(calls: seq<ToolCallItem>, layers: seq<seq<string>>) {
    && Kahn.Enters(calls, layers) && (!Kahn.RepeatedRoot(calls) ==> Kahn.Layered(calls, layers))
    && (DistinctIds(calls) ==> Kahn.AreLayers(calls, layers) && Settled(calls, |layers|) == Ids(calls))
  }

  /** Runs the layers in order; stops after the first that has a failure and cascades from it. */
  method RunLayers(cs: ToolCallSet, tools: map<string, Tool>, layers: seq<seq<string>>)
    returns (table: map<string, ToolResultItem>, invoked: seq<string>)
    requires Runnable(cs.calls) && Sorted(cs.calls, layers)
    ensures AllAnswered(cs, tools, table) && Started(cs, tools, invoked)
    ensures DistinctIds(cs.calls) ==> EachOwed(cs, tools, table) && InvokedInOrder(cs, tools, invoked)
  {
    hide Runnable, Sorted, Ran, Succeeds, AllSucceed, DistinctIds, AllAnswered, Started, EachOwed, InvokedInOrder,
        Kahn.Concat;
    table, invoked := map[], [];
    ghost var done := [];
    NothingRan(cs, tools);
    for n := 0 to |layers|
      invariant done == Kahn.Concat(layers[..n])
      invariant Ran(cs, tools, done, table, invoked) && AllSucceed(cs, tools, Elems(done))
    {
      LayerFits(cs.calls, layers, n);
      var anyFailed;
      table, invoked, anyFailed := RunNext(cs, tools, layers[n], done, table, invoked);
      done := done + layers[n];
      if anyFailed {
        RanIsStarted(cs, tools, layers, n + 1, table, invoked);
        table := CascadeFrom(cs, tools, layers, n, table, invoked);
        return;
      }
    }
    RanIsStarted(cs, tools, layers, |layers|, table, invoked);
    AllRan(cs, tools, layers, table, invoked);
  }

  lemma NothingRan(cs: ToolCallSet, tools: map<string, Tool>)
    ensures Ran(cs, tools, [], map[], []) && AllSucceed(cs, tools, Elems([])) && Kahn.Concat([]) == []
  {
  }

  lemma LayerFits(calls: seq<ToolCallItem>, layers: seq<seq<string>>, n: nat)
    requires Sorted(calls, layers) && n < |layers|
    ensures forall id <- layers[n] :: id in Ids(calls)
    ensures !Kahn.RepeatedRoot(calls) ==> Kahn.WaitsFor(calls, layers[n], Kahn.Concat(layers[..n]))
    ensures Kahn.Concat(layers[..n + 1]) == Kahn.Concat(layers[..n]) + layers[n]
  {
    hide Kahn.WaitsFor, Kahn.AreLayers, Kahn.RepeatedRoot, Settled, Kahn.AllBlockers, Kahn.Copies;
    assert layers[..n + 1][..n] == layers[..n];
    ConcatStarts(layers, n + 1);
    forall id | id in layers[n] ensures id in Ids(calls) {
      assert id in Kahn.Concat(layers[..n + 1]);
      assert id in Kahn.Concat(layers);
    }
  }

  lemma {:induction false} ConcatStarts(layers: seq<seq<string>>, n: nat)
    requires n <= |layers|
    ensures Kahn.Concat(layers[..n]) <= Kahn.Concat(layers)
    decreases |layers|
  {
    if n < |layers| {
      ConcatStarts(layers[..|layers| - 1], n);
      assert layers[..|layers| - 1][..n] == layers[..n];
    } else {
      assert layers[..n] == layers;
    }
  }

  /** With distinct ids, the first `n` layers hold what `Settled` says. */
  lemma {:induction false} ConcatSettles(calls: seq<ToolCallItem>, layers: seq<seq<string>>, n: nat)
    requires Kahn.AreLayers(calls, layers) && n <= |layers|
    ensures Elems(Kahn.Concat(layers[..n])) == Settled(calls, n)
    decreases n
  {
    hide Settled;
    if n == 0 {
      SettledGrows(calls, 0, 0);
      NothingSettled(calls);
    } else {
      ConcatSettles(calls, layers, n - 1);
      assert layers[..n][..n - 1] == layers[..n - 1];
      SettledGrows(calls, n - 1, n);
      assert Kahn.IsLayer(calls, layers[n - 1], n - 1);
      var before, last := Kahn.Concat(layers[..n - 1]), layers[n - 1];
      assert Elems(before + last) == Elems(before) + Elems(last);
    }
  }

  lemma NothingSettled(calls: seq<ToolCallItem>)
    ensures Settled(calls, 0) == {}
  {
  }

  /** The result is what the first call with this id reports, or a cancellation. */
  ghost predicate Answered(cs: ToolCallSet, tools: map<string, Tool>, call: ToolCallItem, item: ToolResultItem) {
    && item.callId == call.id
    && ((item.status == Cancelled && item.result == Null)
        || exists i: nat :: FirstWith(cs.calls, call.id, i) && Reports(cs.calls[i], tools, cs.timeoutMs, item))
  }

  ghost predicate AllAnswered(cs: ToolCallSet, tools: map<string, Tool>, table: map<string, ToolResultItem>) {
    forall i :: 0 <= i < |cs.calls| ==>
      Answered(cs, tools, cs.calls[i], GetOr(table, cs.calls[i].id, CancelledItem(cs.calls[i], UPSTREAM_FAILED)))
  }

  /**
   * The tools started, whatever the ids: those of the first layer once for each call with that id, all others at most
   * once, and none before what its calls wait for, unless there is a repeated root.
   */
  ghost predicate Started(cs: ToolCallSet, tools: map<string, Tool>, invoked: seq<string>) {
    && (forall x :: multiset(invoked)[x] <=
          if Kahn.AllBlockers(cs.calls, x) == [] then Kahn.Copies(cs.calls, x) else 1)
    && (forall x <- invoked :: x in Ids(cs.calls) && ToolOf(cs.calls, x) in tools)
    && (forall x <- Ids(cs.calls) :: Kahn.AllBlockers(cs.calls, x) == [] && ToolOf(cs.calls, x) in tools ==>
          multiset(invoked)[x] == Kahn.Copies(cs.calls, x))
    && (!Kahn.RepeatedRoot(cs.calls) ==> BlockersFirst(cs, tools, invoked))
  }

  lemma RanIsStarted(cs: ToolCallSet, tools: map<string, Tool>, layers: seq<seq<string>>, n: nat,
                     completed: map<string, ToolResultItem>, invoked: seq<string>)
    requires Sorted(cs.calls, layers) && n <= |layers| && (layers != [] ==> n > 0)
    requires Ran(cs, tools, Kahn.Concat(layers[..n]), completed, invoked)
    ensures Started(cs, tools, invoked)
  {
    hide Kahn.AllBlockers, Kahn.Copies, Kahn.RepeatedRoot, Kahn.Layered, Kahn.AreLayers, Settled, BlockersFirst,
        ToolOf, HoldsOutcomes, Kahn.Concat;
    var some, all := Kahn.Concat(layers[..n]), Kahn.Concat(layers);
    ConcatStarts(layers, n);
    assert all == some + all[|some|..];
    forall x ensures multiset(some)[x] <= multiset(all)[x] {
    }
    forall x | x in invoked ensures x in all && ToolOf(cs.calls, x) in tools {
      assert multiset(invoked)[x] > 0;
      assert x in some;
    }
    if n > 0 {
      FirstIsFirst(layers[..n]);
    }
  }

  lemma {:induction false} FirstIsFirst(layers: seq<seq<string>>)
    requires layers != []
    ensures layers[0] <= Kahn.Concat(layers)
    ensures forall x :: multiset(layers[0])[x] <= multiset(Kahn.Concat(layers))[x]
    decreases |layers|
  {
    var front := layers[..|layers| - 1];
    if front == [] {
      assert Kahn.Concat(front) == [];
    } else {
      FirstIsFirst(front);
    }
    var all := Kahn.Concat(layers);
    assert all == layers[0] + all[|layers[0]|..];
  }

  /** Exactly the calls of the first `n` layers have run, each once, in dependency order. */
  ghost predicate RanDistinct(cs: ToolCallSet, tools: map<string, Tool>, n: nat,
                              completed: map<string, ToolResultItem>, invoked: seq<string>)
  {
    && completed.Keys == Settled(cs.calls, n) && HoldsOutcomes(cs, tools, completed)
    && NoDup(invoked) && IsTopological(cs.calls, invoked)
    && (forall id :: id in invoked <==> id in Settled(cs.calls, n) && ToolOf(cs.calls, id) in tools)
    && forall id <- invoked :: forall d <- Blockers(cs.calls, id) :: Succeeds(cs, tools, d)
  }

  lemma DistinctRan(cs: ToolCallSet, tools: map<string, Tool>, layers: seq<seq<string>>, n: nat,
                    completed: map<string, ToolResultItem>, invoked: seq<string>)
    requires DistinctIds(cs.calls) && Sorted(cs.calls, layers) && n <= |layers| && Started(cs, tools, invoked)
    requires Ran(cs, tools, Kahn.Concat(layers[..n]), completed, invoked)
    ensures RanDistinct(cs, tools, n, completed, invoked) && Elems(Kahn.Concat(layers[..n])) == Settled(cs.calls, n)
  {
    hide Kahn.RepeatedRoot, Settled, HoldsOutcomes, Kahn.Concat, Kahn.Enters, Started, BlockersFirst, IsTopological,
        StartedFrom, NoDup, Kahn.AreLayers;
    var done := Kahn.Concat(layers[..n]);
    ConcatSettles(cs.calls, layers, n);
    StartedDistinct(cs, tools, invoked);
    StartedElems(cs, tools, done, invoked);
  }

  lemma StartedElems(cs: ToolCallSet, tools: map<string, Tool>, done: seq<string>, invoked: seq<string>)
    requires StartedFrom(cs, tools, done, invoked)
    ensures forall id :: id in invoked <==> id in Elems(done) && ToolOf(cs.calls, id) in tools
  {
    hide ToolOf;
    forall id ensures id in invoked <==> id in Elems(done) && ToolOf(cs.calls, id) in tools {
      assert (id in invoked <==> multiset(invoked)[id] > 0) && (id in done <==> multiset(done)[id] > 0);
    }
  }

  lemma StartedDistinct(cs: ToolCallSet, tools: map<string, Tool>, invoked: seq<string>)
    requires DistinctIds(cs.calls) && Started(cs, tools, invoked)
    ensures NoDup(invoked) && IsTopological(cs.calls, invoked)
    ensures forall id <- invoked :: forall d <- Blockers(cs.calls, id) :: Succeeds(cs, tools, d)
  {
    hide Kahn.AllBlockers, Kahn.Copies, Kahn.RepeatedRoot, ToolOf, Succeeds, Blockers;
    Kahn.NoRepeatsNoRoot(cs.calls);
    forall id ensures Kahn.AllBlockers(cs.calls, id) == Blockers(cs.calls, id) && Kahn.Copies(cs.calls, id) <= 1 {
      Kahn.BlockersDistinct(cs.calls, id);
      Kahn.CopiesCount(cs.calls, id);
    }
    Kahn.CountsOnce(invoked);
  }

  /** The cascade from the failing layer `f`, and what it makes of the table. */
  method CascadeFrom(cs: ToolCallSet, tools: map<string, Tool>, ghost layers: seq<seq<string>>, ghost f: nat,
                     completed: map<string, ToolResultItem>, ghost invoked: seq<string>)
    returns (table: map<string, ToolResultItem>)
    requires Runnable(cs.calls) && Sorted(cs.calls, layers) && f < |layers| && Started(cs, tools, invoked)
    requires Ran(cs, tools, Kahn.Concat(layers[..f + 1]), completed, invoked)
    requires AllSucceed(cs, tools, Elems(Kahn.Concat(layers[..f])))
    requires !AllSucceed(cs, tools, Elems(Kahn.Concat(layers[..f + 1])))
    ensures AllAnswered(cs, tools, table)
    ensures DistinctIds(cs.calls) ==> EachOwed(cs, tools, table) && InvokedInOrder(cs, tools, invoked)
  {
    hide Kahn.Concat, Settled, Kahn.RepeatedRoot, Kahn.Enters, BlockersFirst, StartedFrom, Started, AllSucceed, Extends,
        HasCycle, KnownBlockers, HoldsOutcomes;
    ghost var why;
    table, why := CascadeCancel(cs.calls, completed);
    CascadeAnswers(cs, tools, completed, table, why);
    if DistinctIds(cs.calls) {
      DistinctRan(cs, tools, layers, f + 1, completed, invoked);
      ConcatSettles(cs.calls, layers, f);
      assert Cascaded(cs, tools, f, completed, table, why);
      AllAssembled(cs, tools, f, completed, table, why);
      InvokedAfterFailure(cs, tools, f, completed, invoked);
    }
  }

  lemma CascadeAnswers(cs: ToolCallSet, tools: map<string, Tool>, completed: map<string, ToolResultItem>,
                       table: map<string, ToolResultItem>, why: map<string, Reason>)
    requires HoldsOutcomes(cs, tools, completed) && Extends(cs.calls, completed, table, why)
    ensures AllAnswered(cs, tools, table)
  {
    hide HoldsOutcomes, Extends, Answered;
    forall i | 0 <= i < |cs.calls|
      ensures Answered(cs, tools, cs.calls[i],
                GetOr(table, cs.calls[i].id, CancelledItem(cs.calls[i], UPSTREAM_FAILED)))
    {
      OneAnswered(cs, tools, completed, table, why, cs.calls[i]);
    }
  }

  lemma OneAnswered(cs: ToolCallSet, tools: map<string, Tool>, completed: map<string, ToolResultItem>,
                    table: map<string, ToolResultItem>, why: map<string, Reason>, call: ToolCallItem)
    requires HoldsOutcomes(cs, tools, completed) && Extends(cs.calls, completed, table, why) && call in cs.calls
    ensures Answered(cs, tools, call, GetOr(table, call.id, CancelledItem(call, UPSTREAM_FAILED)))
  {
    hide Reports, Find, FirstWith, FromSeed, ToolOf, Succeeds;
    if call.id in why {
      assert CascadedFrom(cs.calls, table, call.id, why[call.id].up);
    } else if call.id in table {
      var first := FindIsFirst(cs.calls, call.id);
      var item := table[call.id];
      assert item == Outcome(cs, tools, call.id);
      ReportNames(cs.calls[first], tools, cs.timeoutMs, item);
      FirstNames(cs.calls, call.id, first);
    }
  }

  lemma ReportNames(call: ToolCallItem, tools: map<string, Tool>, timeoutMs: Option<nat>, item: ToolResultItem)
    requires Reports(call, tools, timeoutMs, item)
    ensures item.callId == call.id
  {
  }

  lemma FirstNames(calls: seq<ToolCallItem>, id: string, i: nat)
    requires FirstWith(calls, id, i)
    ensures i < |calls| && calls[i].id == id
  {
  }

  lemma {:induction false} AllAssembled(cs: ToolCallSet, tools: map<string, Tool>, f: nat,
                                        completed: map<string, ToolResultItem>,
                                        table: map<string, ToolResultItem>, why: map<string, Reason>)
    requires Cascaded(cs, tools, f, completed, table, why)
    ensures EachOwed(cs, tools, table)
  {
    hide Owed, Cascaded;
    forall i | 0 <= i < |cs.calls|
      ensures Owed(cs, tools, cs.calls[i], GetOr(table, cs.calls[i].id, CancelledItem(cs.calls[i], UPSTREAM_FAILED)))
    {
      AssembledAfterFailure(cs, tools, f, completed, table, why, i);
    }
  }

  /** Every call's entry, or the default for calls without one, is what the call is owed. */
  ghost predicate EachOwed(cs: ToolCallSet, tools: map<string, Tool>, table: map<string, ToolResultItem>) {
    forall i :: 0 <= i < |cs.calls| ==>
      Owed(cs, tools, cs.calls[i], GetOr(table, cs.calls[i].id, CancelledItem(cs.calls[i], UPSTREAM_FAILED)))
  }

  lemma AllRan(cs: ToolCallSet, tools: map<string, Tool>, layers: seq<seq<string>>,
               table: map<string, ToolResultItem>, invoked: seq<string>)
    requires Sorted(cs.calls, layers) && Started(cs, tools, invoked)
    requires Ran(cs, tools, Kahn.Concat(layers[..|layers|]), table, invoked)
    requires AllSucceed(cs, tools, Elems(Kahn.Concat(layers[..|layers|])))
    ensures AllAnswered(cs, tools, table)
    ensures DistinctIds(cs.calls) ==> EachOwed(cs, tools, table) && InvokedInOrder(cs, tools, invoked)
  {
    hide Kahn.Concat, Settled, Kahn.RepeatedRoot, Kahn.Enters, BlockersFirst, StartedFrom, AllSucceed, Started, Due,
        DownstreamOfFailure, Succeeds;
    CascadeAnswers(cs, tools, table, table, map[]);
    if DistinctIds(cs.calls) {
      var n := |layers|;
      DistinctRan(cs, tools, layers, n, table, invoked);
      forall i | 0 <= i < |cs.calls|
        ensures Owed(cs, tools, cs.calls[i], GetOr(table, cs.calls[i].id, CancelledItem(cs.calls[i], UPSTREAM_FAILED)))
      {
        assert cs.calls[i].id in Ids(cs.calls);
        DueWithoutFailure(cs, tools, n, cs.calls[i].id);
      }
      InvokedWithoutFailure(cs, tools, n, table, invoked);
    }
  }

  /** The tools started: one per due call that has a tool, never before any of its blockers. */
  ghost predicate InvokedInOrder(cs: ToolCallSet, tools: map<string, Tool>, invoked: seq<string>) {
    && NoDup(invoked)
    && (forall id :: id in invoked <==> id in Ids(cs.calls) && Due(cs, tools, id) && ToolOf(cs.calls, id) in tools)
    && IsTopological(cs.calls, invoked)
    && (forall id <- invoked :: forall d <- Blockers(cs.calls, id) :: Succeeds(cs, tools, d))
  }

  lemma InvokedAfterFailure(cs: ToolCallSet, tools: map<string, Tool>, f: nat,
                            completed: map<string, ToolResultItem>, invoked: seq<string>)
    requires RanDistinct(cs, tools, f + 1, completed, invoked)
    requires AllSucceed(cs, tools, Settled(cs.calls, f)) && !AllSucceed(cs, tools, Settled(cs.calls, f + 1))
    ensures InvokedInOrder(cs, tools, invoked)
  {
    hide Settled, Due, Succeeds, AllSucceed, IsTopological, Blockers, NoDup, HoldsOutcomes, ToolOf;
    SettledGrows(cs.calls, f + 1, f + 1);
    forall id ensures Due(cs, tools, id) <==> id in Settled(cs.calls, f + 1) {
      DueUpTo(cs, tools, f, id);
    }
  }

  lemma InvokedWithoutFailure(cs: ToolCallSet, tools: map<string, Tool>, n: nat,
                              completed: map<string, ToolResultItem>, invoked: seq<string>)
    requires Settled(cs.calls, n) == Ids(cs.calls) && RanDistinct(cs, tools, n, completed, invoked)
    requires AllSucceed(cs, tools, Settled(cs.calls, n))
    ensures InvokedInOrder(cs, tools, invoked)
  {
    hide Settled, Due, Succeeds, AllSucceed, IsTopological, Blockers, NoDup, HoldsOutcomes, ToolOf;
    forall id | id in Ids(cs.calls) ensures Due(cs, tools, id) {
      DueWithoutFailure(cs, tools, n, id);
    }
  }

  /**
   * The whole executor: one result per call, in input order, under the call's id; and nothing starts unless the set is
   * valid. With distinct ids each result is the one its call is owed. Nothing checks that ids differ: if the set can be
   * ordered at all, it is not executed, for a count that falls below zero, exactly if some call waits for a repeated
   * root; and otherwise a repeated id's first call is run for all of them.
   */
  method Execute(cs: ToolCallSet, tools: map<string, Tool>) returns (r: Option<ToolResultSet>, invoked: seq<string>)
    ensures r.Some? ==> r.value.sessionId == cs.sessionId && |r.value.results| == |cs.calls|
    ensures r.None? ==> Runnable(cs.calls) && Kahn.RepeatedRoot(cs.calls) && invoked == []
    ensures Runnable(cs.calls) && Kahn.Orderable(cs.calls) ==> (r.None? <==> Kahn.RepeatedRoot(cs.calls))
    ensures r.Some? && Runnable(cs.calls) ==>
              && Started(cs, tools, invoked)
              && forall i :: 0 <= i < |cs.calls| ==> Answered(cs, tools, cs.calls[i], r.value.results[i])
    ensures DistinctIds(cs.calls) && Runnable(cs.calls) ==>
              && r.Some? && InvokedInOrder(cs, tools, invoked)
              && forall i :: 0 <= i < |cs.calls| ==> Owed(cs, tools, cs.calls[i], r.value.results[i])
    ensures !Runnable(cs.calls) ==>
              r.Some? && invoked == [] && exists message :: r.value.results == ErrorAll(cs.calls, message)
  {
    hide Started, Answered, InvokedInOrder, Owed, Kahn.RepeatedRoot, Kahn.Orderable, DistinctIds, HasCycle, Kahn.Enters,
        Kahn.Layered, Kahn.AreLayers, Settled, LocksConsistent, KnownBlockers;
    var calls := cs.calls;
    if calls == [] {
      NoCalls(cs, tools);
      return Some(ToolResultSet(cs.sessionId, [])), [];
    }
    var lockErrors := ValidateBidirectionalLock(calls);
    if lockErrors.Some? {
      return Some(ToolResultSet(cs.sessionId, lockErrors.value)), [];
    }
    var inDegree := Kahn.BuildInDegree(calls);
    var problem := Kahn.DetectCycle(calls);
    if problem.Some? {
      return Some(ToolResultSet(cs.sessionId, ErrorAll(calls, problem.value))), [];
    }
    var layers := Kahn.KahnSort(calls, inDegree);
    Kahn.NoRepeatsNoRoot(calls);
    if layers.None? {
      return None, [];
    }
    var table;
    table, invoked := RunLayers(cs, tools, layers.value);

    var results := Assemble(cs, table);
    return Some(ToolResultSet(cs.sessionId, results)), invoked;
  }

  lemma NoCalls(cs: ToolCallSet, tools: map<string, Tool>)
    requires cs.calls == []
    ensures Started(cs, tools, []) && InvokedInOrder(cs, tools, []) && ErrorAll(cs.calls, "") == []
    ensures !Kahn.RepeatedRoot(cs.calls)
    ensures Runnable(cs.calls)
  {
    assert IsTopological(cs.calls, []);
    TopologicalMeansAcyclic(cs.calls, []);
  }

  /** One result per call; calls without an entry are cancelled. */
  method Assemble(cs: ToolCallSet, table: map<string, ToolResultItem>)
    returns (results: seq<ToolResultItem>)
    ensures |results| == |cs.calls|
    ensures forall i :: 0 <= i < |cs.calls| ==>
      results[i] == GetOr(table, cs.calls[i].id, CancelledItem(cs.calls[i], UPSTREAM_FAILED))
  {
    results := [];
    for i := 0 to |cs.calls|
      invariant |results| == i
      invariant forall m :: 0 <= m < i ==>
        results[m] == GetOr(table, cs.calls[m].id, CancelledItem(cs.calls[m], UPSTREAM_FAILED))
    {
      results := results + [GetOr(table, cs.calls[i].id, CancelledItem(cs.calls[i], UPSTREAM_FAILED))];
    }
  }

  // ── What follows for callers ────────────────────────────────────────

  /** A started tool's every dependency, however remote, was started before it and succeeded. */
  lemma {:induction false} DependenciesCameFirst(cs: ToolCallSet, tools: map<string, Tool>, invoked: seq<string>,
                                                 k: nat, p: seq<string>, m: nat)
    requires InvokedInOrder(cs, tools, invoked) && k < |invoked|
    requires IsChain(cs.calls, p) && p[0] == invoked[k] && 0 < m < |p|
    ensures p[m] in invoked[..k] && Succeeds(cs, tools, p[m])
    decreases m
  {
    if m == 1 {
      assert p[0 + 1] in Blockers(cs.calls, p[0]);
    } else {
      DependenciesCameFirst(cs, tools, invoked, k, p, m - 1);
      var j :| 0 <= j < k && invoked[j] == p[m - 1];
      assert p[m - 1 + 1] in Blockers(cs.calls, p[m - 1]);
      assert p[m] in invoked[..j] && invoked[..j] <= invoked[..k];
    }
  }

  /** Results answer the calls position by position, whatever happens. */
  lemma {:induction false} OwedAnswersCall(cs: ToolCallSet, tools: map<string, Tool>, i: nat, item: ToolResultItem)
    requires DistinctIds(cs.calls) && i < |cs.calls| && Owed(cs, tools, cs.calls[i], item)
    ensures item.callId == cs.calls[i].id && item.name == cs.calls[i].tool
    ensures item.status == Success <==> Due(cs, tools, item.callId) && Succeeds(cs, tools, item.callId)
    ensures item.status == Success ==>
              cs.calls[i].tool in tools && tools[cs.calls[i].tool](cs.calls[i]).finish == Returned(item.result)
    ensures !Due(cs, tools, item.callId) ==> item.status == Cancelled
  {
    FindDistinct(cs.calls, i);
  }

  /** A success implies that every dependency, however remote, also reports success. */
  lemma {:induction false} SuccessIsClosed(cs: ToolCallSet, tools: map<string, Tool>, p: seq<string>, m: nat)
    requires DistinctIds(cs.calls) && KnownBlockers(cs.calls)
    requires IsChain(cs.calls, p) && m < |p|
    requires Due(cs, tools, p[0]) && Succeeds(cs, tools, p[0])
    ensures Due(cs, tools, p[m]) && Succeeds(cs, tools, p[m])
    decreases m
  {
    if m > 0 {
      SuccessIsClosed(cs, tools, p, m - 1);
      assert p[m - 1 + 1] in Blockers(cs.calls, p[m - 1]);
      DueBlocker(cs, tools, p[m - 1], p[m]);
    }
  }

  lemma {:induction false} DueBlocker(cs: ToolCallSet, tools: map<string, Tool>, id: string, d: string)
    requires DistinctIds(cs.calls)
    requires Due(cs, tools, id) && d in Blockers(cs.calls, id)
    ensures Due(cs, tools, d) && Succeeds(cs, tools, d)
  {
    var n: nat :| InLayer(cs.calls, id, n) && AllSucceed(cs, tools, Settled(cs.calls, n));
    SettledGrows(cs.calls, n + 1, n + 1);
    SettledStep(cs.calls, id, n);
    DueWithoutFailure(cs, tools, n, d);
  }

  // ── Repeated ids ────────────────────────────────────────────────────

  /** A set that passes every check and can be ordered, but makes a count fall below zero. */
  lemma RepeatedRootHappens(tool: string) returns (calls: seq<ToolCallItem>)
    ensures Runnable(calls) && Kahn.Orderable(calls) && Kahn.RepeatedRoot(calls)
  {
    var a, b := ToolCallItem("a", tool, Null, [], []), ToolCallItem("b", tool, Null, ["a"], []);
    calls := [a, a] + [b];
    SmallSet(a, b, calls);
    hide Kahn.AllBlockers, Kahn.Copies, Blockers, Ids, LocksConsistent, KnownBlockers, Kahn.IsListed, Kahn.Orders,
        IsTopological, HasCycle;
    var order := SmallOrder(calls);
    TopologicalMeansAcyclic(calls, order);
  }

  lemma SmallSet(a: ToolCallItem, b: ToolCallItem, calls: seq<ToolCallItem>)
    requires a.id == "a" && a.blockedBy == a.blocking == [] && b.id == "b" && b.blockedBy == ["a"] && b.blocking == []
    requires calls == [a, a] + [b]
    ensures Kahn.AllBlockers(calls, "a") == [] && Kahn.AllBlockers(calls, "b") == ["a"]
    ensures Blockers(calls, "a") == [] && Blockers(calls, "b") == ["a"] && Kahn.Copies(calls, "a") > 1
    ensures Ids(calls) == {"a", "b"} && LocksConsistent(calls) && KnownBlockers(calls) && Kahn.IsListed(calls, "a")
  {
    hide Kahn.AllBlockers, Kahn.Copies, Find;
    SmallEntries(a, b, "a");
    SmallEntries(a, b, "b");
    SmallFinds(a, b, calls);
    assert forall c :: c in calls <==> c == a || c == b;
    assert b in calls && "a" in b.blockedBy;
  }

  lemma SmallFinds(a: ToolCallItem, b: ToolCallItem, calls: seq<ToolCallItem>)
    requires a.id == "a" && b.id == "b" && calls == [a, a] + [b]
    ensures Find(calls, "a") == Some(a) && Find(calls, "b") == Some(b)
  {
    var two, one := calls[1..], calls[1..][1..];
    assert one == [b] && Find(one, "b") == Some(b);
    assert two[0] == a && Find(two, "b") == Some(b);
  }

  lemma SmallOrder(calls: seq<ToolCallItem>) returns (order: seq<string>)
    requires Kahn.AllBlockers(calls, "a") == Blockers(calls, "a") == [] && Ids(calls) == {"a", "b"}
    requires Kahn.AllBlockers(calls, "b") == Blockers(calls, "b") == ["a"]
    ensures Kahn.Orders(calls, order) && IsTopological(calls, order) && Ids(calls) <= Elems(order)
  {
    hide Kahn.AllBlockers, Blockers, Ids;
    order := ["a", "b"];
    assert order[..1] == ["a"] && Elems(order) == {"a", "b"};
  }

  lemma SmallEntries(a: ToolCallItem, b: ToolCallItem, x: string)
    requires a.blockedBy == []
    ensures Kahn.AllBlockers([a, a] + [b], x) == if b.id == x then b.blockedBy else []
    ensures Kahn.Copies([a, a] + [b], x) == (if a.id == x then 2 else 0) + if b.id == x then 1 else 0
  {
    var none: seq<ToolCallItem> := [];
    Kahn.BlockersOfNone(none, x);
    Kahn.CopiesCount(none, x);
    hide Kahn.AllBlockers, Kahn.Copies;
    assert none + [a] == [a] && [a] + [a] == [a, a];
    Kahn.AllBlockersSnoc(none, a, x);
    Kahn.AllBlockersSnoc([a], a, x);
    Kahn.AllBlockersSnoc([a, a], b, x);
    Kahn.CopiesSnoc(none, a, x);
    Kahn.CopiesSnoc([a], a, x);
    Kahn.CopiesSnoc([a, a], b, x);
  }
}
