/** Routing by capability: the recipient cache, who invalidates it, and checkpoint evaluation. */
module Discovery {
  import opened Wrappers
  import opened Seqs
  import opened Messages

  type Requirements = seq<(string, string)>

  datatype Route = Strict(ids: seq<NodeId>) | Discover(requirements: Requirements)

  predicate CapabilityMatches(node: NodeInfo, requirements: Requirements) {
    forall i :: 0 <= i < |requirements| ==> node.capabilities.GetStr(requirements[i].0) == Some(requirements[i].1)
  }

  /** The nodes that meet every requirement, in graph order. */
  ghost function Recipients(nodes: seq<NodeInfo>, requirements: Requirements): seq<NodeId> {
    if nodes == [] then []
    else
      var front, last := Recipients(nodes[..|nodes| - 1], requirements), nodes[|nodes| - 1];
      if CapabilityMatches(last, requirements) then front + [last.nodeId] else front
  }

  ghost function ResolveRoutePure(route: Route, nodes: seq<NodeInfo>): seq<NodeId> {
    match route
    case Strict(ids) => ids
    case Discover(requirements) => Recipients(nodes, requirements)
  }

  /** Each requirement is a text field of the node's capabilities. */
  ghost predicate Meets(node: NodeInfo, requirements: Requirements) {
    forall r <- requirements :: HasField(node.capabilities, r.0, Str(r.1))
  }

  /** The ids are those of the nodes at these rising places, which are all that meet the requirements. */
  ghost predicate SelectedAt(nodes: seq<NodeInfo>, requirements: Requirements, at: seq<nat>, ids: seq<NodeId>) {
    && |at| == |ids| && Rising(at)
    && (forall k :: 0 <= k < |at| ==>
          at[k] < |nodes| && Meets(nodes[at[k]], requirements) && ids[k] == nodes[at[k]].nodeId)
    && forall i :: 0 <= i < |nodes| && Meets(nodes[i], requirements) ==> i in at
  }

  lemma MeetsIff(node: NodeInfo, requirements: Requirements)
    ensures CapabilityMatches(node, requirements) <==> Meets(node, requirements)
  {
  }

  lemma SelectedSnoc(nodes: seq<NodeInfo>, requirements: Requirements, at: seq<nat>, ids: seq<NodeId>, node: NodeInfo)
    requires SelectedAt(nodes, requirements, at, ids)
    ensures if Meets(node, requirements)
            then SelectedAt(nodes + [node], requirements, at + [|nodes|], ids + [node.nodeId])
            else SelectedAt(nodes + [node], requirements, at, ids)
  {
    hide Meets;
    var all := nodes + [node];
    assert forall i :: 0 <= i < |nodes| ==> all[i] == nodes[i];
    assert forall i :: i in at ==> i in at + [|nodes|];
    assert |nodes| in at + [|nodes|];
  }

  lemma {:induction false} RecipientsAreTheMatches(nodes: seq<NodeInfo>, requirements: Requirements)
    returns (at: seq<nat>)
    ensures SelectedAt(nodes, requirements, at, Recipients(nodes, requirements))
    decreases |nodes|
  {
    if nodes == [] {
      at := [];
    } else {
      hide Meets, CapabilityMatches, SelectedAt;
      var n := |nodes| - 1;
      at := RecipientsAreTheMatches(nodes[..n], requirements);
      MeetsIff(nodes[n], requirements);
      SelectedSnoc(nodes[..n], requirements, at, Recipients(nodes[..n], requirements), nodes[n]);
      assert nodes[..n] + [nodes[n]] == nodes;
      if CapabilityMatches(nodes[n], requirements) {
        at := at + [n];
      }
    }
  }

  // ── The cache ───────────────────────────────────────────────────────

  type Cached = map<Requirements, seq<NodeId>>

  /** What a lookup answers. */
  ghost function Lookup(cached: Cached, route: Route, nodes: seq<NodeInfo>): seq<NodeId> {
    match route
    case Strict(ids) => ids
    case Discover(requirements) => GetOr(cached, requirements, Recipients(nodes, requirements))
  }

  /** The ids a route names, or those cached for it, or else those of the snapshot's matches. */
  ghost predicate Resolves(cached: Cached, route: Route, nodes: seq<NodeInfo>, ids: seq<NodeId>) {
    match route
    case Strict(named) => ids == named
    case Discover(requirements) =>
      if requirements in cached then ids == cached[requirements]
      else exists at :: SelectedAt(nodes, requirements, at, ids)
  }

  lemma LookupResolves(cached: Cached, route: Route, nodes: seq<NodeInfo>)
    ensures Resolves(cached, route, nodes, Lookup(cached, route, nodes))
  {
    hide SelectedAt;
    if route.Discover? {
      var at := RecipientsAreTheMatches(nodes, route.requirements);
    }
  }

  /** What a lookup leaves in the cache. */
  ghost function AfterLookup(cached: Cached, route: Route, nodes: seq<NodeInfo>): Cached {
    if route.Strict? then cached else cached[route.requirements := Lookup(cached, route, nodes)]
  }

  ghost predicate Coherent(cached: Cached, nodes: seq<NodeInfo>) {
    forall r <- cached :: cached[r] == Recipients(nodes, r)
  }

  /** A cache answers every route like the uncached resolution exactly when all its entries are current. */
  lemma CoherentIffAgrees(cached: Cached, nodes: seq<NodeInfo>)
    ensures Coherent(cached, nodes) <==> forall route :: Lookup(cached, route, nodes) == ResolveRoutePure(route, nodes)
  {
    if forall route :: Lookup(cached, route, nodes) == ResolveRoutePure(route, nodes) {
      forall r | r in cached ensures cached[r] == Recipients(nodes, r) {
        assert Lookup(cached, Discover(r), nodes) == ResolveRoutePure(Discover(r), nodes);
      }
    }
  }

  class DiscoveryCache {
    var cached: Cached

    constructor ()
      ensures cached == map[]
    {
      cached := map[];
    }

    method GetOrCompute(requirements: Requirements, nodes: seq<NodeInfo>) returns (r: seq<NodeId>)
      modifies this
      ensures r == Lookup(old(cached), Discover(requirements), nodes)
      ensures cached == AfterLookup(old(cached), Discover(requirements), nodes)
    {
      if requirements in cached {
        assert cached[requirements := cached[requirements]] == cached;
        return cached[requirements];
      }
      r := [];
      for i := 0 to |nodes|
        invariant r == Recipients(nodes[..i], requirements)
      {
        assert nodes[..i + 1][..i] == nodes[..i];
        if CapabilityMatches(nodes[i], requirements) {
          r := r + [nodes[i].nodeId];
        }
      }
      assert nodes[..|nodes|] == nodes;
      cached := cached[requirements := r];
    }

    method Invalidate()
      modifies this
      ensures cached == map[]
    {
      cached := map[];
    }

    method ResolveRoute(route: Route, nodes: seq<NodeInfo>) returns (r: seq<NodeId>)
      modifies this
      ensures r == Lookup(old(cached), route, nodes)
      ensures cached == AfterLookup(old(cached), route, nodes)
      ensures Coherent(old(cached), nodes) ==> Coherent(cached, nodes) && r == ResolveRoutePure(route, nodes)
    {
      match route {
        case Strict(ids) => r := ids;
        case Discover(requirements) => r := GetOrCompute(requirements, nodes);
      }
    }

    /** The background listener: empties the cache on every lifecycle message, and ends on its first failed receive. */
    method Listen(heard: seq<Option<Message>>) returns (n: nat)
      modifies this
      ensures n <= |heard| && (forall k :: 0 <= k < n ==> heard[k].Some?) && (n < |heard| ==> heard[n].None?)
      ensures (exists k :: 0 <= k < n && Announces(heard[k].value)) ==> cached == map[]
      ensures (forall k :: 0 <= k < n ==> !Announces(heard[k].value)) ==> cached == old(cached)
    {
      n := 0;
      while n < |heard| && heard[n].Some?
        invariant n <= |heard| && forall k :: 0 <= k < n ==> heard[k].Some?
        invariant (exists k :: 0 <= k < n && Announces(heard[k].value)) ==> cached == map[]
        invariant (forall k :: 0 <= k < n ==> !Announces(heard[k].value)) ==> cached == old(cached)
      {
        if IsLifecycle(heard[n].value) {
          Invalidate();
        }
        n := n + 1;
      }
    }
  }

  predicate IsLifecycle(msg: Message) {
    msg.msgType == NODE_ONLINE || msg.msgType == NODE_OFFLINE
  }

  /** A node came or went. */
  ghost predicate Announces(msg: Message) {
    msg.msgType in {"node_online", "node_offline"}
  }

  // ── Cache, graph and listener together ──────────────────────────────

  /** A graph snapshot a lookup works from; `overtaken` once the listener has emptied the cache since it was taken. */
  datatype Flight = Flight(nodes: seq<NodeInfo>, overtaken: bool)

  /**
   * `announced` is false between a change of the graph and its lifecycle message; `unread` counts the
   * lifecycle messages the listener has not received yet; `listening` ends with its first failed receive.
   * `flight` is the engine's current lookup: it takes a snapshot first and fills the cache from it later.
   */
  datatype World = World(nodes: seq<NodeInfo>, announced: bool, unread: nat, listening: bool, cached: Cached,
                         flight: Option<Flight>)

  datatype Action =
    | ChangeGraph(nodes: seq<NodeInfo>)
    | Announce
    | Hear
    | LoseListener
    | Snapshot
    | Store(route: Route)

  ghost predicate Step(w: World, a: Action, v: World) {
    match a
    case ChangeGraph(nodes) => w.announced && v == w.(nodes := nodes, announced := false)
    case Announce => !w.announced && v == w.(announced := true, unread := w.unread + 1)
    case Hear =>
      && w.listening && w.unread > 0
      && v == w.(unread := w.unread - 1, cached := map[],
                 flight := if w.flight.None? then None else Some(w.flight.value.(overtaken := true)))
    case LoseListener => w.listening && v == w.(listening := false)
    case Snapshot => v == w.(flight := Some(Flight(w.nodes, false)))
    case Store(route) => w.flight.Some? && v == w.(cached := AfterLookup(w.cached, route, w.flight.value.nodes))
  }

  ghost predicate IsRun(worlds: seq<World>, actions: seq<Action>) {
    && |worlds| == |actions| + 1
    && worlds[0].cached == map[] && worlds[0].announced && worlds[0].unread == 0 && worlds[0].listening
    && worlds[0].flight.None?
    && forall i :: 0 <= i < |actions| ==> Step(worlds[i], actions[i], worlds[i + 1])
  }

  /** Every change so far has been announced to, and heard by, the listener. */
  ghost predicate Settled(w: World) {
    w.announced && w.unread == 0 && w.listening
  }

  ghost predicate AgreesNow(w: World) {
    forall route :: Lookup(w.cached, route, w.nodes) == ResolveRoutePure(route, w.nodes)
  }

  /** The step at `k` put `r` into the cache, and it is still there after `n` steps: nothing was heard in between. */
  ghost predicate Filled(worlds: seq<World>, actions: seq<Action>, n: nat, k: nat, r: Requirements)
    requires |worlds| == |actions| + 1 && n < |worlds|
  {
    && k < n && actions[k] == Store(Discover(r)) && r !in worlds[k].cached && worlds[k].flight.Some?
    && forall j :: k < j < n ==> actions[j] != Hear
  }

  lemma {:induction false} EntryWasFilled(worlds: seq<World>, actions: seq<Action>, n: nat, r: Requirements)
    returns (k: nat)
    requires IsRun(worlds, actions) && n < |worlds| && r in worlds[n].cached
    ensures Filled(worlds, actions, n, k, r) && worlds[n].cached[r] == Recipients(worlds[k].flight.value.nodes, r)
    decreases n
  {
    var w, a := worlds[n - 1], actions[n - 1];
    assert Step(w, a, worlds[n - 1 + 1]);
    if r in w.cached && a != Hear {
      k := EntryWasFilled(worlds, actions, n - 1, r);
    } else {
      k := n - 1;
    }
  }

  lemma {:induction false} FilledIsEntry(worlds: seq<World>, actions: seq<Action>, n: nat, k: nat, r: Requirements)
    requires IsRun(worlds, actions) && n < |worlds| && Filled(worlds, actions, n, k, r)
    ensures r in worlds[n].cached && worlds[n].cached[r] == Recipients(worlds[k].flight.value.nodes, r)
    decreases n
  {
    var w, a := worlds[n - 1], actions[n - 1];
    assert Step(w, a, worlds[n - 1 + 1]);
    if k < n - 1 {
      FilledIsEntry(worlds, actions, n - 1, k, r);
      assert a != Hear;
    }
  }

  /**
   * At any moment of any run, every route resolves as without a cache exactly if every snapshot the cache was
   * filled from since the last message heard selects, for what was filled in, the nodes the graph has now.
   */
  lemma {:induction false} AgreesIffSnapshotsDo(worlds: seq<World>, actions: seq<Action>, n: nat)
    requires IsRun(worlds, actions) && n < |worlds|
    ensures AgreesNow(worlds[n]) <==>
            forall k: nat, r :: Filled(worlds, actions, n, k, r) ==>
              Recipients(worlds[k].flight.value.nodes, r) == Recipients(worlds[n].nodes, r)
  {
    var v := worlds[n];
    CoherentIffAgrees(v.cached, v.nodes);
    if Coherent(v.cached, v.nodes) {
      forall k: nat, r | Filled(worlds, actions, n, k, r) ensures Recipients(worlds[k].flight.value.nodes, r) ==
          Recipients(v.nodes, r) {
        FilledIsEntry(worlds, actions, n, k, r);
      }
    }
    if forall k: nat, r :: Filled(worlds, actions, n, k, r) ==>
        Recipients(worlds[k].flight.value.nodes, r) == Recipients(v.nodes, r) {
      forall r | r in v.cached ensures v.cached[r] == Recipients(v.nodes, r) {
        var k := EntryWasFilled(worlds, actions, n, r);
      }
    }
  }

  /** No lookup fills the cache from a snapshot older than a message heard since. */
  ghost predicate NoneOvertaken(worlds: seq<World>, actions: seq<Action>, n: nat)
    requires |worlds| == |actions| + 1 && n < |worlds|
  {
    forall k :: 0 <= k < n && actions[k].Store? && worlds[k].flight.Some? ==> !worlds[k].flight.value.overtaken
  }

  /** A snapshot not overtaken, taken when or after all was settled, is of the current graph. */
  ghost predicate FlightIsCurrent(w: World) {
    Settled(w) && w.flight.Some? && !w.flight.value.overtaken ==> w.flight.value.nodes == w.nodes
  }

  lemma {:induction false} SettledInvariant(worlds: seq<World>, actions: seq<Action>, n: nat)
    requires IsRun(worlds, actions) && n < |worlds| && NoneOvertaken(worlds, actions, n)
    ensures FlightIsCurrent(worlds[n]) && (Settled(worlds[n]) ==> Coherent(worlds[n].cached, worlds[n].nodes))
    decreases n
  {
    if n > 0 {
      SettledInvariant(worlds, actions, n - 1);
      assert Step(worlds[n - 1], actions[n - 1], worlds[n - 1 + 1]);
    }
  }

  /**
   * If no lookup is overtaken between its snapshot and its filling, then whenever the listener has heard of
   * every change, each route resolves as without a cache.
   */
  lemma {:induction false} SettledAgrees(worlds: seq<World>, actions: seq<Action>, n: nat)
    requires IsRun(worlds, actions) && n < |worlds| && Settled(worlds[n]) && NoneOvertaken(worlds, actions, n)
    ensures AgreesNow(worlds[n])
  {
    SettledInvariant(worlds, actions, n);
    CoherentIffAgrees(worlds[n].cached, worlds[n].nodes);
  }

  /** Once the listener is gone, an entry stays as it is for good. */
  lemma {:induction false} EntriesOutliveListener(worlds: seq<World>, actions: seq<Action>, m: nat, n: nat,
                                                  r: Requirements)
    requires IsRun(worlds, actions) && m <= n < |worlds| && !worlds[m].listening && r in worlds[m].cached
    ensures !worlds[n].listening && r in worlds[n].cached && worlds[n].cached[r] == worlds[m].cached[r]
    decreases n
  {
    if m < n {
      EntriesOutliveListener(worlds, actions, m, n - 1, r);
      assert Step(worlds[n - 1], actions[n - 1], worlds[n - 1 + 1]);
    }
  }

  lemma OneNode(node: NodeInfo)
    ensures Recipients([node], []) == [node.nodeId] && Recipients([], []) == []
    ensures AfterLookup(map[], Discover([]), [node]) == map[[] := [node.nodeId]]
  {
    assert [node][..0] == [];
  }

  /**
   * The race: a snapshot, then the node leaves, is announced and heard, and only then the cache is filled. The
   * listener has heard everything and the route still resolves to the node that left.
   */
  lemma StaleAfterOvertaking(node: NodeInfo) returns (worlds: seq<World>, actions: seq<Action>)
    ensures IsRun(worlds, actions) && |worlds| == 6 && Settled(worlds[5]) && worlds[5].nodes == []
    ensures Lookup(worlds[5].cached, Discover([]), []) == [node.nodeId] != ResolveRoutePure(Discover([]), [])
    ensures !NoneOvertaken(worlds, actions, 5)
  {
    OneNode(node);
    var seen, late := Some(Flight([node], false)), Some(Flight([node], true));
    actions := [Snapshot, ChangeGraph([]), Announce, Hear, Store(Discover([]))];
    worlds := [World([node], true, 0, true, map[], None), World([node], true, 0, true, map[], seen),
               World([], false, 0, true, map[], seen), World([], true, 1, true, map[], seen),
               World([], true, 0, true, map[], late), World([], true, 0, true, map[[] := [node.nodeId]], late)];
    assert actions[4].Store? && worlds[4].flight.value.overtaken;
  }

  /**
   * A filled entry is stale from the change of the graph until it is announced and heard; here before the
   * announcement.
   */
  lemma StaleUntilHeard(node: NodeInfo) returns (worlds: seq<World>, actions: seq<Action>)
    ensures IsRun(worlds, actions) && |worlds| == 5 && NoneOvertaken(worlds, actions, 4)
    ensures !worlds[3].announced && worlds[3].listening && !AgreesNow(worlds[3])
    ensures worlds[4].announced && worlds[4].unread == 1 && worlds[4].listening && !AgreesNow(worlds[4])
  {
    OneNode(node);
    var seen := Some(Flight([node], false));
    var entry: Cached := map[[] := [node.nodeId]];
    actions := [Snapshot, Store(Discover([])), ChangeGraph([]), Announce];
    worlds := [World([node], true, 0, true, map[], None), World([node], true, 0, true, map[], seen),
               World([node], true, 0, true, entry, seen), World([], false, 0, true, entry, seen),
               World([], true, 1, true, entry, seen)];
    assert Lookup(entry, Discover([]), []) != ResolveRoutePure(Discover([]), []);
  }

  /**
   * After one failed receive of the listener a route can resolve to a node that has left, with every change
   * announced.
   */
  lemma StaleAfterLag(node: NodeInfo) returns (worlds: seq<World>, actions: seq<Action>)
    ensures IsRun(worlds, actions) && |worlds| == 6 && worlds[5].announced && worlds[5].nodes == []
    ensures NoneOvertaken(worlds, actions, 5) && !AgreesNow(worlds[5])
  {
    OneNode(node);
    var seen := Some(Flight([node], false));
    var entry: Cached := map[[] := [node.nodeId]];
    actions := [Snapshot, Store(Discover([])), LoseListener, ChangeGraph([]), Announce];
    worlds := [World([node], true, 0, true, map[], None), World([node], true, 0, true, map[], seen),
               World([node], true, 0, true, entry, seen), World([node], true, 0, false, entry, seen),
               World([], false, 0, false, entry, seen), World([], true, 1, false, entry, seen)];
    assert Lookup(entry, Discover([]), []) != ResolveRoutePure(Discover([]), []);
  }

  // ── Checkpoints ─────────────────────────────────────────────────────

  /** A rule with its verdict on, and the message it builds from, the state at hand. */
  datatype Rule = Rule(name: string, trigger: string, fires: bool, msgType: string, cid: Uuid, body: Json, query: bool)

  datatype CheckpointMsg = CheckpointMsg(rule: Rule, recipients: seq<NodeId>)

  datatype EvaluateError = UndeclaredMsgType(msgType: string)

  type Routes = map<string, Route>

  ghost predicate FiresAt(rule: Rule, trigger: string) {
    rule.trigger == trigger && rule.fires
  }

  /** The rules that fire here, in order. */
  ghost function Fired(rules: seq<Rule>, trigger: string): seq<Rule> {
    if rules == [] then []
    else
      var front, last := Fired(rules[..|rules| - 1], trigger), rules[|rules| - 1];
      if FiresAt(last, trigger) then front + [last] else front
  }

  ghost predicate Fires(rule: Rule, trigger: string) {
    rule.trigger == trigger && rule.fires
  }

  /** The fired rules are those at these rising places, which are all that fire. */
  ghost predicate FiredAt(trigger: string, rules: seq<Rule>, at: seq<nat>, fired: seq<Rule>) {
    && |at| == |fired| && Rising(at)
    && (forall k :: 0 <= k < |at| ==> at[k] < |rules| && Fires(rules[at[k]], trigger) && fired[k] == rules[at[k]])
    && forall i :: 0 <= i < |rules| && Fires(rules[i], trigger) ==> i in at
  }

  lemma FiredSnoc(trigger: string, rules: seq<Rule>, at: seq<nat>, fired: seq<Rule>, rule: Rule)
    requires FiredAt(trigger, rules, at, fired)
    ensures if Fires(rule, trigger) then FiredAt(trigger, rules + [rule], at + [|rules|], fired + [rule])
            else FiredAt(trigger, rules + [rule], at, fired)
  {
    hide Fires;
    var all := rules + [rule];
    assert forall i :: 0 <= i < |rules| ==> all[i] == rules[i];
    assert forall i :: i in at ==> i in at + [|rules|];
    assert |rules| in at + [|rules|];
  }

  lemma {:induction false} FiredInOrder(trigger: string, rules: seq<Rule>) returns (at: seq<nat>)
    ensures FiredAt(trigger, rules, at, Fired(rules, trigger))
    decreases |rules|
  {
    if rules == [] {
      at := [];
    } else {
      hide FiredAt;
      var n := |rules| - 1;
      at := FiredInOrder(trigger, rules[..n]);
      FiredSnoc(trigger, rules[..n], at, Fired(rules[..n], trigger), rules[n]);
      assert rules[..n] + [rules[n]] == rules;
      if FiresAt(rules[n], trigger) {
        at := at + [n];
      }
    }
  }

  ghost predicate FirstUnrouted(fired: seq<Rule>, routes: Routes, k: nat, msgType: string) {
    && k < |fired| && fired[k].msgType == msgType && msgType !in routes
    && forall j :: 0 <= j < k ==> fired[j].msgType in routes
  }

  /** The outcome, rule after rule, and the cache it leaves. */
  ghost function Evaluated(trigger: string, rules: seq<Rule>, routes: Routes, nodes: seq<NodeInfo>, cached: Cached)
    : (Result<seq<CheckpointMsg>, EvaluateError>, Cached)
  {
    if rules == [] then (Ok([]), cached)
    else
      var (front, c), last := Evaluated(trigger, rules[..|rules| - 1], routes, nodes, cached), rules[|rules| - 1];
      if front.Err? || !FiresAt(last, trigger) then (front, c)
      else if last.msgType !in routes then (Err(UndeclaredMsgType(last.msgType)), c)
      else
        var route := routes[last.msgType];
        (Ok(front.value + [CheckpointMsg(last, Lookup(c, route, nodes))]), AfterLookup(c, route, nodes))
  }

  /** Entries that are there stay; new ones come from this snapshot. */
  ghost predicate FilledFrom(before: Cached, after: Cached, nodes: seq<NodeInfo>) {
    && (forall r <- before :: r in after && after[r] == before[r])
    && (forall r <- after :: r !in before ==> after[r] == Recipients(nodes, r))
  }

  lemma {:induction false} ErrorStays(trigger: string, rules: seq<Rule>, n: nat, routes: Routes, nodes: seq<NodeInfo>,
                                      cached: Cached)
    requires n <= |rules| && Evaluated(trigger, rules[..n], routes, nodes, cached).0.Err?
    ensures Evaluated(trigger, rules, routes, nodes, cached) == Evaluated(trigger, rules[..n], routes, nodes, cached)
    decreases |rules|
  {
    if n < |rules| {
      assert rules[..|rules| - 1][..n] == rules[..n];
      ErrorStays(trigger, rules[..|rules| - 1], n, routes, nodes, cached);
    } else {
      assert rules[..n] == rules;
    }
  }

  /**
   * Succeeds iff every fired rule's message type is routed, with one message per fired rule, in order, each to what
   * the cache answered before, or else the snapshot's matches; otherwise names the first unrouted type.
   */
  lemma {:induction false} EvaluatedMeans(trigger: string, rules: seq<Rule>, routes: Routes, nodes: seq<NodeInfo>,
                                          cached: Cached)
    ensures var (r, c) := Evaluated(trigger, rules, routes, nodes, cached); var fired := Fired(rules, trigger);
            && (r.Ok? <==> forall f <- fired :: f.msgType in routes)
            && (r.Ok? ==> |r.value| == |fired| && forall k :: 0 <= k < |fired| ==>
                  fired[k].msgType in routes && r.value[k] ==
                      CheckpointMsg(fired[k], Lookup(cached, routes[fired[k].msgType], nodes)))
            && (r.Err? ==> exists k :: FirstUnrouted(fired, routes, k, r.error.msgType))
            && FilledFrom(cached, c, nodes)
    decreases |rules|
  {
    if rules != [] {
      var front, last := rules[..|rules| - 1], rules[|rules| - 1];
      EvaluatedMeans(trigger, front, routes, nodes, cached);
      var fired, before := Fired(rules, trigger), Fired(front, trigger);
      var (r, c) := Evaluated(trigger, front, routes, nodes, cached);
      if r.Err? {
        var k: nat :| FirstUnrouted(before, routes, k, r.error.msgType);
        assert FirstUnrouted(fired, routes, k, r.error.msgType);
        assert fired[k] in fired;
      } else if FiresAt(last, trigger) {
        assert fired == before + [last];
        forall k | 0 <= k < |before| ensures before[k].msgType in routes {
          assert before[k] in before;
        }
        assert forall f :: f in fired <==> f in before || f == last;
        if last.msgType !in routes {
          assert FirstUnrouted(fired, routes, |before|, last.msgType);
        }
      }
    }
  }

  /** One message for each rule that fires, in order, to the ids its route resolves to. */
  ghost predicate Plans(trigger: string, rules: seq<Rule>, routes: Routes, nodes: seq<NodeInfo>, cached: Cached,
                        at: seq<nat>, built: seq<CheckpointMsg>) {
    && |at| == |built| && Rising(at)
    && (forall k :: 0 <= k < |at| ==>
          && at[k] < |rules| && Fires(rules[at[k]], trigger) && built[k].rule == rules[at[k]]
          && built[k].rule.msgType in routes
          && Resolves(cached, routes[built[k].rule.msgType], nodes, built[k].recipients))
    && forall i :: 0 <= i < |rules| && Fires(rules[i], trigger) ==> i in at
  }

  /** The first rule that fires without a route for its message type. */
  ghost predicate Misroutes(trigger: string, rules: seq<Rule>, routes: Routes, i: nat, msgType: string) {
    && i < |rules| && Fires(rules[i], trigger) && rules[i].msgType == msgType && msgType !in routes
    && forall j :: 0 <= j < i && Fires(rules[j], trigger) ==> rules[j].msgType in routes
  }

  lemma EvaluatedPlans(trigger: string, rules: seq<Rule>, routes: Routes, nodes: seq<NodeInfo>, cached: Cached)
    ensures match Evaluated(trigger, rules, routes, nodes, cached).0
            case Ok(built) => exists at :: Plans(trigger, rules, routes, nodes, cached, at, built)
            case Err(e) => exists i :: Misroutes(trigger, rules, routes, i, e.msgType)
  {
    EvaluatedMeans(trigger, rules, routes, nodes, cached);
    var at := FiredInOrder(trigger, rules);
    var fired, r := Fired(rules, trigger), Evaluated(trigger, rules, routes, nodes, cached).0;
    hide Evaluated, Lookup, Resolves, FiresAt, Fired, Fires, FilledFrom;
    match r {
      case Ok(built) =>
        forall k | 0 <= k < |fired|
          ensures Resolves(cached, routes[fired[k].msgType], nodes, built[k].recipients)
        {
          LookupResolves(cached, routes[fired[k].msgType], nodes);
        }
        assert Plans(trigger, rules, routes, nodes, cached, at, built);
      case Err(e) =>
        var k: nat :| FirstUnrouted(fired, routes, k, e.msgType);
        forall j | 0 <= j < at[k] && Fires(rules[j], trigger) ensures rules[j].msgType in routes {
          var m :| 0 <= m < |at| && at[m] == j;
          assert m < k;
        }
        assert Misroutes(trigger, rules, routes, at[k], e.msgType);
    }
  }

  /** On a cache that is current for the snapshot, every message goes to the snapshot's matches. */
  lemma CurrentCacheRoutesPurely(trigger: string, rules: seq<Rule>, routes: Routes, nodes: seq<NodeInfo>,
                                 cached: Cached, k: nat)
    requires Coherent(cached, nodes)
    requires var (r, _) := Evaluated(trigger, rules, routes, nodes, cached); r.Ok? && k < |r.value|
    ensures var (r, c) := Evaluated(trigger, rules, routes, nodes, cached); var f := Fired(rules, trigger);
            && Coherent(c, nodes) && k < |f| && f[k].msgType in routes
            && r.value[k] == CheckpointMsg(f[k], ResolveRoutePure(routes[f[k].msgType], nodes))
  {
    EvaluatedMeans(trigger, rules, routes, nodes, cached);
    CoherentIffAgrees(cached, nodes);
  }

  /** The loop over the rules. */
  method Evaluate(trigger: string, rules: seq<Rule>, routes: Routes, nodes: seq<NodeInfo>, cache: DiscoveryCache)
    returns (r: Result<seq<CheckpointMsg>, EvaluateError>)
    modifies cache
    ensures (r, cache.cached) == Evaluated(trigger, rules, routes, nodes, old(cache.cached))
    ensures r.Ok? ==> exists at :: Plans(trigger, rules, routes, nodes, old(cache.cached), at, r.value)
    ensures r.Err? ==> exists i :: Misroutes(trigger, rules, routes, i, r.error.msgType)
  {
    hide Plans, Misroutes;
    EvaluatedPlans(trigger, rules, routes, nodes, cache.cached);
    var out: seq<CheckpointMsg> := [];
    ghost var cached := cache.cached;
    for i := 0 to |rules|
      invariant (Ok(out), cache.cached) == Evaluated(trigger, rules[..i], routes, nodes, cached)
    {
      var rule := rules[i];
      assert rules[..i + 1][..i] == rules[..i];
      if rule.trigger != trigger || !rule.fires {
        continue;
      }
      if rule.msgType !in routes {
        ErrorStays(trigger, rules, i + 1, routes, nodes, cached);
        return Err(UndeclaredMsgType(rule.msgType));
      }
      var recipients := cache.ResolveRoute(routes[rule.msgType], nodes);
      out := out + [CheckpointMsg(rule, recipients)];
    }
    assert rules[..|rules|] == rules;
    r := Ok(out);
  }
}
