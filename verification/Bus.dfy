/** The bus message loop: who is online, what was broadcast, and how the two stay in step. */
module Bus {
  import opened Wrappers
  import opened Seqs
  import opened Messages

  datatype NodeEntry = NodeEntry(info: NodeInfo, lastAck: nat, filter: MessageFilter)

  /** A broadcast, tagged with whether the bus itself produced it. */
  datatype Logged = Logged(byBus: bool, msg: Message)

  datatype SendError = NodeOffline(targets: seq<NodeId>) | BusClosed
  datatype SendReceipt = SendReceipt(onlineNodes: nat, matchingNodes: nat)
  datatype ConnectError = AlreadyConnected(id: NodeId)

  // ── Reading the log ─────────────────────────────────────────────────

  ghost predicate SaysOnline(l: Logged, id: NodeId) {
    l.byBus && l.msg.msgType == NODE_ONLINE && l.msg.from == id
  }

  ghost predicate SaysOffline(l: Logged, id: NodeId) {
    l.byBus && l.msg.msgType == NODE_OFFLINE && l.msg.from == id
  }

  /** Replaying the bus's own lifecycle messages. */
  ghost function Online(log: seq<Logged>): set<NodeId> {
    if log == [] then {}
    else
      var l, before := log[|log| - 1], Online(log[..|log| - 1]);
      if l.byBus && l.msg.msgType == NODE_ONLINE then before + {l.msg.from}
      else if l.byBus && l.msg.msgType == NODE_OFFLINE then before - {l.msg.from}
      else before
  }

  /** Between two announcements of one node it was announced gone. */
  ghost predicate Alternates(log: seq<Logged>) {
    forall i, j, id :: 0 <= i < j < |log| && SaysOnline(log[i], id) && SaysOnline(log[j], id) ==>
      exists k :: i < k < j && SaysOffline(log[k], id)
  }

  lemma {:induction false} OnlineSnoc(log: seq<Logged>, l: Logged)
    ensures Online(log + [l]) ==
            if l.byBus && l.msg.msgType == NODE_ONLINE then Online(log) + {l.msg.from}
            else if l.byBus && l.msg.msgType == NODE_OFFLINE then Online(log) - {l.msg.from}
            else Online(log)
  {
    assert (log + [l])[..|log|] == log;
  }

  /** A node the replay has offline was announced gone after any announcement of it. */
  lemma {:induction false} GoneAfter(log: seq<Logged>, i: nat, id: NodeId) returns (k: nat)
    requires i < |log| && SaysOnline(log[i], id) && id !in Online(log)
    ensures i < k < |log| && SaysOffline(log[k], id)
    decreases |log|
  {
    var front, last := log[..|log| - 1], log[|log| - 1];
    if SaysOffline(last, id) {
      k := |log| - 1;
    } else {
      assert i < |front|;
      k := GoneAfter(front, i, id);
    }
  }

  lemma {:induction false} AlternatesSnoc(log: seq<Logged>, l: Logged)
    requires Alternates(log)
    requires l.byBus && l.msg.msgType == NODE_ONLINE ==> l.msg.from !in Online(log)
    ensures Alternates(log + [l])
  {
    var all := log + [l];
    forall i, j, id | 0 <= i < j < |all| && SaysOnline(all[i], id) && SaysOnline(all[j], id)
      ensures exists k :: i < k < j && SaysOffline(all[k], id)
    {
      if j < |log| {
        var k :| i < k < j && SaysOffline(log[k], id);
        assert SaysOffline(all[k], id);
      } else {
        var k := GoneAfter(log, i, id);
        assert SaysOffline(all[k], id);
      }
    }
  }

  // ── One step, as a relation on values ───────────────────────────────

  datatype State = State(nodes: map<NodeId, NodeEntry>, log: seq<Logged>)

  datatype Cmd =
    | Send(msg: Message)
    | Connect(info: NodeInfo, filter: MessageFilter)
    | Disconnect(id: NodeId)
    | HeartbeatAck(id: NodeId)
    | Tick
    | BarrierRequest(cid: Uuid)

  ghost function ByBus(msgType: string, from: NodeId): Logged {
    Logged(true, Message(msgType, from, [], None, Null))
  }

  predicate Expired(entry: NodeEntry, now: nat, timeout: nat) {
    now > entry.lastAck + timeout
  }

  function TimedOut(nodes: map<NodeId, NodeEntry>, now: nat, timeout: nat): set<NodeId> {
    set id | id in nodes && Expired(nodes[id], now, timeout)
  }

  /** A directed message goes out iff at least one of its targets is online. */
  ghost predicate Deliverable(nodes: map<NodeId, NodeEntry>, msg: Message) {
    msg.to == [] || exists t <- msg.to :: t in nodes
  }

  ghost function OfflineNotices(ids: seq<NodeId>): seq<Logged> {
    seq(|ids|, i requires 0 <= i < |ids| => ByBus(NODE_OFFLINE, ids[i]))
  }

  /** `ids` is the order in which a tick happened to visit the nodes it removes. */
  ghost predicate TickStep(s: State, now: nat, timeout: nat, ids: seq<NodeId>, t: State) {
    && NoDup(ids) && Elems(ids) == TimedOut(s.nodes, now, timeout)
    && t == State(s.nodes - Elems(ids), s.log + [ByBus(HEARTBEAT_REQUEST, "bus")] + OfflineNotices(ids))
  }

  ghost predicate Step(s: State, cmd: Cmd, now: nat, timeout: nat, t: State) {
    match cmd
    case Send(msg) =>
      t == if Deliverable(s.nodes, msg) then s.(log := s.log + [Logged(false, msg)]) else s
    case Connect(info, filter) =>
      t == if info.nodeId in s.nodes then s
           else State(s.nodes[info.nodeId := NodeEntry(info, now, filter)], s.log + [ByBus(NODE_ONLINE, info.nodeId)])
    case Disconnect(id) =>
      t == State(s.nodes - {id}, s.log + [ByBus(NODE_OFFLINE, id)])
    case HeartbeatAck(id) =>
      t == if id in s.nodes then s.(nodes := s.nodes[id := s.nodes[id].(lastAck := now)]) else s
    case Tick =>
      exists ids :: TickStep(s, now, timeout, ids, t)
    case BarrierRequest(cid) =>
      t == s.(log := s.log + [Logged(false, Message(BARRIER_REQUEST, "bus", [], Some(cid), Null))])
  }

  /** The log tells exactly who is in the node map. */
  ghost predicate InStep(s: State) {
    Online(s.log) == s.nodes.Keys && Alternates(s.log)
  }

  lemma {:induction false} OneNotice(s: State, l: Logged)
    requires InStep(s)
    requires l.byBus && l.msg.msgType == NODE_ONLINE ==> l.msg.from !in s.nodes
    ensures Alternates(s.log + [l])
    ensures Online(s.log + [l]) ==
            if l.byBus && l.msg.msgType == NODE_ONLINE then s.nodes.Keys + {l.msg.from}
            else if l.byBus && l.msg.msgType == NODE_OFFLINE then s.nodes.Keys - {l.msg.from}
            else s.nodes.Keys
  {
    OnlineSnoc(s.log, l);
    AlternatesSnoc(s.log, l);
  }

  lemma {:induction false} ManyNotices(s: State, ids: seq<NodeId>)
    requires InStep(s)
    ensures InStep(State(s.nodes - Elems(ids), s.log + OfflineNotices(ids)))
    decreases |ids|
  {
    if ids == [] {
      assert s.nodes - Elems(ids) == s.nodes && s.log + OfflineNotices(ids) == s.log;
    } else {
      var front, last := ids[..|ids| - 1], ids[|ids| - 1];
      ManyNotices(s, front);
      var t := State(s.nodes - Elems(front), s.log + OfflineNotices(front));
      OneNotice(t, ByBus(NODE_OFFLINE, last));
      assert OfflineNotices(ids) == OfflineNotices(front) + [ByBus(NODE_OFFLINE, last)];
      assert s.log + OfflineNotices(ids) == t.log + [ByBus(NODE_OFFLINE, last)];
      assert Elems(ids) == Elems(front) + {last};
    }
  }

  lemma {:induction false} StepKeepsInStep(s: State, cmd: Cmd, now: nat, timeout: nat, t: State)
    requires InStep(s) && Step(s, cmd, now, timeout, t)
    ensures InStep(t)
  {
    match cmd
    case Send(msg) => OneNotice(s, Logged(false, msg));
    case Connect(info, _) =>
      if info.nodeId !in s.nodes {
        OneNotice(s, ByBus(NODE_ONLINE, info.nodeId));
      }
    case Disconnect(id) => OneNotice(s, ByBus(NODE_OFFLINE, id));
    case HeartbeatAck(id) => assert t.nodes.Keys == s.nodes.Keys;
    case BarrierRequest(cid) => OneNotice(s, Logged(false, Message(BARRIER_REQUEST, "bus", [], Some(cid), Null)));
    case Tick =>
      var ids :| TickStep(s, now, timeout, ids, t);
      OneNotice(s, ByBus(HEARTBEAT_REQUEST, "bus"));
      ManyNotices(s.(log := s.log + [ByBus(HEARTBEAT_REQUEST, "bus")]), ids);
  }

  // ── Whole runs ──────────────────────────────────────────────────────

  datatype Event = Event(now: nat, cmd: Cmd)

  /** `states[i + 1]` results from handling `events[i]` in `states[i]`; the clock never runs back. */
  ghost predicate IsRun(states: seq<State>, events: seq<Event>, timeout: nat) {
    && |states| == |events| + 1 && states[0] == State(map[], [])
    && (forall i :: 0 <= i < |events| ==> Step(states[i], events[i].cmd, events[i].now, timeout, states[i + 1]))
    && (forall i :: 0 <= i < |events| - 1 ==> events[i].now <= events[i + 1].now)
  }

  /** In every reachable state, replaying the log rebuilds the node map's keys. */
  lemma {:induction false} ReachableInStep(states: seq<State>, events: seq<Event>, timeout: nat, i: nat)
    requires IsRun(states, events, timeout) && i < |states|
    ensures InStep(states[i])
    decreases i
  {
    if i > 0 {
      ReachableInStep(states, events, timeout, i - 1);
      assert Step(states[i - 1], events[i - 1].cmd, events[i - 1].now, timeout, states[i - 1 + 1]);
      StepKeepsInStep(states[i - 1], events[i - 1].cmd, events[i - 1].now, timeout, states[i]);
    }
  }

  /** The event at `k` is a sign of life from `id`: its registration or an acknowledgement. */
  ghost predicate SignOfLife(states: seq<State>, events: seq<Event>, id: NodeId, k: nat)
    requires k < |events| && |states| == |events| + 1
  {
    match events[k].cmd
    case Connect(info, _) => info.nodeId == id && id !in states[k].nodes
    case HeartbeatAck(a) => a == id && id in states[k].nodes
    case _ => false
  }

  /** An online node's recorded time is that of its latest sign of life. */
  lemma {:induction false} LastAckIsLatest(states: seq<State>, events: seq<Event>, timeout: nat, i: nat, id: NodeId)
    returns (k: nat)
    requires IsRun(states, events, timeout) && i < |states| && id in states[i].nodes
    ensures k < i && SignOfLife(states, events, id, k) && states[i].nodes[id].lastAck == events[k].now
    ensures forall j :: k < j < i ==> !SignOfLife(states, events, id, j)
    decreases i
  {
    var s, e, t := states[i - 1], events[i - 1], states[i];
    assert Step(s, e.cmd, e.now, timeout, states[i - 1 + 1]);
    if SignOfLife(states, events, id, i - 1) {
      k := i - 1;
    } else {
      EntryCarriesOver(s, e.cmd, e.now, timeout, t, id);
      k := LastAckIsLatest(states, events, timeout, i - 1, id);
    }
  }

  lemma {:induction false} EntryCarriesOver(s: State, cmd: Cmd, now: nat, timeout: nat, t: State, id: NodeId)
    requires Step(s, cmd, now, timeout, t) && id in t.nodes
    requires !(cmd.Connect? && cmd.info.nodeId == id && id !in s.nodes)
    requires !(cmd.HeartbeatAck? && cmd.id == id && id in s.nodes)
    ensures id in s.nodes && t.nodes[id] == s.nodes[id]
  {
  }

  /** A tick removes exactly the nodes whose latest sign of life is older than the timeout. */
  lemma {:induction false} TickRemovesExactlySilent(states: seq<State>, events: seq<Event>, timeout: nat, i: nat,
                                                    id: NodeId)
    requires IsRun(states, events, timeout) && i < |events| && events[i].cmd == Tick && id in states[i].nodes
    ensures id in states[i + 1].nodes <==>
            exists k :: 0 <= k < i && SignOfLife(states, events, id, k) && events[i].now <= events[k].now + timeout
  {
    var s, now, t := states[i], events[i].now, states[i + 1];
    assert Step(s, Tick, now, timeout, t);
    var ids :| TickStep(s, now, timeout, ids, t);
    var k := LastAckIsLatest(states, events, timeout, i, id);
    assert id in t.nodes <==> now <= events[k].now + timeout;
    forall j | 0 <= j < i && SignOfLife(states, events, id, j) ensures events[j].now <= events[k].now {
      ClockMonotone(events, j, k);
    }
  }

  lemma {:induction false} ClockMonotone(events: seq<Event>, j: nat, k: nat)
    requires forall i :: 0 <= i < |events| - 1 ==> events[i].now <= events[i + 1].now
    requires j <= k < |events|
    ensures events[j].now <= events[k].now
    decreases k
  {
    if j < k {
      ClockMonotone(events, j, k - 1);
      assert events[k - 1].now <= events[k - 1 + 1].now;
    }
  }

  // ── The loop's state and branches ───────────────────────────────────

  class MessageLoop {
    var nodes: map<NodeId, NodeEntry>
    ghost var log: seq<Logged>
    var messageCount: nat
    const timeout: nat

    ghost predicate Valid()
      reads this
    {
      InStep(State(nodes, log))
    }

    constructor (timeout: nat)
      ensures Valid() && nodes == map[] && log == [] && messageCount == 0 && this.timeout == timeout
    {
      this.timeout := timeout;
      nodes, log, messageCount := map[], [], 0;
    }

    method Broadcast(byBus: bool, msg: Message)
      modifies `log
      ensures log == old(log) + [Logged(byBus, msg)]
    {
      log := log + [Logged(byBus, msg)];
    }

    /** The `Send` branch: refuse if every target is offline, else broadcast and count. */
    method HandleSend(msg: Message, ghost now: nat) returns (r: Result<SendReceipt, SendError>)
      requires Valid()
      modifies `log, `messageCount
      ensures Valid() && Step(State(nodes, old(log)), Cmd.Send(msg), now, timeout, State(nodes, log))
      ensures r.Ok? <==> Deliverable(nodes, msg)
      ensures r.Err? ==> r.error == NodeOffline(msg.to) && messageCount == old(messageCount)
      ensures r.Ok? ==> messageCount == (old(messageCount) + 1) % 0x1_0000_0000_0000_0000
      ensures r.Ok? ==> r.value.onlineNodes == |nodes|
      ensures r.Ok? && msg.to == [] ==>
        r.value.matchingNodes == |set id | id in nodes && Wants(nodes[id].filter, msg, nodes[id].info.nodeId)|
      ensures r.Ok? && msg.to != [] ==> r.value.matchingNodes == |Reached(nodes, msg.to)|
    {
      hide Wants, Reached, Absent, Online, Alternates;
      var matching: nat := 0;
      if msg.to != [] {
        var offline := Absent(nodes, msg.to);
        AbsentAll(nodes, msg.to);
        if |offline| == |msg.to| {
          return Err(NodeOffline(offline));
        }
        matching := |msg.to| - |offline|;
      } else {
        matching := CountMatching(nodes, msg);
      }
      StepKeepsInStep(State(nodes, log), Cmd.Send(msg), now, timeout, State(nodes, log + [Logged(false, msg)]));
      Broadcast(false, msg);
      messageCount := (messageCount + 1) % 0x1_0000_0000_0000_0000;
      return Ok(SendReceipt(|nodes|, matching));
    }

    method HandleConnect(info: NodeInfo, filter: MessageFilter, now: nat) returns (r: Result<(), ConnectError>)
      requires Valid()
      modifies `nodes, `log
      ensures Valid() && Step(old(State(nodes, log)), Cmd.Connect(info, filter), now, timeout, State(nodes, log))
      ensures r == if info.nodeId in old(nodes) then Err(AlreadyConnected(info.nodeId)) else Ok(())
    {
      if info.nodeId in nodes {
        return Err(AlreadyConnected(info.nodeId));
      }
      ghost var s := State(nodes, log);
      nodes := nodes[info.nodeId := NodeEntry(info, now, filter)];
      Broadcast(true, Message(NODE_ONLINE, info.nodeId, [], None, Null));
      StepKeepsInStep(s, Cmd.Connect(info, filter), now, timeout, State(nodes, log));
      return Ok(());
    }

    method HandleDisconnect(id: NodeId, ghost now: nat)
      requires Valid()
      modifies `nodes, `log
      ensures Valid() && Step(old(State(nodes, log)), Cmd.Disconnect(id), now, timeout, State(nodes, log))
    {
      ghost var s := State(nodes, log);
      nodes := nodes - {id};
      Broadcast(true, Message(NODE_OFFLINE, id, [], None, Null));
      StepKeepsInStep(s, Cmd.Disconnect(id), now, timeout, State(nodes, log));
    }

    method HandleHeartbeatAck(id: NodeId, now: nat)
      requires Valid()
      modifies `nodes
      ensures Valid() && Step(State(old(nodes), log), Cmd.HeartbeatAck(id), now, timeout, State(nodes, log))
    {
      ghost var s := State(nodes, log);
      if id in nodes {
        nodes := nodes[id := nodes[id].(lastAck := now)];
      }
      StepKeepsInStep(s, Cmd.HeartbeatAck(id), now, timeout, State(nodes, log));
    }

    /** Announces the heartbeat, then removes and announces each timed-out node in some order. */
    method HandleHeartbeatTick(now: nat)
      requires Valid()
      modifies `nodes, `log
      ensures Valid() && Step(old(State(nodes, log)), Cmd.Tick, now, timeout, State(nodes, log))
    {
      ghost var s := State(nodes, log);
      Broadcast(true, Message(HEARTBEAT_REQUEST, "bus", [], None, Null));
      var timedOut := TimedOut(nodes, now, timeout);
      var todo := timedOut;
      ghost var ids: seq<NodeId> := [];
      while todo != {}
        invariant todo !! Elems(ids) && todo + Elems(ids) == timedOut && NoDup(ids)
        invariant nodes == s.nodes - Elems(ids)
        invariant log == s.log + [ByBus(HEARTBEAT_REQUEST, "bus")] + OfflineNotices(ids)
      {
        var id :| id in todo;
        todo := todo - {id};
        nodes := nodes - {id};
        Broadcast(true, Message(NODE_OFFLINE, id, [], None, Null));
        assert Elems(ids + [id]) == Elems(ids) + {id};
        assert OfflineNotices(ids + [id]) == OfflineNotices(ids) + [ByBus(NODE_OFFLINE, id)];
        ids := ids + [id];
      }
      assert TickStep(s, now, timeout, ids, State(nodes, log));
      StepKeepsInStep(s, Cmd.Tick, now, timeout, State(nodes, log));
    }
  }

  /** The targets that are not online, repeats included. */
  function Absent(nodes: map<NodeId, NodeEntry>, to: seq<NodeId>): (r: seq<NodeId>)
    ensures |r| <= |to|
  {
    if to == [] then []
    else
      var front, last := Absent(nodes, to[..|to| - 1]), to[|to| - 1];
      if last in nodes then front else front + [last]
  }

  /** The places of the targets that are online. */
  ghost function Reached(nodes: map<NodeId, NodeEntry>, to: seq<NodeId>): set<nat> {
    set i: nat | i < |to| && to[i] in nodes
  }

  lemma {:induction false} AbsentAll(nodes: map<NodeId, NodeEntry>, to: seq<NodeId>)
    ensures |Absent(nodes, to)| == |to| <==> forall t <- to :: t !in nodes
    ensures |Absent(nodes, to)| == |to| ==> Absent(nodes, to) == to
    ensures |Absent(nodes, to)| + |Reached(nodes, to)| == |to|
    decreases |to|
  {
    if to != [] {
      var front, last := to[..|to| - 1], to[|to| - 1];
      assert to == front + [last];
      AbsentAll(nodes, front);
      assert Reached(nodes, to) == Reached(nodes, front) + if last in nodes then {|front|} else {};
    }
  }

  method CountMatching(nodes: map<NodeId, NodeEntry>, msg: Message) returns (n: nat)
    ensures n == |set id | id in nodes && Wants(nodes[id].filter, msg, nodes[id].info.nodeId)|
  {
    n := 0;
    var todo := nodes.Keys;
    ghost var counted: set<NodeId> := {};
    while todo != {}
      invariant todo <= nodes.Keys && n == |counted|
      invariant counted == set id | id in nodes && id !in todo && Wants(nodes[id].filter, msg, nodes[id].info.nodeId)
    {
      var id :| id in todo;
      todo := todo - {id};
      MatchesIff(nodes[id].filter, msg, nodes[id].info.nodeId);
      if nodes[id].filter.Matches(msg, nodes[id].info.nodeId) {
        n := n + 1;
        counted := counted + {id};
      }
    }
    assert counted == set id | id in nodes && Wants(nodes[id].filter, msg, nodes[id].info.nodeId);
  }
}
