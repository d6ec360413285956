/** From a bus's broadcast ring, through a forwarding task, to what a node handle receives. */
module Delivery {
  import opened Wrappers
  import opened Messages

  /** Slots in a subscription's inbound channel. */
  const INBOUND_SLOTS := 16

  /** A bus as its receivers see it: everything broadcast so far, the last `capacity` of it still readable. */
  datatype Ring = Ring(capacity: nat, log: seq<Message>, closed: bool)

  /**
   * One subscription with its forwarding task. `announced` is the log index of the node's own
   * node_online, `start` where the receiver was created, `cursor` what it reads next. `gaps` records the
   * indices a lag skipped and `acks` the heartbeats answered.
   */
  datatype Sub = Sub(bus: nat, filter: MessageFilter, announced: nat, start: nat, cursor: nat, gaps: set<nat>,
                     held: Option<Message>, inbound: seq<Message>, acks: nat, running: bool)

  /** `pending` holds buses the node is registered on but not yet subscribed to. */
  datatype World = World(me: NodeId, rings: seq<Ring>, pending: map<nat, nat>, subs: seq<Sub>,
                         arrivals: seq<(nat, Message)>)

  datatype Action =
    | Publish(bus: nat, msg: Message)
    | Close(bus: nat)
    | Register(bus: nat)
    | Subscribe(bus: nat, filter: MessageFilter)
    | Take(sub: nat)
    | Lag(sub: nat)
    | Push(sub: nat)
    | Exit(sub: nat)
    | Recv(sub: nat)

  // ── Vocabulary ──────────────────────────────────────────────────────

  ghost predicate Wanted(msg: Message, filter: MessageFilter, me: NodeId) {
    msg.msgType != HEARTBEAT_REQUEST && Wants(filter, msg, me)
  }

  /** The wanted messages at log indices `from..upto`, without the gaps, in log order. */
  ghost function Kept(log: seq<Message>, from: nat, upto: nat, gaps: set<nat>, filter: MessageFilter,
                      me: NodeId): seq<Message>
    requires upto <= |log|
  {
    if upto <= from then []
    else
      var before := Kept(log, from, upto - 1, gaps, filter, me);
      if upto - 1 !in gaps && Wanted(log[upto - 1], filter, me) then before + [log[upto - 1]] else before
  }

  /** The heartbeat requests at log indices `from..upto`, without the gaps. */
  ghost function Beats(log: seq<Message>, from: nat, upto: nat, gaps: set<nat>): nat
    requires upto <= |log|
  {
    if upto <= from then 0
    else Beats(log, from, upto - 1, gaps)
         + if upto - 1 !in gaps && log[upto - 1].msgType == HEARTBEAT_REQUEST then 1 else 0
  }

  /** What the handle received from subscription `i`, in the order it was received. */
  ghost function Received(arrivals: seq<(nat, Message)>, i: nat): seq<Message> {
    if arrivals == [] then []
    else
      var last := arrivals[|arrivals| - 1];
      Received(arrivals[..|arrivals| - 1], i) + if last.0 == i then [last.1] else []
  }

  ghost function OwnOnline(me: NodeId): Message {
    Message(NODE_ONLINE, me, [], None, Null)
  }

  ghost function AsSeq<T>(o: Option<T>): seq<T> {
    if o.Some? then [o.value] else []
  }

  // ── Steps ───────────────────────────────────────────────────────────

  ghost function Broadcast(ring: Ring, msg: Message): Ring {
    ring.(log := ring.log + [msg])
  }

  /** The forwarding task reads one message: answer a heartbeat, drop an unwanted one, or hold it. */
  ghost function Taken(s: Sub, msg: Message, me: NodeId): Sub {
    if msg.msgType == HEARTBEAT_REQUEST then s.(cursor := s.cursor + 1, acks := s.acks + 1)
    else if !s.filter.Matches(msg, me) then s.(cursor := s.cursor + 1)
    else s.(cursor := s.cursor + 1, held := Some(msg))
  }

  ghost function Between(from: nat, upto: nat): (r: set<nat>)
    ensures forall k :: k in r <==> from <= k < upto
  {
    if upto <= from then {} else Between(from, upto - 1) + {upto - 1}
  }

  /** The ring overwrote what the forwarding task was to read next: it resumes at the oldest surviving message. */
  ghost function Lagged(s: Sub, ring: Ring): Sub
    requires ring.capacity <= |ring.log|
  {
    var oldest := |ring.log| - ring.capacity;
    s.(cursor := oldest, gaps := s.gaps + Between(s.cursor, oldest))
  }

  ghost predicate WellPlaced(w: World) {
    forall i :: 0 <= i < |w.subs| ==> w.subs[i].bus < |w.rings|
  }

  ghost predicate Step(w: World, a: Action, v: World)
    requires WellPlaced(w)
  {
    match a
    case Publish(b, msg) =>
      && b < |w.rings| && !w.rings[b].closed
      && v == w.(rings := w.rings[b := Broadcast(w.rings[b], msg)])
    case Close(b) =>
      && b < |w.rings|
      && v == w.(rings := w.rings[b := w.rings[b].(closed := true)])
    case Register(b) =>
      && b < |w.rings| && !w.rings[b].closed
      && v == w.(rings := w.rings[b := Broadcast(w.rings[b], OwnOnline(w.me))],
                 pending := w.pending[b := |w.rings[b].log|])
    case Subscribe(b, filter) =>
      && b < |w.rings| && !w.rings[b].closed && b in w.pending
      && var at := |w.rings[b].log|;
         v == w.(pending := w.pending - {b},
                 subs := w.subs + [Sub(b, filter, w.pending[b], at, at, {}, None, [], 0, true)])
    case Take(i) =>
      && i < |w.subs| && w.subs[i].running && w.subs[i].held.None?
      && var s := w.subs[i]; var ring := w.rings[s.bus];
         && s.cursor < |ring.log| <= s.cursor + ring.capacity
         && v == w.(subs := w.subs[i := Taken(s, ring.log[s.cursor], w.me)])
    case Lag(i) =>
      && i < |w.subs| && w.subs[i].running && w.subs[i].held.None?
      && var s := w.subs[i]; var ring := w.rings[s.bus];
         && s.cursor + ring.capacity < |ring.log|
         && v == w.(subs := w.subs[i := Lagged(s, ring)])
    case Push(i) =>
      && i < |w.subs| && w.subs[i].running && w.subs[i].held.Some?
      && var s := w.subs[i];
         && |s.inbound| < INBOUND_SLOTS
         && v == w.(subs := w.subs[i := s.(held := None, inbound := s.inbound + [s.held.value])])
    case Exit(i) =>
      && i < |w.subs| && w.subs[i].running && w.subs[i].held.None?
      && var s := w.subs[i]; var ring := w.rings[s.bus];
         && ring.closed && s.cursor == |ring.log|
         && v == w.(subs := w.subs[i := s.(running := false)])
    case Recv(i) =>
      && i < |w.subs| && w.subs[i].inbound != []
      && var s := w.subs[i];
         v == w.(subs := w.subs[i := s.(inbound := s.inbound[1..])], arrivals := w.arrivals + [(i, s.inbound[0])])
  }

  // ── The invariant ───────────────────────────────────────────────────

  /** Received, queued and held messages together are exactly what was kept of the log read so far. */
  ghost predicate SubInv(s: Sub, ring: Ring, received: seq<Message>, me: NodeId) {
    && s.announced < s.start <= s.cursor <= |ring.log|
    && ring.log[s.announced] == OwnOnline(me)
    && (forall k <- s.gaps :: s.start <= k < s.cursor)
    && |s.inbound| <= INBOUND_SLOTS
    && received + s.inbound + AsSeq(s.held) == Kept(ring.log, s.start, s.cursor, s.gaps, s.filter, me)
    && s.acks == Beats(ring.log, s.start, s.cursor, s.gaps)
    && (!s.running ==> ring.closed && s.cursor == |ring.log| && s.held.None?)
  }

  ghost predicate Inv(w: World) {
    && WellPlaced(w)
    && (forall b <- w.pending :: b < |w.rings| && w.pending[b] < |w.rings[b].log|
                                 && w.rings[b].log[w.pending[b]] == OwnOnline(w.me))
    && (forall i :: 0 <= i < |w.subs| ==> SubInv(w.subs[i], w.rings[w.subs[i].bus], Received(w.arrivals, i), w.me))
    && (forall k :: 0 <= k < |w.arrivals| ==> w.arrivals[k].0 < |w.subs|)
  }

  /** Kept and Beats look at the read part of the log, and at the gaps inside it, only. */
  lemma {:induction false} KeptPrefix(log: seq<Message>, more: seq<Message>, from: nat, upto: nat,
                                      gaps: set<nat>, gaps': set<nat>, filter: MessageFilter, me: NodeId)
    requires upto <= |log| && log <= more
    requires forall k :: from <= k < upto ==> (k in gaps <==> k in gaps')
    ensures Kept(log, from, upto, gaps, filter, me) == Kept(more, from, upto, gaps', filter, me)
    ensures Beats(log, from, upto, gaps) == Beats(more, from, upto, gaps')
    decreases upto
  {
    if from < upto {
      KeptPrefix(log, more, from, upto - 1, gaps, gaps', filter, me);
      assert log[upto - 1] == more[upto - 1];
    }
  }

  /** A stretch made of gaps only contributes nothing. */
  lemma {:induction false} KeptGap(log: seq<Message>, from: nat, mid: nat, upto: nat, gaps: set<nat>,
                                   filter: MessageFilter, me: NodeId)
    requires from <= mid <= upto <= |log|
    requires forall k :: mid <= k < upto ==> k in gaps
    ensures Kept(log, from, upto, gaps, filter, me) == Kept(log, from, mid, gaps, filter, me)
    ensures Beats(log, from, upto, gaps) == Beats(log, from, mid, gaps)
    decreases upto
  {
    if mid < upto {
      KeptGap(log, from, mid, upto - 1, gaps, filter, me);
    }
  }

  lemma ReceivedSnoc(arrivals: seq<(nat, Message)>, y: (nat, Message), i: nat)
    ensures Received(arrivals + [y], i) == Received(arrivals, i) + if y.0 == i then [y.1] else []
  {
    assert (arrivals + [y])[..|arrivals|] == arrivals;
  }

  lemma {:induction false} ReceivedNone(arrivals: seq<(nat, Message)>, i: nat)
    requires forall k :: 0 <= k < |arrivals| ==> arrivals[k].0 != i
    ensures Received(arrivals, i) == []
    decreases |arrivals|
  {
    if arrivals != [] {
      ReceivedNone(arrivals[..|arrivals| - 1], i);
    }
  }

  lemma SubInvGrows(s: Sub, ring: Ring, ring': Ring, received: seq<Message>, me: NodeId)
    requires SubInv(s, ring, received, me)
    requires ring.log <= ring'.log && (ring.closed ==> ring'.closed && ring'.log == ring.log)
    ensures SubInv(s, ring', received, me)
  {
    KeptPrefix(ring.log, ring'.log, s.start, s.cursor, s.gaps, s.gaps, s.filter, me);
  }

  lemma RingGrows(w: World, b: nat, ring: Ring, v: World)
    requires Inv(w) && b < |w.rings|
    requires w.rings[b].log <= ring.log && (w.rings[b].closed ==> ring.closed && ring.log == w.rings[b].log)
    requires v == w.(rings := w.rings[b := ring])
    ensures Inv(v)
  {
    forall i | 0 <= i < |v.subs| ensures SubInv(v.subs[i], v.rings[v.subs[i].bus], Received(v.arrivals, i), v.me) {
      SubInvGrows(w.subs[i], w.rings[w.subs[i].bus], v.rings[w.subs[i].bus], Received(w.arrivals, i), w.me);
    }
  }

  lemma TakenKeeps(s: Sub, ring: Ring, received: seq<Message>, me: NodeId)
    requires SubInv(s, ring, received, me) && s.running && s.held.None? && s.cursor < |ring.log|
    ensures SubInv(Taken(s, ring.log[s.cursor], me), ring, received, me)
  {
    var msg := ring.log[s.cursor];
    assert s.cursor !in s.gaps;
    MatchesIff(s.filter, msg, me);
    assert Kept(ring.log, s.start, s.cursor + 1, s.gaps, s.filter, me) ==
           Kept(ring.log, s.start, s.cursor, s.gaps, s.filter, me) + if Wanted(msg, s.filter, me) then [msg] else [];
  }

  lemma LaggedKeeps(s: Sub, ring: Ring, received: seq<Message>, me: NodeId)
    requires SubInv(s, ring, received, me) && s.running && s.cursor + ring.capacity < |ring.log|
    ensures SubInv(Lagged(s, ring), ring, received, me)
  {
    var t := Lagged(s, ring);
    KeptPrefix(ring.log, ring.log, s.start, s.cursor, s.gaps, t.gaps, s.filter, me);
    KeptGap(ring.log, s.start, s.cursor, t.cursor, t.gaps, s.filter, me);
  }

  /** Replacing one subscription by one that satisfies its invariant keeps the whole. */
  lemma SubChanges(w: World, i: nat, s: Sub)
    requires Inv(w) && i < |w.subs| && s.bus == w.subs[i].bus
    requires SubInv(s, w.rings[s.bus], Received(w.arrivals, i), w.me)
    ensures Inv(w.(subs := w.subs[i := s]))
  {
  }

  lemma RecvKeeps(w: World, i: nat, v: World)
    requires Inv(w) && i < |w.subs| && w.subs[i].inbound != []
    requires var s := w.subs[i];
             v == w.(subs := w.subs[i := s.(inbound := s.inbound[1..])], arrivals := w.arrivals + [(i, s.inbound[0])])
    ensures Inv(v)
  {
    var s := w.subs[i];
    forall j | 0 <= j < |v.subs| ensures SubInv(v.subs[j], v.rings[v.subs[j].bus], Received(v.arrivals, j), v.me) {
      ReceivedSnoc(w.arrivals, (i, s.inbound[0]), j);
      if j == i {
        Handed(s, w.rings[s.bus], Received(w.arrivals, i), w.me);
      }
    }
  }

  lemma Handed(s: Sub, ring: Ring, received: seq<Message>, me: NodeId)
    requires SubInv(s, ring, received, me) && s.inbound != []
    ensures SubInv(s.(inbound := s.inbound[1..]), ring, received + [s.inbound[0]], me)
  {
    assert s.inbound == [s.inbound[0]] + s.inbound[1..];
    assert received + [s.inbound[0]] + s.inbound[1..] == received + s.inbound;
  }

  lemma SubscribeKeeps(w: World, b: nat, filter: MessageFilter, v: World)
    requires Inv(w) && Step(w, Subscribe(b, filter), v)
    ensures Inv(v)
  {
    ReceivedNone(w.arrivals, |w.subs|);
  }

  lemma RegisterKeeps(w: World, b: nat, v: World)
    requires Inv(w) && Step(w, Register(b), v)
    ensures Inv(v)
  {
    var ring := Broadcast(w.rings[b], OwnOnline(w.me));
    RingGrows(w, b, ring, w.(rings := w.rings[b := ring]));
  }

  lemma StepKeepsInv(w: World, a: Action, v: World)
    requires Inv(w) && Step(w, a, v)
    ensures Inv(v)
  {
    match a
    case Publish(b, msg) => RingGrows(w, b, Broadcast(w.rings[b], msg), v);
    case Close(b) => RingGrows(w, b, w.rings[b].(closed := true), v);
    case Register(b) => RegisterKeeps(w, b, v);
    case Subscribe(b, filter) => SubscribeKeeps(w, b, filter, v);
    case Take(i) =>
      TakenKeeps(w.subs[i], w.rings[w.subs[i].bus], Received(w.arrivals, i), w.me);
      SubChanges(w, i, v.subs[i]);
    case Lag(i) =>
      LaggedKeeps(w.subs[i], w.rings[w.subs[i].bus], Received(w.arrivals, i), w.me);
      SubChanges(w, i, v.subs[i]);
    case Push(i) =>
      var s := w.subs[i];
      assert Received(w.arrivals, i) + s.inbound + [s.held.value] == Received(w.arrivals, i)
          + (s.inbound + [s.held.value]) + [];
      SubChanges(w, i, v.subs[i]);
    case Exit(i) => SubChanges(w, i, v.subs[i]);
    case Recv(i) => RecvKeeps(w, i, v);
  }

  // ── Whole runs ──────────────────────────────────────────────────────

  ghost predicate IsRun(worlds: seq<World>, actions: seq<Action>) {
    && |worlds| == |actions| + 1
    && worlds[0].subs == [] && worlds[0].arrivals == [] && worlds[0].pending == map[]
    && forall i :: 0 <= i < |actions| ==> WellPlaced(worlds[i]) && Step(worlds[i], actions[i], worlds[i + 1])
  }

  lemma {:induction false} ReachableInv(worlds: seq<World>, actions: seq<Action>, n: nat)
    requires IsRun(worlds, actions) && n < |worlds|
    ensures Inv(worlds[n])
    decreases n
  {
    if n > 0 {
      ReachableInv(worlds, actions, n - 1);
      assert Step(worlds[n - 1], actions[n - 1], worlds[n - 1 + 1]);
      StepKeepsInv(worlds[n - 1], actions[n - 1], worlds[n]);
    }
  }

  /** Strictly increasing positions inside `from..upto`. */
  ghost predicate Positions(ix: seq<nat>, from: nat, upto: nat) {
    && (forall a :: 0 <= a < |ix| ==> from <= ix[a] < upto)
    && forall a, b :: 0 <= a < b < |ix| ==> ix[a] < ix[b]
  }

  ghost function Pick(log: seq<Message>, ix: seq<nat>): seq<Message>
    requires forall a :: 0 <= a < |ix| ==> ix[a] < |log|
  {
    seq(|ix|, a requires 0 <= a < |ix| => log[ix[a]])
  }

  /** The log positions behind Kept. */
  lemma {:induction false} KeptPositions(log: seq<Message>, from: nat, upto: nat, gaps: set<nat>,
                                         filter: MessageFilter, me: NodeId)
    returns (ix: seq<nat>)
    requires upto <= |log|
    ensures Positions(ix, from, upto)
    ensures forall a :: 0 <= a < |ix| ==> ix[a] !in gaps && Wanted(log[ix[a]], filter, me)
    ensures Pick(log, ix) == Kept(log, from, upto, gaps, filter, me)
    decreases upto
  {
    if upto <= from {
      ix := [];
    } else {
      var before := KeptPositions(log, from, upto - 1, gaps, filter, me);
      if upto - 1 !in gaps && Wanted(log[upto - 1], filter, me) {
        ix := before + [upto - 1];
        assert Pick(log, ix) == Pick(log, before) + [log[upto - 1]];
      } else {
        ix := before;
      }
    }
  }

  /**
   * What the handle received from one subscription is its bus's log at strictly increasing positions, all
   * after the node's own announcement, all passing the filter, none a heartbeat.
   */
  lemma {:induction false} ReceivedInOrder(worlds: seq<World>, actions: seq<Action>, n: nat, i: nat)
    returns (ix: seq<nat>)
    requires IsRun(worlds, actions) && n < |worlds| && i < |worlds[n].subs|
    ensures worlds[n].subs[i].bus < |worlds[n].rings|
    ensures var log := worlds[n].rings[worlds[n].subs[i].bus].log;
            && worlds[n].subs[i].announced < |log| && log[worlds[n].subs[i].announced] == OwnOnline(worlds[n].me)
            && Positions(ix, worlds[n].subs[i].announced + 1, |log|)
            && Received(worlds[n].arrivals, i) == Pick(log, ix)
            && forall a :: 0 <= a < |ix| ==> Wanted(log[ix[a]], worlds[n].subs[i].filter, worlds[n].me)
  {
    ReachableInv(worlds, actions, n);
    var w := worlds[n];
    var s, received := w.subs[i], Received(w.arrivals, i);
    var log := w.rings[s.bus].log;
    var all := KeptPositions(log, s.start, s.cursor, s.gaps, s.filter, w.me);
    ix := all[..|received|];
    assert received <= Pick(log, all);
    assert Pick(log, ix) == Pick(log, all)[..|received|];
  }

  /** Nothing but a lag loses a message: received, queued and held make up every wanted message outside the gaps. */
  lemma {:induction false} ConservedOutsideGaps(worlds: seq<World>, actions: seq<Action>, n: nat, i: nat)
    requires IsRun(worlds, actions) && n < |worlds| && i < |worlds[n].subs|
    ensures worlds[n].subs[i].bus < |worlds[n].rings|
    ensures var s := worlds[n].subs[i]; var log := worlds[n].rings[s.bus].log;
            && s.cursor <= |log| && s.acks == Beats(log, s.start, s.cursor, s.gaps)
            && Received(worlds[n].arrivals, i) + s.inbound
                + AsSeq(s.held) == Kept(log, s.start, s.cursor, s.gaps, s.filter, worlds[n].me)
  {
    ReachableInv(worlds, actions, n);
  }

  /** How far a subscription's forwarding task is behind its bus. */
  ghost function Behind(w: World, i: nat): int
    requires WellPlaced(w) && i < |w.subs|
  {
    |w.rings[w.subs[i].bus].log| - w.subs[i].cursor
  }

  ghost predicate KeepsUp(worlds: seq<World>, i: nat) {
    forall n :: 0 <= n < |worlds| && WellPlaced(worlds[n]) && i < |worlds[n].subs| ==>
      Behind(worlds[n], i) <= worlds[n].rings[worlds[n].subs[i].bus].capacity
  }

  lemma {:induction false} KeepingUpLeavesNoGaps(worlds: seq<World>, actions: seq<Action>, n: nat, i: nat)
    requires IsRun(worlds, actions) && n < |worlds| && i < |worlds[n].subs| && KeepsUp(worlds, i)
    ensures worlds[n].subs[i].gaps == {}
    decreases n
  {
    var w, a := worlds[n - 1], actions[n - 1];
    assert Step(w, a, worlds[n - 1 + 1]);
    if i < |w.subs| {
      KeepingUpLeavesNoGaps(worlds, actions, n - 1, i);
      assert Behind(w, i) <= w.rings[w.subs[i].bus].capacity;
    }
  }

  /**
   * A task that is never further behind than the ring reaches loses nothing: once it has caught up and its
   * queue is empty, the handle has received every wanted message broadcast since it subscribed.
   */
  lemma {:induction false} KeepingUpLosesNothing(worlds: seq<World>, actions: seq<Action>, n: nat, i: nat)
    requires IsRun(worlds, actions) && n < |worlds| && i < |worlds[n].subs| && KeepsUp(worlds, i)
    requires worlds[n].subs[i].held.None? && worlds[n].subs[i].inbound == []
    requires WellPlaced(worlds[n]) && Behind(worlds[n], i) == 0
    ensures var s := worlds[n].subs[i]; var log := worlds[n].rings[s.bus].log;
            Received(worlds[n].arrivals, i) == Kept(log, s.start, |log|, {}, s.filter, worlds[n].me)
  {
    ConservedOutsideGaps(worlds, actions, n, i);
    KeepingUpLeavesNoGaps(worlds, actions, n, i);
  }

  lemma {:induction false} KeptConcat(log: seq<Message>, from: nat, mid: nat, upto: nat, gaps: set<nat>,
                                      filter: MessageFilter, me: NodeId)
    requires from <= mid <= upto <= |log|
    ensures Kept(log, from, upto, gaps, filter, me) == Kept(log, from, mid, gaps, filter, me)
            + Kept(log, mid, upto, gaps, filter, me)
    decreases upto
  {
    if mid < upto {
      KeptConcat(log, from, mid, upto - 1, gaps, filter, me);
    }
  }

  lemma {:induction false} KeptNothingIff(log: seq<Message>, from: nat, upto: nat, filter: MessageFilter, me: NodeId)
    requires upto <= |log|
    ensures Kept(log, from, upto, {}, filter, me) == [] <==>
            forall k :: from <= k < upto ==> !Wanted(log[k], filter, me)
    decreases upto
  {
    if from < upto {
      KeptNothingIff(log, from, upto - 1, filter, me);
    }
  }

  /**
   * The node is announced before it subscribes. A handle that keeps up has received every wanted message since
   * its announcement exactly if none was broadcast between the two.
   */
  lemma {:induction false} NothingSinceOnlineIff(worlds: seq<World>, actions: seq<Action>, n: nat, i: nat)
    requires IsRun(worlds, actions) && n < |worlds| && i < |worlds[n].subs| && KeepsUp(worlds, i)
    requires worlds[n].subs[i].held.None? && worlds[n].subs[i].inbound == []
    requires WellPlaced(worlds[n]) && Behind(worlds[n], i) == 0
    ensures var s := worlds[n].subs[i]; var log := worlds[n].rings[s.bus].log;
            && s.announced < s.start <= |log| && log[s.announced] == OwnOnline(worlds[n].me)
            && (Received(worlds[n].arrivals, i) == Kept(log, s.announced + 1, |log|, {}, s.filter, worlds[n].me) <==>
                forall k :: s.announced < k < s.start ==> !Wanted(log[k], s.filter, worlds[n].me))
  {
    KeepingUpLosesNothing(worlds, actions, n, i);
    ReachableInv(worlds, actions, n);
    var w := worlds[n];
    var s := w.subs[i];
    var log := w.rings[s.bus].log;
    KeptConcat(log, s.announced + 1, s.start, |log|, {}, s.filter, w.me);
    KeptNothingIff(log, s.announced + 1, s.start, s.filter, w.me);
  }

  /** A message broadcast between announcement and subscription is never received, with no lag and nothing closed. */
  lemma LostBeforeSubscribing(me: NodeId, msg: Message, capacity: nat)
    returns (worlds: seq<World>, actions: seq<Action>)
    requires capacity > 0 && msg.msgType != HEARTBEAT_REQUEST
    ensures IsRun(worlds, actions) && |worlds| == 4 && |worlds[3].subs| == 1 == |worlds[3].rings| && KeepsUp(worlds, 0)
    ensures var s := worlds[3].subs[0]; var log := worlds[3].rings[0].log;
            && s.bus == 0 && s.announced == 0 && s.start == 2 == |log| && log[1] == msg && Wanted(msg, s.filter, me)
            && s.held.None? && s.inbound == [] && Received(worlds[3].arrivals, 0) == []
  {
    var all := MessageFilter(None, Everything);
    var online := OwnOnline(me);
    var empty, one, two := Ring(capacity, [], false), Ring(capacity, [online], false),
        Ring(capacity, [online, msg], false);
    actions := [Register(0), Publish(0, msg), Subscribe(0, all)];
    worlds := [World(me, [empty], map[], [], []), World(me, [one], map[0 := 0], [], []),
        World(me, [two], map[0 := 0], [], []),
               World(me, [two], map[], [Sub(0, all, 0, 2, 2, {}, None, [], 0, true)], [])];
    assert Broadcast(empty, online) == one && Broadcast(one, msg) == two;
    assert Step(worlds[0], actions[0], worlds[1]) && Step(worlds[1], actions[1], worlds[2])
       && Step(worlds[2], actions[2], worlds[3]);
  }

  // ── The forwarding task's loop ──────────────────────────────────────

  datatype BroadcastRecv = Heard(msg: Message) | Skipped(count: nat) | Closed

  /** The wanted messages among the first receives of a task, in order. */
  ghost function Forwarded(events: seq<BroadcastRecv>, filter: MessageFilter, me: NodeId): seq<Message> {
    if events == [] then []
    else
      var e := events[|events| - 1];
      Forwarded(events[..|events| - 1], filter, me)
      + if e.Heard? && Wanted(e.msg, filter, me) then [e.msg] else []
  }

  ghost function Heartbeats(events: seq<BroadcastRecv>): nat {
    if events == [] then 0
    else
      var e := events[|events| - 1];
      Heartbeats(events[..|events| - 1]) + if e.Heard? && e.msg.msgType == HEARTBEAT_REQUEST then 1 else 0
  }

  /**
   * Runs on the receives still to come. The handle may be dropped at any moment; from then on the channel
   * refuses. `read` receives were handled in full; without a drop these are all up to the first Closed.
   */
  method ForwardTask(events: seq<BroadcastRecv>, filter: MessageFilter, me: NodeId)
    returns (forwarded: seq<Message>, acks: nat, dropped: bool, read: nat)
    ensures read <= |events| && forall k :: 0 <= k < read ==> !events[k].Closed?
    ensures forwarded == Forwarded(events[..read], filter, me) && acks == Heartbeats(events[..read])
    ensures !dropped ==> read == |events| || events[read].Closed?
  {
    forwarded, acks, dropped, read := [], 0, false, 0;
    while read < |events|
      invariant read <= |events| && !dropped
      invariant forall k :: 0 <= k < read ==> !events[k].Closed?
      invariant forwarded == Forwarded(events[..read], filter, me) && acks == Heartbeats(events[..read])
    {
      dropped := *;
      if dropped {
        return;
      }
      assert events[..read + 1][..read] == events[..read];
      match events[read] {
        case Heard(msg) =>
          if msg.msgType == HEARTBEAT_REQUEST {
            acks := acks + 1;
          } else if filter.Matches(msg, me) {
            MatchesIff(filter, msg, me);
            dropped := *;
            if dropped {
              return;
            }
            forwarded := forwarded + [msg];
          }
        case Skipped(_) =>
        case Closed =>
          return;
      }
      read := read + 1;
    }
  }

  // ── The handle's non-blocking receive ───────────────────────────────

  /** What buses and forwarding tasks may do to a handle's world between two of its own polls. */
  ghost predicate MayBecome(w: World, v: World) {
    Inv(v) && Follows(w, v)
  }

  ghost predicate Follows(w: World, v: World) {
    && v.me == w.me && v.arrivals == w.arrivals && |v.subs| == |w.subs|
    && forall i :: 0 <= i < |w.subs| ==>
      && v.subs[i].bus == w.subs[i].bus && w.subs[i].inbound <= v.subs[i].inbound
      && (!w.subs[i].running ==> v.subs[i] == w.subs[i])
  }

  lemma StepMayBecome(w: World, a: Action, v: World)
    requires Inv(w) && Step(w, a, v) && !a.Recv? && !a.Subscribe?
    ensures MayBecome(w, v)
  {
    StepKeepsInv(w, a, v);
  }

  /** The first `n` subscriptions were found empty; `anyAlive` says whether one of them was still fed. */
  ghost predicate Scanned(start: World, w: World, n: nat, anyAlive: bool, live: nat)
    requires Follows(start, w) && n <= |start.subs|
  {
    && (forall j :: 0 <= j < n ==> start.subs[j].inbound == [])
    && (!anyAlive ==> forall j :: 0 <= j < n ==> !w.subs[j].running)
    && (anyAlive ==> live < n && start.subs[live].running)
  }

  lemma ScanOne(start: World, w: World, v: World, n: nat, anyAlive: bool, live: nat)
    requires Follows(start, w) && Follows(start, v) && n < |start.subs| && Scanned(start, w, n, anyAlive, live)
    requires start.subs[n].inbound == []
    requires forall j :: 0 <= j < |start.subs| && !w.subs[j].running ==> !v.subs[j].running
    ensures v.subs[n].running ==> Scanned(start, v, n + 1, true, n)
    ensures !v.subs[n].running ==> Scanned(start, v, n + 1, anyAlive, live)
  {
    assert v.subs[n].running ==> start.subs[n].running;
  }

  lemma PollBegins(w: World)
    requires Inv(w)
    ensures MayBecome(w, w) && EmptyPoll(w, [], []) && forall i :: !Alive([], i)
    ensures Scanned(w, w, 0, false, 0)
  {
  }

  datatype TryRecv = Ready(msg: Message) | NothingYet | AllClosed

  /**
   * A poll that found every channel empty so far: the worlds in which it tried them, one after the other, and those in
   * which it then looked whether they were closed. Other tasks run before each try and before each look.
   */
  ghost predicate EmptyPoll(start: World, tries: seq<World>, looks: seq<World>)
    decreases |looks|
  {
    && |tries| == |looks|
    && (looks == [] ||
        var n := |looks| - 1;
        && n < |start.subs| && EmptyPoll(start, tries[..n], looks[..n])
        && MayBecome(LastLook(start, looks[..n]), tries[n]) && MayBecome(tries[n], looks[n])
        && |tries[n].subs| == |looks[n].subs| == |start.subs| && tries[n].subs[n].inbound == [])
  }

  ghost function LastLook(start: World, looks: seq<World>): World {
    if looks == [] then start else looks[|looks| - 1]
  }

  /** The channel's task still ran when the poll looked. */
  ghost predicate Alive(looks: seq<World>, i: nat) {
    i < |looks| && i < |looks[i].subs| && looks[i].subs[i].running
  }

  /** The channel was found empty, and was as full at the look. */
  ghost predicate Untouched(tries: seq<World>, looks: seq<World>, i: nat) {
    && i < |tries| && i < |looks| && i < |tries[i].subs| && i < |looks[i].subs|
    && looks[i].subs[i].inbound == tries[i].subs[i].inbound
  }

  lemma EmptyPollSnoc(start: World, tries: seq<World>, looks: seq<World>, tried: World, look: World)
    requires EmptyPoll(start, tries, looks) && |looks| < |start.subs|
    requires MayBecome(LastLook(start, looks), tried) && MayBecome(tried, look)
    requires |tried.subs| == |start.subs| && tried.subs[|looks|].inbound == []
    ensures EmptyPoll(start, tries + [tried], looks + [look]) && LastLook(start, looks + [look]) == look
    ensures |look.subs| == |start.subs|
    ensures forall i: nat :: Alive(looks + [look], i) <==> Alive(looks, i) || (i == |looks| && look.subs[i].running)
  {
    hide Inv;
    BecomesLater(tried, look, |looks|);
    hide MayBecome, EmptyPoll;
    AliveSnoc(looks, look);
    EmptyPollGrows(start, tries, looks, tried, look);
  }

  lemma AliveSnoc(looks: seq<World>, look: World)
    requires |looks| < |look.subs|
    ensures forall i: nat :: Alive(looks + [look], i) <==> Alive(looks, i) || (i == |looks| && look.subs[i].running)
  {
  }

  lemma EmptyPollGrows(start: World, tries: seq<World>, looks: seq<World>, tried: World, look: World)
    requires EmptyPoll(start, tries, looks) && |looks| < |start.subs|
    requires MayBecome(LastLook(start, looks), tried) && MayBecome(tried, look)
    requires |tried.subs| == |look.subs| == |start.subs| && tried.subs[|looks|].inbound == []
    ensures EmptyPoll(start, tries + [tried], looks + [look]) && LastLook(start, looks + [look]) == look
  {
    hide MayBecome;
    assert (tries + [tried])[..|looks|] == tries && (looks + [look])[..|looks|] == looks;
  }

  lemma BecomesLater(w: World, v: World, i: nat)
    requires MayBecome(w, v) && i < |w.subs|
    ensures |v.subs| == |w.subs| && (!w.subs[i].running ==> v.subs[i] == w.subs[i])
  {
  }

  lemma {:induction false} EmptyPollAt(start: World, tries: seq<World>, looks: seq<World>, i: nat)
    requires EmptyPoll(start, tries, looks) && i < |looks|
    ensures |tries| == |looks| && i < |tries[i].subs| && i < |looks[i].subs| && tries[i].subs[i].inbound == []
    decreases |looks|
  {
    hide MayBecome;
    if i < |looks| - 1 {
      EmptyPollAt(start, tries[..|looks| - 1], looks[..|looks| - 1], i);
    }
  }

  /** A closed channel stays as it was found. */
  lemma {:induction false} ClosedStays(start: World, tries: seq<World>, looks: seq<World>, i: nat)
    requires EmptyPoll(start, tries, looks) && i < |looks| && !Alive(looks, i)
    ensures |LastLook(start, looks).subs| == |start.subs| && i < |looks[i].subs| && i < |start.subs|
    ensures LastLook(start, looks).subs[i] == looks[i].subs[i]
    decreases |looks|
  {
    hide MayBecome;
    var n := |looks| - 1;
    if i < n {
      ClosedStays(start, tries[..n], looks[..n], i);
      BecomesLater(LastLook(start, looks[..n]), tries[n], i);
      BecomesLater(tries[n], looks[n], i);
    }
  }

  /** A channel whose task had stopped before stays as it was. */
  lemma {:induction false} StoppedStays(start: World, tries: seq<World>, looks: seq<World>, i: nat)
    requires EmptyPoll(start, tries, looks) && i < |start.subs| && !start.subs[i].running
    ensures |LastLook(start, looks).subs| == |start.subs| && LastLook(start, looks).subs[i] == start.subs[i]
    decreases |looks|
  {
    hide MayBecome;
    if looks != [] {
      var n := |looks| - 1;
      StoppedStays(start, tries[..n], looks[..n], i);
      BecomesLater(LastLook(start, looks[..n]), tries[n], i);
      BecomesLater(tries[n], looks[n], i);
    }
  }

  /** Nothing waits in any channel. */
  ghost predicate NothingLeft(w: World) {
    forall i :: 0 <= i < |w.subs| ==> w.subs[i].inbound == []
  }

  /**
   * A poll that reports all channels closed leaves nothing behind exactly if no task pushed between the try of its
   * channel and the look; so it does if no task was running, and nothing waiting, when the poll began.
   */
  lemma ClosedLeavesNothingIff(start: World, tries: seq<World>, looks: seq<World>)
    requires EmptyPoll(start, tries, looks) && |looks| == |start.subs| && forall i :: !Alive(looks, i)
    ensures var end := LastLook(start, looks);
            && (NothingLeft(end) <==> forall i :: 0 <= i < |looks| ==> Untouched(tries, looks, i))
            && (NothingLeft(start) && (forall s <- start.subs :: !s.running) ==> NothingLeft(end))
  {
    hide MayBecome, EmptyPoll;
    var end := LastLook(start, looks);
    assert |end.subs| == |looks| by {
      if looks != [] {
        ClosedStays(start, tries, looks, 0);
      }
    }
    forall i | 0 <= i < |looks|
      ensures (end.subs[i].inbound == [] <==> Untouched(tries, looks, i))
    {
      ClosedStays(start, tries, looks, i);
      EmptyPollAt(start, tries, looks, i);
    }
    if NothingLeft(start) && forall s <- start.subs :: !s.running {
      forall i | 0 <= i < |start.subs| ensures end.subs[i].inbound == [] {
        assert start.subs[i] in start.subs;
        StoppedStays(start, tries, looks, i);
      }
    }
  }

  /**
   * A run in which the poll reports all channels closed with a message in one of them: the task holds the message at
   * the try, and pushes it and ends before the look.
   */
  lemma ClosedWithMessageLeft(me: NodeId, msg: Message, capacity: nat)
    returns (worlds: seq<World>, actions: seq<Action>)
    requires capacity > 0 && msg.msgType != HEARTBEAT_REQUEST
    ensures IsRun(worlds, actions) && |worlds| == 8
    ensures EmptyPoll(worlds[4], [worlds[4]], [worlds[7]]) && |worlds[4].subs| == |worlds[7].subs| == 1
    ensures (forall i :: !Alive([worlds[7]], i)) && worlds[7].subs[0].inbound == [msg]
  {
    var early := BeforeTry(me, msg, capacity);
    var late := AfterTry(me, msg, capacity);
    worlds := early + late;
    actions := [Register(0), Subscribe(0, MessageFilter(None, Everything)), Publish(0, msg), Take(0), Push(0), Close(0),
                Exit(0)];
    hide Step;
    LastStep(worlds, actions);
  }

  lemma BeforeTry(me: NodeId, msg: Message, capacity: nat) returns (worlds: seq<World>)
    requires capacity > 0 && msg.msgType != HEARTBEAT_REQUEST
    ensures |worlds| == 5 && forall k :: 0 <= k < 5 ==> WellPlaced(worlds[k])
    ensures worlds[0].subs == [] && worlds[0].arrivals == [] && worlds[0].pending == map[]
    ensures Step(worlds[0], Register(0), worlds[1])
    ensures Step(worlds[1], Subscribe(0, MessageFilter(None, Everything)), worlds[2])
    ensures Step(worlds[2], Publish(0, msg), worlds[3]) && Step(worlds[3], Take(0), worlds[4])
    ensures worlds[4] == Holding(me, msg, capacity)
  {
    var online := OwnOnline(me);
    var all := MessageFilter(None, Everything);
    var empty, one, two := Ring(capacity, [], false), Ring(capacity, [online], false),
        Ring(capacity, [online, msg], false);
    var sub := Sub(0, all, 0, 1, 1, {}, None, [], 0, true);
    worlds := [World(me, [empty], map[], [], []), World(me, [one], map[0 := 0], [], []),
               World(me, [one], map[], [sub], []), World(me, [two], map[], [sub], []), Holding(me, msg, capacity)];
    assert Broadcast(empty, online) == one && Broadcast(one, msg) == two && all.Matches(msg, me);
  }

  /** The task holds the node's only message. */
  ghost function Holding(me: NodeId, msg: Message, capacity: nat): World {
    World(me, [Ring(capacity, [OwnOnline(me), msg], false)], map[],
          [Sub(0, MessageFilter(None, Everything), 0, 1, 2, {}, Some(msg), [], 0, true)], [])
  }

  lemma AfterTry(me: NodeId, msg: Message, capacity: nat) returns (worlds: seq<World>)
    ensures |worlds| == 3 && forall k :: 0 <= k < 3 ==> WellPlaced(worlds[k])
    ensures Step(Holding(me, msg, capacity), Push(0), worlds[0])
    ensures Step(worlds[0], Close(0), worlds[1]) && Step(worlds[1], Exit(0), worlds[2])
    ensures Follows(Holding(me, msg, capacity), worlds[2]) && |worlds[2].subs| == 1
    ensures worlds[2].subs[0].inbound == [msg] && !worlds[2].subs[0].running
  {
    var w := Holding(me, msg, capacity);
    var s := w.subs[0].(held := None, inbound := [] + [msg]);
    var closed := w.rings[0].(closed := true);
    worlds := [w.(subs := [s]), World(me, [closed], map[], [s], []),
               World(me, [closed], map[], [s.(running := false)], [])];
  }

  lemma LastStep(worlds: seq<World>, actions: seq<Action>)
    requires IsRun(worlds, actions) && |worlds| == 8 && |worlds[4].subs| == 1 && worlds[4].subs[0].inbound == []
    requires Follows(worlds[4], worlds[7])
    ensures EmptyPoll(worlds[4], [worlds[4]], [worlds[7]])
  {
    ReachableInv(worlds, actions, 4);
    ReachableInv(worlds, actions, 7);
    hide Inv;
    var tries, looks := [worlds[4]], [worlds[7]];
    assert tries[..0] == looks[..0] == [];
  }

  class NodeHandle {
    var world: World

    constructor (w: World)
      requires Inv(w)
      ensures world == w
    {
      world := w;
    }

    /** Other tasks run; the contract is all that is known of what they did. */
    method Interfere(ghost start: World)
      requires MayBecome(start, world)
      modifies this
      ensures MayBecome(start, world) && MayBecome(old(world), world)
    {
    }

    /** Polls one inbound channel. */
    method TryOne(i: nat) returns (r: Option<Message>)
      requires Inv(world) && i < |world.subs|
      modifies this
      ensures r.None? ==> world == old(world) && world.subs[i].inbound == []
      ensures r.Some? ==> Step(old(world), Recv(i), world) && Inv(world) && r.value == old(world).subs[i].inbound[0]
    {
      var s := world.subs[i];
      if s.inbound == [] {
        return None;
      }
      ghost var before := world;
      world := world.(subs := world.subs[i := s.(inbound := s.inbound[1..])],
          arrivals := world.arrivals + [(i, s.inbound[0])]);
      StepKeepsInv(before, Recv(i), world);
      return Some(s.inbound[0]);
    }

    /** One turn of Poll: the channel may fill between the poll and the question whether it is still open. */
    method PollTurn(i: nat, ghost start: World)
      returns (r: Option<Message>, alive: bool, ghost tried: World, ghost seen: World)
      requires MayBecome(start, world) && i < |world.subs|
      modifies this
      ensures MayBecome(start, seen) && |seen.subs| == |start.subs|
      ensures r.Some? ==> Step(seen, Recv(i), world) && Inv(world) && r.value == seen.subs[i].inbound[0]
      ensures r.None? ==> world == seen && start.subs[i].inbound == []
      ensures r.None? ==> MayBecome(old(world), tried) && MayBecome(tried, seen) && |tried.subs| == |start.subs|
      ensures r.None? ==> tried.subs[i].inbound == [] && alive == seen.subs[i].running
      ensures r.None? ==> forall j :: 0 <= j < |seen.subs| && !old(world).subs[j].running ==> !seen.subs[j].running
    {
      Interfere(start);
      seen, tried, alive := world, world, true;
      r := TryOne(i);
      if r.None? {
        Interfere(start);
        seen, alive := world, world.subs[i].running;
      }
    }

    /**
     * Polls the subscriptions in order while the other tasks keep running. A message comes from the first
     * one found non-empty and leaves by exactly one Recv step; AllClosed means every forwarding task has
     * read its bus to the end, but a message may be left that was pushed between a try and its look.
     */
    method Poll()
      returns (r: TryRecv, ghost seen: World, ghost at: nat, ghost tries: seq<World>, ghost looks: seq<World>)
      requires Inv(world)
      modifies this
      ensures Inv(world) && MayBecome(old(world), seen)
      ensures r.Ready? ==> Step(seen, Recv(at), world) && r.msg == seen.subs[at].inbound[0]
      ensures r.Ready? ==> forall j :: 0 <= j < at ==> old(world).subs[j].inbound == []
      ensures !r.Ready? ==> world == seen && forall j :: 0 <= j < |world.subs| ==> old(world).subs[j].inbound == []
      ensures !r.Ready? ==> EmptyPoll(old(world), tries, looks) && |looks| == |old(world).subs|
      ensures !r.Ready? ==> world == LastLook(old(world), looks)
      ensures !r.Ready? ==> (r.AllClosed? <==> forall i :: !Alive(looks, i))
      ensures r.AllClosed? ==> forall j :: 0 <= j < |world.subs| ==> !world.subs[j].running
      ensures r.AllClosed? ==>
                (NothingLeft(world) <==> forall i :: 0 <= i < |looks| ==> Untouched(tries, looks, i))
      ensures r.NothingYet? ==> exists j :: 0 <= j < |world.subs| && old(world).subs[j].running
    {
      hide Inv, Follows, EmptyPoll, Alive, Untouched, NothingLeft;
      var anyAlive := false;
      PollBegins(world);
      ghost var start := world;
      ghost var live: nat := 0;
      var n := |world.subs|;
      seen, at, tries, looks := world, 0, [], [];
      for i := 0 to n
        invariant |world.subs| == |start.subs| && MayBecome(start, world) && seen == world
        invariant Scanned(start, world, i, anyAlive, live)
        invariant EmptyPoll(start, tries, looks) && |looks| == i && world == LastLook(start, looks)
        invariant anyAlive <==> exists j :: Alive(looks, j)
      {
        ghost var before := world;
        var msg, alive;
        ghost var tried;
        msg, alive, tried, seen := PollTurn(i, start);
        at := i;
        if msg.Some? {
          return Ready(msg.value), seen, at, tries, looks;
        }
        ScanOne(start, before, world, i, anyAlive, live);
        EmptyPollSnoc(start, tries, looks, tried, world);
        tries, looks := tries + [tried], looks + [world];
        if alive {
          anyAlive, live := true, i;
        }
      }
      r := if anyAlive then NothingYet else AllClosed;
      if !anyAlive {
        ClosedLeavesNothingIff(start, tries, looks);
      }
    }
  }
}
