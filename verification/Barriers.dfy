/** Barriers: broadcast a request, collect acknowledgements until all arrive or time runs out. */
module Barriers {
  import opened Wrappers
  import opened Seqs
  import opened Messages

  datatype Receipt = Receipt(cid: Uuid, acked: seq<NodeId>, missing: seq<NodeId>, timedOut: bool)

  /** What one wait of the collector ends with. A lagging listener is an error like a closed bus. */
  datatype Wait = Heard(msg: Message) | ListenerFailed | DeadlinePassed

  ghost predicate IsAck(w: Wait, cid: Uuid, p: NodeId) {
    w.Heard? && w.msg.msgType == BARRIER_ACK && w.msg.cid == Some(cid) && w.msg.from == p
  }

  /** How many waits succeed before the first that does not. */
  ghost function HeardFor(waits: seq<Wait>): (n: nat)
    ensures n <= |waits| && (forall k :: 0 <= k < n ==> waits[k].Heard?) && (n < |waits| ==> !waits[n].Heard?)
  {
    if waits == [] || !waits[0].Heard? then 0 else 1 + HeardFor(waits[1..])
  }

  ghost predicate Acked(p: NodeId, cid: Uuid, waits: seq<Wait>) {
    exists k :: 0 <= k < HeardFor(waits) && IsAck(waits[k], cid, p)
  }

  /** What a barrier with this id reports after these waits. */
  ghost predicate IsReceipt(r: Receipt, participants: seq<NodeId>, cid: Uuid, waits: seq<Wait>) {
    && r.cid == cid && NoDup(r.acked) && NoDup(r.missing) && (r.timedOut <==> r.missing != [])
    && (forall p :: p in r.acked <==> p in participants && Acked(p, cid, waits))
    && (forall p :: p in r.missing <==> p in participants && !Acked(p, cid, waits))
  }

  /**
   * Collects until every participant has acknowledged, a wait fails, or the deadline passes (as it does
   * when `waits` is used up).
   */
  method Barrier(participants: seq<NodeId>, cid: Uuid, waits: seq<Wait>) returns (r: Receipt)
    ensures IsReceipt(r, participants, cid, waits)
  {
    var wanted := Elems(participants);
    var acked: set<NodeId> := {};
    var i := 0;
    while |acked| < |wanted| && i < |waits| && waits[i].Heard?
      decreases |waits| - i
      invariant i <= HeardFor(waits) && acked <= wanted
      invariant forall p <- wanted :: p in acked <==> exists k :: 0 <= k < i && IsAck(waits[k], cid, p)
    {
      var msg := waits[i].msg;
      if msg.msgType == BARRIER_ACK && msg.cid == Some(cid) && msg.from in wanted {
        acked := acked + {msg.from};
        assert IsAck(waits[i], cid, msg.from);
      }
      i := i + 1;
    }
    if |acked| >= |wanted| {
      SubsetFull(acked, wanted);
    } else {
      HeardAll(waits, i);
    }
    assert forall p <- wanted :: p in acked <==> Acked(p, cid, waits);
    var ackedList := Enumerate(acked);
    var missing := Enumerate(wanted - acked);
    r := Receipt(cid, ackedList, missing, missing != []);
  }

  lemma SubsetFull<T>(s: set<T>, u: set<T>)
    requires s <= u && |s| >= |u|
    ensures s == u
  {
    assert u == s + (u - s);
  }

  /** The elements of a set in some order. */
  method Enumerate(s: set<NodeId>) returns (r: seq<NodeId>)
    ensures NoDup(r) && forall x :: x in r <==> x in s
  {
    r := [];
    var todo := s;
    while todo != {}
      invariant NoDup(r) && todo <= s && forall x :: x in r <==> x in s && x !in todo
    {
      var x :| x in todo;
      todo := todo - {x};
      r := r + [x];
    }
  }

  // ── Concurrent barriers on one bus ──────────────────────────────────

  /** The messages a barrier with this id takes any notice of. */
  ghost function Relevant(waits: seq<Wait>, cid: Uuid): seq<Wait> {
    if waits == [] then []
    else if waits[0].Heard? && !(waits[0].msg.msgType == BARRIER_ACK && waits[0].msg.cid == Some(cid)) then
      Relevant(waits[1..], cid)
    else [waits[0]] + Relevant(waits[1..], cid)
  }

  lemma AckedUnfold(p: NodeId, cid: Uuid, waits: seq<Wait>)
    requires waits != []
    ensures Acked(p, cid, waits) <==> waits[0].Heard? && (IsAck(waits[0], cid, p) || Acked(p, cid, waits[1..]))
  {
    if Acked(p, cid, waits) {
      var k :| 0 <= k < HeardFor(waits) && IsAck(waits[k], cid, p);
      if k > 0 {
        assert waits[1..][k - 1] == waits[k];
      }
    }
    if waits[0].Heard? && Acked(p, cid, waits[1..]) {
      var k :| 0 <= k < HeardFor(waits[1..]) && IsAck(waits[1..][k], cid, p);
      assert waits[1..][k] == waits[k + 1];
    }
  }

  /** Traffic of other barriers, or of anyone else, never changes who acknowledged this one. */
  lemma {:induction false} Undisturbed(p: NodeId, cid: Uuid, waits: seq<Wait>)
    ensures Acked(p, cid, waits) <==> Acked(p, cid, Relevant(waits, cid))
    decreases |waits|
  {
    if waits != [] {
      AckedUnfold(p, cid, waits);
      Undisturbed(p, cid, waits[1..]);
      if !(waits[0].Heard? && !(waits[0].msg.msgType == BARRIER_ACK && waits[0].msg.cid == Some(cid))) {
        var rest := Relevant(waits[1..], cid);
        AckedUnfold(p, cid, [waits[0]] + rest);
        assert ([waits[0]] + rest)[1..] == rest;
      }
    }
  }

  /**
   * A barrier under way: its id, its listener's place in the log, the place of its request once that is out,
   * and the place up to which its listener heard once its waiting is over.
   */
  datatype Call = Call(cid: Uuid, participants: seq<NodeId>, start: nat, request: Option<nat>, stop: Option<nat>)

  /** One bus: its log, its barriers in the order they began, and the next id to be drawn. */
  datatype World = World(log: seq<Message>, calls: seq<Call>, nextId: Uuid)

  datatype Action =
    | Begin(participants: seq<NodeId>)
    | Ask(call: nat)
    | Publish(msg: Message)
    | DrawElsewhere
    | Finish(call: nat, heard: nat)

  /** An id is out in the open once some message carries it; nobody can use a barrier's id before. */
  ghost predicate Guessed(w: World, msg: Message) {
    exists i :: 0 <= i < |w.calls| && w.calls[i].request.None? && msg.cid == Some(w.calls[i].cid)
  }

  ghost predicate Step(w: World, a: Action, v: World) {
    match a
    case Begin(participants) =>
      v == w.(calls := w.calls + [Call(w.nextId, participants, |w.log|, None, None)], nextId := w.nextId + 1)
    case Ask(i) =>
      && i < |w.calls| && w.calls[i].request.None?
      && v == w.(log := w.log + [Message(BARRIER_REQUEST, "bus", [], Some(w.calls[i].cid), Null)],
                 calls := w.calls[i := w.calls[i].(request := Some(|w.log|))])
    case Publish(msg) =>
      && (msg.cid.Some? ==> msg.cid.value < w.nextId) && !Guessed(w, msg)
      && v == w.(log := w.log + [msg])
    case DrawElsewhere => v == w.(nextId := w.nextId + 1)
    case Finish(i, heard) =>
      && i < |w.calls| && w.calls[i].request.Some? && w.calls[i].stop.None? && w.calls[i].start <= heard <= |w.log|
      && v == w.(calls := w.calls[i := w.calls[i].(stop := Some(heard))])
  }

  /** Ids are below the next one and pairwise different; a call's id is on no message before its request. */
  ghost predicate Fresh(w: World) {
    && (forall i :: 0 <= i < |w.calls| ==> w.calls[i].cid < w.nextId && w.calls[i].start <= |w.log|)
    && (forall i, j :: 0 <= i < j < |w.calls| ==> w.calls[i].cid != w.calls[j].cid)
    && (forall k :: 0 <= k < |w.log| && w.log[k].cid.Some? ==> w.log[k].cid.value < w.nextId)
    && (forall i :: 0 <= i < |w.calls| ==> Unspoken(w.log, w.calls[i]))
    && (forall i :: 0 <= i < |w.calls| && w.calls[i].stop.Some? ==>
          w.calls[i].request.Some? && w.calls[i].start <= w.calls[i].stop.value <= |w.log|)
  }

  ghost predicate Unspoken(log: seq<Message>, c: Call) {
    match c.request
    case None => forall k :: 0 <= k < |log| ==> log[k].cid != Some(c.cid)
    case Some(at) =>
      && at < |log| && log[at].msgType == BARRIER_REQUEST
      && forall k :: 0 <= k < at ==> log[k].cid != Some(c.cid)
  }

  lemma UnspokenGrows(log: seq<Message>, c: Call, msg: Message)
    requires Unspoken(log, c) && (c.request.None? ==> msg.cid != Some(c.cid))
    ensures Unspoken(log + [msg], c)
  {
  }

  lemma NewIsUnspoken(log: seq<Message>, c: Call)
    requires c.request.None? && forall k :: 0 <= k < |log| && log[k].cid.Some? ==> log[k].cid.value < c.cid
    ensures Unspoken(log, c)
  {
  }

  lemma AskingSpeaks(log: seq<Message>, c: Call, msg: Message)
    requires c.request.None? && Unspoken(log, c) && msg.msgType == BARRIER_REQUEST
    ensures Unspoken(log + [msg], c.(request := Some(|log|)))
  {
  }

  lemma StopsUnspoken(log: seq<Message>, c: Call, heard: nat)
    requires Unspoken(log, c)
    ensures Unspoken(log, c.(stop := Some(heard)))
  {
  }

  lemma StepKeepsFresh(w: World, a: Action, v: World)
    requires Fresh(w) && Step(w, a, v)
    ensures Fresh(v)
  {
    hide Unspoken;
    match a
    case Begin(_) =>
      NewIsUnspoken(w.log, v.calls[|w.calls|]);
      forall i | 0 <= i < |v.calls| ensures Unspoken(v.log, v.calls[i]) {
        assert i < |w.calls| ==> v.calls[i] == w.calls[i] && Unspoken(w.log, w.calls[i]);
      }
    case Ask(i) =>
      var msg := v.log[|w.log|];
      AskingSpeaks(w.log, w.calls[i], msg);
      forall j | 0 <= j < |v.calls| ensures Unspoken(v.log, v.calls[j]) {
        if j != i {
          UnspokenGrows(w.log, w.calls[j], msg);
        }
      }
    case Publish(msg) =>
      forall j | 0 <= j < |v.calls| ensures Unspoken(v.log, v.calls[j]) {
        UnspokenGrows(w.log, w.calls[j], msg);
      }
    case DrawElsewhere =>
    case Finish(i, heard) =>
      StopsUnspoken(w.log, w.calls[i], heard);
      forall j | 0 <= j < |v.calls| ensures Unspoken(v.log, v.calls[j]) {
        assert Unspoken(w.log, w.calls[j]);
      }
  }

  ghost predicate IsRun(worlds: seq<World>, actions: seq<Action>) {
    && |worlds| == |actions| + 1 && worlds[0] == World([], [], 0)
    && forall i :: 0 <= i < |actions| ==> Step(worlds[i], actions[i], worlds[i + 1])
  }

  lemma {:induction false} ReachableFresh(worlds: seq<World>, actions: seq<Action>, n: nat)
    requires IsRun(worlds, actions) && n < |worlds|
    ensures Fresh(worlds[n])
    decreases n
  {
    if n > 0 {
      ReachableFresh(worlds, actions, n - 1);
      assert Step(worlds[n - 1], actions[n - 1], worlds[n - 1 + 1]);
      StepKeepsFresh(worlds[n - 1], actions[n - 1], worlds[n]);
    }
  }

  /** What the listener of a finished call was given: its stretch of the log, then a wait that failed. */
  ghost function WaitsOf(log: seq<Message>, c: Call, end: Wait): seq<Wait>
    requires c.stop.Some? && c.start <= c.stop.value <= |log|
  {
    Waits(log[c.start..c.stop.value]) + [end]
  }

  /** Position `k` of the log is an acknowledgement this finished call counts for `p`. */
  ghost predicate Counts(log: seq<Message>, c: Call, k: nat, p: NodeId) {
    c.stop.Some? && c.start <= k < c.stop.value && k < |log| && p in c.participants && IsAck(Heard(log[k]), c.cid, p)
  }

  ghost function Waits(msgs: seq<Message>): seq<Wait> {
    seq(|msgs|, k requires 0 <= k < |msgs| => Heard(msgs[k]))
  }

  lemma {:induction false} HeardAll(waits: seq<Wait>, n: nat)
    requires n <= |waits| && (forall k :: 0 <= k < n ==> waits[k].Heard?) && (n < |waits| ==> !waits[n].Heard?)
    ensures HeardFor(waits) == n
  {
    if waits != [] && waits[0].Heard? {
      HeardAll(waits[1..], n - 1);
    }
  }

  /** A participant is acknowledged iff an acknowledgement of its stands in the call's stretch of the log. */
  lemma CollectsItsStretch(log: seq<Message>, c: Call, end: Wait, p: NodeId)
    requires c.stop.Some? && c.start <= c.stop.value <= |log| && !end.Heard? && p in c.participants
    ensures Acked(p, c.cid, WaitsOf(log, c, end)) <==> exists k: nat :: Counts(log, c, k, p)
  {
    var heard := log[c.start..c.stop.value];
    var waits := WaitsOf(log, c, end);
    HeardAll(waits, |heard|);
    if Acked(p, c.cid, waits) {
      var k :| 0 <= k < |heard| && IsAck(waits[k], c.cid, p);
      assert Counts(log, c, c.start + k, p);
    }
    if k: nat :| Counts(log, c, k, p) {
      assert waits[k - c.start] == Heard(log[k]);
    }
  }

  /** Nothing is missing, and the call did not time out, iff every participant's acknowledgement is in the stretch. */
  lemma NothingMissingIff(log: seq<Message>, c: Call, end: Wait, r: Receipt)
    requires c.stop.Some? && c.start <= c.stop.value <= |log| && !end.Heard?
    requires IsReceipt(r, c.participants, c.cid, WaitsOf(log, c, end))
    ensures r.missing == [] <==> forall p <- c.participants :: exists k: nat :: Counts(log, c, k, p)
    ensures r.timedOut <==> !(forall p <- c.participants :: exists k: nat :: Counts(log, c, k, p))
  {
    forall p | p in c.participants ensures p in r.missing <==> !exists k: nat :: Counts(log, c, k, p) {
      CollectsItsStretch(log, c, end, p);
    }
    if r.missing != [] {
      assert r.missing[0] in r.missing;
    }
  }

  /**
   * In every run, of any number of barriers and with any other traffic: no acknowledgement counts for two calls,
   * and every one that counts was sent after its call's request.
   */
  lemma AcksBelongToOneCall(worlds: seq<World>, actions: seq<Action>, n: nat, i: nat, j: nat, k: nat, p: NodeId,
                            q: NodeId)
    requires IsRun(worlds, actions) && n < |worlds| && i < |worlds[n].calls| && j < |worlds[n].calls|
    requires Counts(worlds[n].log, worlds[n].calls[i], k, p) && Counts(worlds[n].log, worlds[n].calls[j], k, q)
    ensures i == j && p == q && worlds[n].calls[i].request.Some? && worlds[n].calls[i].request.value < k
  {
    ReachableFresh(worlds, actions, n);
    var w := worlds[n];
    assert Unspoken(w.log, w.calls[i]);
    assert w.log[k].cid == Some(w.calls[i].cid) == Some(w.calls[j].cid);
  }

  /** So the receipts of two different finished calls rest on different acknowledgements. */
  lemma ReceiptsAreIndependent(worlds: seq<World>, actions: seq<Action>, n: nat, i: nat, end: Wait, r: Receipt,
                               p: NodeId)
    returns (k: nat)
    requires IsRun(worlds, actions) && n < |worlds| && i < |worlds[n].calls| && !end.Heard?
    requires worlds[n].calls[i].stop.Some?
    requires worlds[n].calls[i].start <= worlds[n].calls[i].stop.value <= |worlds[n].log|
    requires IsReceipt(r, worlds[n].calls[i].participants, worlds[n].calls[i].cid,
            WaitsOf(worlds[n].log, worlds[n].calls[i], end))
    requires p in r.acked
    ensures Counts(worlds[n].log, worlds[n].calls[i], k, p)
    ensures worlds[n].calls[i].request.Some? && worlds[n].calls[i].request.value < k
    ensures forall j, q :: 0 <= j < |worlds[n].calls| && j != i ==> !Counts(worlds[n].log, worlds[n].calls[j], k, q)
  {
    var w := worlds[n];
    CollectsItsStretch(w.log, w.calls[i], end, p);
    k :| Counts(w.log, w.calls[i], k, p);
    AcksBelongToOneCall(worlds, actions, n, i, i, k, p, p);
    forall j, q | 0 <= j < |w.calls| && Counts(w.log, w.calls[j], k, q) ensures j == i {
      AcksBelongToOneCall(worlds, actions, n, i, j, k, p, q);
    }
  }

  /** A lag ends the collection early: an acknowledgement that is already waiting goes unheard. */
  lemma LagEndsCollection(p: NodeId, cid: Uuid)
    ensures var ack := Message(BARRIER_ACK, p, [], Some(cid), Null);
            Acked(p, cid, [Heard(ack)]) && !Acked(p, cid, [ListenerFailed, Heard(ack)])
  {
    var ack := Message(BARRIER_ACK, p, [], Some(cid), Null);
    HeardAll([Heard(ack)], 1);
    HeardAll([ListenerFailed, Heard(ack)], 0);
    assert IsAck([Heard(ack)][0], cid, p);
  }
}
