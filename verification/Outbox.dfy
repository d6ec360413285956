/** The engine's durable outbox: what was recorded, what was sent, and what a restart sends again. */
module Outbox {
  import opened Wrappers
  import opened Messages

  /** A session-store event, a send with the time it was recorded. Everything the outbox does not look at is `Other`. */
  datatype Event =
    | OutboundSent(msgType: string, cid: Uuid, attempt: nat, target: seq<NodeId>, payload: Json, at: nat)
    | InboundReply(msgType: string, cid: Uuid, source: NodeId, payload: Json)
    | Other(kind: string)

  datatype PendingOutbound = PendingOutbound(msgType: string, cid: Uuid, target: seq<NodeId>, payload: Json,
                                             attempt: nat)

  // ── Rebuilding a message ────────────────────────────────────────────

  datatype ReconstructError = UnknownMsgType(msgType: string) | MissingField(msgType: string, field: string)

  /** A payload's fields apart from the correlation id, which messages carry in `cid`. */
  function PeerPayload(fromSession: string, toSession: string, content: string, attachments: seq<Json>): Json {
    Obj(map["from_session" := Str(fromSession), "to_session" := Str(toSession),
            "content" := Str(content), "attachments" := Arr(attachments)])
  }

  function HandoffPayload(question: string, context: Json, options: seq<string>): Json {
    Obj(map["question" := Str(question), "context" := context,
            "options" := Arr(seq(|options|, i requires 0 <= i < |options| => Str(options[i])))])
  }

  function ArrayAt(payload: Json, key: string): seq<Json> {
    match payload.Get(key)
    case Some(Arr(items)) => items
    case _ => []
  }

  function OnlyStrings(items: seq<Json>): seq<string> {
    if items == [] then []
    else (match items[0] case Str(s) => [s] case _ => []) + OnlyStrings(items[1..])
  }

  function Reconstruct(p: PendingOutbound, from: NodeId): Result<Message, ReconstructError> {
    if p.msgType == PEER_MESSAGE then
      var fromSession, toSession, content :=
        p.payload.GetStr("from_session"), p.payload.GetStr("to_session"), p.payload.GetStr("content");
      if fromSession.None? then Err(MissingField(PEER_MESSAGE, "from_session"))
      else if toSession.None? then Err(MissingField(PEER_MESSAGE, "to_session"))
      else if content.None? then Err(MissingField(PEER_MESSAGE, "content"))
      else Ok(Message(PEER_MESSAGE, from, p.target, Some(p.cid),
                      PeerPayload(fromSession.value, toSession.value, content.value,
                          ArrayAt(p.payload, "attachments"))))
    else if p.msgType == HUMAN_HANDOFF then
      var question := p.payload.GetStr("question");
      if question.None? then Err(MissingField(HUMAN_HANDOFF, "question"))
      else
        var context := match p.payload.Get("context") case Some(c) => c case None => Null;
        Ok(Message(HUMAN_HANDOFF, from, p.target, Some(p.cid),
                   HandoffPayload(question.value, context, OnlyStrings(ArrayAt(p.payload, "options")))))
    else Err(UnknownMsgType(p.msgType))
  }

  lemma {:induction false} OnlyStringsOfStrings(options: seq<string>)
    ensures OnlyStrings(seq(|options|, i requires 0 <= i < |options| => Str(options[i]))) == options
  {
    if options != [] {
      var rest := options[1..];
      OnlyStringsOfStrings(rest);
      var all := seq(|options|, i requires 0 <= i < |options| => Str(options[i]));
      assert all[1..] == seq(|rest|, i requires 0 <= i < |rest| => Str(rest[i]));
    }
  }

  /** The payloads the two message types serialise to. */
  ghost predicate WellFormed(msgType: string, payload: Json) {
    || (msgType == PEER_MESSAGE && exists f, t, c, a :: payload == PeerPayload(f, t, c, a))
    || (msgType == HUMAN_HANDOFF && exists q, c, o :: payload == HandoffPayload(q, c, o))
  }

  /** A rebuilt message keeps type, id and targets; it keeps the payload iff that is one its type serialises to. */
  lemma ReconstructKeeps(p: PendingOutbound, from: NodeId)
    ensures Reconstruct(p, from) == Ok(Message(p.msgType, from, p.target, Some(p.cid), p.payload)) <==>
            WellFormed(p.msgType, p.payload)
    ensures Reconstruct(p, from).Ok? ==>
              var m := Reconstruct(p, from).value;
              m.msgType == p.msgType && m.from == from && m.to == p.target && m.cid == Some(p.cid)
                 && WellFormed(m.msgType, m.payload)
  {
    if p.msgType == HUMAN_HANDOFF {
      if q, c, o :| p.payload == HandoffPayload(q, c, o) {
        OnlyStringsOfStrings(o);
      }
    }
  }

  /** Rebuilding fails exactly on an unknown type or a required field that is not a string. */
  lemma ReconstructFailsIff(p: PendingOutbound, from: NodeId)
    ensures Reconstruct(p, from).Err? <==>
            || (p.msgType != PEER_MESSAGE && p.msgType != HUMAN_HANDOFF)
            || (p.msgType == PEER_MESSAGE && exists f <- ["from_session", "to_session", "content"] ::
                p.payload.GetStr(f).None?)
            || (p.msgType == HUMAN_HANDOFF && p.payload.GetStr("question").None?)
  {
    var fields := ["from_session", "to_session", "content"];
    assert fields[0] in fields && fields[1] in fields && fields[2] in fields;
  }

  // ── Deriving the outbox from the log ────────────────────────────────

  ghost predicate IsSent(e: Event, cid: Uuid) {
    e.OutboundSent? && e.cid == cid
  }

  ghost predicate IsReply(e: Event, cid: Uuid) {
    e.InboundReply? && e.cid == cid
  }

  /** Sent, and no reply recorded. */
  ghost predicate IsPending(events: seq<Event>, cid: Uuid) {
    (exists e <- events :: IsSent(e, cid)) && forall e <- events :: !IsReply(e, cid)
  }

  ghost function MaxAttempt(events: seq<Event>, cid: Uuid): nat {
    if events == [] then 0
    else
      var before, e := MaxAttempt(events[..|events| - 1], cid), events[|events| - 1];
      if IsSent(e, cid) && e.attempt > before then e.attempt else before
  }

  /** The last record of a send. */
  ghost function LastSent(events: seq<Event>, cid: Uuid): (r: Option<Event>)
    ensures r.Some? ==> IsSent(r.value, cid) && r.value in events
    ensures r.None? ==> forall e <- events :: !IsSent(e, cid)
  {
    if events == [] then None
    else
      var front, e := events[..|events| - 1], events[|events| - 1];
      assert forall x <- events :: x in front || x == e;
      if IsSent(e, cid) then Some(e) else LastSent(front, cid)
  }

  ghost function PendingOf(events: seq<Event>, cid: Uuid): PendingOutbound
    requires IsPending(events, cid)
  {
    var e := LastSent(events, cid).value;
    PendingOutbound(e.msgType, cid, e.target, e.payload, MaxAttempt(events, cid))
  }

  /** A list of pending entries: one for each pending id, each with the highest attempt and the last content. */
  ghost predicate IsOutboxOf(out: seq<PendingOutbound>, events: seq<Event>) {
    && (forall i, j :: 0 <= i < j < |out| ==> out[i].cid != out[j].cid)
    && (forall p <- out :: IsPending(events, p.cid) && p == PendingOf(events, p.cid))
    && (forall cid :: IsPending(events, cid) ==> exists p <- out :: p.cid == cid)
  }

  /** When the first record of a send was made. */
  ghost function FirstSeen(events: seq<Event>, cid: Uuid): nat {
    if events == [] then 0
    else if IsSent(events[0], cid) then events[0].at
    else FirstSeen(events[1..], cid)
  }

  /** First in, first out. */
  ghost predicate OldestFirst(out: seq<PendingOutbound>, events: seq<Event>) {
    forall i, j :: 0 <= i < j < |out| ==> FirstSeen(events, out[i].cid) <= FirstSeen(events, out[j].cid)
  }

  /**
   * A log file: its lines, the last of them not terminated yet, and in each line the pieces of text that were
   * written to it. A piece is a whole event or something else, torn text or a snapshot.
   */
  type LogFile = seq<seq<Option<Event>>>

  /** A line parses iff it holds one whole event and nothing else. */
  function LineEvent(line: seq<Option<Event>>): seq<Event> {
    if |line| == 1 && line[0].Some? then [line[0].value] else []
  }

  /** The events among the lines of the log file; lines that do not parse are skipped. */
  ghost function Parsed(lines: LogFile): seq<Event> {
    if lines == [] then [] else Parsed(lines[..|lines| - 1]) + LineEvent(lines[|lines| - 1])
  }

  /** The maps the file store fills while reading. */
  ghost predicate Tracks(events: seq<Event>, maxAttempt: map<Uuid, nat>, seen: map<Uuid, nat>, last: map<Uuid, Event>,
                         replied: set<Uuid>)
  {
    && maxAttempt.Keys == last.Keys == seen.Keys
    && (forall cid :: cid in last <==> LastSent(events, cid).Some?)
    && (forall cid <- last :: LastSent(events, cid) == Some(last[cid]) && maxAttempt[cid] == MaxAttempt(events, cid))
    && (forall cid <- seen :: seen[cid] == FirstSeen(events, cid))
    && (forall cid :: cid in replied <==> exists e <- events :: IsReply(e, cid))
  }

  lemma TracksSnoc(events: seq<Event>, e: Event, maxAttempt: map<Uuid, nat>, seen: map<Uuid, nat>,
                   last: map<Uuid, Event>,
                   replied: set<Uuid>)
    requires Tracks(events, maxAttempt, seen, last, replied)
    ensures e.OutboundSent? ==>
              var before := GetOr(maxAttempt, e.cid, 0);
              Tracks(events + [e], maxAttempt[e.cid := if e.attempt > before then e.attempt else before],
                     if e.cid in seen then seen else seen[e.cid := e.at], last[e.cid := e], replied)
    ensures e.InboundReply? ==> Tracks(events + [e], maxAttempt, seen, last, replied + {e.cid})
    ensures e.Other? ==> Tracks(events + [e], maxAttempt, seen, last, replied)
  {
    hide LastSent, MaxAttempt, FirstSeen;
    var more := events + [e];
    forall cid ensures LastSent(more, cid) == if IsSent(e, cid) then Some(e) else LastSent(events, cid) {
      OneSnoc(events, e, cid);
    }
    forall cid
      ensures MaxAttempt(more, cid) ==
              if IsSent(e, cid) && e.attempt > MaxAttempt(events, cid) then e.attempt else MaxAttempt(events, cid)
    {
      OneSnoc(events, e, cid);
    }
    forall cid ensures LastSent(events, cid).Some? ==> FirstSeen(more, cid) == FirstSeen(events, cid) {
      FirstSeenSnoc(events, e, cid);
    }
    forall cid ensures LastSent(events, cid).None? && IsSent(e, cid) ==> FirstSeen(more, cid) == e.at {
      FirstSeenSnoc(events, e, cid);
    }
    forall cid | LastSent(events, cid).None? ensures MaxAttempt(events, cid) == 0 {
      OneSnoc(events, e, cid);
    }
    assert more[|events|] == e;
    forall cid ensures (exists x <- more :: IsReply(x, cid)) <==>
        IsReply(e, cid) || exists x <- events :: IsReply(x, cid) {
      if x :| x in events && IsReply(x, cid) {
        assert x in more;
      }
    }
  }

  lemma {:induction false} FirstSeenSnoc(events: seq<Event>, e: Event, cid: Uuid)
    ensures LastSent(events, cid).Some? ==> FirstSeen(events + [e], cid) == FirstSeen(events, cid)
    ensures LastSent(events, cid).None? && IsSent(e, cid) ==> FirstSeen(events + [e], cid) == e.at
  {
    if events == [] {
      assert events + [e] == [e];
    } else {
      var rest := events[1..];
      FirstSeenSnoc(rest, e, cid);
      assert (events + [e])[1..] == rest + [e];
      assert forall x :: x in events <==> x == events[0] || x in rest;
    }
  }

  /** What one more event means for one id. */
  lemma OneSnoc(events: seq<Event>, e: Event, cid: Uuid)
    ensures LastSent(events + [e], cid) == if IsSent(e, cid) then Some(e) else LastSent(events, cid)
    ensures MaxAttempt(events + [e], cid) ==
            if IsSent(e, cid) && e.attempt > MaxAttempt(events, cid) then e.attempt else MaxAttempt(events, cid)
    ensures LastSent(events, cid).None? ==> MaxAttempt(events, cid) == 0
  {
    var more := events + [e];
    assert more[..|events|] == events;
    if LastSent(events, cid).None? {
      NeverSent(events, cid);
    }
  }

  lemma {:induction false} NeverSent(events: seq<Event>, cid: Uuid)
    requires forall e <- events :: !IsSent(e, cid)
    ensures MaxAttempt(events, cid) == 0
    decreases |events|
  {
    if events != [] {
      NeverSent(events[..|events| - 1], cid);
    }
  }

  /** Reads the log once, then lists the unreplied ids, those first recorded first. */
  method PendingFromFile(lines: LogFile) returns (out: seq<PendingOutbound>)
    ensures IsOutboxOf(out, Parsed(lines)) && OldestFirst(out, Parsed(lines))
  {
    var maxAttempt: map<Uuid, nat> := map[];
    var seen: map<Uuid, nat> := map[];
    var last: map<Uuid, Event> := map[];
    var replied: set<Uuid> := {};
    for i := 0 to |lines|
      invariant Tracks(Parsed(lines[..i]), maxAttempt, seen, last, replied)
    {
      assert lines[..i + 1][..i] == lines[..i];
      var parsed := LineEvent(lines[i]);
      if parsed == [] {
        assert Parsed(lines[..i + 1]) == Parsed(lines[..i]);
      } else {
        var e := parsed[0];
        TracksSnoc(Parsed(lines[..i]), e, maxAttempt, seen, last, replied);
        match e {
          case OutboundSent(_, cid, attempt, _, _, at) =>
            var before := GetOr(maxAttempt, cid, 0);
            maxAttempt := maxAttempt[cid := if attempt > before then attempt else before];
            seen := if cid in seen then seen else seen[cid := at];
            last := last[cid := e];
          case InboundReply(_, cid, _, _) =>
            replied := replied + {cid};
          case Other(_) =>
        }
      }
    }
    assert lines[..|lines|] == lines;
    out := ListPending(Parsed(lines), maxAttempt, seen, last, replied);
  }

  /** Takes the unreplied ids in arbitrary order and puts each entry where its first record's time belongs. */
  method ListPending(ghost events: seq<Event>, maxAttempt: map<Uuid, nat>, seen: map<Uuid, nat>, last: map<Uuid, Event>,
                     replied: set<Uuid>)
    returns (out: seq<PendingOutbound>)
    requires Tracks(events, maxAttempt, seen, last, replied) && forall cid <- last :: last[cid].OutboundSent?
    ensures IsOutboxOf(out, events) && OldestFirst(out, events)
  {
    out := [];
    var todo := maxAttempt.Keys - replied;
    assert forall cid :: cid in todo <==> IsPending(events, cid);
    while todo != {}
      invariant todo <= maxAttempt.Keys && forall cid <- todo :: IsPending(events, cid)
      invariant Collected(out, events, todo) && ByAge(out, seen)
    {
      var cid :| cid in todo;
      todo := todo - {cid};
      var e := last[cid];
      var p := PendingOutbound(e.msgType, cid, e.target, e.payload, maxAttempt[cid]);
      out := Enter(out, p, seen, events, todo);
    }
    AgedIsOldest(out, seen, events);
  }

  /** One entry more, at the place its age gives it. */
  method Enter(out: seq<PendingOutbound>, p: PendingOutbound, seen: map<Uuid, nat>, ghost events: seq<Event>,
               ghost todo: set<Uuid>)
    returns (all: seq<PendingOutbound>)
    requires ByAge(out, seen) && p.cid in seen && p.cid !in todo
    requires Collected(out, events, todo + {p.cid}) && IsPending(events, p.cid) && p == PendingOf(events, p.cid)
    ensures ByAge(all, seen) && Collected(all, events, todo)
  {
    all := InsertByAge(out, p, seen);
    OneMoreCollected(out, all, p, events, todo);
  }

  /** In order of first record, each id once. */
  ghost predicate ByAge(out: seq<PendingOutbound>, seen: map<Uuid, nat>) {
    && (forall q <- out :: q.cid in seen)
    && (forall i, j :: 0 <= i < j < |out| ==> out[i].cid != out[j].cid)
    && (forall i, j :: 0 <= i < j < |out| ==> seen[out[i].cid] <= seen[out[j].cid])
  }

  lemma AgedIsOldest(out: seq<PendingOutbound>, seen: map<Uuid, nat>, events: seq<Event>)
    requires ByAge(out, seen) && forall cid <- seen :: seen[cid] == FirstSeen(events, cid)
    ensures OldestFirst(out, events)
  {
  }

  /** Everything pending is in `out`, once, or still to do. */
  ghost predicate Collected(out: seq<PendingOutbound>, events: seq<Event>, todo: set<Uuid>) {
    && (forall i, j :: 0 <= i < j < |out| ==> out[i].cid != out[j].cid)
    && (forall p <- out :: p.cid !in todo && IsPending(events, p.cid) && p == PendingOf(events, p.cid))
    && (forall cid :: IsPending(events, cid) ==> cid in todo || exists p <- out :: p.cid == cid)
  }

  lemma OneMoreCollected(before: seq<PendingOutbound>, after: seq<PendingOutbound>, p: PendingOutbound,
                         events: seq<Event>,
                         todo: set<Uuid>)
    requires Collected(before, events, todo + {p.cid}) && p.cid !in todo
    requires IsPending(events, p.cid) && p == PendingOf(events, p.cid)
    requires forall q :: q in after <==> q in before || q == p
    requires forall i, j :: 0 <= i < j < |after| ==> after[i].cid != after[j].cid
    ensures Collected(after, events, todo)
  {
    forall c | IsPending(events, c) ensures c in todo || exists q <- after :: q.cid == c {
      if c == p.cid {
        assert p in after;
      } else if c !in todo {
        var q :| q in before && q.cid == c;
        assert q in after;
      }
    }
  }

  method InsertByAge(out: seq<PendingOutbound>, p: PendingOutbound, seen: map<Uuid, nat>)
    returns (all: seq<PendingOutbound>)
    requires ByAge(out, seen) && p.cid in seen && forall q <- out :: q.cid != p.cid
    ensures ByAge(all, seen) && forall q :: q in all <==> q in out || q == p
  {
    var k := 0;
    while k < |out| && seen[out[k].cid] <= seen[p.cid]
      invariant k <= |out| && forall i :: 0 <= i < k ==> seen[out[i].cid] <= seen[p.cid]
    {
      k := k + 1;
    }
    all := out[..k] + [p] + out[k..];
    Spliced(out, k, p, all);
    StaysByAge(out, k, p, seen, all);
  }

  lemma Spliced(out: seq<PendingOutbound>, k: nat, p: PendingOutbound, all: seq<PendingOutbound>)
    requires k <= |out| && all == out[..k] + [p] + out[k..]
    ensures forall q :: q in all <==> q in out || q == p
  {
    assert out == out[..k] + out[k..];
    assert all[k] == p;
    forall q | q in out ensures q in all {
      var i :| 0 <= i < |out| && out[i] == q;
      assert all[if i < k then i else i + 1] == q;
    }
  }

  lemma StaysByAge(out: seq<PendingOutbound>, k: nat, p: PendingOutbound, seen: map<Uuid, nat>,
                   all: seq<PendingOutbound>)
    requires ByAge(out, seen) && p.cid in seen && (forall q <- out :: q.cid != p.cid)
    requires k <= |out| && all == out[..k] + [p] + out[k..] && (forall q :: q in all <==> q in out || q == p)
    requires (forall i :: 0 <= i < k ==> seen[out[i].cid] <= seen[p.cid])
    requires (k < |out| ==> seen[p.cid] < seen[out[k].cid])
    ensures ByAge(all, seen)
  {
    forall i, j | 0 <= i < j < |all| ensures all[i].cid != all[j].cid && seen[all[i].cid] <= seen[all[j].cid] {
      if i == k {
        var b := j - 1;
        assert out[b] in out && k < |out| && seen[out[k].cid] <= seen[out[b].cid];
      } else if j == k {
        assert out[i] in out && all[i] == out[i];
      } else {
        var a, b := if i < k then i else i - 1, if j < k then j else j - 1;
        assert all[i] == out[a] && all[j] == out[b] && a < b;
      }
    }
  }

  /** The recorded attempts of this id rise strictly through the log. */
  ghost predicate Rises(events: seq<Event>, cid: Uuid) {
    forall i, j :: 0 <= i < j < |events| && IsSent(events[i], cid) && IsSent(events[j], cid) ==>
        events[i].attempt < events[j].attempt
  }

  ghost predicate IsTopRow(events: seq<Event>, p: PendingOutbound, i: nat) {
    && i < |events| && IsSent(events[i], p.cid)
    && (forall j :: 0 <= j < |events| && IsSent(events[j], p.cid) ==> events[j].attempt <= events[i].attempt)
    && p == PendingOutbound(events[i].msgType, p.cid, events[i].target, events[i].payload, events[i].attempt)
  }

  /** A group of the database query: the columns of a row that holds the group's highest attempt. */
  ghost predicate IsQueryRow(events: seq<Event>, p: PendingOutbound) {
    && IsPending(events, p.cid)
    && exists i :: IsTopRow(events, p, i)
  }

  /** While an id's attempts rise, the database and the file store derive the same entry for it. */
  lemma StoresAgree(events: seq<Event>, p: PendingOutbound)
    requires Rises(events, p.cid) && IsPending(events, p.cid) && forall e <- events :: IsSent(e, p.cid) ==>
            e.attempt > 0
    ensures IsQueryRow(events, p) <==> p == PendingOf(events, p.cid)
  {
    var k := LastIsHighest(events, p.cid);
    if IsQueryRow(events, p) {
      var i: nat :| IsTopRow(events, p, i);
      assert i == k;
    } else if p == PendingOf(events, p.cid) {
      assert IsTopRow(events, p, k);
    }
  }

  lemma {:induction false} LastIsHighest(events: seq<Event>, cid: Uuid) returns (k: nat)
    requires Rises(events, cid) && LastSent(events, cid).Some?
    requires forall e <- events :: IsSent(e, cid) ==> e.attempt > 0
    ensures k < |events| && LastSent(events, cid) == Some(events[k]) && MaxAttempt(events, cid) == events[k].attempt
    ensures forall j :: 0 <= j < |events| && j != k && IsSent(events[j], cid) ==> events[j].attempt < events[k].attempt
    decreases |events|
  {
    var front, e := events[..|events| - 1], events[|events| - 1];
    if IsSent(e, cid) {
      k := |events| - 1;
      if LastSent(front, cid).Some? {
        var before := LastIsHighest(front, cid);
        assert events[before] == front[before];
      } else {
        NeverSent(front, cid);
        assert forall j :: 0 <= j < |front| ==> events[j] in front;
      }
    } else {
      k := LastIsHighest(front, cid);
    }
  }
}
