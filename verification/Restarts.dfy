/** What survives in the log file, what a restart finds there, and what it sends again. */
module Restarts {
  import opened Wrappers
  import opened Messages
  import opened Discovery
  import opened Outbox
  import opened Conversation
  import opened Histories
  import opened Runs
  import opened RunLaws
  import opened TurnLaws
  import opened Waits
  import opened Checkpoints

  // ── Ended lines ─────────────────────────────────────────────────────

  /** The events on the lines that have ended. */
  ghost function Stored(h: History): seq<Event> {
    var f := FileOf(h);
    Parsed(f[..|f| - 1])
  }

  lemma StoredSnoc(h: History, a: Act)
    ensures Stored(h + [a]) == Stored(h) + if a.Ended? then LineEvent(Tail(h)) else []
    ensures ReadBack(h) == Stored(h) + LineEvent(Tail(h))
  {
    assert (h + [a])[..|h|] == h;
    var f, g := FileOf(h), FileOf(h + [a]);
    match a
    case Wrote(e) => assert g[..|g| - 1] == f[..|f| - 1];
    case Scribbled => assert g[..|g| - 1] == f[..|f| - 1];
    case Ended => assert g[..|g| - 1] == f;
    case _ =>
  }

  /** What stands on an ended line stays. */
  lemma {:induction false} StoredStays(h: History, k: History, e: Event)
    requires h <= k && e in Stored(h)
    ensures e in ReadBack(k) && e in Stored(k)
    decreases |k|
  {
    if h == k {
      StoredSnoc(k, Closed);
    } else {
      var front, a := k[..|k| - 1], k[|k| - 1];
      StoredStays(h, front, e);
      assert k == front + [a];
      StoredSnoc(front, a);
      StoredSnoc(k, Closed);
    }
  }

  /** An event written in full after `h`: what becomes of the line it meets. */
  lemma RecordMeets(h: History, e: Event)
    ensures var k := (h + [Wrote(e)]) + [Ended];
            Tail(k) == [] && ReadBack(k) == Stored(k) == Stored(h) + if Tail(h) == [] then [e] else []
  {
    hide Stored, ReadBack, Tail;
    var one := h + [Wrote(e)];
    StoredSnoc(h, Wrote(e));
    TailSnoc(h, Wrote(e));
    StoredSnoc(one, Ended);
    TailSnoc(one, Ended);
    StoredSnoc(one + [Ended], Closed);
  }

  /** Handing a message over leaves the file alone. */
  lemma HandKeepsFile(env: Env, s: State, m: Message, origin: Origin)
    ensures var t := Hand(env, s, m, origin).1; Stored(t.hist) == Stored(s.hist) && ReadBack(t.hist) == ReadBack(s.hist)
  {
    hide Stored, ReadBack, Tail;
    var one := s.hist + [Tried(m, origin)];
    StoredSnoc(s.hist, Tried(m, origin));
    ReadBackSnoc(s.hist, Tried(m, origin));
    StoredSnoc(one, Sent(m));
    ReadBackSnoc(one, Sent(m));
  }

  // ── Commands ────────────────────────────────────────────────────────

  /**
   * A command that succeeds was recorded and sent; but a later reader finds the record exactly if the file's last
   * line had ended when it was written.
   */
  lemma CommandIsFoundIff(cfg: Config, env: Env, s: State, m: Message, cid: Uuid, origin: Origin)
    requires cfg.hasStore && m.cid == Some(cid) && forall e <- ReadBack(s.hist) :: !IsSent(e, cid)
    ensures var (r, t) := Command(cfg, env, s, m, cid, origin);
            r.Ok? ==>
              && t.hist[|t.hist| - 1] == Sent(m)
              && ((exists e <- ReadBack(t.hist) :: IsSent(e, cid)) <==> Tail(s.hist) == [])
              && (Tail(s.hist) == [] ==> exists e <- Stored(t.hist) :: IsSent(e, cid))
  {
    hide Stored, ReadBack, Tail;
    var e := OutboundSent(m.msgType, cid, 1, m.to, m.payload, env.writes(s.writes).at);
    var (r, t) := Command(cfg, env, s, m, cid, origin);
    if r.Ok? {
      var s1 := Append(env, s, e).1;
      assert s1.hist == (s.hist + [Wrote(e)]) + [Ended];
      RecordMeets(s.hist, e);
      HandKeepsFile(env, s1, m, origin);
      StoredSnoc(s.hist, Closed);
      assert forall x <- Stored(s.hist) :: x in ReadBack(s.hist);
      if Tail(s.hist) == [] {
        assert e in Stored(t.hist) && IsSent(e, cid);
      }
    }
  }

  /**
   * A process that crashed between an event's text and the end of its line takes the next record with it: the new
   * process records and sends its first command with success, and a later reader finds neither event.
   */
  lemma CrashTakesNextRecord(cfg: Config, env: Env, h: History, a: Event, s: State, m: Message, cid: Uuid,
                             origin: Origin)
    requires cfg.hasStore && m.cid == Some(cid) && Tail(h) == [] && s.hist == h + [Wrote(a)]
    requires env.writes(s.writes).outcome == Done && env.sends(s.sends) == Taken
    ensures var (r, t) := Command(cfg, env, s, m, cid, origin);
            && r == Ok(()) && t.hist[|t.hist| - 1] == Sent(m) && ReadBack(t.hist) == ReadBack(h)
            && ((forall e <- ReadBack(h) :: !IsSent(e, cid)) ==> !IsPending(ReadBack(t.hist), cid))
  {
    hide Stored, ReadBack, Tail;
    var e := OutboundSent(m.msgType, cid, 1, m.to, m.payload, env.writes(s.writes).at);
    var s1 := Append(env, s, e).1;
    StoredSnoc(h, Wrote(a));
    TailSnoc(h, Wrote(a));
    RecordMeets(s.hist, e);
    HandKeepsFile(env, s1, m, origin);
    assert LineEvent([]) == [];
  }

  // ── Handoffs ────────────────────────────────────────────────────────

  /** A message that may be recorded as a reply by a wait for `types`. */
  ghost predicate MayBeRecorded(m: Message, types: seq<string>, cid: Uuid) {
    m.cid == Some(cid) && (m.msgType == PEER_REPLY || (IsReplyType(m.msgType) && m.msgType !in types))
  }

  /** The replies recorded since `h` were among the messages taken. */
  ghost predicate RepliesFrom(h: History, taken: seq<Message>, types: seq<string>, k: History) {
    forall e <- Events(k) :: e.InboundReply? ==> e in Events(h) || exists m <- taken :: MayBeRecorded(m, types, e.cid)
  }

  lemma AppendReplies(env: Env, s: State, e: Event, taken: seq<Message>, types: seq<string>)
    requires e.InboundReply? ==> exists m <- taken :: MayBeRecorded(m, types, e.cid)
    ensures RepliesFrom(s.hist, taken, types, Append(env, s, e).1.hist)
  {
    EventsSnoc(s.hist, Wrote(e));
    EventsSnoc(s.hist + [Wrote(e)], Ended);
    EventsSnoc(s.hist, Scribbled);
  }

  lemma RepliesTrans(h: History, one: seq<Message>, k: History, two: seq<Message>, types: seq<string>, l: History)
    requires RepliesFrom(h, one, types, k) && RepliesFrom(k, two, types, l)
    ensures RepliesFrom(h, one + two, types, l)
  {
    hide Events, MayBeRecorded;
    forall e | e in Events(l) && e.InboundReply?
      ensures e in Events(h) || exists m <- one + two :: MayBeRecorded(m, types, e.cid)
    {
      if e !in Events(h) {
        if e in Events(k) {
          var m :| m in one && MayBeRecorded(m, types, e.cid);
          assert m in one + two;
        } else {
          var m :| m in two && MayBeRecorded(m, types, e.cid);
          assert m in one + two;
        }
      }
    }
  }

  lemma PlainReplies(h: History, a: Act, taken: seq<Message>, types: seq<string>)
    requires !a.Wrote?
    ensures RepliesFrom(h, taken, types, h + [a])
  {
    EventsSnoc(h, a);
  }

  lemma UnexpectedReplies(cfg: Config, env: Env, s: State, m: Message, types: seq<string>)
    requires m.msgType !in types
    ensures RepliesFrom(s.hist, [m], types, Unexpected(cfg, env, s, m).1.hist)
  {
    hide Append, Events, IsDuplicate;
    PlainReplies(s.hist, Unwound(m), [m], types);
    if IsReplyType(m.msgType) && m.cid.Some? {
      var u, e := s.(calls := s.calls + [m.cid.value]), InboundReply(m.msgType, m.cid.value, m.from, m.payload);
      assert MayBeRecorded(m, types, e.cid) && m in [m];
      AppendReplies(env, u, e, [m], types);
      var v := Append(env, u, e).1;
      PlainReplies(v.hist, Unwound(m), [], types);
      RepliesTrans(s.hist, [m], v.hist, [], types, v.hist + [Unwound(m)]);
      assert [m] + [] == [m];
    }
  }

  lemma WaitOnceReplies(cfg: Config, env: Env, s: State, e: WaitEvent, types: seq<string>, got: seq<Message>)
    ensures var t := WaitOnce(cfg, env, s, e, types, got).1; RepliesFrom(s.hist, TakenFrom(s, t), types, t.hist)
  {
    hide Unexpected, RepliesFrom, Append, IsDuplicate;
    var t := WaitOnce(cfg, env, s, e, types, got).1;
    if Poll(env, s).0 {
      NoReplies(s.hist, TakenFrom(s, t), types);
    } else if s.inbox == [] {
      PlainReplies(s.hist, Closed, TakenFrom(s, t), types);
    } else {
      var m, u := s.inbox[0].msg, Received(s, types);
      UnexpectedKeeps(cfg, env, u, m);
      AppendKeeps(env, u, InboundReply(PEER_REPLY, e.cid, m.from, Null));
      assert TakenFrom(s, t) == [m];
      PlainReplies(s.hist, Took(m, types), [], types);
      NoReplies(u.hist, [m], types);
      PlainReplies(u.hist, Spoiled(m), [m], types);
      if m.msgType !in types {
        UnexpectedReplies(cfg, env, u, m, types);
      } else if m.cid == Some(e.cid) && m.msgType == PEER_REPLY {
        assert MayBeRecorded(m, types, e.cid) && m in [m];
        AppendReplies(env, u, InboundReply(PEER_REPLY, e.cid, m.from, Null), [m], types);
      }
      RepliesTrans(s.hist, [], u.hist, [m], types, t.hist);
      assert [] + [m] == [m];
    }
  }

  lemma NoReplies(h: History, taken: seq<Message>, types: seq<string>)
    ensures RepliesFrom(h, taken, types, h)
  {
  }

  /** A wait records as replies only what it took. */
  lemma {:induction false} WaitReplies(cfg: Config, env: Env, s: State, e: WaitEvent, types: seq<string>,
                                       got: seq<Message>)
    requires Good(cfg, s)
    ensures var t := Wait(cfg, env, s, e, types, got).1; RepliesFrom(s.hist, TakenFrom(s, t), types, t.hist)
    decreases |s.inbox|
  {
    hide WaitOnce, RepliesFrom, Good, Went, Idle, Blamed, TakenFrom;
    WaitOnceReplies(cfg, env, s, e, types, got);
    var (turn, t) := WaitOnce(cfg, env, s, e, types, got);
    if turn.Still? {
      WaitOnceWent(cfg, env, s, e, types, got);
      WentIsGood(cfg, env, s, t);
      WaitReplies(cfg, env, t, e, types, turn.got);
      WaitWent(cfg, env, t, e, types, turn.got);
      var u := Wait(cfg, env, t, e, types, turn.got).1;
      WentConsumes(cfg, env, s, t);
      WentConsumes(cfg, env, t, u);
      ConsumedIsTail(s, t);
      ConsumedIsTail(t, u);
      TakenTrans(s, t, u, []);
      assert [] + TakenFrom(s, u) == TakenFrom(s, u) && [] + TakenFrom(s, t) == TakenFrom(s, t);
      RepliesTrans(s.hist, TakenFrom(s, t), t.hist, TakenFrom(t, u), types, u.hist);
    }
  }

  lemma WentConsumes(cfg: Config, env: Env, s: State, t: State)
    requires Went(cfg, env, s, t)
    ensures Consumed(s, t)
  {
    hide Good, Faulted, Spoken, Consumed, Attended;
  }

  lemma CommandReplies(cfg: Config, env: Env, s: State, m: Message, cid: Uuid, origin: Origin, types: seq<string>)
    ensures var t := Command(cfg, env, s, m, cid, origin).1;
            RepliesFrom(s.hist, [], types, t.hist) && t.inbox == s.inbox
  {
    hide RepliesFrom, Append;
    NoReplies(s.hist, [], types);
    var (recorded, s1) := RecordOutbound(cfg, env, s, m, cid);
    AppendReplies(env, s, OutboundSent(m.msgType, cid, 1, m.to, m.payload, env.writes(s.writes).at), [], types);
    AppendKeeps(env, s, OutboundSent(m.msgType, cid, 1, m.to, m.payload, env.writes(s.writes).at));
    PlainReplies(s1.hist, Tried(m, origin), [], types);
    PlainReplies(s1.hist + [Tried(m, origin)], Sent(m), [], types);
    var none: seq<Message> := [];
    assert none + none == none;
    var one := s1.hist + [Tried(m, origin)];
    RepliesTrans(s1.hist, [], one, [], types, one + [Sent(m)]);
    NoReplies(s1.hist, [], types);
    var t := Command(cfg, env, s, m, cid, origin).1;
    assert RepliesFrom(s1.hist, [], types, t.hist);
    RepliesTrans(s.hist, [], s1.hist, [], types, t.hist);
  }

  /** Handing over a question stores its record and no reply. */
  lemma HandedOverIsStored(cfg: Config, env: Env, s: State, question: string, context: Json, options: seq<string>)
    requires Well(cfg, s) && cfg.hasStore && Tail(s.hist) == [] && forall e <- ReadBack(s.hist) :: !IsSent(e, s.nextId)
    ensures var (sent, t) := HandedOver(cfg, env, s, question, context, options);
            && Good(cfg, t) && t.inbox == s.inbox && RepliesFrom(s.hist, [], [HUMAN_HANDOFF_REPLY], t.hist)
            && (sent.Ok? ==> exists e <- Stored(t.hist) :: IsSent(e, s.nextId))
  {
    hide Well, Stored, ReadBack, Tail, Command, RepliesFrom, Led;
    var (cid, s1) := Fresh(s);
    var m := HandoffMessage(cfg, cid, question, context, options);
    MovedLed(cfg, env, s, s1);
    CommandLed(cfg, env, s1, m, cid, Handing);
    CommandIsFoundIff(cfg, env, s1, m, cid, Handing);
    CommandReplies(cfg, env, s1, m, cid, Handing, [HUMAN_HANDOFF_REPLY]);
    WellIsGood(cfg, HandedOver(cfg, env, s, question, context, options).1);
  }

  lemma WellIsGood(cfg: Config, s: State)
    requires Well(cfg, s)
    ensures Good(cfg, s)
  {
    hide Good;
  }

  /** A stored send is pending exactly while no reply to it is read back; replies read back were written. */
  lemma StoredSendPends(h: History, k: History, cid: Uuid)
    requires h <= k && exists e <- Stored(h) :: IsSent(e, cid)
    ensures IsPending(ReadBack(k), cid) <==> forall e <- ReadBack(k) :: !IsReply(e, cid)
    ensures (forall e <- Events(k) :: !IsReply(e, cid)) ==> IsPending(ReadBack(k), cid)
  {
    hide Stored, ReadBack, Events;
    var e :| e in Stored(h) && IsSent(e, cid);
    StoredStays(h, k, e);
    forall x | x in ReadBack(k) ensures x in Events(k) {
      ReadBackIsWritten(k, x);
    }
  }

  /**
   * A handoff that was handed over on a file whose last line had ended is in the outbox exactly while no reply with
   * its id is read back. The human's answer is none: an answered handoff stays pending, and is sent again after a
   * restart, unless a reply with its id was there before or a peer reply with its id came.
   */
  lemma HandoffStaysPending(cfg: Config, env: Env, s: State, question: string, context: Json, options: seq<string>)
    requires Well(cfg, s) && cfg.hasStore && Tail(s.hist) == [] && forall e <- ReadBack(s.hist) :: !IsSent(e, s.nextId)
    requires HandedOver(cfg, env, s, question, context, options).0.Ok?
    ensures var cid := s.nextId; var t := Handoff(cfg, env, s, question, context, options).1;
            && |t.inbox| <= |s.inbox|
            && (IsPending(ReadBack(t.hist), cid) <==> forall e <- ReadBack(t.hist) :: !IsReply(e, cid))
            && ((forall e <- Events(s.hist) :: !IsReply(e, cid))
                && (forall m <- TakenFrom(s, t) :: !(m.cid == Some(cid) && m.msgType == PEER_REPLY))
                ==> IsPending(ReadBack(t.hist), cid))
  {
    hide Well, Good, Went, Stored, ReadBack, Events, Tail, HandedOver, Wait, RepliesFrom, Blamed, Idle;
    HandedOverIsStored(cfg, env, s, question, context, options);
    var s1 := HandedOver(cfg, env, s, question, context, options).1;
    var (e, s2) := Register(s1, s.nextId, AllMembers, 1);
    Moved(cfg, env, s1, s2);
    WaitWent(cfg, env, s2, e, [HUMAN_HANDOFF_REPLY], []);
    WaitReplies(cfg, env, s2, e, [HUMAN_HANDOFF_REPLY], []);
    var t := Wait(cfg, env, s2, e, [HUMAN_HANDOFF_REPLY], []).1;
    assert [] + TakenFrom(s, t) == TakenFrom(s2, t);
    RepliesTrans(s.hist, [], s2.hist, TakenFrom(s, t), [HUMAN_HANDOFF_REPLY], t.hist);
    WentGrows(cfg, env, s2, t);
    StoredSendPends(s2.hist, t.hist, s.nextId);
    Unreplied(s.hist, TakenFrom(s, t), t.hist, s.nextId);
  }

  lemma Unreplied(h: History, taken: seq<Message>, k: History, cid: Uuid)
    requires RepliesFrom(h, taken, [HUMAN_HANDOFF_REPLY], k)
    ensures (forall e <- Events(h) :: !IsReply(e, cid))
            && (forall m <- taken :: !(m.cid == Some(cid) && m.msgType == PEER_REPLY))
            ==> forall e <- Events(k) :: !IsReply(e, cid)
  {
    hide Events;
  }

  /** What a handoff answers is the text in the first reply to this very handoff, the last message it takes. */
  ghost predicate HandoffAnswered(s: State, r: Result<string, RunError>, t: State)
    requires |t.inbox| <= |s.inbox|
  {
    r.Ok? ==> exists reply :: Harvested(TakenFrom(s, t), ["human_handoff_reply"], s.nextId, 1, [reply])
                              && HasText(reply.payload, "answer", Some(r.value))
  }

  lemma HandoffAnswers(cfg: Config, env: Env, s: State, question: string, context: Json, options: seq<string>)
    ensures var (r, t) := Handoff(cfg, env, s, question, context, options);
            |t.inbox| <= |s.inbox| && HandoffAnswered(s, r, t)
  {
    hide HandedOver, Wait, EndsOn, PanicsOnStray, ReplyIds, Harvested;
    HandedOverInput(cfg, env, s, question, context, options);
    var (sent, s1) := HandedOver(cfg, env, s, question, context, options);
    if sent.Ok? {
      var (e, s2) := Register(s1, s.nextId, AllMembers, 1);
      WaitIsShortest(cfg, env, s2, e, [HUMAN_HANDOFF_REPLY]);
      var (r, t) := Wait(cfg, env, s2, e, [HUMAN_HANDOFF_REPLY], []);
      assert TakenFrom(s, t) == TakenFrom(s2, t);
      assert r.Ok? ==> r.value == [r.value[0]];
    }
  }

  /** A handoff hands over its question, under a new id, or nothing at all, and then it fails. */
  ghost predicate HandsQuestion(cfg: Config, s: State, question: string, context: Json, options: seq<string>,
                                r: Result<string, RunError>, t: State)
  {
    || (exists m :: Tries(t.hist) == Tries(s.hist) + [m] && m.cid == Some(s.nextId)
                    && AsksHuman(cfg, m, question, context, options))
    || (r.Err? && Tries(t.hist) == Tries(s.hist))
  }

  lemma HandoffHands(cfg: Config, env: Env, s: State, question: string, context: Json, options: seq<string>)
    ensures var (r, t) := Handoff(cfg, env, s, question, context, options);
            HandsQuestion(cfg, s, question, context, options, r, t)
  {
    hide Tries, Append, Hand, Wait, AnswerText, HandoffMessage, AsksHuman;
    var cid, s0 := s.nextId, Fresh(s).1;
    var m := HandoffMessage(cfg, cid, question, context, options);
    HandoffAsks(cfg, cid, question, context, options);
    HandoffId(cfg, cid, question, context, options);
    AppendTries(env, s0, OutboundSent(m.msgType, cid, 1, m.to, m.payload, env.writes(s0.writes).at));
    HandTries(env, RecordOutbound(cfg, env, s0, m, cid).1, m, Handing);
    var (e, s2) := Register(HandedOver(cfg, env, s, question, context, options).1, s.nextId, AllMembers, 1);
    WaitTries(cfg, env, s2, e, [HUMAN_HANDOFF_REPLY], []);
  }

  lemma HandoffId(cfg: Config, cid: Uuid, question: string, context: Json, options: seq<string>)
    ensures HandoffMessage(cfg, cid, question, context, options).cid == Some(cid)
  {
  }

  lemma HandedOverInput(cfg: Config, env: Env, s: State, question: string, context: Json, options: seq<string>)
    ensures HandedOver(cfg, env, s, question, context, options).1.inbox == s.inbox
  {
  }

  // ── Answered messages ───────────────────────────────────────────────

  ghost predicate AllDone(env: Env) {
    forall k :: env.writes(k).outcome == Done
  }

  /** On ended lines, with all that was there before. */
  ghost predicate Adds(h: History, k: History) {
    Tail(k) == [] && ReadBack(h) <= ReadBack(k)
  }

  lemma AppendAdds(env: Env, s: State, e: Event)
    requires AllDone(env) && Tail(s.hist) == []
    ensures var t := Append(env, s, e).1; Adds(s.hist, t.hist) && e in ReadBack(t.hist) && t.inbox == s.inbox
  {
    hide ReadBack, Tail;
    var one := s.hist + [Wrote(e)];
    ReadBackSnoc(s.hist, Wrote(e));
    TailSnoc(s.hist, Wrote(e));
    ReadBackSnoc(one, Ended);
    TailSnoc(one, Ended);
    assert e in ReadBack(s.hist) + [e];
  }

  lemma PlainAdds(h: History, a: Act)
    requires Tail(h) == [] && !a.Wrote? && !a.Scribbled?
    ensures Adds(h, h + [a])
  {
    ReadBackSnoc(h, a);
    TailSnoc(h, a);
  }

  lemma UnexpectedAdds(cfg: Config, env: Env, s: State, m: Message)
    requires AllDone(env) && Tail(s.hist) == []
    ensures Adds(s.hist, Unexpected(cfg, env, s, m).1.hist)
  {
    hide Append, IsDuplicate, ReadBack, Tail;
    PlainAdds(s.hist, Unwound(m));
    if IsReplyType(m.msgType) && m.cid.Some? {
      var t, e := s.(calls := s.calls + [m.cid.value]), InboundReply(m.msgType, m.cid.value, m.from, m.payload);
      AppendAdds(env, t, e);
      PlainAdds(Append(env, t, e).1.hist, Unwound(m));
    }
  }

  ghost predicate HasReply(h: History, cid: Uuid) {
    exists e <- ReadBack(h) :: IsReply(e, cid)
  }

  lemma ReplyStays(h: History, k: History, cid: Uuid)
    requires HasReply(h, cid) && Adds(h, k)
    ensures HasReply(k, cid)
  {
    hide ReadBack;
    var e :| e in ReadBack(h) && IsReply(e, cid);
    assert e in ReadBack(k);
  }

  ghost predicate HasPeerReply(ms: seq<Message>) {
    exists m <- ms :: m.msgType == "peer_reply"
  }

  lemma WaitOnceRecords(cfg: Config, env: Env, s: State, e: WaitEvent, types: seq<string>, got: seq<Message>)
    requires cfg.hasStore && AllDone(env) && Tail(s.hist) == [] && (HasPeerReply(got) ==> HasReply(s.hist, e.cid))
    ensures var (turn, t) := WaitOnce(cfg, env, s, e, types, got);
            && Tail(t.hist) == []
            && (turn.Still? && HasPeerReply(turn.got) ==> HasReply(t.hist, e.cid))
            && (turn.Over? && turn.result.Ok? && HasPeerReply(turn.result.value) ==> HasReply(t.hist, e.cid))
  {
    hide Append, Unexpected, ReadBack, Tail, AllDone;
    PlainAdds(s.hist, Closed);
    if s.inbox != [] {
      var m, u := s.inbox[0].msg, Received(s, types);
      var reply := InboundReply(PEER_REPLY, e.cid, m.from, Null);
      PlainAdds(s.hist, Took(m, types));
      PlainAdds(u.hist, Spoiled(m));
      UnexpectedAdds(cfg, env, u, m);
      AppendAdds(env, u, reply);
      var v, w := Unexpected(cfg, env, u, m).1, Append(env, u, reply).1;
      if HasPeerReply(got) {
        ReplyStays(s.hist, u.hist, e.cid);
        ReplyStays(u.hist, v.hist, e.cid);
        ReplyStays(u.hist, w.hist, e.cid);
      }
      assert IsReply(reply, e.cid) && HasReply(w.hist, e.cid);
      assert HasPeerReply(got + [m]) ==> HasPeerReply(got) || m.msgType == PEER_REPLY;
    }
  }

  /** A wait that succeeds with a peer's reply among the responses has it on record. */
  lemma {:induction false} WaitRecords(cfg: Config, env: Env, s: State, e: WaitEvent, types: seq<string>,
                                       got: seq<Message>)
    requires cfg.hasStore && AllDone(env) && Tail(s.hist) == [] && (HasPeerReply(got) ==> HasReply(s.hist, e.cid))
    ensures var (r, t) := Wait(cfg, env, s, e, types, got);
            r.Ok? && HasPeerReply(r.value) ==> HasReply(t.hist, e.cid)
    decreases |s.inbox|
  {
    hide WaitOnce, ReadBack, Tail, AllDone, HasReply, HasPeerReply;
    WaitOnceRecords(cfg, env, s, e, types, got);
    var (turn, t) := WaitOnce(cfg, env, s, e, types, got);
    if turn.Still? {
      WaitRecords(cfg, env, t, e, types, turn.got);
    }
  }

  /**
   * If every line is written in full, a peer message that was answered is not pending afterwards: a restart does not
   * send it again. A handoff that was answered still is (HandoffStaysPending).
   */
  lemma AnsweredIsSettled(cfg: Config, env: Env, s: State, trigger: string, d: CheckpointMsg)
    requires cfg.hasStore && AllDone(env) && Tail(s.hist) == [] && d.rule.msgType == PEER_MESSAGE
    ensures var (r, t) := Query(cfg, env, s, trigger, d); r.Ok? ==> !IsPending(ReadBack(t.hist), d.rule.cid)
  {
    hide Wait, Append, ReadBack, Tail, AllDone, HasReply, Harvested, IsPending;
    var (r, t) := Query(cfg, env, s, trigger, d);
    if r.Ok? {
      var m := MessageOf(cfg, d);
      var (e, s1) := Register(Poll(env, s).1, d.rule.cid, AllMembers, Dedup.AtLeastOne(|d.recipients|));
      var record := OutboundSent(m.msgType, d.rule.cid, 1, m.to, m.payload, env.writes(s1.writes).at);
      AppendAdds(env, s1, record);
      var s2 := Append(env, s1, record).1;
      PlainAdds(s2.hist, Tried(m, Dispatching(trigger)));
      PlainAdds(s2.hist + [Tried(m, Dispatching(trigger))], Sent(m));
      var s3 := Hand(env, s2, m, Dispatching(trigger)).1;
      WaitRecords(cfg, env, s3, e, [PEER_REPLY], []);
      WaitIsShortest(cfg, env, s3, e, [PEER_REPLY]);
      HarvestIsPeers(TakenFrom(s3, t), e.cid, r.value);
      RepliedIsSettled(t.hist, d.rule.cid);
    }
  }

  lemma HarvestIsPeers(taken: seq<Message>, cid: Uuid, got: seq<Message>)
    requires Harvested(taken, [PEER_REPLY], cid, |got|, got)
    ensures HasPeerReply(got)
  {
    assert got[0] in got;
  }

  lemma RepliedIsSettled(h: History, cid: Uuid)
    requires HasReply(h, cid)
    ensures !IsPending(ReadBack(h), cid)
  {
  }

  // ── Resending ───────────────────────────────────────────────────────

  /** A resend of one entry adds the next attempt to the record, with the entry's content, or nothing. */
  ghost predicate Reattempts(s: State, p: PendingOutbound, t: State) {
    || Events(t.hist) == Events(s.hist)
    || exists e :: IsNextAttempt(e, p) && Events(t.hist) == Events(s.hist) + [e]
  }

  ghost predicate IsNextAttempt(e: Event, p: PendingOutbound) {
    && e.OutboundSent? && e.msgType == p.msgType && e.cid == p.cid && e.attempt == p.attempt + 1
    && e.target == p.target && e.payload == p.payload
  }

  lemma ResendReattempts(cfg: Config, env: Env, s: State, p: PendingOutbound)
    ensures var t := ResendOne(cfg, env, s, p);
            && Reattempts(s, p, t)
            && (Reconstruct(p, cfg.agentId).Err? || env.sends(s.sends) != Taken ==> Events(t.hist) == Events(s.hist))
            && (Reconstruct(p, cfg.agentId).Ok? && env.sends(s.sends) == Taken && env.writes(s.writes).outcome == Done
                ==> |Events(t.hist)| == |Events(s.hist)| + 1)
  {
    hide Events, Reconstruct;
    if Reconstruct(p, cfg.agentId).Ok? {
      var m := Reconstruct(p, cfg.agentId).value;
      EventsSnoc(s.hist, Tried(m, Resending));
      EventsSnoc(s.hist + [Tried(m, Resending)], Sent(m));
      var u := Hand(env, s, m, Resending).1;
      var e := OutboundSent(p.msgType, p.cid, p.attempt + 1, p.target, p.payload, env.writes(u.writes).at);
      EventsSnoc(u.hist, Wrote(e));
      EventsSnoc(u.hist + [Wrote(e)], Ended);
      EventsSnoc(u.hist, Scribbled);
      assert IsNextAttempt(e, p);
    }
  }

  /** What a resend of these entries hands to the bus: whatever can be rebuilt, in order. */
  ghost function Rebuilt(pending: seq<PendingOutbound>, from: NodeId): seq<Message> {
    if pending == [] then []
    else (match Reconstruct(pending[0], from) case Ok(m) => [m] case Err(_) => []) + Rebuilt(pending[1..], from)
  }

  /** Each entry that can be rebuilt is tried, once, in the listed order. */
  lemma {:induction false} ResendTries(cfg: Config, env: Env, s: State, pending: seq<PendingOutbound>, i: nat)
    requires i <= |pending|
    ensures Tries(ResendFrom(cfg, env, s, pending, i).hist) == Tries(s.hist) + Rebuilt(pending[i..], cfg.agentId)
    decreases |pending| - i
  {
    hide Tries, Hand, Append, Reconstruct;
    if i < |pending| {
      var p := pending[i];
      var t := ResendOne(cfg, env, s, p);
      assert Tries(t.hist) == Tries(s.hist) + match Reconstruct(p, cfg.agentId) case Ok(m) => [m] case Err(_) => [] by {
        if Reconstruct(p, cfg.agentId).Ok? {
          HandTries(env, s, Reconstruct(p, cfg.agentId).value, Resending);
          var u := Hand(env, s, Reconstruct(p, cfg.agentId).value, Resending).1;
          AppendTries(env, u, OutboundSent(p.msgType, p.cid, p.attempt + 1, p.target, p.payload,
              env.writes(u.writes).at));
        }
      }
      ResendTries(cfg, env, t, pending, i + 1);
      assert pending[i..][0] == p && pending[i..][1..] == pending[i + 1..];
    } else {
      assert pending[i..] == [];
    }
  }

  lemma {:induction false} RebuiltHas(pending: seq<PendingOutbound>, from: NodeId, p: PendingOutbound)
    requires p in pending && Reconstruct(p, from).Ok?
    ensures Reconstruct(p, from).value in Rebuilt(pending, from)
  {
    hide Reconstruct;
    if p != pending[0] {
      assert p in pending[1..];
      RebuiltHas(pending[1..], from, p);
    }
  }

  /**
   * A restart tries every id that the log it reads has as sent and unreplied, if the record's payload is one its
   * type serialises to: with the recorded id, targets and payload. Without a listing nothing is tried.
   */
  lemma PendingIsTriedAsRecorded(cfg: Config, env: Env, s: State, pending: seq<PendingOutbound>, cid: Uuid)
    requires IsOutboxOf(pending, ReadBack(s.hist)) && IsPending(ReadBack(s.hist), cid) && cfg.hasStore
    requires var p := PendingOf(ReadBack(s.hist), cid); WellFormed(p.msgType, p.payload)
    ensures var (r, t) := Resend(cfg, env, s, pending); var p := PendingOf(ReadBack(s.hist), cid);
            if env.listFails then r == Err(SnapshotFailed) && t == s
            else
              && r == Ok(|pending|) && Tries(t.hist) == Tries(s.hist) + Rebuilt(pending, cfg.agentId)
              && Message(p.msgType, cfg.agentId, p.target, Some(cid), p.payload) in Rebuilt(pending, cfg.agentId)
  {
    var p := PendingOf(ReadBack(s.hist), cid);
    hide Tries, ReadBack, WellFormed, Rebuilt, ResendFrom;
    ReconstructKeeps(p, cfg.agentId);
    RebuiltHas(pending, cfg.agentId, p);
    ResendTries(cfg, env, s, pending, 0);
    assert pending[0..] == pending;
  }

  /** The entry's attempt is no lower than any in the log, and what is rebuilt from it is on record. */
  ghost predicate Listed(h: History, p: PendingOutbound, from: NodeId) {
    && MaxAttempt(ReadBack(h), p.cid) <= p.attempt
    && (Reconstruct(p, from).Ok? ==> IsOutbox(p.msgType) && Announced(Events(h), Reconstruct(p, from).value))
  }

  ghost predicate AllListed(h: History, pending: seq<PendingOutbound>, i: nat, from: NodeId) {
    && (forall j, k :: 0 <= j < k < |pending| ==> pending[j].cid != pending[k].cid)
    && forall j :: i <= j < |pending| ==> Listed(h, pending[j], from)
  }

  /** What is rebuilt from an entry is covered by the entry's last record. */
  lemma OutboxIsListed(h: History, pending: seq<PendingOutbound>, from: NodeId)
    requires IsOutboxOf(pending, ReadBack(h))
    ensures AllListed(h, pending, 0, from)
  {
    forall j | 0 <= j < |pending| ensures Listed(h, pending[j], from) {
      assert pending[j] in pending;
      EntryIsListed(h, pending[j], from);
    }
  }

  lemma EntryIsListed(h: History, p: PendingOutbound, from: NodeId)
    requires IsPending(ReadBack(h), p.cid) && p == PendingOf(ReadBack(h), p.cid)
    ensures Listed(h, p, from)
  {
    hide ReadBack, MaxAttempt, Events;
    if Reconstruct(p, from).Ok? {
      var e, m := LastSent(ReadBack(h), p.cid).value, Reconstruct(p, from).value;
      ReconstructKeeps(p, from);
      ReadBackIsWritten(h, e);
      assert Reconstruct(PendingOutbound(e.msgType, e.cid, e.target, e.payload, e.attempt), from) == Ok(m);
      assert Covers(e, m);
    }
  }

  /** One more act, unless it is a record of this very id, leaves an entry listed. */
  lemma ListedSnoc(h: History, a: Act, p: PendingOutbound, from: NodeId)
    requires Listed(h, p, from) && !(a.Wrote? && IsSent(a.event, p.cid))
    ensures Listed(h + [a], p, from)
  {
    hide Events, Covers, Reconstruct;
    EventsSnoc(h, a);
    if Reconstruct(p, from).Ok? {
      var e :| e in Events(h) && Covers(e, Reconstruct(p, from).value);
      assert e in Events(h + [a]);
    }
    AttemptStays(h, a, p.cid);
  }

  lemma AttemptStays(h: History, a: Act, cid: Uuid)
    requires !(a.Wrote? && IsSent(a.event, cid))
    ensures MaxAttempt(ReadBack(h + [a]), cid) <= MaxAttempt(ReadBack(h), cid)
  {
    ReadBackSnoc(h, a);
    var before, after := ReadBack(h), ReadBack(h + [a]);
    hide ReadBack;
    if after != before {
      if a.Wrote? && Tail(h) == [] {
        OneSnoc(before, a.event, cid);
      } else {
        OneSnoc(after, Tail(h)[0].value, cid);
      }
    }
  }

  lemma HandListed(env: Env, s: State, m: Message, origin: Origin, p: PendingOutbound, from: NodeId)
    requires Listed(s.hist, p, from)
    ensures Listed(Hand(env, s, m, origin).1.hist, p, from)
  {
    hide Listed;
    ListedSnoc(s.hist, Tried(m, origin), p, from);
    ListedSnoc(s.hist + [Tried(m, origin)], Sent(m), p, from);
  }

  lemma AppendListed(env: Env, s: State, e: Event, p: PendingOutbound, from: NodeId)
    requires Listed(s.hist, p, from) && !IsSent(e, p.cid)
    ensures Listed(Append(env, s, e).1.hist, p, from)
  {
    hide Listed;
    ListedSnoc(s.hist, Wrote(e), p, from);
    ListedSnoc(s.hist + [Wrote(e)], Ended, p, from);
    ListedSnoc(s.hist, Scribbled, p, from);
  }

  lemma ResendOneListed(cfg: Config, env: Env, s: State, p: PendingOutbound, q: PendingOutbound)
    requires Listed(s.hist, q, cfg.agentId) && p.cid != q.cid
    ensures Listed(ResendOne(cfg, env, s, p).hist, q, cfg.agentId)
  {
    hide Listed, Hand, Append, Reconstruct;
    if Reconstruct(p, cfg.agentId).Ok? {
      var m := Reconstruct(p, cfg.agentId).value;
      HandListed(env, s, m, Resending, q, cfg.agentId);
      var t := Hand(env, s, m, Resending).1;
      AppendListed(env, t, OutboundSent(p.msgType, p.cid, p.attempt + 1, p.target, p.payload, env.writes(t.writes).at),
          q, cfg.agentId);
    }
  }

  /** One entry: sent under its recorded id, and its next attempt is recorded above all before. */
  lemma ResendOneLed(cfg: Config, env: Env, s: State, p: PendingOutbound)
    requires Well(cfg, s) && Listed(s.hist, p, cfg.agentId)
    ensures Checked(cfg, env, s, None, ResendOne(cfg, env, s, p))
  {
    hide Well, Led, Went, Good, Calm, Quiet, Reconstruct, Announced, Events, ReadBack, MaxAttempt, Hand, Append;
    MovedChecked(cfg, env, s, None, s);
    if Reconstruct(p, cfg.agentId).Ok? {
      var m := Reconstruct(p, cfg.agentId).value;
      ReconstructKeeps(p, cfg.agentId);
      WellIsGood(cfg, s);
      HandCalm(cfg, env, s, m, Resending);
      var (sent, t) := Hand(env, s, m, Resending);
      CalmLed(cfg, env, s, t);
      HandKeepsFile(env, s, m, Resending);
      var e := OutboundSent(p.msgType, p.cid, p.attempt + 1, p.target, p.payload, env.writes(t.writes).at);
      AppendQuiet(cfg, env, t, e);
      var u := Append(env, t, e).1;
      QuietLed(cfg, env, t, u);
      LedThen(cfg, env, s, t, None, u);
    }
  }

  lemma {:induction false} ResendFromLed(cfg: Config, env: Env, s: State, pending: seq<PendingOutbound>, i: nat)
    requires Well(cfg, s) && i <= |pending| && AllListed(s.hist, pending, i, cfg.agentId)
    ensures Checked(cfg, env, s, None, ResendFrom(cfg, env, s, pending, i))
    decreases |pending| - i
  {
    hide Well, Checked, Listed, ResendOne;
    if i == |pending| {
      MovedChecked(cfg, env, s, None, s);
    } else {
      ResendOneLed(cfg, env, s, pending[i]);
      var t := ResendOne(cfg, env, s, pending[i]);
      CheckedIsWell(cfg, env, s, None, t);
      forall j | i + 1 <= j < |pending| ensures Listed(t.hist, pending[j], cfg.agentId) {
        ResendOneListed(cfg, env, s, pending[i], pending[j]);
      }
      ResendFromLed(cfg, env, t, pending, i + 1);
      CheckedThen(cfg, env, s, t, None, ResendFrom(cfg, env, t, pending, i + 1));
    }
  }

  /** A resend keeps the state well: every message it sends was on record, and attempts per id keep climbing. */
  lemma ResendLed(cfg: Config, env: Env, s: State, pending: seq<PendingOutbound>)
    requires Well(cfg, s) && IsOutboxOf(pending, ReadBack(s.hist))
    ensures var (r, t) := Resend(cfg, env, s, pending); Checked(cfg, env, s, None, t)
  {
    hide Well, Checked, AllListed, ReadBack, ResendFrom;
    MovedChecked(cfg, env, s, None, s);
    OutboxIsListed(s.hist, pending, cfg.agentId);
    ResendFromLed(cfg, env, s, pending, 0);
  }

  lemma HandoffLed(cfg: Config, env: Env, s: State, question: string, context: Json, options: seq<string>)
    requires Well(cfg, s)
    ensures var t := Handoff(cfg, env, s, question, context, options).1; Well(cfg, t) && s.hist <= t.hist
  {
    hide Led, Good, EventsBelow, Went, Wait, Command, Blamed, Idle, HandoffPayload;
    var (cid, s0) := Fresh(s);
    MovedLed(cfg, env, s, s0);
    CommandLed(cfg, env, s0, HandoffMessage(cfg, cid, question, context, options), cid, Handing);
    var (sent, s1) := HandedOver(cfg, env, s, question, context, options);
    LedThen(cfg, env, s, s0, ErrorOf(sent), s1);
    LedGrows(cfg, env, s, ErrorOf(sent), s1);
    if sent.Ok? {
      var (e, s2) := Register(s1, cid, AllMembers, 1);
      Moved(cfg, env, s1, s2);
      WaitWent(cfg, env, s2, e, [HUMAN_HANDOFF_REPLY], []);
      var (r, t) := Wait(cfg, env, s2, e, [HUMAN_HANDOFF_REPLY], []);
      WentGrows(cfg, env, s2, t);
      WentIsGood(cfg, env, s2, t);
      WaitedBelow(s1, e, ErrorOf(r), s2, t);
    }
  }

  lemma WaitedBelow(s: State, e: WaitEvent, error: Option<RunError>, s1: State, t: State)
    requires EventsBelow(s.waitEvents, s.nextId) && e.id == s.nextId && s1.nextId > e.id && s1.nextId <= t.nextId
    requires s1.waitEvents == s.waitEvents + [e] && EventSettled(e, error, s1, t)
    ensures EventsBelow(t.waitEvents, t.nextId)
  {
    WithoutNew(s.waitEvents, e);
  }
}
