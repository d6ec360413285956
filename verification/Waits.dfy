/** What a wait takes from its input, and what becomes of it. */
module Waits {
  import opened Wrappers
  import opened Messages
  import opened Dedup
  import opened Discovery
  import opened Outbox
  import opened Conversation
  import opened Histories
  import opened Runs

  ghost function Msgs(inbox: seq<Incoming>): (ms: seq<Message>)
    ensures |ms| == |inbox| && forall i :: 0 <= i < |inbox| ==> ms[i] == inbox[i].msg
  {
    seq(|inbox|, i requires 0 <= i < |inbox| => inbox[i].msg)
  }

  /** What was taken from the handle between two states of a run. */
  ghost function TakenFrom(s: State, t: State): seq<Message>
    requires |t.inbox| <= |s.inbox|
  {
    Msgs(s.inbox[..|s.inbox| - |t.inbox|])
  }

  lemma AppendKeeps(env: Env, s: State, e: Event)
    ensures var t := Append(env, s, e).1; t.calls == s.calls && t.inbox == s.inbox
  {
  }

  /** The run goes on exactly for a duplicate; the memory is asked for every reply, and then holds what it held. */
  lemma UnexpectedKeeps(cfg: Config, env: Env, s: State, m: Message)
    ensures var (on, t) := Unexpected(cfg, env, s, m);
            && (on <==> IsDuplicate(m, s.calls, cfg.capacity)) && t.inbox == s.inbox
            && t.calls == s.calls + (if IsReplyType(m.msgType) && m.cid.Some? then [m.cid.value] else [])
            && (on ==> Recorded(t.calls, cfg.capacity) == Recorded(s.calls, cfg.capacity))
  {
    hide Recent, Recorded, Append, IsReplyType;
    if IsReplyType(m.msgType) && m.cid.Some? {
      RecordSnoc(s.calls, cfg.capacity, m.cid.value);
      AppendKeeps(env, s.(calls := s.calls + [m.cid.value]), InboundReply(m.msgType, m.cid.value, m.from, m.payload));
    }
  }

  lemma AppendWrites(env: Env, s: State, e: Event)
    requires env.writes(s.writes).outcome == Done
    ensures Events(Append(env, s, e).1.hist) == Events(s.hist) + [e]
  {
    EventsSnoc(s.hist, Wrote(e));
    EventsSnoc(s.hist + [Wrote(e)], Ended);
  }

  /** A reply nobody waits for goes on record, as it is, unless it is a duplicate. */
  ghost predicate RecordsUnexpected(cfg: Config, s: State, m: Message, t: State) {
    if cfg.hasStore && (m.msgType == "peer_reply" || m.msgType == "human_handoff_reply") && m.cid.Some?
       && !IsDuplicate(m, s.calls, cfg.capacity)
    then Events(t.hist) == Events(s.hist) + [InboundReply(m.msgType, m.cid.value, m.from, m.payload)]
    else Events(t.hist) == Events(s.hist)
  }

  lemma UnexpectedWrites(cfg: Config, env: Env, s: State, m: Message)
    requires env.writes(s.writes).outcome == Done
    ensures RecordsUnexpected(cfg, s, m, Unexpected(cfg, env, s, m).1)
  {
    hide Append, IsDuplicate, Events;
    EventsSnoc(s.hist, Unwound(m));
    if m.cid.Some? {
      var u, e := s.(calls := s.calls + [m.cid.value]), InboundReply(m.msgType, m.cid.value, m.from, m.payload);
      AppendWrites(env, u, e);
      EventsSnoc(Append(env, u, e).1.hist, Unwound(m));
    }
  }

  /** A counted peer reply goes on record without its payload, any other counted response does not. */
  lemma CountedWrites(cfg: Config, env: Env, s: State, m: Message, cid: Uuid)
    requires env.writes(s.writes).outcome == Done
    ensures var t := Counted(cfg, env, s, m, cid);
            if cfg.hasStore && m.msgType == "peer_reply"
            then Events(t.hist) == Events(s.hist) + [InboundReply("peer_reply", cid, m.from, Null)]
            else Events(t.hist) == Events(s.hist)
  {
    hide Append, Events;
    AppendWrites(env, s, InboundReply(PEER_REPLY, cid, m.from, Null));
  }

  /** With a store, a statistics event goes on record; without one, nothing does. */
  lemma NoteWrites(cfg: Config, env: Env, s: State, kind: string)
    requires env.writes(s.writes).outcome == Done
    ensures var t := Note(cfg, env, s, kind);
            Events(t.hist) == if cfg.hasStore then Events(s.hist) + [Other(kind)] else Events(s.hist)
  {
    hide Append, Events;
    AppendWrites(env, s, Other(kind));
  }

  /** None of these is due to the handlers. */
  ghost predicate NoneStray(taken: seq<Message>, types: seq<string>, calls: seq<Uuid>, capacity: nat) {
    forall m <- taken :: !IsStray(m, types, calls, capacity)
  }

  /** After `before` was taken since the wait began with `calls` lookups. */
  ghost predicate SoFar(cfg: Config, s: State, types: seq<string>, cid: Uuid, got: seq<Message>, before: seq<Message>,
                        calls: seq<Uuid>)
  {
    && got == Matching(before, types, cid) && s.calls == calls + ReplyIds(before, types)
    && NoneStray(before, types, calls, cfg.capacity)
    && Recorded(s.calls, cfg.capacity) == Recorded(calls, cfg.capacity)
  }

  lemma TakenSnoc(taken: seq<Message>, m: Message, types: seq<string>, cid: Uuid, calls: seq<Uuid>, capacity: nat)
    ensures Matching(taken + [m], types, cid) == Matching(taken, types, cid) + if Counts(m, types, cid) then [m] else []
    ensures ReplyIds(taken + [m], types) == ReplyIds(taken, types)
              + if m.msgType !in types && IsReplyType(m.msgType) && m.cid.Some? then [m.cid.value] else []
    ensures NoneStray(taken + [m], types, calls, capacity) <==>
            NoneStray(taken, types, calls, capacity) && !IsStray(m, types, calls, capacity)
  {
    assert (taken + [m])[..|taken|] == taken;
    hide IsStray;
    assert forall x :: x in taken + [m] <==> x in taken || x == m;
  }

  /** How a wait for `e` may end on what it took. */
  ghost predicate EndsOn(all: seq<Message>, types: seq<string>, e: WaitEvent, r: Result<seq<Message>, RunError>) {
    match r
    case Ok(ms) => ms == Matching(all, types, e.cid) && Completes(all, types, e)
    case Err(Panicked) => all != [] && |Matching(all, types, e.cid)| < Need(e)
    case Err(Processor(_)) => all != [] && Counts(all[|all| - 1], types, e.cid)
       && |Matching(all, types, e.cid)| <= Need(e)
    case Err(_) => |Matching(all, types, e.cid)| < Need(e)
  }

  /** The processor that failed, failed on the last message taken. */
  ghost predicate SpoiledLast(s: State, r: Result<seq<Message>, RunError>, t: State) {
    r.Err? && r.error.Processor? ==> |t.inbox| < |s.inbox| && s.inbox[|s.inbox| - |t.inbox| - 1].spoils
  }

  /** The run panicked on the last message taken, which was due to the handlers; none before it was, and else none. */
  ghost predicate PanicsOnStray(taken: seq<Message>, types: seq<string>, calls: seq<Uuid>, capacity: nat,
                                r: Result<seq<Message>, RunError>)
  {
    if r == Err(Panicked)
    then
      && taken != [] && NoneStray(taken[..|taken| - 1], types, calls, capacity)
      && IsStray(taken[|taken| - 1], types, calls, capacity)
    else NoneStray(taken, types, calls, capacity)
  }

  /** What a wait leaves, `all` being what it took since it began with `calls` lookups. */
  ghost predicate Left(cfg: Config, e: WaitEvent, types: seq<string>, all: seq<Message>, calls: seq<Uuid>,
                       r: Result<seq<Message>, RunError>, t: State)
  {
    && EndsOn(all, types, e, r) && (r == Err(Internal) ==> t.inbox == [])
    && PanicsOnStray(all, types, calls, cfg.capacity, r) && t.calls == calls + ReplyIds(all, types)
  }

  lemma WaitOnceTakes(cfg: Config, env: Env, s: State, e: WaitEvent, types: seq<string>, got: seq<Message>,
                      before: seq<Message>, calls: seq<Uuid>)
    requires SoFar(cfg, s, types, e.cid, got, before, calls) && |got| < Need(e)
    ensures var (turn, t) := WaitOnce(cfg, env, s, e, types, got); var all := before + TakenFrom(s, t);
            && t.inbox == s.inbox[|s.inbox| - |t.inbox|..]
            && match turn
               case Still(more) => |more| < Need(e) && SoFar(cfg, t, types, e.cid, more, all, calls)
               case Over(r) => Left(cfg, e, types, all, calls, r, t) && SpoiledLast(s, r, t)
  {
    var (turn, t) := WaitOnce(cfg, env, s, e, types, got);
    hide Matching, ReplyIds, IsReplyType, Unexpected, Append, NoneStray, Recorded;
    if Poll(env, s).0 || s.inbox == [] {
      assert before + TakenFrom(s, t) == before;
    } else {
      var m, u := s.inbox[0].msg, Received(s, types);
      TakenSnoc(before, m, types, e.cid, calls, cfg.capacity);
      UnexpectedKeeps(cfg, env, u, m);
      AppendKeeps(env, u, InboundReply(PEER_REPLY, e.cid, m.from, Null));
      assert TakenFrom(s, t) == [m];
      assert (before + [m])[..|before|] == before;
    }
  }

  /**
   * A successful wait returns exactly the counted responses of the shortest stretch of input that suffices; a
   * failed one saw too few. It panics exactly if it takes a stray message, and that one is its last.
   */
  lemma {:induction false} WaitTakes(cfg: Config, env: Env, s: State, e: WaitEvent, types: seq<string>,
                                     got: seq<Message>, before: seq<Message>, calls: seq<Uuid>)
    requires SoFar(cfg, s, types, e.cid, got, before, calls) && |got| < Need(e)
    ensures var (r, t) := Wait(cfg, env, s, e, types, got); var all := before + TakenFrom(s, t);
            && t.inbox == s.inbox[|s.inbox| - |t.inbox|..]
            && Left(cfg, e, types, all, calls, r, t) && SpoiledLast(s, r, t)
    decreases |s.inbox|
  {
    hide SoFar, WaitOnce, Left, TakenFrom, Need;
    WaitOnceTakes(cfg, env, s, e, types, got, before, calls);
    var (turn, t) := WaitOnce(cfg, env, s, e, types, got);
    if turn.Still? {
      var all := before + TakenFrom(s, t);
      WaitTakes(cfg, env, t, e, types, turn.got, all, calls);
      TakenTrans(s, t, Wait(cfg, env, t, e, types, turn.got).1, before);
    }
  }

  lemma TakenTrans(s: State, t: State, u: State, before: seq<Message>)
    requires |u.inbox| <= |t.inbox| <= |s.inbox|
    requires t.inbox == s.inbox[|s.inbox| - |t.inbox|..] && u.inbox == t.inbox[|t.inbox| - |u.inbox|..]
    ensures u.inbox == s.inbox[|s.inbox| - |u.inbox|..]
    ensures before + TakenFrom(s, u) == before + TakenFrom(s, t) + TakenFrom(t, u)
  {
    var all, first, more := TakenFrom(s, u), TakenFrom(s, t), TakenFrom(t, u);
    assert all == first + more;
  }

  lemma EndsHarvests(all: seq<Message>, types: seq<string>, e: WaitEvent, r: Result<seq<Message>, RunError>)
    requires EndsOn(all, types, e, r)
    ensures r.Ok? ==> Suffices(e, |r.value|) && Harvested(all, types, e.cid, |r.value|, r.value)
  {
    hide Matching, Completes;
    if r.Ok? {
      CompletesHarvests(all, types, e);
    }
  }

  /** The wait of a fresh event. */
  lemma WaitIsShortest(cfg: Config, env: Env, s: State, e: WaitEvent, types: seq<string>)
    ensures var (r, t) := Wait(cfg, env, s, e, types, []); var taken := TakenFrom(s, t);
            && t.inbox == s.inbox[|taken|..] && EndsOn(taken, types, e, r)
            && (r.Ok? ==> Suffices(e, |r.value|) && Harvested(taken, types, e.cid, |r.value|, r.value))
            && SpoiledLast(s, r, t) && (r == Err(Internal) ==> t.inbox == [])
            && PanicsOnStray(taken, types, s.calls, cfg.capacity, r)
            && t.calls == s.calls + ReplyIds(taken, types)
  {
    WaitTakes(cfg, env, s, e, types, [], [], s.calls);
    hide Wait, Matching, ReplyIds, EndsOn, PanicsOnStray, Harvested, Suffices;
    var (r, t) := Wait(cfg, env, s, e, types, []);
    assert [] + TakenFrom(s, t) == TakenFrom(s, t);
    EndsHarvests(TakenFrom(s, t), types, e, r);
  }

  /**
   * A query that succeeds took one answer of each recipient, or one if there are none, as messages of the type that
   * answers it and with its own id; it took no other answer, and nothing after the last.
   */
  ghost predicate QueryAnswered(s: State, d: CheckpointMsg, got: seq<Message>, t: State)
    requires |t.inbox| <= |s.inbox|
  {
    && |got| == (if d.recipients == [] then 1 else |d.recipients|)
    && exists ty :: IsResponseTo(d.rule.msgType, ty) && Harvested(TakenFrom(s, t), [ty], d.rule.cid, |got|, got)
  }

  lemma QueryAnswers(cfg: Config, env: Env, s: State, trigger: string, d: CheckpointMsg)
    ensures var (r, t) := Query(cfg, env, s, trigger, d); r.Ok? ==> QueryAnswered(s, d, r.value, t)
  {
    hide Wait, EndsOn, PanicsOnStray, ReplyIds, Harvested, ResponseTypeFor, Append, IsResponseTo, MessageOf;
    var s1 := Poll(env, s).1;
    var (e, s2) := Register(s1, d.rule.cid, AllMembers, AtLeastOne(|d.recipients|));
    var (recorded, s3) := RecordOutbound(cfg, env, s2, MessageOf(cfg, d), d.rule.cid);
    if Query(cfg, env, s, trigger, d).0.Ok? {
      var s4 := Hand(env, s3, MessageOf(cfg, d), Dispatching(trigger)).1;
      var ty := ResponseTypeFor(d.rule.msgType);
      AppendKeeps(env, s2, OutboundSent(MessageOf(cfg, d).msgType, d.rule.cid, 1, MessageOf(cfg, d).to,
                      MessageOf(cfg, d).payload, env.writes(s2.writes).at));
      ResponseTypeIff(d.rule.msgType, ty);
      WaitIsShortest(cfg, env, s4, e, [ty]);
    }
  }

  /**
   * Whatever the environment, a wait panics exactly if a message it takes is of a type it does not await and no reply
   * the memory holds at its start.
   */
  lemma WaitPanicsIff(cfg: Config, env: Env, s: State, e: WaitEvent, types: seq<string>)
    ensures var (r, t) := Wait(cfg, env, s, e, types, []);
            r == Err(Panicked) <==> exists m <- TakenFrom(s, t) :: IsStray(m, types, s.calls, cfg.capacity)
  {
    WaitIsShortest(cfg, env, s, e, types);
    var (r, t) := Wait(cfg, env, s, e, types, []);
    hide Wait, IsStray, EndsOn, ReplyIds;
    var taken := TakenFrom(s, t);
    if r == Err(Panicked) {
      assert taken[|taken| - 1] in taken;
    }
  }
}
