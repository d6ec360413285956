/** The laws every piece of a run keeps: sound history, ids, the wait events' ledger, the conversation's record. */
module RunLaws {
  import opened Wrappers
  import opened Messages
  import opened Dedup
  import opened Outbox
  import opened Conversation
  import opened Histories
  import opened Runs

  // ── Vocabulary ──────────────────────────────────────────────────────

  /** The ends of waits that leave an event registered, by cause. */
  datatype Tally = Tally(spoiled: nat, closed: nat, unrecorded: nat, panicked: nat)
  {
    ghost function Sum(): nat {
      spoiled + closed + unrecorded + panicked
    }
  }

  ghost function Faults(h: History): Tally {
    if h == [] then Tally(0, 0, 0, 0)
    else
      var before := Faults(h[..|h| - 1]);
      match h[|h| - 1]
      case Spoiled(_) => before.(spoiled := before.spoiled + 1)
      case Closed => before.(closed := before.closed + 1)
      case Unrecorded => before.(unrecorded := before.unrecorded + 1)
      case Unwound(_) => before.(panicked := before.panicked + 1)
      case _ => before
  }

  /** The conversation messages said. */
  ghost function Saids(h: History): seq<ModelMessage> {
    if h == [] then []
    else
      var before, last := Saids(h[..|h| - 1]), h[|h| - 1];
      if last.Said? then before + [last.message] else before
  }

  /** How many messages to come have a failing processor. */
  ghost function Spoils(inbox: seq<Incoming>): nat {
    if inbox == [] then 0 else Spoils(inbox[1..]) + if inbox[0].spoils then 1 else 0
  }

  /** Ids of messages and permits used so far are below `n`. */
  ghost predicate UsedBelow(h: History, n: Uuid) {
    forall a <- h :: a.Tried? ==>
      && (a.msg.cid.Some? ==> a.msg.cid.value < n)
      && (a.origin.Executing? && a.origin.permit.Some? ==> a.origin.permit.value < n)
  }

  ghost predicate EventsBelow(events: seq<WaitEvent>, n: Uuid) {
    forall e <- events :: e.id < n
  }

  ghost predicate Good(cfg: Config, s: State) {
    Sound(cfg, s.hist) && UsedBelow(s.hist, s.nextId)
  }

  // ── How a piece of a run may change the state ───────────────────────

  /** Messages are taken from the front, each after a look at the cancellation token. */
  ghost predicate Consumed(s: State, t: State) {
    && |t.inbox| <= |s.inbox|
    && (forall i :: 0 <= i < |t.inbox| ==> t.inbox[i] == s.inbox[|s.inbox| - |t.inbox| + i])
    && s.polls + |s.inbox| <= t.polls + |t.inbox|
  }

  /**
   * Processors failed on no more messages than were taken with one; the handle was found closed only with
   * nothing left and nobody cancelling before; a query's record failed only where a write can.
   */
  ghost predicate Faulted(cfg: Config, env: Env, s: State, t: State) {
    var before, after := Faults(s.hist), Faults(t.hist);
    && before.spoiled <= after.spoiled && before.closed <= after.closed && before.unrecorded <= after.unrecorded
    && before.panicked <= after.panicked
    && after.spoiled + Spoils(t.inbox) <= before.spoiled + Spoils(s.inbox)
    && (after.closed > before.closed ==>
          t.inbox == [] && (env.cancelAt.Some? ==> env.cancelAt.value > s.polls + |s.inbox|))
    && (after.unrecorded > before.unrecorded ==> WritesMayFail(cfg, env))
  }

  ghost predicate WritesMayFail(cfg: Config, env: Env) {
    cfg.hasStore && exists n :: env.writes(n).outcome != Done
  }

  /** What was added to the conversation is what was said. */
  ghost predicate Spoken(s: State, t: State) {
    s.messages <= t.messages && Saids(t.hist) == Saids(s.hist) + t.messages[|s.messages|..]
  }

  /** This act takes a message that is due to the handlers, `calls` being the lookups so far. */
  ghost predicate IsStrayTake(a: Act, calls: seq<Uuid>, capacity: nat) {
    a.Took? && IsStray(a.msg, a.types, calls, capacity)
  }

  /** Such a message was taken, seen from the memory the engine began with. */
  ghost predicate StrayTaken(capacity: nat, s: State, t: State) {
    exists i :: |s.hist| <= i < |t.hist| && IsStrayTake(t.hist[i], s.calls, capacity)
  }

  ghost predicate SameMemory(cfg: Config, s: State, t: State) {
    Recorded(t.calls, cfg.capacity) == Recorded(s.calls, cfg.capacity)
  }

  /** A stray message, and nothing else, makes the run panic; without one the memory of replies stays as it is. */
  ghost predicate Attended(cfg: Config, s: State, t: State) {
    if Faults(t.hist).panicked == Faults(s.hist).panicked
    then SameMemory(cfg, s, t) && !StrayTaken(cfg.capacity, s, t)
    else StrayTaken(cfg.capacity, s, t)
  }

  ghost predicate Ran(cfg: Config, env: Env, s: State, t: State) {
    && Good(cfg, t) && s.hist <= t.hist && s.nextId <= t.nextId
    && Consumed(s, t) && Faulted(cfg, env, s, t) && Spoken(s, t)
  }

  /** From `s` the engine got to `t`: more history, all of it sound, and a panic for a stray message. */
  ghost predicate Went(cfg: Config, env: Env, s: State, t: State) {
    Ran(cfg, env, s, t) && Attended(cfg, s, t)
  }

  /** As many wait events were left registered as there were faults. */
  ghost predicate Balanced(s: State, t: State) {
    && s.waitEvents <= t.waitEvents && EventsBelow(t.waitEvents, t.nextId)
    && |t.waitEvents| + Faults(s.hist).Sum() == |s.waitEvents| + Faults(t.hist).Sum()
  }

  /** Only the history, the ids and the counters moved, by acts that are no faults, no answers and no words. */
  ghost predicate Calm(s: State, t: State) {
    && t.waitEvents == s.waitEvents && t.messages == s.messages && t.inbox == s.inbox && t.polls == s.polls
    && t.turnCount == s.turnCount && t.modelTurns == s.modelTurns && t.roundCount == s.roundCount
    && Faults(t.hist) == Faults(s.hist) && SameAnswers(s.hist, t.hist)
  }

  ghost predicate SameAnswers(h: History, k: History) {
    forall ty, cid :: Answer(k, ty, cid) == Answer(h, ty, cid)
  }

  ghost predicate SameTries(h: History, k: History) {
    forall a <- k :: a.Tried? ==> a in h
  }

  lemma ConsumedTrans(s: State, t: State, u: State)
    requires Consumed(s, t) && Consumed(t, u)
    ensures Consumed(s, u)
  {
  }

  lemma ConsumedIsTail(s: State, t: State)
    requires Consumed(s, t)
    ensures t.inbox == s.inbox[|s.inbox| - |t.inbox|..]
  {
  }

  lemma RanTrans(cfg: Config, env: Env, s: State, t: State, u: State)
    requires Ran(cfg, env, s, t) && Ran(cfg, env, t, u)
    ensures Ran(cfg, env, s, u)
  {
    hide Good, Faults, Saids, Spoils;
    ConsumedTrans(s, t, u);
    assert u.messages[|s.messages|..] == t.messages[|s.messages|..] + u.messages[|t.messages|..];
  }

  /** Two engines whose memories hold the same ids take the same messages for strays. */
  lemma SameStrays(cfg: Config, s: State, t: State, a: Act)
    requires SameMemory(cfg, s, t)
    ensures IsStrayTake(a, t.calls, cfg.capacity) == IsStrayTake(a, s.calls, cfg.capacity)
  {
    hide Recorded, Recent, IsReplyType;
  }

  lemma AttendedTrans(cfg: Config, s: State, t: State, u: State)
    requires Attended(cfg, s, t) && Attended(cfg, t, u) && s.hist <= t.hist <= u.hist
    requires Faults(s.hist).panicked <= Faults(t.hist).panicked <= Faults(u.hist).panicked
    ensures Attended(cfg, s, u)
  {
    hide Faults, IsStrayTake, Recorded;
    if StrayTaken(cfg.capacity, s, t) {
      var i :| |s.hist| <= i < |t.hist| && IsStrayTake(t.hist[i], s.calls, cfg.capacity);
      assert u.hist[i] == t.hist[i];
    } else {
      forall i | |s.hist| <= i < |u.hist|
        ensures IsStrayTake(u.hist[i], t.calls, cfg.capacity) == IsStrayTake(u.hist[i], s.calls, cfg.capacity)
        ensures i < |t.hist| ==> u.hist[i] == t.hist[i]
      {
        SameStrays(cfg, s, t, u.hist[i]);
      }
    }
  }

  lemma WentTrans(cfg: Config, env: Env, s: State, t: State, u: State)
    requires Went(cfg, env, s, t) && Went(cfg, env, t, u)
    ensures Went(cfg, env, s, u)
  {
    hide Good, Faults, Spoken, Spoils, Attended, Consumed, WritesMayFail;
    RanTrans(cfg, env, s, t, u);
    AttendedTrans(cfg, s, t, u);
  }

  /** Nothing taken, nothing recorded in the memory, and no panic. */
  lemma NobodyStrayed(cfg: Config, s: State, t: State)
    requires SameMemory(cfg, s, t) && Faults(t.hist).panicked == Faults(s.hist).panicked
    requires forall i :: |s.hist| <= i < |t.hist| ==> !t.hist[i].Took?
    ensures Attended(cfg, s, t)
  {
    hide Faults, Recorded, IsStray;
  }

  lemma BalancedTrans(s: State, t: State, u: State)
    requires Balanced(s, t) && Balanced(t, u)
    ensures Balanced(s, u)
  {
    hide Faults;
  }

  lemma SameGood(cfg: Config, s: State, t: State)
    requires Good(cfg, s) && t.hist == s.hist && t.nextId >= s.nextId
    ensures Good(cfg, t)
  {
    hide Sound;
  }

  lemma MovedRan(cfg: Config, env: Env, s: State, t: State)
    requires Good(cfg, s) && t.hist == s.hist && t.nextId >= s.nextId
    requires t.inbox == s.inbox && t.messages == s.messages && t.polls >= s.polls
    ensures Ran(cfg, env, s, t) && Good(cfg, t)
  {
    hide Sound, Faults, Saids, Spoils;
    assert s.messages[|s.messages|..] == [];
  }

  /** Counters, ids and the engine's caches may move without an act. */
  lemma Moved(cfg: Config, env: Env, s: State, t: State)
    requires Good(cfg, s) && t.hist == s.hist && t.nextId >= s.nextId && SameMemory(cfg, s, t)
    requires t.inbox == s.inbox && t.messages == s.messages && t.polls >= s.polls
    ensures Went(cfg, env, s, t) && Good(cfg, t)
  {
    hide Ran, Good, Attended, Faults, Recorded;
    MovedRan(cfg, env, s, t);
    NobodyStrayed(cfg, s, t);
  }

  lemma TallySnoc(h: History, a: Act)
    ensures Faults(h + [a]) ==
            match a
            case Spoiled(_) => Faults(h).(spoiled := Faults(h).spoiled + 1)
            case Closed => Faults(h).(closed := Faults(h).closed + 1)
            case Unrecorded => Faults(h).(unrecorded := Faults(h).unrecorded + 1)
            case Unwound(_) => Faults(h).(panicked := Faults(h).panicked + 1)
            case _ => Faults(h)
    ensures Saids(h + [a]) == if a.Said? then Saids(h) + [a.message] else Saids(h)
  {
    assert (h + [a])[..|h|] == h;
  }

  lemma AnswerSnoc(h: History, a: Act, ty: string, cid: Uuid)
    ensures Answer(h + [a], ty, cid) ==
            if Answer(h, ty, cid).Some? then Answer(h, ty, cid)
            else if a.Took? && Counts(a.msg, [ty], cid) && Asked(h, cid) then Some(a.msg)
            else None
  {
    assert (h + [a])[..|h|] == h;
  }

  lemma SayingAnswersNothing(h: History, a: Act)
    requires !a.Took?
    ensures SameAnswers(h, h + [a])
  {
    forall ty, cid ensures Answer(h + [a], ty, cid) == Answer(h, ty, cid) {
      AnswerSnoc(h, a, ty, cid);
    }
  }

  lemma NothingSaid(s: State, t: State)
    requires t.messages == s.messages && Saids(t.hist) == Saids(s.hist)
    ensures Spoken(s, t)
  {
    hide Saids;
    assert s.messages[|s.messages|..] == [];
  }

  lemma NothingTaken(s: State, t: State)
    requires t.inbox == s.inbox && t.polls >= s.polls
    ensures Consumed(s, t)
  {
  }

  // ── Single acts ─────────────────────────────────────────────────────

  ghost predicate IsPlain(a: Act) {
    a.Wrote? || a.Scribbled? || a.Ended? || a.Tried? || a.Sent? || a.Consulted?
  }

  lemma DidGood(cfg: Config, s: State, a: Act)
    requires Good(cfg, s) && Allowed(cfg, s.hist, a)
    requires a.Tried? && a.msg.cid.Some? ==> a.msg.cid.value < s.nextId
    requires a.Tried? && a.origin.Executing? && a.origin.permit.Some? ==> a.origin.permit.value < s.nextId
    ensures Good(cfg, s.Did(a))
  {
    hide Allowed;
    SoundSnoc(cfg, s.hist, a);
    hide Sound;
  }

  lemma DidCalm(cfg: Config, env: Env, s: State, a: Act)
    requires Good(cfg, s) && IsPlain(a) && Allowed(cfg, s.hist, a)
    requires a.Tried? && a.msg.cid.Some? ==> a.msg.cid.value < s.nextId
    requires a.Tried? && a.origin.Executing? && a.origin.permit.Some? ==> a.origin.permit.value < s.nextId
    ensures Went(cfg, env, s, s.Did(a)) && Calm(s, s.Did(a))
  {
    hide Good, Allowed, Faults, Saids, Spoils, Answer, WritesMayFail, Consumed, Spoken, SameAnswers, Attended, Recorded;
    DidGood(cfg, s, a);
    NobodyStrayed(cfg, s, s.Did(a)) by { TallySnoc(s.hist, a); }
    TallySnoc(s.hist, a);
    SayingAnswersNothing(s.hist, a);
    NothingSaid(s, s.Did(a));
    NothingTaken(s, s.Did(a));
  }

  lemma CalmTrans(s: State, t: State, u: State)
    requires Calm(s, t) && Calm(t, u)
    ensures Calm(s, u)
  {
    hide Faults, Answer;
  }

  /** May this event be written next? */
  ghost predicate Writable(h: History, e: Event) {
    && (e.OutboundSent? ==> e.attempt == 1 || e.attempt > MaxAttempt(ReadBack(h), e.cid))
    && (e.InboundReply? ==> TookReply(h, e.cid))
  }

  lemma WentIsGood(cfg: Config, env: Env, s: State, t: State)
    requires Went(cfg, env, s, t)
    ensures Good(cfg, t)
  {
    hide Good, Consumed, Faulted, Spoken, Attended;
  }

  /** `Calm`, and nothing was handed to the bus. */
  ghost predicate Quiet(cfg: Config, env: Env, s: State, t: State) {
    Went(cfg, env, s, t) && Calm(s, t) && SameTries(s.hist, t.hist)
  }

  lemma Calmly(cfg: Config, env: Env, s: State, t: State, u: State)
    requires Went(cfg, env, s, t) && Calm(s, t) && Went(cfg, env, t, u) && Calm(t, u)
    ensures Went(cfg, env, s, u) && Calm(s, u)
  {
    hide Went, Calm;
    WentTrans(cfg, env, s, t, u);
    CalmTrans(s, t, u);
  }

  lemma QuietTrans(cfg: Config, env: Env, s: State, t: State, u: State)
    requires Quiet(cfg, env, s, t) && Quiet(cfg, env, t, u)
    ensures Quiet(cfg, env, s, u)
  {
    hide Went, Calm;
    Calmly(cfg, env, s, t, u);
  }

  lemma DidQuiet(cfg: Config, env: Env, s: State, a: Act)
    requires Good(cfg, s) && IsPlain(a) && !a.Tried? && Allowed(cfg, s.hist, a)
    ensures Quiet(cfg, env, s, s.Did(a)) && Good(cfg, s.Did(a))
  {
    hide Allowed, Calm, Went, Good;
    DidCalm(cfg, env, s, a);
    WentIsGood(cfg, env, s, s.Did(a));
  }

  lemma MovedQuiet(cfg: Config, env: Env, s: State, t: State)
    requires Good(cfg, s) && t.hist == s.hist && t.nextId >= s.nextId && t.waitEvents == s.waitEvents
    requires t.messages == s.messages && t.inbox == s.inbox && t.polls == s.polls
    requires t.turnCount == s.turnCount && t.modelTurns == s.modelTurns && t.roundCount == s.roundCount
    requires SameMemory(cfg, s, t)
    ensures Quiet(cfg, env, s, t) && Good(cfg, t)
  {
    hide Went, Good;
    Moved(cfg, env, s, t);
    hide Faults, Answer;
  }

  /** The event's text, and its text and the end of its line. */
  lemma WrittenQuiet(cfg: Config, env: Env, s: State, e: Event)
    requires Good(cfg, s) && Writable(s.hist, e)
    ensures Quiet(cfg, env, s, s.Did(Wrote(e))) && e in Events(s.Did(Wrote(e)).hist)
    ensures Quiet(cfg, env, s, s.Did(Wrote(e)).Did(Ended)) && e in Events(s.Did(Wrote(e)).Did(Ended).hist)
  {
    hide Quiet, Good, ReadBack, MaxAttempt, TookReply;
    var t := s.Did(Wrote(e));
    DidQuiet(cfg, env, s, Wrote(e));
    EventsSnoc(s.hist, Wrote(e));
    DidQuiet(cfg, env, t, Ended);
    EventsSnoc(t.hist, Ended);
    QuietTrans(cfg, env, s, t, t.Did(Ended));
  }

  lemma SaveQuiet(cfg: Config, env: Env, s: State)
    requires Good(cfg, s)
    ensures var t := SaveState(cfg, env, s).1; Quiet(cfg, env, s, t) && Good(cfg, t)
  {
    hide Quiet, Good;
    var t := s.(writes := s.writes + 1);
    MovedQuiet(cfg, env, s, s);
    MovedQuiet(cfg, env, s, t);
    DidQuiet(cfg, env, t, Scribbled);
    DidQuiet(cfg, env, t.Did(Scribbled), Ended);
    QuietTrans(cfg, env, s, t, t.Did(Scribbled));
    QuietTrans(cfg, env, s, t.Did(Scribbled), t.Did(Scribbled).Did(Ended));
    QuietIsGood(cfg, env, s, SaveState(cfg, env, s).1);
  }

  lemma AppendQuiet(cfg: Config, env: Env, s: State, e: Event)
    requires Good(cfg, s) && Writable(s.hist, e)
    ensures var (ok, t) := Append(env, s, e); Quiet(cfg, env, s, t) && Good(cfg, t) && (ok ==> e in Events(t.hist))
  {
    hide Quiet, Good, Writable, Events;
    var t := s.(writes := s.writes + 1);
    MovedQuiet(cfg, env, s, t);
    WrittenQuiet(cfg, env, t, e);
    DidQuiet(cfg, env, t, Scribbled);
    var u := Append(env, s, e).1;
    if u != t {
      assert Quiet(cfg, env, t, u);
      QuietTrans(cfg, env, s, t, u);
      QuietIsGood(cfg, env, s, u);
    }
  }

  lemma QuietIsGood(cfg: Config, env: Env, s: State, t: State)
    requires Quiet(cfg, env, s, t)
    ensures Good(cfg, t)
  {
  }

  lemma NoteQuiet(cfg: Config, env: Env, s: State, kind: string)
    requires Good(cfg, s)
    ensures Quiet(cfg, env, s, Note(cfg, env, s, kind)) && Good(cfg, Note(cfg, env, s, kind))
  {
    hide Quiet, Good;
    MovedQuiet(cfg, env, s, s);
    if cfg.hasStore {
      AppendQuiet(cfg, env, s, Other(kind));
    }
  }

  lemma HandCalm(cfg: Config, env: Env, s: State, m: Message, origin: Origin)
    requires Good(cfg, s) && Allowed(cfg, s.hist, Tried(m, origin))
    requires origin.Executing? && origin.permit.Some? ==> origin.permit.value < s.nextId
    requires cfg.hasStore && IsOutbox(m.msgType) ==> Announced(Events(s.hist), m)
    ensures var t := Hand(env, s, m, origin).1;
            Went(cfg, env, s, t) && Good(cfg, t) && Calm(s, t) && Tried(m, origin) in t.hist
  {
    hide Good, Went, Calm, Events, Announced, IsOutbox;
    var u := s.(sends := s.sends + 1, nextId := Above(s.nextId, m.cid));
    MovedQuiet(cfg, env, s, u);
    DidCalm(cfg, env, u, Tried(m, origin));
    var t := u.Did(Tried(m, origin));
    WentIsGood(cfg, env, u, t);
    Calmly(cfg, env, s, u, t);
    EventsSnoc(u.hist, Tried(m, origin));
    DidQuiet(cfg, env, t, Sent(m));
    Calmly(cfg, env, s, t, t.Did(Sent(m)));
    assert t.hist[|s.hist|] == Tried(m, origin) && t.Did(Sent(m)).hist[|s.hist|] == Tried(m, origin);
  }

  lemma SayWent(cfg: Config, env: Env, s: State, m: ModelMessage, why: Why)
    requires Good(cfg, s) && Justified(cfg, s.hist, m, why)
    ensures Went(cfg, env, s, Say(s, m, why)) && Good(cfg, Say(s, m, why))
    ensures Faults(Say(s, m, why).hist) == Faults(s.hist)
  {
    hide Justified, Good, Faults, Saids, Spoils, WritesMayFail, Attended, Recorded;
    var t := s.(messages := s.messages + [m]);
    SameGood(cfg, s, t);
    DidGood(cfg, t, Said(m, why));
    TallySnoc(s.hist, Said(m, why));
    NobodyStrayed(cfg, s, Say(s, m, why));
    NothingTaken(s, t);
    assert t.messages[|s.messages|..] == [m];
  }

  // ── Waiting ─────────────────────────────────────────────────────────

  ghost function ErrorOf<T>(r: Result<T, RunError>): Option<RunError> {
    if r.Ok? then None else Some(r.error)
  }

  /** What a result says about the fault behind it. */
  ghost predicate Blamed(s: State, e: Option<RunError>, t: State) {
    var before, after := Faults(s.hist), Faults(t.hist);
    match e
    case Some(Processor(_)) => after == before.(spoiled := before.spoiled + 1)
    case Some(Internal) => after == before.(closed := before.closed + 1)
    case Some(SnapshotFailed) => after == before || after == before.(unrecorded := before.unrecorded + 1)
    case Some(Panicked) => after == before.(panicked := before.panicked + 1)
    case _ => after == before
  }

  /** Neither a turn begun, nor anything said or handed to the bus. */
  ghost predicate Idle(s: State, t: State) {
    && t.messages == s.messages && t.turnCount == s.turnCount && t.modelTurns == s.modelTurns
    && t.roundCount == s.roundCount && SameTries(s.hist, t.hist)
  }

  lemma NoNewTries(h: History, a: Act)
    requires !a.Tried?
    ensures SameTries(h, h + [a])
  {
  }

  lemma TriesTrans(h: History, k: History, l: History)
    requires SameTries(h, k) && SameTries(k, l)
    ensures SameTries(h, l)
  {
  }

  lemma ReceivedRan(cfg: Config, env: Env, s: State, types: seq<string>)
    requires Good(cfg, s) && s.inbox != []
    ensures var t := Received(s, types);
            && Ran(cfg, env, s, t) && Good(cfg, t) && Idle(s, t) && Faults(t.hist) == Faults(s.hist)
            && (s.inbox[0].spoils ==>
                  Faults(s.hist).spoiled + Spoils(s.inbox) > Faults(t.hist).spoiled + Spoils(t.inbox))
  {
    hide Good, Faults, Saids, WritesMayFail, SameTries;
    var u := s.(polls := s.polls + 1, inbox := s.inbox[1..]);
    SameGood(cfg, s, u);
    DidGood(cfg, u, Took(s.inbox[0].msg, types));
    TallySnoc(s.hist, Took(s.inbox[0].msg, types));
    NoNewTries(s.hist, Took(s.inbox[0].msg, types));
    assert s.messages[|s.messages|..] == [];
  }

  lemma SpoiledWent(cfg: Config, env: Env, s: State, types: seq<string>)
    requires Good(cfg, s) && s.inbox != [] && s.inbox[0].spoils && s.inbox[0].msg.msgType in types
    ensures var t := Received(s, types).Did(Spoiled(s.inbox[0].msg));
            Went(cfg, env, s, t) && Good(cfg, t) && Idle(s, t) && Blamed(s, Some(Processor(s.inbox[0].msg.msgType)), t)
  {
    hide Good, Faults, Saids, Spoils, WritesMayFail, SameTries, Attended, Recorded;
    var m, u := s.inbox[0].msg, Received(s, types);
    ReceivedRan(cfg, env, s, types);
    DidGood(cfg, u, Spoiled(m));
    TallySnoc(u.hist, Spoiled(m));
    NoNewTries(s.hist, Took(m, types));
    NoNewTries(u.hist, Spoiled(m));
    TriesTrans(s.hist, u.hist, u.Did(Spoiled(m)).hist);
    assert s.messages[|s.messages|..] == [];
    NobodyStrayed(cfg, u, u.Did(Spoiled(m)));
    TakenAttended(cfg, s, types, u.Did(Spoiled(m)));
  }

  /** A message was taken that is no stray, and none after it. */
  lemma TakenAttended(cfg: Config, s: State, types: seq<string>, t: State)
    requires s.inbox != [] && !IsStray(s.inbox[0].msg, types, s.calls, cfg.capacity)
    requires Received(s, types).hist <= t.hist && Attended(cfg, Received(s, types), t)
    requires Faults(t.hist).panicked == Faults(s.hist).panicked == Faults(Received(s, types).hist).panicked
    ensures Attended(cfg, s, t)
  {
    hide Faults, Recorded, IsStray;
    assert t.hist[|s.hist|] == Received(s, types).hist[|s.hist|] == Took(s.inbox[0].msg, types);
  }

  lemma ClosedFaults(cfg: Config, env: Env, s: State, t: State)
    requires s.inbox == [] && !Poll(env, s).0 && t.inbox == [] && t.hist == s.hist + [Closed]
    ensures Faulted(cfg, env, s, t) && Blamed(s, Some(Internal), t)
  {
    hide Spoils, WritesMayFail;
    TallySnoc(s.hist, Closed);
    hide Faults;
  }

  lemma AlwaysAllowed(cfg: Config, h: History, a: Act)
    requires a.Closed? || a.Took? || a.Spoiled? || a.Unwound? || a.Unrecorded?
    ensures Allowed(cfg, h, a)
  {
  }

  lemma ClosedWent(cfg: Config, env: Env, s: State)
    requires Good(cfg, s) && s.inbox == [] && !Poll(env, s).0
    ensures var t := Poll(env, s).1.Did(Closed);
            Went(cfg, env, s, t) && Good(cfg, t) && Idle(s, t) && Blamed(s, Some(Internal), t)
  {
    hide Good, Faulted, Saids, Faults, Blamed, SameTries, Allowed, Consumed, Spoken, Attended, Recorded;
    var u := Poll(env, s).1;
    SameGood(cfg, s, u);
    AlwaysAllowed(cfg, u.hist, Closed);
    DidGood(cfg, u, Closed);
    ClosedFaults(cfg, env, s, u.Did(Closed));
    TallySnoc(s.hist, Closed);
    NoNewTries(s.hist, Closed);
    NobodyStrayed(cfg, s, u.Did(Closed));
    NothingSaid(s, u.Did(Closed));
    NothingTaken(s, u.Did(Closed));
  }

  lemma TookReplyNow(s: State, types: seq<string>, cid: Uuid)
    requires s.inbox != [] && IsReplyType(s.inbox[0].msg.msgType) && s.inbox[0].msg.cid == Some(cid)
    ensures TookReply(Received(s, types).hist, cid)
  {
    var h := Received(s, types).hist;
    assert h[|s.hist|] == Took(s.inbox[0].msg, types) && h[|s.hist|] in h;
  }

  /** A duplicate reply is looked up, and that is all. */
  lemma DuplicateQuiet(cfg: Config, env: Env, s: State, m: Message)
    requires Good(cfg, s)
    ensures var (on, t) := Unexpected(cfg, env, s, m);
            && (on <==> IsDuplicate(m, s.calls, cfg.capacity)) && (on ==> Quiet(cfg, env, s, t) && Good(cfg, t))
  {
    hide Quiet, Good, Recorded, Recent, Append;
    var (on, t) := Unexpected(cfg, env, s, m);
    if on {
      RecordSnoc(s.calls, cfg.capacity, m.cid.value);
      MovedQuiet(cfg, env, s, t);
    }
  }

  lemma CountedQuiet(cfg: Config, env: Env, s: State, m: Message, cid: Uuid)
    requires Good(cfg, s) && (m.msgType == PEER_REPLY ==> TookReply(s.hist, cid))
    ensures Quiet(cfg, env, s, Counted(cfg, env, s, m, cid)) && Good(cfg, Counted(cfg, env, s, m, cid))
  {
    hide Quiet, Good, TookReply;
    MovedQuiet(cfg, env, s, s);
    if m.msgType == PEER_REPLY && cfg.hasStore {
      AppendQuiet(cfg, env, s, InboundReply(PEER_REPLY, cid, m.from, Null));
    }
  }

  /** The wait event stays after a failing processor, a closed handle or a panic, and is gone otherwise. */
  ghost predicate EventSettled(e: WaitEvent, error: Option<RunError>, s: State, t: State) {
    t.waitEvents == if error.Some? && Leaks(error.value) then s.waitEvents else Without(s.waitEvents, e.id)
  }

  ghost predicate Leaks(error: RunError) {
    error.Internal? || error.Processor? || error.Panicked?
  }

  /** How sending and waiting can fail. */
  ghost predicate IsWaitError(error: Option<RunError>) {
    error.Some? ==> Leaks(error.value) || error.value == Stopped || error.value == BusError
  }

  ghost function TurnError(turn: WaitTurn): Option<RunError> {
    if turn.Over? then ErrorOf(turn.result) else None
  }

  lemma UnregisteredWent(cfg: Config, env: Env, s: State, t: State, e: WaitEvent)
    requires Went(cfg, env, s, t)
    ensures Went(cfg, env, s, Unregister(t, e)) && Good(cfg, Unregister(t, e))
  {
    hide Sound, Faults, Saids, Spoils;
  }

  lemma ReceivedThen(cfg: Config, env: Env, s: State, types: seq<string>, t: State)
    requires Good(cfg, s) && s.inbox != [] && Quiet(cfg, env, Received(s, types), t)
    requires !IsStray(s.inbox[0].msg, types, s.calls, cfg.capacity)
    ensures Went(cfg, env, s, t) && Idle(s, t) && Faults(t.hist) == Faults(s.hist) && t.waitEvents == s.waitEvents
  {
    hide Good, Ran, Faults, Spoils, Answer, Attended, IsStray;
    ReceivedRan(cfg, env, s, types);
    RanTrans(cfg, env, s, Received(s, types), t);
    RanGrows(cfg, env, Received(s, types), t);
    TakenAttended(cfg, s, types, t);
  }

  lemma RanGrows(cfg: Config, env: Env, s: State, t: State)
    requires Ran(cfg, env, s, t)
    ensures s.hist <= t.hist && s.nextId <= t.nextId && Good(cfg, t)
  {
    hide Good, Consumed, Faulted, Spoken;
  }

  lemma DidUnwound(cfg: Config, env: Env, s: State, m: Message)
    requires Good(cfg, s)
    ensures var t := s.Did(Unwound(m));
            Ran(cfg, env, s, t) && SameTries(s.hist, t.hist) && Blamed(s, Some(Panicked), t)
  {
    hide Good, Faults, Saids, Spoils, WritesMayFail, Consumed, Spoken, SameTries;
    DidGood(cfg, s, Unwound(m));
    TallySnoc(s.hist, Unwound(m));
    NoNewTries(s.hist, Unwound(m));
    NothingSaid(s, s.Did(Unwound(m)));
    NothingTaken(s, s.Did(Unwound(m)));
  }

  /** Looked up, recorded if there is a store: the state in which the run unwinds. */
  lemma UnwindingRan(cfg: Config, env: Env, s: State, m: Message)
    requires Good(cfg, s) && (IsReplyType(m.msgType) && m.cid.Some? ==> TookReply(s.hist, m.cid.value))
    requires !IsDuplicate(m, s.calls, cfg.capacity)
    ensures var t := Unexpected(cfg, env, s, m).1;
            Ran(cfg, env, s, t) && Idle(s, t) && Blamed(s, Some(Panicked), t) && t.waitEvents == s.waitEvents
  {
    hide Ran, Good, TookReply, IsDuplicate, IsReplyType, Append, Faults, Answer, Went;
    var reply := IsReplyType(m.msgType) && m.cid.Some?;
    var t := if reply then s.(calls := s.calls + [m.cid.value]) else s;
    MovedRan(cfg, env, s, t);
    var u := if reply && cfg.hasStore then Append(env, t, InboundReply(m.msgType, m.cid.value, m.from, m.payload)).1
        else t;
    assert Quiet(cfg, env, t, u) && Good(cfg, u) by {
      MovedQuiet(cfg, env, t, t);
      if u != t {
        AppendQuiet(cfg, env, t, InboundReply(m.msgType, m.cid.value, m.from, m.payload));
      }
    }
    assert Ran(cfg, env, t, u) by { WentIsRan(cfg, env, t, u); }
    DidUnwound(cfg, env, u, m);
    RanTrans(cfg, env, s, t, u);
    RanTrans(cfg, env, s, u, u.Did(Unwound(m)));
  }

  lemma WentIsRan(cfg: Config, env: Env, s: State, t: State)
    requires Went(cfg, env, s, t)
    ensures Ran(cfg, env, s, t) && s.hist <= t.hist
  {
    hide Good, Consumed, Faulted, Spoken, Attended;
  }

  /** A stray message is taken, and the run unwinds. */
  lemma StrayWent(cfg: Config, env: Env, s: State, types: seq<string>)
    requires Good(cfg, s) && s.inbox != [] && IsStray(s.inbox[0].msg, types, s.calls, cfg.capacity)
    ensures var (on, t) := Unexpected(cfg, env, Received(s, types), s.inbox[0].msg);
            && !on && Went(cfg, env, s, t) && Idle(s, t) && Blamed(s, Some(Panicked), t)
            && t.waitEvents == s.waitEvents
  {
    hide Ran, Good, TookReply, IsReplyType, Unexpected, Faults, IsDuplicate, SameTries;
    var m, u := s.inbox[0].msg, Received(s, types);
    ReceivedRan(cfg, env, s, types);
    if IsReplyType(m.msgType) && m.cid.Some? {
      TookReplyNow(s, types, m.cid.value);
    }
    UnwindingRan(cfg, env, u, m);
    DuplicateQuiet(cfg, env, u, m);
    var t := Unexpected(cfg, env, u, m).1;
    RanTrans(cfg, env, s, u, t);
    RanGrows(cfg, env, u, t);
    TriesTrans(s.hist, u.hist, t.hist);
    assert t.hist[|s.hist|] == u.hist[|s.hist|] == Took(m, types);
  }

  /** The message just received is a duplicate, or goes past the event, or to the event. */
  lemma TookOne(cfg: Config, env: Env, s: State, types: seq<string>, cid: Uuid)
    requires Good(cfg, s) && s.inbox != []
    ensures var (m, u) := (s.inbox[0].msg, Received(s, types)); var (on, t) := Unexpected(cfg, env, u, m);
            && (on <==> IsDuplicate(m, s.calls, cfg.capacity)) && (on ==> Quiet(cfg, env, u, t))
            && Quiet(cfg, env, u, u) && (m.cid == Some(cid) ==> Quiet(cfg, env, u, Counted(cfg, env, u, m, cid)))
  {
    hide Good, Quiet, Unexpected, TookReply, IsDuplicate, Counted;
    var (m, u) := (s.inbox[0].msg, Received(s, types));
    ReceivedRan(cfg, env, s, types);
    MovedQuiet(cfg, env, u, u);
    DuplicateQuiet(cfg, env, u, m);
    if IsReplyType(m.msgType) && m.cid.Some? {
      TookReplyNow(s, types, m.cid.value);
    }
    if m.cid == Some(cid) {
      CountedQuiet(cfg, env, u, m, cid);
    }
  }

  lemma WaitOnceWent(cfg: Config, env: Env, s: State, e: WaitEvent, types: seq<string>, got: seq<Message>)
    requires Good(cfg, s)
    ensures var (turn, t) := WaitOnce(cfg, env, s, e, types, got);
            && Went(cfg, env, s, t) && Idle(s, t) && Blamed(s, TurnError(turn), t) && IsWaitError(TurnError(turn))
            && (turn.Still? ==> t.waitEvents == s.waitEvents)
            && (turn.Over? ==> EventSettled(e, TurnError(turn), s, t))
  {
    hide Good, Went, Quiet, Unexpected, Counted, Faults;
    var (turn, t) := WaitOnce(cfg, env, s, e, types, got);
    if Poll(env, s).0 {
      Moved(cfg, env, s, t);
    } else if s.inbox == [] {
      ClosedWent(cfg, env, s);
    } else {
      TookOne(cfg, env, s, types, e.cid);
      var m, u := s.inbox[0].msg, Received(s, types);
      if IsStray(m, types, s.calls, cfg.capacity) {
        StrayWent(cfg, env, s, types);
      } else if m.msgType in types && m.cid == Some(e.cid) && s.inbox[0].spoils {
        SpoiledWent(cfg, env, s, types);
      } else {
        var v := if m.msgType !in types then Unexpected(cfg, env, u, m).1
                 else if m.cid == Some(e.cid) then Counted(cfg, env, u, m, e.cid) else u;
        ReceivedThen(cfg, env, s, types, v);
        UnregisteredWent(cfg, env, s, v, e);
      }
    }
  }

  lemma IdleTrans(s: State, t: State, u: State)
    requires Idle(s, t) && Idle(t, u)
    ensures Idle(s, u)
  {
  }

  lemma {:induction false} WaitWent(cfg: Config, env: Env, s: State, e: WaitEvent, types: seq<string>,
                                    got: seq<Message>)
    requires Good(cfg, s)
    ensures var (r, t) := Wait(cfg, env, s, e, types, got);
            && Went(cfg, env, s, t) && Idle(s, t) && Blamed(s, ErrorOf(r), t) && IsWaitError(ErrorOf(r))
            && EventSettled(e, ErrorOf(r), s, t)
    decreases |s.inbox|
  {
    hide Good, Went, Idle, Faults, WaitOnce;
    WaitOnceWent(cfg, env, s, e, types, got);
    var (turn, t) := WaitOnce(cfg, env, s, e, types, got);
    if turn.Still? {
      WentIsGood(cfg, env, s, t);
      WaitWent(cfg, env, t, e, types, turn.got);
      WentTrans(cfg, env, s, t, Wait(cfg, env, t, e, types, turn.got).1);
      IdleTrans(s, t, Wait(cfg, env, t, e, types, turn.got).1);
    }
  }

  // ── The first answer ────────────────────────────────────────────────

  /** The answers so far, seen from the history. */
  ghost predicate Heard(h: History, ty: string, cid: Uuid, got: seq<Message>) {
    Asked(h, cid) && Answer(h, ty, cid) == if got == [] then None else Some(got[0])
  }

  lemma HeardGrows(h: History, k: History, ty: string, cid: Uuid, got: seq<Message>)
    requires Heard(h, ty, cid, got) && h <= k && SameAnswers(h, k)
    ensures Heard(k, ty, cid, got)
  {
    hide Answer;
    var a :| a in h && a.Tried? && a.msg.cid == Some(cid);
    assert a in k;
  }

  lemma HeardReceived(s: State, types: seq<string>, ty: string, cid: Uuid, got: seq<Message>)
    requires s.inbox != [] && Heard(s.hist, ty, cid, got)
    ensures var m := s.inbox[0].msg;
            Heard(Received(s, types).hist, ty, cid, if Counts(m, [ty], cid) then got + [m] else got)
  {
    AnswerSnoc(s.hist, Took(s.inbox[0].msg, types), ty, cid);
    hide Answer;
    var a :| a in s.hist && a.Tried? && a.msg.cid == Some(cid);
    assert a in Received(s, types).hist;
  }

  lemma WaitOnceHears(cfg: Config, env: Env, s: State, e: WaitEvent, ty: string, got: seq<Message>)
    requires Good(cfg, s) && Heard(s.hist, ty, e.cid, got)
    ensures var (turn, t) := WaitOnce(cfg, env, s, e, [ty], got);
            && (turn.Still? ==> Heard(t.hist, ty, e.cid, turn.got))
            && (turn.Over? && turn.result.Ok? ==>
                  turn.result.value != [] && Heard(t.hist, ty, e.cid, turn.result.value))
  {
    hide Good, Went, Unexpected, Counted, Heard, IsDuplicate;
    if !Poll(env, s).0 && s.inbox != [] {
      var (turn, t) := WaitOnce(cfg, env, s, e, [ty], got);
      var m, u := s.inbox[0].msg, Received(s, [ty]);
      TookOne(cfg, env, s, [ty], e.cid);
      HeardReceived(s, [ty], ty, e.cid, got);
      if turn.Over? && turn.result == Err(Panicked) {
      } else if !Counts(m, [ty], e.cid) {
        HeardGrows(u.hist, t.hist, ty, e.cid, got) by {
          if m.msgType != ty {
            QuietAnswers(cfg, env, u, t);
          }
        }
      } else {
        QuietAnswers(cfg, env, u, Counted(cfg, env, u, m, e.cid));
        HeardGrows(u.hist, Counted(cfg, env, u, m, e.cid).hist, ty, e.cid, got + [m]);
      }
    }
  }

  lemma QuietAnswers(cfg: Config, env: Env, s: State, t: State)
    requires Quiet(cfg, env, s, t)
    ensures s.hist <= t.hist && SameAnswers(s.hist, t.hist)
  {
    hide Good, Faults, Answer, Consumed, Faulted, Spoken, Attended;
  }

  /** What a successful wait for an id returns first is the first answer to it. */
  lemma {:induction false} WaitHears(cfg: Config, env: Env, s: State, e: WaitEvent, ty: string, got: seq<Message>)
    requires Good(cfg, s) && Heard(s.hist, ty, e.cid, got)
    ensures var (r, t) := Wait(cfg, env, s, e, [ty], got);
            r.Ok? ==> r.value != [] && Heard(t.hist, ty, e.cid, r.value)
    decreases |s.inbox|
  {
    hide Good, Went, Idle, Faults, WaitOnce, Heard;
    WaitOnceHears(cfg, env, s, e, ty, got);
    WaitOnceWent(cfg, env, s, e, [ty], got);
    var (turn, t) := WaitOnce(cfg, env, s, e, [ty], got);
    if turn.Still? {
      WentIsGood(cfg, env, s, t);
      WaitHears(cfg, env, t, e, ty, turn.got);
    }
  }

  // ── Requests ────────────────────────────────────────────────────────

  /** Went, with the books in balance and the result accounting for the fault. */
  ghost predicate Led(cfg: Config, env: Env, s: State, error: Option<RunError>, t: State) {
    Went(cfg, env, s, t) && Balanced(s, t) && Blamed(s, error, t)
  }

  ghost predicate Well(cfg: Config, s: State) {
    Good(cfg, s) && EventsBelow(s.waitEvents, s.nextId)
  }

  lemma LedIsWell(cfg: Config, env: Env, s: State, error: Option<RunError>, t: State)
    requires Led(cfg, env, s, error, t)
    ensures Well(cfg, t)
  {
    hide Good, Consumed, Faulted, Spoken, Attended, Faults, Blamed;
  }

  /** A piece without faults, then another. */
  lemma LedTrans(cfg: Config, env: Env, s: State, t: State, error: Option<RunError>, u: State)
    requires Led(cfg, env, s, None, t) && Led(cfg, env, t, error, u)
    ensures Led(cfg, env, s, error, u)
  {
    hide Went, Balanced, Faults;
    WentTrans(cfg, env, s, t, u);
    BalancedTrans(s, t, u);
  }

  /** An event registered, then settled as its wait ended. */
  lemma SettledBalances(cfg: Config, env: Env, s: State, s1: State, e: WaitEvent, error: Option<RunError>, t: State)
    requires Well(cfg, s) && e.id == s.nextId && s1.waitEvents == s.waitEvents + [e] && s1.hist == s.hist
    requires s1.nextId > e.id
    requires Went(cfg, env, s1, t) && Blamed(s1, error, t) && EventSettled(e, error, s1, t) && IsWaitError(error)
    ensures Balanced(s, t)
  {
    hide Good, Consumed, Faulted, Spoken, Attended, Faults;
    WithoutNew(s.waitEvents, e);
  }

  /** Handed to the bus since was at most this. */
  ghost predicate TriedOnly(h: History, a: Act, k: History) {
    forall x <- k :: x.Tried? ==> x in h || x == a
  }

  /** Neither a turn begun nor anything said. */
  ghost predicate Steady(s: State, t: State) {
    t.messages == s.messages && t.turnCount == s.turnCount && t.modelTurns == s.modelTurns
       && t.roundCount == s.roundCount
  }

  lemma HandOnly(env: Env, s: State, m: Message, origin: Origin)
    ensures TriedOnly(s.hist, Tried(m, origin), Hand(env, s, m, origin).1.hist)
  {
  }

  lemma FirstHeard(s: State, t: State, m: Message, origin: Origin, ty: string, cid: Uuid)
    requires !Asked(s.hist, cid) && m.cid == Some(cid) && Tried(m, origin) in t.hist && SameAnswers(s.hist, t.hist)
    ensures Heard(t.hist, ty, cid, [])
  {
    UnaskedUnanswered(s.hist, ty, cid);
    hide Answer;
  }

  lemma {:induction false} UnaskedUnanswered(h: History, ty: string, cid: Uuid)
    requires !Asked(h, cid)
    ensures Answer(h, ty, cid).None?
    decreases |h|
  {
    if h != [] {
      var front := h[..|h| - 1];
      assert forall a <- front :: a in h;
      UnaskedUnanswered(front, ty, cid);
    }
  }

  lemma AfterSendWent(cfg: Config, env: Env, s: State, sent: bool, e: WaitEvent, ty: string)
    requires Good(cfg, s)
    ensures var (r, t) := AfterSend(cfg, env, s, sent, e, ty);
            Went(cfg, env, s, t) && Idle(s, t) && Blamed(s, ErrorOf(r), t) && IsWaitError(ErrorOf(r))
               && EventSettled(e, ErrorOf(r), s, t)
  {
    hide Good, Went, Faults, Wait;
    if sent {
      WaitWent(cfg, env, s, e, [ty], []);
    } else {
      Moved(cfg, env, s, Unregister(s, e));
    }
  }

  lemma AfterSendHears(cfg: Config, env: Env, s: State, sent: bool, e: WaitEvent, ty: string)
    requires Good(cfg, s) && Heard(s.hist, ty, e.cid, [])
    ensures var (r, t) := AfterSend(cfg, env, s, sent, e, ty);
            r.Ok? ==> r.value != [] && Answer(t.hist, ty, e.cid) == Some(r.value[0])
  {
    hide Good, Heard, Wait;
    if sent {
      WaitHears(cfg, env, s, e, ty, []);
      var (r, t) := Wait(cfg, env, s, e, [ty], []);
      if r.Ok? {
        HeardIs(t.hist, ty, e.cid, r.value);
      }
    }
  }

  /** A request with a new id: the books balance, and a successful answer is the first to this id. */
  ghost predicate Requested(cfg: Config, env: Env, s: State, m: Message, origin: Origin, cid: Uuid,
                            r: Result<seq<Message>, RunError>, t: State)
  {
    && Led(cfg, env, s, ErrorOf(r), t) && Steady(s, t) && IsWaitError(ErrorOf(r))
    && Tried(m, origin) in t.hist && TriedOnly(s.hist, Tried(m, origin), t.hist)
    && (r.Ok? ==> r.value != [] && Answer(t.hist, ResponseTypeFor(m.msgType), cid) == Some(r.value[0]))
  }

  /** May this be sent next, under this id? */
  ghost predicate Sendable(cfg: Config, s: State, m: Message, origin: Origin, cid: Uuid) {
    && m.cid == Some(cid) && cid < s.nextId && !Asked(s.hist, cid)
    && Allowed(cfg, s.hist, Tried(m, origin)) && (origin.Executing? && origin.permit.Some? ==>
        origin.permit.value < s.nextId)
    && (cfg.hasStore && IsOutbox(m.msgType) ==> Announced(Events(s.hist), m))
  }

  lemma HandedLed(cfg: Config, env: Env, s: State, m: Message, origin: Origin, cid: Uuid, expected: nat)
    requires Well(cfg, s) && Sendable(cfg, s, m, origin, cid)
    ensures var (e, s1) := Register(s, cid, AllMembers, expected);
            var (sent, s2) := Hand(env, s1, m, origin);
            var (r, t) := AfterSend(cfg, env, s2, sent, e, ResponseTypeFor(m.msgType));
            Requested(cfg, env, s, m, origin, cid, r, t)
  {
    hide Good, Went, Faults, Heard, AfterSend, Allowed, Events, Announced, Asked, Answer, ResponseTypeFor, Hand;
    var (e, s1) := Register(s, cid, AllMembers, expected);
    var ty := ResponseTypeFor(m.msgType);
    Moved(cfg, env, s, s1);
    HandCalm(cfg, env, s1, m, origin);
    HandOnly(env, s1, m, origin);
    var (sent, s2) := Hand(env, s1, m, origin);
    FirstHeard(s1, s2, m, origin, ty, cid);
    AfterSendWent(cfg, env, s2, sent, e, ty);
    AfterSendHears(cfg, env, s2, sent, e, ty);
    var (r, t) := AfterSend(cfg, env, s2, sent, e, ty);
    WentTrans(cfg, env, s1, s2, t);
    SettledBalances(cfg, env, s, s1, e, ErrorOf(r), t);
    WentTrans(cfg, env, s, s1, t);
    WentGrows(cfg, env, s2, t);
  }

  lemma HeardIs(h: History, ty: string, cid: Uuid, got: seq<Message>)
    requires Heard(h, ty, cid, got) && got != []
    ensures Answer(h, ty, cid) == Some(got[0])
  {
    hide Answer, Asked;
  }

  lemma WentGrows(cfg: Config, env: Env, s: State, t: State)
    requires Went(cfg, env, s, t)
    ensures s.hist <= t.hist && s.nextId <= t.nextId
  {
    hide Good, Consumed, Faulted, Spoken, Attended;
  }
}
