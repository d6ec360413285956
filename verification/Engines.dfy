/** The engine itself: fields updated step by step, each method proved to do what `Runs` says. */
module Engines {
  import opened Wrappers
  import opened Messages
  import opened Dedup
  import opened Discovery
  import opened Outbox
  import opened Conversation
  import opened Histories
  import opened Runs
  import opened Stages
  import opened Cancels
  import opened RunLaws
  import opened TurnLaws
  import opened Waits
  import opened RunTheorems
  import opened Checkpoints
  import opened Restarts

  lemma {:induction false} RecordedSame(cids: seq<Uuid>, capacity: nat)
    ensures Recorded(cids, AtLeastOne(capacity)) == Recorded(cids, capacity)
    decreases |cids|
  {
    if cids != [] {
      RecordedSame(cids[..|cids| - 1], capacity);
    }
  }

  class Engine {
    const cfg: Config
    const dedup: InboundDedupCache
    const cache: DiscoveryCache

    var messages: seq<ModelMessage>
    var turnCount: nat
    var roundCount: nat
    var waitEvents: seq<WaitEvent>
    /** What the bus handle will still deliver before it closes. */
    var inbox: seq<Incoming>
    var nextId: Uuid
    /** The session's log file. */
    var file: LogFile
    /** Everything done so far. */
    ghost var hist: History
    /** How often the environment was asked so far. */
    var polls: nat
    var sends: nat
    var writes: nat
    var checks: nat
    var modelTurns: nat

    ghost predicate Valid()
      reads this, dedup, cache
    {
      && dedup.Valid() && dedup.capacity == AtLeastOne(cfg.capacity)
      && file == FileOf(hist)
    }

    /** The state as `Runs` sees it. */
    ghost function Now(): State
      reads this, dedup, cache
    {
      State(messages, turnCount, roundCount, waitEvents, inbox, nextId, hist, dedup.calls, cache.cached,
            polls, sends, writes, checks, modelTurns)
    }

    /** A process on what an earlier one left behind, with ids that one did not use. */
    constructor (cfg: Config, messages: seq<ModelMessage>, inbox: seq<Incoming>, nextId: Uuid, file: LogFile,
                 ghost hist: History)
      requires file == FileOf(hist)
      ensures Valid() && this.cfg == cfg && fresh(dedup) && fresh(cache)
      ensures Now() == State(messages, 0, 0, [], inbox, nextId, hist, [], map[], 0, 0, 0, 0, 0)
      ensures Sound(cfg, hist) && UsedBelow(hist, nextId) ==> Well(cfg, Now())
    {
      this.cfg, this.messages, this.inbox, this.nextId, this.file, this.hist := cfg, messages, inbox, nextId, file,
          hist;
      turnCount, roundCount, waitEvents := 0, 0, [];
      polls, sends, writes, checks, modelTurns := 0, 0, 0, 0, 0;
      dedup := new InboundDedupCache(cfg.capacity);
      cache := new DiscoveryCache();
    }

    // ── Single acts ───────────────────────────────────────────────────

    method IsCancelled(env: Env) returns (stop: bool)
      requires Valid()
      modifies this`polls
      ensures Valid() && (stop, Now()) == Poll(env, old(Now()))
    {
      stop := env.cancelAt.Some? && polls >= env.cancelAt.value;
      polls := polls + 1;
    }

    method FreshId() returns (cid: Uuid)
      requires Valid()
      modifies this`nextId
      ensures Valid() && (cid, Now()) == Fresh(old(Now()))
    {
      cid := nextId;
      nextId := nextId + 1;
    }

    /** Text, end of line, sync. */
    method AppendLine(env: Env, piece: Option<Event>) returns (ok: bool)
      requires Valid()
      modifies this`file, this`hist, this`writes
      ensures Valid()
      ensures (ok, Now()) == WriteLine(env, old(Now()), match piece case Some(e) => Wrote(e) case None => Scribbled)
    {
      hide FileOf;
      var outcome := env.writes(writes).outcome;
      writes := writes + 1;
      if outcome == Lost {
        return false;
      }
      WritePiece(if outcome == Torn then None else piece);
      if outcome == Torn || outcome == Unterminated {
        return false;
      }
      EndLine();
      ok := outcome == Done;
    }

    method AppendEvent(env: Env, e: Event) returns (ok: bool)
      requires Valid()
      modifies this`file, this`hist, this`writes
      ensures Valid() && (ok, Now()) == Append(env, old(Now()), e)
    {
      hide FileOf, WriteLine;
      ok := AppendLine(env, Some(e));
    }

    /** A snapshot of the conversation goes to the same file. */
    method TakeSnapshot(env: Env) returns (ok: bool)
      requires Valid()
      modifies this`file, this`hist, this`writes
      ensures Valid() && (ok, Now()) == SaveState(cfg, env, old(Now()))
    {
      hide FileOf, WriteLine;
      ok := true;
      if cfg.hasStore {
        ok := AppendLine(env, None);
      }
    }

    method WritePiece(piece: Option<Event>)
      requires Valid()
      modifies this`file, this`hist
      ensures Valid() && hist == old(hist) + [match piece case Some(e) => Wrote(e) case None => Scribbled]
    {
      ghost var act := match piece case Some(e) => Wrote(e) case None => Scribbled;
      assert (hist + [act])[..|hist|] == hist;
      file := file[..|file| - 1] + [file[|file| - 1] + [piece]];
      hist := hist + [act];
    }

    method EndLine()
      requires Valid()
      modifies this`file, this`hist
      ensures Valid() && hist == old(hist) + [Ended]
    {
      assert (hist + [Ended])[..|hist|] == hist;
      file := file + [[]];
      hist := hist + [Ended];
    }

    /** An act that leaves the log file alone. */
    ghost method Do(act: Act)
      requires Valid() && !act.Wrote? && !act.Scribbled? && !act.Ended?
      modifies this`hist
      ensures Valid() && hist == old(hist) + [act]
    {
      assert (hist + [act])[..|hist|] == hist;
      hist := hist + [act];
    }

    method NoteEvent(env: Env, kind: string)
      requires Valid()
      modifies this`file, this`hist, this`writes
      ensures Valid() && Now() == Note(cfg, env, old(Now()), kind)
    {
      if cfg.hasStore {
        var _ := AppendEvent(env, Other(kind));
      }
    }

    method Send(env: Env, m: Message, ghost origin: Origin) returns (ok: bool)
      requires Valid()
      modifies this`hist, this`sends, this`nextId
      ensures Valid() && (ok, Now()) == Hand(env, old(Now()), m, origin)
    {
      hide FileOf;
      var delivery := env.sends(sends);
      Do(Tried(m, origin));
      sends, nextId := sends + 1, Above(nextId, m.cid);
      if delivery != Refused {
        Do(Sent(m));
      }
      ok := delivery == Taken;
    }

    method Push(m: ModelMessage, ghost why: Why)
      requires Valid()
      modifies this`messages, this`hist
      ensures Valid() && Now() == Say(old(Now()), m, why)
    {
      messages := messages + [m];
      Do(Said(m, why));
    }

    method RegisterEvent(cid: Uuid, strategy: WaitStrategy, expected: nat) returns (e: WaitEvent)
      requires Valid()
      modifies this`waitEvents, this`nextId
      ensures Valid() && (e, Now()) == Register(old(Now()), cid, strategy, expected)
    {
      e := WaitEvent(nextId, cid, strategy, expected);
      waitEvents, nextId := waitEvents + [e], nextId + 1;
    }

    /** `wait_events.retain(..)` */
    method UnregisterEvent(e: WaitEvent)
      requires Valid()
      modifies this`waitEvents
      ensures Valid() && Now() == Unregister(old(Now()), e)
    {
      waitEvents := Without(waitEvents, e.id);
    }

    // ── Waiting ───────────────────────────────────────────────────────

    /** Drops a duplicate reply and goes on; on the way to the handlers with anything else, the run unwinds. */
    method HandleUnexpected(env: Env, m: Message) returns (on: bool)
      requires Valid()
      modifies this`file, this`hist, this`writes, dedup
      ensures Valid() && (on, Now()) == Unexpected(cfg, env, old(Now()), m)
      ensures env.writes(old(writes)).outcome == Done ==> RecordsUnexpected(cfg, old(Now()), m, Now())
    {
      if env.writes(writes).outcome == Done {
        UnexpectedWrites(cfg, env, Now(), m);
      }
      hide RecordsUnexpected;
      on := false;
      if IsReplyType(m.msgType) && m.cid.Some? {
        RecordedSame(dedup.calls, cfg.capacity);
        var duplicate := dedup.CheckAndRecord(m.cid.value);
        if duplicate {
          return true;
        }
        if cfg.hasStore {
          var _ := AppendEvent(env, InboundReply(m.msgType, m.cid.value, m.from, m.payload));
        }
      }
      Do(Unwound(m));
    }

    /**
     * Waits for an event. Success returns the counted responses, in order, of the shortest stretch of input that
     * holds enough of them. A message of a type not awaited, if it is no duplicate reply, makes the run panic, and
     * nothing else does. A failing processor, a closed handle and a panic leave the event registered, everything else
     * removes it.
     */
    method WaitForStrategy(env: Env, e: WaitEvent, types: seq<string>) returns (r: Result<seq<Message>, RunError>)
      requires Valid()
      modifies this, dedup
      ensures Valid() && (r, Now()) == Wait(cfg, env, old(Now()), e, types, [])
      ensures |inbox| <= |old(inbox)| && inbox == old(inbox)[|old(inbox)| - |inbox|..]
      ensures var taken := TakenFrom(old(Now()), Now());
              && EndsOn(taken, types, e, r) && SpoiledLast(old(Now()), r, Now()) && (r == Err(Internal) ==> inbox == [])
              && (r.Ok? ==> Suffices(e, |r.value|) && Harvested(taken, types, e.cid, |r.value|, r.value))
              && PanicsOnStray(taken, types, old(dedup.calls), cfg.capacity, r)
              && (r == Err(Panicked) <==> exists m <- taken :: IsStray(m, types, old(dedup.calls), cfg.capacity))
              && dedup.calls == old(dedup.calls) + ReplyIds(taken, types)
      ensures Well(cfg, old(Now())) ==> EventSettled(e, ErrorOf(r), old(Now()), Now())
    {
      hide Wait, EndsOn, SpoiledLast, ReplyIds, PanicsOnStray, IsStray, Good, EventsBelow, Went, Blamed, Idle,
        Harvested, Suffices;
      ghost var before := Now();
      WaitIsShortest(cfg, env, before, e, types);
      WaitPanicsIff(cfg, env, before, e, types);
      if Well(cfg, before) {
        WaitWent(cfg, env, before, e, types, []);
      }
      r := ReceiveUntil(env, e, types);
    }

    /** Receives until the event triggers, the run is cancelled or unwinds, the handle closes, or a processor fails. */
    method ReceiveUntil(env: Env, e: WaitEvent, types: seq<string>) returns (r: Result<seq<Message>, RunError>)
      requires Valid()
      modifies this, dedup
      ensures Valid() && (r, Now()) == Wait(cfg, env, old(Now()), e, types, [])
    {
      hide FileOf;
      ghost var whole := Wait(cfg, env, Now(), e, types, []);
      var received: seq<Message> := [];
      while true
        invariant Valid() && whole == Wait(cfg, env, Now(), e, types, received)
        decreases |inbox|
      {
        var stop := IsCancelled(env);
        if stop {
          UnregisterEvent(e);
          return Err(Stopped);
        }
        if inbox == [] {
          Do(Closed);
          return Err(Internal);
        }
        var next := inbox[0];
        inbox := inbox[1..];
        Do(Took(next.msg, types));
        if next.msg.msgType !in types {
          var on := HandleUnexpected(env, next.msg);
          if !on {
            return Err(Panicked);
          }
        } else if next.msg.cid == Some(e.cid) {
          if next.spoils {
            Do(Spoiled(next.msg));
            return Err(Processor(next.msg.msgType));
          }
          if next.msg.msgType == PEER_REPLY && cfg.hasStore {
            var _ := AppendEvent(env, InboundReply(PEER_REPLY, e.cid, next.msg.from, Null));
          }
          received := received + [next.msg];
          if Triggered(e, |received|) {
            UnregisterEvent(e);
            return Ok(received);
          }
        }
      }
    }

    // ── Requests ──────────────────────────────────────────────────────

    method AwaitSent(env: Env, sent: bool, e: WaitEvent, responseType: string)
      returns (r: Result<seq<Message>, RunError>)
      requires Valid()
      modifies this, dedup
      ensures Valid() && (r, Now()) == AfterSend(cfg, env, old(Now()), sent, e, responseType)
    {
      hide FileOf, Wait;
      if !sent {
        UnregisterEvent(e);
        return Err(BusError);
      }
      r := WaitForStrategy(env, e, [responseType]);
    }

    method SendRegisteredRequest(env: Env, m: Message, ghost origin: Origin, cid: Uuid)
      returns (r: Result<seq<Message>, RunError>)
      requires Valid()
      modifies this, dedup
      ensures Valid() && (r, Now()) == SendRegistered(cfg, env, old(Now()), m, origin, cid)
    {
      hide FileOf, AfterSend, Hand, Register;
      var e := RegisterEvent(cid, AllMembers, if m.to == [] then 1 else |m.to|);
      var sent := Send(env, m, origin);
      r := AwaitSent(env, sent, e, ResponseTypeFor(m.msgType));
    }

    /** For model and tool calls: the first response. */
    method SendAndAwaitOne(env: Env, m: Message, ghost origin: Origin, cid: Uuid) returns (r: Result<Message, RunError>)
      requires Valid()
      modifies this, dedup
      ensures Valid() && (r, Now()) == SendAndAwait(cfg, env, old(Now()), m, origin, cid)
      ensures Well(cfg, old(Now())) && Sendable(cfg, old(Now()), m, origin, cid) ==>
                Awaited(cfg, env, old(Now()), m, origin, cid, r, Now())
      ensures IsSet(env, old(Now())) ==> r == Err(Stopped) && OnlyLooked(old(Now()), Now())
    {
      hide FileOf, SendRegistered, Well, Sendable, Awaited;
      if Well(cfg, Now()) && Sendable(cfg, Now(), m, origin, cid) {
        SendAndAwaitLed(cfg, env, Now(), m, origin, cid);
      }
      var stop := IsCancelled(env);
      if stop {
        return Err(Stopped);
      }
      var responses := SendRegisteredRequest(env, m, origin, cid);
      match responses {
        case Err(e) => return Err(e);
        case Ok(ms) => return if ms == [] then Err(Internal) else Ok(ms[0]);
      }
    }

    // ── Tool turns ────────────────────────────────────────────────────

    /** Broadcasts a request; only an explicit `allow: true` in the first answer grants it. */
    method AskPermission(env: Env, call: ToolCall) returns (granted: Result<bool, RunError>, cid: Uuid)
      requires Valid()
      modifies this, dedup
      ensures Valid() && (granted, cid, Now()) == RequestPermission(cfg, env, old(Now()), call)
      ensures Well(cfg, old(Now())) ==> Decreed(cfg, env, old(Now()), call, granted, cid, Now())
    {
      hide FileOf, SendRegistered, Well, Decreed;
      if Well(cfg, Now()) {
        PermissionLed(cfg, env, Now(), call);
      }
      cid := FreshId();
      var responses := SendRegisteredRequest(env, PermissionRequest(cfg, call, cid), Requesting(call), cid);
      match responses {
        case Err(e) => granted := Err(e);
        case Ok(ms) => granted := if ms == [] then Err(Internal) else Ok(SaysAllow(ms[0]));
      }
    }

    method AnswerCall(env: Env, call: ToolCall, text: string, ghost why: Why)
      requires Valid()
      modifies this
      ensures Valid() && Now() == Note(cfg, env, Say(old(Now()), ToolReply(call, text), why), "tool_call_end")
    {
      hide FileOf;
      Push(ToolReply(call, text), why);
      NoteEvent(env, "tool_call_end");
    }

    /** The permission of a call: it passes, or it is settled without being executed. */
    method CheckPermission(env: Env, call: ToolCall) returns (verdict: Verdict)
      requires Valid()
      modifies this, dedup
      ensures Valid() && (verdict, Now()) == Gate(cfg, env, old(Now()), call)
      ensures Well(cfg, old(Now())) ==> Gated(cfg, env, old(Now()), call, verdict, Now())
    {
      hide FileOf, RequestPermission, Note, Say, Well, Decreed, Gated, LookupPermission;
      if Well(cfg, Now()) {
        GateLed(cfg, env, Now(), call);
      }
      match LookupPermission(cfg.permissions, call.name) {
        case Allow =>
          verdict := Passed(None);
        case Deny =>
          AnswerCall(env, call, DENIED + call.name, ByPolicy(call));
          verdict := Decided(Ok(Denied(DENIED + call.name)));
        case Ask =>
          var granted, cid := AskPermission(env, call);
          if granted.Err? {
            return Decided(Err(granted.error));
          }
          if granted.value {
            return Passed(Some(cid));
          }
          AnswerCall(env, call, REFUSED + call.name, ByRefusal(call, cid));
          verdict := Decided(Ok(Denied(REFUSED + call.name)));
      }
    }

    /** Sends an allowed call to its node and appends the answer. */
    method ExecuteCall(env: Env, call: ToolCall, ghost permit: Option<Uuid>) returns (r: Result<Json, RunError>)
      requires Valid()
      modifies this, dedup
      ensures Valid() && (r, Now()) == ExecuteTool(cfg, env, old(Now()), call, permit)
      ensures Executable(cfg, old(Now()), call, permit) ==> Carried(cfg, env, old(Now()), call, r, Now())
    {
      hide FileOf, SendAndAwait, Note, Say, Well, Sendable, Awaited, Executable, Carried;
      if Executable(cfg, Now(), call, permit) {
        ExecuteLed(cfg, env, Now(), call, permit);
      }
      var cid := FreshId();
      var response := SendAndAwaitOne(env, ToolExec(cfg, call, cid), Executing(call, permit), cid);
      match response {
        case Ok(m) =>
          AnswerCall(env, call, ToolContent(m.payload), ByTool(call, cid));
          r := Ok(m.payload);
        case Err(Stopped) =>
          AnswerCall(env, call, INTERRUPTED + call.name, ByCancel(call));
          r := Err(Stopped);
        case Err(Panicked) =>
          r := Err(Panicked);
        case Err(e) =>
          NoteEvent(env, "tool_call_end");
          r := Err(e);
      }
    }

    method DoToolTurn(env: Env, call: ToolCall) returns (r: Result<Json, RunError>)
      requires Valid()
      modifies this, dedup
      ensures Valid() && (r, Now()) == ToolTurn(cfg, env, old(Now()), call)
    {
      hide FileOf, Gate, ExecuteTool, Well, Gated, Executable, Carried;
      turnCount := turnCount + 1;
      var verdict := CheckPermission(env, call);
      match verdict {
        case Decided(result) => r := result;
        case Passed(permit) => r := ExecuteCall(env, call, permit);
      }
    }

    method DoBatchTurn(env: Env, call: ToolCall) returns (r: Result<Json, RunError>)
      requires Valid()
      modifies this, dedup
      ensures Valid() && (r, Now()) == BatchTurn(cfg, env, old(Now()), call)
      ensures Well(cfg, old(Now())) ==> Turned(cfg, env, old(Now()), call, r, Now())
    {
      hide FileOf, ToolTurn, Well, Turned;
      if Well(cfg, Now()) {
        BatchTurnLed(cfg, env, Now(), call);
      }
      var stop := IsCancelled(env);
      if stop {
        Push(ToolReply(call, CANCELLED + call.name), ByCancel(call));
        return Err(Stopped);
      }
      r := DoToolTurn(env, call);
    }

    /**
     * Every call of a batch is dealt with, whatever fails, unless the run panics. If none fails exactly one answer
     * each was appended, in call order; and however it ends, as many wait events are left registered as waits left
     * one. A batch begun after a cancellation only answers its calls as cancelled.
     */
    method DoToolTurns(env: Env, calls: seq<ToolCall>) returns (results: seq<Result<Json, RunError>>)
      requires Valid()
      modifies this, dedup
      ensures Valid() && (results, Now()) == ToolTurns(cfg, env, old(Now()), calls, 0, [])
      ensures |results| <= |calls| && (Err(Panicked) !in results ==> |results| == |calls|)
      ensures Well(cfg, old(Now())) ==> Batched(cfg, env, old(Now()), calls, BatchError(results), Now())
      ensures IsSet(env, old(Now())) ==>
                OnlyCancelled(old(Now()), calls, Now()) && forall k :: 0 <= k < |results| ==> results[k] == Err(Stopped)
    {
      hide ToolTurns, Batched, Well, IsSet, OnlyCancelled;
      ghost var before := Now();
      ghost var all := ToolTurns(cfg, env, before, calls, 0, []).0;
      assert all[0..] == all && calls[0..] == calls;
      if Well(cfg, before) {
        ToolTurnsLed(cfg, env, before, calls, 0, []);
      }
      if IsSet(env, before) {
        CancelledBatch(cfg, env, before, calls, 0, []);
      }
      results := TurnAll(env, calls);
    }

    /** The whole batch, call after call. */
    method TurnAll(env: Env, calls: seq<ToolCall>) returns (results: seq<Result<Json, RunError>>)
      requires Valid()
      modifies this, dedup
      ensures Valid() && (results, Now()) == ToolTurns(cfg, env, old(Now()), calls, 0, [])
    {
      hide FileOf, BatchTurn, Well, Turned;
      ghost var whole := ToolTurns(cfg, env, Now(), calls, 0, []);
      results := [];
      for i := 0 to |calls|
        invariant Valid() && whole == ToolTurns(cfg, env, Now(), calls, i, results)
      {
        var r := DoBatchTurn(env, calls[i]);
        results := results + [r];
        if r == Err(Panicked) {
          return;
        }
      }
    }

    // ── Checkpoints ───────────────────────────────────────────────────

    /** Records a message before it is sent. */
    method MaybeRecordOutbound(env: Env, m: Message, cid: Uuid) returns (ok: bool)
      requires Valid()
      modifies this
      ensures Valid() && (ok, Now()) == RecordOutbound(cfg, env, old(Now()), m, cid)
    {
      hide FileOf, Append;
      if !cfg.hasStore {
        return true;
      }
      ok := AppendEvent(env, OutboundSent(m.msgType, cid, 1, m.to, m.payload, env.writes(writes).at));
    }

    method PublishAndAwaitQuery(env: Env, ghost trigger: string, d: CheckpointMsg)
      returns (r: Result<seq<Message>, RunError>)
      requires Valid()
      modifies this, dedup
      ensures Valid() && (r, Now()) == Query(cfg, env, old(Now()), trigger, d)
      ensures Well(cfg, old(Now())) ==> LeftByQuery(old(Now()), ErrorOf(r), Now())
      ensures r.Ok? ==> QueryAnswered(old(Now()), d, r.value, Now())
      ensures IsSet(env, old(Now())) ==> r == Err(Stopped) && OnlyLooked(old(Now()), Now())
    {
      hide FileOf, AfterSend, RecordOutbound, Hand, Well, LeftByQuery, Led, QueryAnswered;
      QueryAnswers(cfg, env, Now(), trigger, d);
      if Well(cfg, Now()) {
        QueryLed(cfg, env, Now(), trigger, d);
      }
      var stop := IsCancelled(env);
      if stop {
        return Err(Stopped);
      }
      var e := RegisterEvent(d.rule.cid, AllMembers, if d.recipients == [] then 1 else |d.recipients|);
      var recorded := MaybeRecordOutbound(env, MessageOf(cfg, d), d.rule.cid);
      if !recorded {
        Do(Unrecorded);
        return Err(SnapshotFailed);
      }
      var sent := Send(env, MessageOf(cfg, d), Dispatching(trigger));
      r := AwaitSent(env, sent, e, ResponseTypeFor(d.rule.msgType));
    }

    method PublishOnlyCommand(env: Env, m: Message, cid: Uuid, ghost origin: Origin) returns (r: Result<(), RunError>)
      requires Valid()
      modifies this
      ensures Valid() && (r, Now()) == Command(cfg, env, old(Now()), m, cid, origin)
    {
      hide FileOf, RecordOutbound, Hand;
      var recorded := MaybeRecordOutbound(env, m, cid);
      if !recorded {
        return Err(SnapshotFailed);
      }
      var sent := Send(env, m, origin);
      r := if sent then Ok(()) else Err(BusError);
    }

    method DispatchMessage(env: Env, ghost trigger: string, d: CheckpointMsg) returns (r: Result<(), RunError>)
      requires Valid()
      modifies this, dedup
      ensures Valid() && (r, Now()) == DispatchOne(cfg, env, old(Now()), trigger, d)
    {
      hide FileOf, Query, Command, Well, LeftByQuery, QueryAnswered;
      if d.rule.query {
        var answers := PublishAndAwaitQuery(env, trigger, d);
        r := match answers case Ok(_) => Ok(()) case Err(e) => Err(e);
      } else {
        r := PublishOnlyCommand(env, MessageOf(cfg, d), d.rule.cid, Dispatching(trigger));
      }
    }

    /** The messages of one checkpoint, up to the first failure. */
    method DispatchMessages(env: Env, ghost trigger: string, built: seq<CheckpointMsg>)
      returns (r: Result<(), RunError>)
      requires Valid()
      modifies this, dedup
      ensures Valid() && (r, Now()) == DispatchAll(cfg, env, old(Now()), trigger, built, 0)
    {
      hide FileOf, DispatchOne;
      ghost var whole := DispatchAll(cfg, env, Now(), trigger, built, 0);
      for i := 0 to |built|
        invariant Valid() && whole == DispatchAll(cfg, env, Now(), trigger, built, i)
      {
        r := DispatchMessage(env, trigger, built[i]);
        if r.Err? {
          return;
        }
      }
      r := Ok(());
    }

    /** The rules' verdicts, routed, and dispatched. */
    method ConsultRules(env: Env, trigger: string) returns (r: Result<(), RunError>)
      requires Valid()
      modifies this, dedup, cache
      ensures Valid() && (r, Now()) == Consult(cfg, env, old(Now()), trigger)
    {
      hide FileOf, DispatchAll, Evaluated;
      var input := env.checks(checks);
      checks := checks + 1;
      if input.invalidated {
        cache.Invalidate();
      }
      var built := Evaluate(trigger, input.rules, cfg.routes, input.nodes, cache);
      Do(Consulted(trigger));
      match built {
        case Err(e) => r := Err(UndeclaredType(e.msgType));
        case Ok(msgs) => r := DispatchMessages(env, trigger, msgs);
      }
    }

    /** Snapshot, rules, messages. */
    method EvaluateAndDispatch(env: Env, trigger: string) returns (r: Result<(), RunError>)
      requires Valid()
      modifies this, dedup, cache
      ensures Valid() && (r, Now()) == Check(cfg, env, old(Now()), trigger)
      ensures Well(cfg, old(Now())) ==> Checked(cfg, env, old(Now()), ErrorOf(r), Now())
      ensures Dispatches(cfg, env, old(Now()), trigger, r, Now())
      ensures IsSet(env, old(Now())) ==> r == Err(Stopped) && OnlyLooked(old(Now()), Now())
    {
      hide FileOf, SaveState, Consult, Well, Checked, Dispatches;
      CheckSends(cfg, env, Now(), trigger);
      if Well(cfg, Now()) {
        CheckLed(cfg, env, Now(), trigger);
      }
      var stop := IsCancelled(env);
      if stop {
        return Err(Stopped);
      }
      var saved := TakeSnapshot(env);
      if !saved {
        return Err(SnapshotFailed);
      }
      r := ConsultRules(env, trigger);
    }

    // ── One pass ──────────────────────────────────────────────────────

    /** Counts the turn, then asks the model, unless a middleware aborts the call. */
    method DoModelTurn(env: Env) returns (r: Result<ModelAnswer, RunError>)
      requires Valid()
      modifies this, dedup
      ensures Valid() && (r, Now()) == ModelTurn(cfg, env, old(Now()))
      ensures Well(cfg, old(Now())) ==> Modelled(cfg, env, old(Now()), r, Now())
    {
      hide FileOf, SendAndAwait, Note, Say, ContentOf, CallsOf, Well, Sendable, Awaited, Modelled;
      if Well(cfg, Now()) {
        ModelTurnLed(cfg, env, Now());
      }
      var abort := env.aborts(modelTurns);
      turnCount, modelTurns := turnCount + 1, modelTurns + 1;
      if abort {
        return Ok(Aborted);
      }
      var cid := FreshId();
      var response := SendAndAwaitOne(env, ModelCall(cfg, cid), Asking, cid);
      if response.Err? {
        return Err(response.error);
      }
      var payload := response.value.payload;
      PushAnswer(env, payload, cid);
      r := Ok(Answered(ContentOf(payload), CallsOf(payload)));
    }

    method PushAnswer(env: Env, payload: Json, ghost cid: Uuid)
      requires Valid()
      modifies this
      ensures Valid()
      ensures var s := if payload.Get("usage").Some? then Note(cfg, env, old(Now()), "model_call_end") else old(Now());
              Now() == Say(s, Assistant(ContentOf(payload), CallsOf(payload)), ByModel(cid))
    {
      hide FileOf, Note, Say, ContentOf, CallsOf;
      if payload.Get("usage").Some? {
        NoteEvent(env, "model_call_end");
      }
      Push(Assistant(ContentOf(payload), CallsOf(payload)), ByModel(cid));
    }

    method BudgetSpent() returns (spent: bool)
      ensures spent == Spent(turnCount, cfg.maxTurns)
    {
      spent := turnCount % 0x1_0000_0000 >= cfg.maxTurns;
    }

    /** The first half of the loop's body. */
    method DoModelPhase(env: Env) returns (r: Result<ModelAnswer, RunError>)
      requires Valid()
      modifies this, dedup, cache
      ensures Valid() && (r, Now()) == ModelPhase(cfg, env, old(Now()))
      ensures IsSet(env, old(Now())) ==> r == Err(Stopped) && OnlyLooked(old(Now()), Now())
    {
      hide FileOf, Check, ModelTurn, AfterModel, Spent, Well, Checked, Modelled, Dispatches;
      var stop := IsCancelled(env);
      if stop {
        return Err(Stopped);
      }
      var spent := BudgetSpent();
      if spent {
        return Err(MaxTurnsExceeded);
      }
      var before := EvaluateAndDispatch(env, "before_model_call");
      if before.Err? {
        return Err(before.error);
      }
      spent := BudgetSpent();
      if spent {
        return Err(MaxTurnsExceeded);
      }
      r := DoModelTurn(env);
      if r.Ok? {
        r := DoAfterModel(env, r.value);
      }
    }

    method DoAfterModel(env: Env, answer: ModelAnswer) returns (r: Result<ModelAnswer, RunError>)
      requires Valid()
      modifies this, dedup, cache
      ensures Valid() && (r, Now()) == AfterModel(cfg, env, old(Now()), answer)
      ensures IsSet(env, old(Now())) ==> r == Err(Stopped) && OnlyLooked(old(Now()), Now())
    {
      hide FileOf, Check, Spent, Well, Checked, Dispatches;
      var stop := IsCancelled(env);
      if stop {
        return Err(Stopped);
      }
      var after := EvaluateAndDispatch(env, "after_model_call");
      if after.Err? {
        return Err(after.error);
      }
      var spent := BudgetSpent();
      r := if spent then Err(MaxTurnsExceeded) else Ok(answer);
    }

    /** The second half, when the model asked for tools. */
    method DoToolPhase(env: Env, calls: seq<ToolCall>) returns (r: Option<RunError>)
      requires Valid()
      modifies this, dedup, cache
      ensures Valid() && (r, Now()) == ToolPhase(cfg, env, old(Now()), calls)
      ensures IsSet(env, old(Now())) ==> r == Some(Stopped) && OnlyLooked(old(Now()), Now())
    {
      hide FileOf, Check, ToolTurns, AfterTools, Batched, Well, Checked, Dispatches;
      var stop := IsCancelled(env);
      if stop {
        return Some(Stopped);
      }
      var before := EvaluateAndDispatch(env, "before_tool_exec");
      if before.Err? {
        return Some(before.error);
      }
      var results := DoToolTurns(env, calls);
      if Err(Panicked) in results {
        return Some(Panicked);
      }
      r := DoAfterTools(env, FirstError(results));
    }

    method DoAfterTools(env: Env, failure: Option<RunError>) returns (r: Option<RunError>)
      requires Valid()
      modifies this, dedup, cache
      ensures Valid() && (r, Now()) == AfterTools(cfg, env, old(Now()), failure)
    {
      hide FileOf, Check, Spent, Well, Checked, Dispatches;
      var after := EvaluateAndDispatch(env, "after_tool_exec");
      if after.Err? {
        return Some(after.error);
      }
      var spent := BudgetSpent();
      r := if failure.None? && spent then Some(MaxTurnsExceeded) else failure;
    }

    method DoEndRound(env: Env, content: string) returns (end: PassEnd)
      requires Valid()
      modifies this, dedup, cache
      ensures Valid() && (end, Now()) == EndRound(cfg, env, old(Now()), content)
    {
      hide FileOf, Check, Well, Checked, Dispatches;
      var r := EvaluateAndDispatch(env, "round_end");
      end := match r case Ok(_) => Finished(content) case Err(e) => Failed(e);
    }

    method DoPass(env: Env) returns (end: PassEnd)
      requires Valid()
      modifies this, dedup, cache
      ensures Valid() && (end, Now()) == Pass(cfg, env, old(Now()))
      ensures Well(cfg, old(Now())) ==> OnePass(cfg, env, old(Now()), end, Now())
      ensures IsSet(env, old(Now())) ==> end == Failed(Stopped) && OnlyLooked(old(Now()), Now())
    {
      hide FileOf, ModelPhase, EndRound, ToolPhase, Well, OnePass;
      if Well(cfg, Now()) {
        PassKept(cfg, env, Now());
      }
      var answer := DoModelPhase(env);
      match answer {
        case Err(e) =>
          end := Failed(e);
        case Ok(Aborted) =>
          end := DoEndRound(env, "");
        case Ok(Answered(content, calls)) =>
          if calls == [] {
            end := DoEndRound(env, content);
          } else {
            var stop := DoToolPhase(env, calls);
            end := match stop case Some(e) => Failed(e) case None => GoOn;
          }
      }
    }

    // ── Whole runs ────────────────────────────────────────────────────

    /**
     * A whole run. However it ends, the wait events are as before iff no wait ended with a failing processor, a
     * closed handle, an unrecorded query or a panic; and it panics iff a message it took was a stray. On success the
     * budget is not spent and the conversation grew by the user's message, full rounds and the final assistant
     * message. The checkpoints are consulted in their order, and what the run does stands between the right ones. It
     * reports that it was stopped iff it found the cancellation token set.
     */
    method RunInner(env: Env, input: string) returns (r: Result<string, RunError>, ghost rounds: seq<seq<ModelMessage>>)
      requires Valid()
      modifies this, dedup, cache
      ensures Valid() && (r, Now()) == Run(cfg, env, old(Now()), input)
      ensures Well(cfg, old(Now())) ==>
                && Well(cfg, Now()) && RestoredWhen(old(Now()), r, Now()) && WithinBudget(cfg, old(Now()), Now())
                && (r == Err(Panicked) <==> !Timely(cfg, old(Now()), Now()))
                && (r.Ok? ==>
                      Concluded(cfg, env, old(Now()).(messages := old(messages) + [User(input)]), rounds, r.value,
                          Now()))
                && (r == Err(MaxTurnsExceeded) ==> Spent(turnCount, cfg.maxTurns))
      ensures Spells(old(Now()), r.Ok?, Now())
      ensures !Noticed(env, old(Now())) ==> (r == Err(Stopped) <==> Noticed(env, Now()))
      ensures cfg.hasStore && env.storeBroken ==> r == Err(SnapshotFailed) && Now() == old(Now())
      ensures cfg.hasStore && !env.storeBroken && !env.preSaved ==> r == Err(SessionNotPreSaved) && Now() == old(Now())
    {
      hide Loop, Kept, Well, RestoredWhen, Concluded, Timely, Spells, Noticed, Spent;
      ghost var before := Now();
      rounds := [];
      RunSpells(cfg, env, before, input);
      if !Noticed(env, before) {
        StoppedIffNoticed(cfg, env, before, input);
      }
      if Well(cfg, before) {
        rounds := RunKept(cfg, env, before, input);
        var (q, after) := Run(cfg, env, before, input);
        KeptRestores(cfg, env, before, q, after);
        KeptPanics(cfg, env, before, ErrorOf(q), after);
        KeptIsWell(cfg, env, before, ErrorOf(q), after);
      }
      r := RunPasses(env, input);
    }

    /** The checks of the session store, the user's message, and pass after pass. */
    method RunPasses(env: Env, input: string) returns (r: Result<string, RunError>)
      requires Valid()
      modifies this, dedup, cache
      ensures Valid() && (r, Now()) == Run(cfg, env, old(Now()), input)
    {
      hide FileOf, Pass, Well, OnePass;
      if cfg.hasStore && env.storeBroken {
        return Err(SnapshotFailed);
      }
      if cfg.hasStore && !env.preSaved {
        return Err(SessionNotPreSaved);
      }
      Push(User(input), ByUser);
      roundCount := roundCount + 1;
      ghost var whole := Loop(cfg, env, Now());
      while true
        invariant Valid() && whole == Loop(cfg, env, Now())
        decreases |inbox|
      {
        var end := DoPass(env);
        match end {
          case GoOn =>
          case Finished(content) => return Ok(content);
          case Failed(e) => return Err(e);
        }
      }
    }

    /** A run between the records of its start and its end. */
    method RunRound(env: Env, input: string) returns (r: Result<string, RunError>)
      requires Valid()
      modifies this, dedup, cache
      ensures Valid() && (r, Now()) == Round(cfg, env, old(Now()), input)
    {
      hide FileOf, Run, Note;
      NoteEvent(env, "round_start");
      ghost var rounds;
      r, rounds := RunInner(env, input);
      if r != Err(Panicked) {
        NoteEvent(env, "round_end");
      }
    }

    // ── Handing over, and resending ───────────────────────────────────

    method HandoffToHuman(env: Env, question: string, context: Json, options: seq<string>)
      returns (r: Result<string, RunError>)
      requires Valid()
      modifies this, dedup
      ensures Valid() && (r, Now()) == Handoff(cfg, env, old(Now()), question, context, options)
      ensures Well(cfg, old(Now())) ==> Well(cfg, Now())
      ensures |inbox| <= |old(inbox)| && HandoffAnswered(old(Now()), r, Now())
      ensures HandsQuestion(cfg, old(Now()), question, context, options, r, Now())
      ensures !Noticed(env, old(Now())) ==> (r == Err(Stopped) <==> Noticed(env, Now()))
    {
      if !Noticed(env, Now()) {
        HandoffMinds(cfg, env, Now(), question, context, options);
      }
      hide Handoff, Well, HandoffAnswered, HandsQuestion, Noticed;
      HandoffAnswers(cfg, env, Now(), question, context, options);
      HandoffHands(cfg, env, Now(), question, context, options);
      if Well(cfg, Now()) {
        HandoffLed(cfg, env, Now(), question, context, options);
      }
      r := AskHuman(env, question, context, options);
    }

    /** Record and send, then wait. */
    method AskHuman(env: Env, question: string, context: Json, options: seq<string>) returns (r: Result<string, RunError>)
      requires Valid()
      modifies this, dedup
      ensures Valid() && (r, Now()) == Handoff(cfg, env, old(Now()), question, context, options)
    {
      hide FileOf, Command, Wait, HandoffMessage, EndsOn, Harvested;
      var cid := FreshId();
      var sent := PublishOnlyCommand(env, HandoffMessage(cfg, cid, question, context, options), cid, Handing);
      if sent.Err? {
        return Err(sent.error);
      }
      var e := RegisterEvent(cid, AllMembers, 1);
      var replies := WaitForStrategy(env, e, [HUMAN_HANDOFF_REPLY]);
      r := AnswerText(replies);
    }

    method ResendEntry(env: Env, p: PendingOutbound)
      requires Valid()
      modifies this
      ensures Valid() && Now() == ResendOne(cfg, env, old(Now()), p)
      ensures Reattempts(old(Now()), p, Now())
    {
      ResendReattempts(cfg, env, Now(), p);
      hide FileOf, Hand, Append, Reconstruct;
      var m := Reconstruct(p, cfg.agentId);
      if m.Err? {
        return;
      }
      var sent := Send(env, m.value, Resending);
      if sent {
        var _ := AppendEvent(env, OutboundSent(p.msgType, p.cid, p.attempt + 1, p.target, p.payload,
            env.writes(writes).at));
      }
    }

    /** Lists the outbox of the log file, oldest entry first, and sends each entry again. */
    method ResendPendingOutbound(env: Env) returns (r: Result<nat, RunError>, ghost pending: seq<PendingOutbound>)
      requires Valid()
      modifies this
      ensures Valid() && (r, Now()) == Resend(cfg, env, old(Now()), pending)
      ensures IsOutboxOf(pending, ReadBack(old(hist))) && OldestFirst(pending, ReadBack(old(hist)))
      ensures r == if !cfg.hasStore then Ok(0) else if env.listFails then Err(SnapshotFailed) else Ok(|pending|)
      ensures cfg.hasStore && !env.listFails ==> Tries(hist) == Tries(old(hist)) + Rebuilt(pending, cfg.agentId)
      ensures Well(cfg, old(Now())) ==> Well(cfg, Now())
    {
      hide FileOf, ResendOne, Tries, Rebuilt, Well;
      var listed := PendingFromFile(file);
      pending := listed;
      if Well(cfg, Now()) {
        ResendLed(cfg, env, Now(), listed);
        CheckedIsWell(cfg, env, Now(), None, Resend(cfg, env, Now(), listed).1);
      }
      if !cfg.hasStore {
        return Ok(0), pending;
      }
      if env.listFails {
        return Err(SnapshotFailed), pending;
      }
      ghost var whole := ResendFrom(cfg, env, Now(), listed, 0);
      ResendTries(cfg, env, Now(), listed, 0);
      assert listed[0..] == listed;
      for i := 0 to |listed|
        invariant Valid() && whole == ResendFrom(cfg, env, Now(), listed, i)
      {
        ResendEntry(env, listed[i]);
      }
      r := Ok(|listed|);
    }
  }
}
