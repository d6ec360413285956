/** What a cancellation does: which runs it stops, and what becomes of the calls it finds still to be made. */
module Cancels {
  import opened Wrappers
  import opened Messages
  import opened Dedup
  import opened Discovery
  import opened Outbox
  import opened Conversation
  import opened Histories
  import opened Runs

  /** A look at the token has found it set. */
  ghost predicate Noticed(env: Env, s: State) {
    exists n: nat :: env.cancelAt == Some(n) && s.polls > n
  }

  /** The next look will find it set. */
  ghost predicate IsSet(env: Env, s: State) {
    exists n: nat :: env.cancelAt == Some(n) && s.polls >= n
  }

  /** Nothing happened but a look at the token. */
  ghost predicate OnlyLooked(s: State, t: State) {
    t == s.(polls := s.polls + 1)
  }

  /** Between the two states the token was found set exactly if this ended as stopped. */
  ghost predicate Minds(env: Env, s: State, stopped: bool, t: State) {
    s.polls <= t.polls && (!Noticed(env, s) ==> (stopped <==> Noticed(env, t)))
  }

  lemma PollMinds(env: Env, s: State)
    ensures var (stop, t) := Poll(env, s); Minds(env, s, stop, t) && (stop <==> IsSet(env, s))
    ensures Noticed(env, s) ==> IsSet(env, s)
  {
  }

  lemma NoLook(env: Env, s: State, t: State)
    requires t.polls == s.polls
    ensures Minds(env, s, false, t) && (Noticed(env, t) <==> Noticed(env, s))
  {
  }

  ghost predicate IsStopped<T>(r: Result<T, RunError>) {
    r.Err? && r.error == Stopped
  }

  // ── Waits and requests ──────────────────────────────────────────────

  lemma AppendLooks(env: Env, s: State, e: Event)
    ensures Append(env, s, e).1.polls == s.polls
  {
  }

  lemma WaitOnceMinds(cfg: Config, env: Env, s: State, e: WaitEvent, types: seq<string>, got: seq<Message>)
    requires !Noticed(env, s)
    ensures var (turn, t) := WaitOnce(cfg, env, s, e, types, got);
            Minds(env, s, turn.Over? && IsStopped(turn.result), t)
  {
    hide Append, IsDuplicate, Noticed;
    PollMinds(env, s);
    if s.inbox != [] {
      var m, u := s.inbox[0].msg, Received(s, types);
      var v := u.(calls := u.calls + if m.cid.Some? then [m.cid.value] else []);
      if m.cid.Some? {
        AppendLooks(env, v, InboundReply(m.msgType, m.cid.value, m.from, m.payload));
      }
      AppendLooks(env, u, InboundReply(PEER_REPLY, e.cid, m.from, Null));
    }
    NoLook(env, Poll(env, s).1, WaitOnce(cfg, env, s, e, types, got).1);
  }

  lemma {:induction false} WaitMinds(cfg: Config, env: Env, s: State, e: WaitEvent, types: seq<string>,
                                     got: seq<Message>)
    requires !Noticed(env, s)
    ensures var (r, t) := Wait(cfg, env, s, e, types, got); Minds(env, s, IsStopped(r), t)
    decreases |s.inbox|
  {
    hide WaitOnce, Noticed;
    WaitOnceMinds(cfg, env, s, e, types, got);
    var (turn, t) := WaitOnce(cfg, env, s, e, types, got);
    if turn.Still? {
      WaitMinds(cfg, env, t, e, types, turn.got);
    }
  }

  lemma SendRegisteredMinds(cfg: Config, env: Env, s: State, m: Message, origin: Origin, cid: Uuid)
    requires !Noticed(env, s)
    ensures var (r, t) := SendRegistered(cfg, env, s, m, origin, cid);
            Minds(env, s, IsStopped(r), t) && Minds(env, s, IsStopped(First(r)), t)
  {
    hide Wait, Noticed, ResponseTypeFor;
    var (e, s1) := Register(s, cid, AllMembers, AtLeastOne(|m.to|));
    var (sent, s2) := Hand(env, s1, m, origin);
    NoLook(env, s, s2);
    if sent {
      WaitMinds(cfg, env, s2, e, [ResponseTypeFor(m.msgType)], []);
    } else {
      NoLook(env, s, Unregister(s2, e));
    }
  }

  lemma SendAndAwaitMinds(cfg: Config, env: Env, s: State, m: Message, origin: Origin, cid: Uuid)
    requires !Noticed(env, s)
    ensures var (r, t) := SendAndAwait(cfg, env, s, m, origin, cid); Minds(env, s, IsStopped(r), t)
  {
    hide SendRegistered, First, Noticed;
    PollMinds(env, s);
    var (stop, s1) := Poll(env, s);
    if !stop {
      SendRegisteredMinds(cfg, env, s1, m, origin, cid);
    }
  }

  // ── Tool turns ──────────────────────────────────────────────────────

  lemma NoteLooks(cfg: Config, env: Env, s: State, kind: string)
    ensures Note(cfg, env, s, kind).polls == s.polls
  {
    hide Append;
    AppendLooks(env, s, Other(kind));
  }

  lemma GateMinds(cfg: Config, env: Env, s: State, call: ToolCall)
    requires !Noticed(env, s)
    ensures var (verdict, t) := Gate(cfg, env, s, call);
            Minds(env, s, verdict.Decided? && IsStopped(verdict.result), t)
  {
    hide SendRegistered, Note, LookupPermission, PermissionRequest, First, Noticed, Denied;
    var (cid, s1) := Fresh(s);
    NoLook(env, s, s1);
    SendRegisteredMinds(cfg, env, s1, PermissionRequest(cfg, call, cid), Requesting(call), cid);
    var s2 := SendRegistered(cfg, env, s1, PermissionRequest(cfg, call, cid), Requesting(call), cid).1;
    NoteLooks(cfg, env, Say(s2, ToolReply(call, REFUSED + call.name), ByRefusal(call, cid)), "tool_call_end");
    NoteLooks(cfg, env, Say(s, ToolReply(call, DENIED + call.name), ByPolicy(call)), "tool_call_end");
    NoLook(env, s, Note(cfg, env, Say(s, ToolReply(call, DENIED + call.name), ByPolicy(call)), "tool_call_end"));
    NoLook(env, s, s);
    NoLook(env, s2, Note(cfg, env, Say(s2, ToolReply(call, REFUSED + call.name), ByRefusal(call, cid)),
        "tool_call_end"));
  }

  lemma SettleLooks(cfg: Config, env: Env, s: State, call: ToolCall, cid: Uuid, response: Result<Message, RunError>)
    ensures var (r, t) := SettleCall(cfg, env, s, call, cid, response);
            t.polls == s.polls && (IsStopped(r) <==> IsStopped(response))
  {
    hide Note, ToolContent;
    NoteLooks(cfg, env, s, "tool_call_end");
    NoteLooks(cfg, env, Say(s, ToolReply(call, INTERRUPTED + call.name), ByCancel(call)), "tool_call_end");
    if response.Ok? {
      NoteLooks(cfg, env, Say(s, ToolReply(call, ToolContent(response.value.payload)), ByTool(call, cid)),
          "tool_call_end");
    }
  }

  lemma ExecuteMinds(cfg: Config, env: Env, s: State, call: ToolCall, permit: Option<Uuid>)
    requires !Noticed(env, s)
    ensures var (r, t) := ExecuteTool(cfg, env, s, call, permit); Minds(env, s, IsStopped(r), t)
  {
    hide SendAndAwait, SettleCall, Noticed, ToolExec;
    var (cid, s1) := Fresh(s);
    NoLook(env, s, s1);
    SendAndAwaitMinds(cfg, env, s1, ToolExec(cfg, call, cid), Executing(call, permit), cid);
    var (response, s2) := SendAndAwait(cfg, env, s1, ToolExec(cfg, call, cid), Executing(call, permit), cid);
    SettleLooks(cfg, env, s2, call, cid, response);
    NoLook(env, s2, SettleCall(cfg, env, s2, call, cid, response).1);
  }

  lemma BatchTurnMinds(cfg: Config, env: Env, s: State, call: ToolCall)
    requires !Noticed(env, s)
    ensures var (r, t) := BatchTurn(cfg, env, s, call); Minds(env, s, IsStopped(r), t)
  {
    hide Gate, ExecuteTool, Noticed;
    PollMinds(env, s);
    var (stop, s1) := Poll(env, s);
    if stop {
      NoLook(env, s1, BatchTurn(cfg, env, s, call).1);
    } else {
      var s2 := s1.(turnCount := s1.turnCount + 1);
      NoLook(env, s1, s2);
      GateMinds(cfg, env, s2, call);
      var (verdict, s3) := Gate(cfg, env, s2, call);
      if verdict.Passed? {
        ExecuteMinds(cfg, env, s3, call, verdict.permit);
      }
    }
  }

  /** Each of these calls is answered as cancelled, in order, and nothing else is said or done. */
  ghost predicate OnlyCancelled(s: State, calls: seq<ToolCall>, t: State) {
    && |t.messages| == |s.messages| + |calls| && s.messages <= t.messages
    && |t.hist| == |s.hist| + |calls| && s.hist <= t.hist
    && (forall k :: 0 <= k < |calls| ==>
          IsCancellation(calls[k], t.messages[|s.messages| + k], t.hist[|s.hist| + k]))
    && t == s.(messages := t.messages, hist := t.hist, polls := s.polls + |calls|)
  }

  ghost predicate IsCancellation(call: ToolCall, m: ModelMessage, a: Act) {
    && m.role == "tool" && m.toolCallId == Some(call.id) && m.name == Some(call.name) && m.toolCalls == []
    && m.content == "[cancelled by user] " + call.name && a == Said(m, ByCancel(call))
  }

  /** Calls that a batch comes to after the cancellation are only answered; no turn is counted, nothing sent. */
  lemma {:induction false} CancelledBatch(cfg: Config, env: Env, s: State, calls: seq<ToolCall>, i: nat,
                                          results: seq<Result<Json, RunError>>)
    requires i <= |calls| && IsSet(env, s)
    ensures var (r, t) := ToolTurns(cfg, env, s, calls, i, results);
            && OnlyCancelled(s, calls[i..], t) && |r| == |results| + |calls| - i
            && (forall k :: |results| <= k < |r| ==> r[k] == Err(Stopped)) && results <= r
    decreases |calls| - i
  {
    hide ToolTurn, OnlyCancelled;
    if i == |calls| {
      NothingCancelled(s, calls[i..]);
    } else {
      PollMinds(env, s);
      var (result, t) := BatchTurn(cfg, env, s, calls[i]);
      assert result == Err(Stopped);
      assert IsSet(env, t);
      CancelledBatch(cfg, env, t, calls, i + 1, results + [result]);
      OneCancelled(s, calls[i], t, calls[i + 1..], ToolTurns(cfg, env, t, calls, i + 1, results + [result]).1);
      assert calls[i..] == [calls[i]] + calls[i + 1..];
    }
  }

  lemma NothingCancelled(s: State, calls: seq<ToolCall>)
    requires calls == []
    ensures OnlyCancelled(s, calls, s)
  {
  }

  lemma OneCancelled(s: State, call: ToolCall, t: State, calls: seq<ToolCall>, u: State)
    requires t == Say(s.(polls := s.polls + 1), ToolReply(call, CANCELLED + call.name), ByCancel(call))
    requires OnlyCancelled(t, calls, u)
    ensures OnlyCancelled(s, [call] + calls, u)
  {
    var all := [call] + calls;
    forall k | 0 <= k < |all| ensures IsCancellation(all[k], u.messages[|s.messages| + k], u.hist[|s.hist| + k]) {
      if k == 0 {
        assert u.messages[|s.messages|] == t.messages[|s.messages|] && u.hist[|s.hist|] == t.hist[|s.hist|];
      } else {
        assert IsCancellation(calls[k - 1], u.messages[|t.messages| + k - 1], u.hist[|t.hist| + k - 1]);
      }
    }
  }

  lemma {:induction false} ToolTurnsMind(cfg: Config, env: Env, s: State, calls: seq<ToolCall>, i: nat,
                                         results: seq<Result<Json, RunError>>)
    requires i <= |calls| && !Noticed(env, s) && Err(Stopped) !in results && Err(Panicked) !in results
    ensures var (r, t) := ToolTurns(cfg, env, s, calls, i, results);
            Minds(env, s, Err(Stopped) in r, t) && !(Err(Stopped) in r && Err(Panicked) in r)
    decreases |calls| - i
  {
    hide BatchTurn, Noticed, IsSet, OnlyCancelled;
    if i == |calls| {
      NoLook(env, s, s);
    } else {
      BatchTurnMinds(cfg, env, s, calls[i]);
      var (result, t) := BatchTurn(cfg, env, s, calls[i]);
      if result == Err(Stopped) {
        PollMinds(env, t);
        CancelledBatch(cfg, env, t, calls, i + 1, results + [result]);
        CancelledMinds(env, s, t, calls[i + 1..], ToolTurns(cfg, env, t, calls, i + 1, results + [result]).1);
        assert (results + [result])[|results|] == Err(Stopped);
      } else if result != Err(Panicked) {
        ToolTurnsMind(cfg, env, t, calls, i + 1, results + [result]);
      }
    }
  }

  lemma CancelledMinds(env: Env, s: State, t: State, calls: seq<ToolCall>, u: State)
    requires Minds(env, s, true, t) && !Noticed(env, s) && OnlyCancelled(t, calls, u)
    ensures Minds(env, s, true, u)
  {
  }

  // ── Checkpoints ─────────────────────────────────────────────────────

  lemma RecordLooks(cfg: Config, env: Env, s: State, m: Message, cid: Uuid)
    ensures RecordOutbound(cfg, env, s, m, cid).1.polls == s.polls
  {
  }

  lemma QueryMinds(cfg: Config, env: Env, s: State, trigger: string, d: CheckpointMsg)
    requires !Noticed(env, s)
    ensures var (r, t) := Query(cfg, env, s, trigger, d); Minds(env, s, IsStopped(r), t)
  {
    hide Wait, Noticed, ResponseTypeFor, RecordOutbound, MessageOf, Hand;
    PollMinds(env, s);
    var (stop, s1) := Poll(env, s);
    if !stop {
      var (e, s2) := Register(s1, d.rule.cid, AllMembers, AtLeastOne(|d.recipients|));
      RecordLooks(cfg, env, s2, MessageOf(cfg, d), d.rule.cid);
      var (recorded, s3) := RecordOutbound(cfg, env, s2, MessageOf(cfg, d), d.rule.cid);
      var (sent, s4) := Hand(env, s3, MessageOf(cfg, d), Dispatching(trigger));
      HandLooks(env, s3, MessageOf(cfg, d), Dispatching(trigger));
      NoLook(env, s1, s3.Did(Unrecorded));
      NoLook(env, s1, s4);
      NoLook(env, s1, Unregister(s4, e));
      if recorded && sent {
        WaitMinds(cfg, env, s4, e, [ResponseTypeFor(d.rule.msgType)], []);
      }
    }
  }

  lemma HandLooks(env: Env, s: State, m: Message, origin: Origin)
    ensures Hand(env, s, m, origin).1.polls == s.polls
  {
  }

  lemma DispatchOneMinds(cfg: Config, env: Env, s: State, trigger: string, d: CheckpointMsg)
    requires !Noticed(env, s)
    ensures var (r, t) := DispatchOne(cfg, env, s, trigger, d); Minds(env, s, IsStopped(r), t)
  {
    hide Query, Noticed, RecordOutbound, MessageOf, Hand;
    if d.rule.query {
      QueryMinds(cfg, env, s, trigger, d);
    } else {
      RecordLooks(cfg, env, s, MessageOf(cfg, d), d.rule.cid);
      var (recorded, s1) := RecordOutbound(cfg, env, s, MessageOf(cfg, d), d.rule.cid);
      HandLooks(env, s1, MessageOf(cfg, d), Dispatching(trigger));
      NoLook(env, s, DispatchOne(cfg, env, s, trigger, d).1);
    }
  }

  lemma {:induction false} DispatchAllMinds(cfg: Config, env: Env, s: State, trigger: string,
                                            built: seq<CheckpointMsg>, i: nat)
    requires i <= |built| && !Noticed(env, s)
    ensures var (r, t) := DispatchAll(cfg, env, s, trigger, built, i); Minds(env, s, IsStopped(r), t)
    decreases |built| - i
  {
    hide DispatchOne, Noticed;
    if i == |built| {
      NoLook(env, s, s);
    } else {
      DispatchOneMinds(cfg, env, s, trigger, built[i]);
      var (r, t) := DispatchOne(cfg, env, s, trigger, built[i]);
      if r.Ok? {
        DispatchAllMinds(cfg, env, t, trigger, built, i + 1);
      }
    }
  }

  lemma ConsultMinds(cfg: Config, env: Env, s: State, trigger: string)
    requires !Noticed(env, s)
    ensures var (r, t) := Consult(cfg, env, s, trigger); Minds(env, s, IsStopped(r), t)
  {
    hide DispatchAll, Evaluated, Noticed;
    var input := env.checks(s.checks);
    var before: Cached := if input.invalidated then map[] else s.cached;
    var (built, cached) := Evaluated(trigger, input.rules, cfg.routes, input.nodes, before);
    var t := s.(checks := s.checks + 1, cached := cached).Did(Consulted(trigger));
    NoLook(env, s, t);
    if built.Ok? {
      DispatchAllMinds(cfg, env, t, trigger, built.value, 0);
    }
  }

  lemma SaveLooks(cfg: Config, env: Env, s: State)
    ensures SaveState(cfg, env, s).1.polls == s.polls
  {
  }

  lemma CheckMinds(cfg: Config, env: Env, s: State, trigger: string)
    ensures var (r, t) := Check(cfg, env, s, trigger);
            if Noticed(env, s) then IsStopped(r) && t == s.(polls := s.polls + 1) else Minds(env, s, IsStopped(r), t)
  {
    hide Consult, SaveState, Noticed;
    PollMinds(env, s);
    var (stop, s1) := Poll(env, s);
    if !stop {
      SaveLooks(cfg, env, s1);
      var (taken, s2) := SaveState(cfg, env, s1);
      NoLook(env, s1, s2);
      if taken {
        ConsultMinds(cfg, env, s2, trigger);
      }
    }
  }

  // ── Passes and runs ─────────────────────────────────────────────────

  lemma ModelTurnMinds(cfg: Config, env: Env, s: State)
    requires !Noticed(env, s)
    ensures var (r, t) := ModelTurn(cfg, env, s); Minds(env, s, IsStopped(r), t)
  {
    hide SendAndAwait, Note, ContentOf, CallsOf, ModelCall, Noticed;
    var (cid, s2) := Fresh(s.(turnCount := s.turnCount + 1, modelTurns := s.modelTurns + 1));
    NoLook(env, s, s2);
    NoLook(env, s, s.(turnCount := s.turnCount + 1, modelTurns := s.modelTurns + 1));
    SendAndAwaitMinds(cfg, env, s2, ModelCall(cfg, cid), Asking, cid);
    var s3 := SendAndAwait(cfg, env, s2, ModelCall(cfg, cid), Asking, cid).1;
    NoteLooks(cfg, env, s3, "model_call_end");
    if !env.aborts(s.modelTurns) && ModelTurn(cfg, env, s).0.Ok? {
      NoLook(env, s3, ModelTurn(cfg, env, s).1);
    }
  }

  lemma AfterModelMinds(cfg: Config, env: Env, s: State, answer: ModelAnswer)
    requires !Noticed(env, s)
    ensures var (r, t) := AfterModel(cfg, env, s, answer); Minds(env, s, IsStopped(r), t)
  {
    hide Check, Noticed, Spent;
    PollMinds(env, s);
    var (stop, s1) := Poll(env, s);
    if !stop {
      CheckMinds(cfg, env, s1, "after_model_call");
    }
  }

  lemma ModelPhaseMinds(cfg: Config, env: Env, s: State)
    requires !Noticed(env, s)
    ensures var (r, t) := ModelPhase(cfg, env, s); Minds(env, s, IsStopped(r), t)
  {
    hide Check, ModelTurn, AfterModel, Spent, Noticed;
    PollMinds(env, s);
    var (stop, s1) := Poll(env, s);
    if !stop {
      CheckMinds(cfg, env, s1, "before_model_call");
      var (before, s2) := Check(cfg, env, s1, "before_model_call");
      if before.Ok? {
        ModelTurnMinds(cfg, env, s2);
        var (answer, s3) := ModelTurn(cfg, env, s2);
        if answer.Ok? {
          AfterModelMinds(cfg, env, s3, answer.value);
        }
      }
    }
  }

  lemma AfterToolsMind(cfg: Config, env: Env, s: State, failure: Option<RunError>)
    requires failure != Some(Stopped) || Noticed(env, s)
    ensures var (stop, t) := AfterTools(cfg, env, s, failure);
            && s.polls <= t.polls && (stop == Some(Stopped) <==> Noticed(env, t))
  {
    hide Check, Spent;
    CheckMinds(cfg, env, s, "after_tool_exec");
  }

  lemma ToolPhaseMinds(cfg: Config, env: Env, s: State, calls: seq<ToolCall>)
    requires !Noticed(env, s)
    ensures var (stop, t) := ToolPhase(cfg, env, s, calls); Minds(env, s, stop == Some(Stopped), t)
  {
    hide Check, ToolTurns, AfterTools, Noticed;
    PollMinds(env, s);
    var (stop, s1) := Poll(env, s);
    if !stop {
      CheckMinds(cfg, env, s1, "before_tool_exec");
      var (before, s2) := Check(cfg, env, s1, "before_tool_exec");
      if before.Ok? {
        ToolTurnsMind(cfg, env, s2, calls, 0, []);
        var (results, s3) := ToolTurns(cfg, env, s2, calls, 0, []);
        if Err(Panicked) !in results {
          AfterToolsMind(cfg, env, s3, FirstError(results));
        }
      }
    }
  }

  lemma PassMinds(cfg: Config, env: Env, s: State)
    requires !Noticed(env, s)
    ensures var (end, t) := Pass(cfg, env, s); Minds(env, s, end == Failed(Stopped), t)
  {
    hide ModelPhase, Check, ToolPhase, Noticed;
    ModelPhaseMinds(cfg, env, s);
    var (answer, s1) := ModelPhase(cfg, env, s);
    if answer.Ok? {
      CheckMinds(cfg, env, s1, "round_end");
      if answer.value.Answered? {
        ToolPhaseMinds(cfg, env, s1, answer.value.calls);
      }
    }
  }

  lemma {:induction false} LoopMinds(cfg: Config, env: Env, s: State)
    requires !Noticed(env, s)
    ensures var (r, t) := Loop(cfg, env, s); Minds(env, s, IsStopped(r), t)
    decreases |s.inbox|
  {
    hide Pass, Noticed;
    PassMinds(cfg, env, s);
    var (end, t) := Pass(cfg, env, s);
    if end.GoOn? {
      LoopMinds(cfg, env, t);
    }
  }

  /** A run reports that it was stopped exactly if one of its looks at the token found it set. */
  lemma StoppedIffNoticed(cfg: Config, env: Env, s: State, input: string)
    requires !Noticed(env, s)
    ensures var (r, t) := Run(cfg, env, s, input); r == Err(Stopped) <==> Noticed(env, t)
  {
    hide Loop, Noticed;
    NoLook(env, s, Prepared(s, input));
    LoopMinds(cfg, env, Prepared(s, input));
    NoLook(env, s, s);
  }

  /** So is a handoff; what its answer is does not matter. */
  lemma HandoffMinds(cfg: Config, env: Env, s: State, question: string, context: Json, options: seq<string>)
    requires !Noticed(env, s)
    ensures var (r, t) := Handoff(cfg, env, s, question, context, options); r == Err(Stopped) <==> Noticed(env, t)
  {
    hide Wait, Noticed, RecordOutbound, Hand, HandoffMessage;
    var (cid, s0) := Fresh(s);
    var m := HandoffMessage(cfg, cid, question, context, options);
    RecordLooks(cfg, env, s0, m, cid);
    HandLooks(env, RecordOutbound(cfg, env, s0, m, cid).1, m, Handing);
    var (sent, s1) := HandedOver(cfg, env, s, question, context, options);
    NoLook(env, s, s1);
    if sent.Ok? {
      var (e, s2) := Register(s1, s.nextId, AllMembers, 1);
      NoLook(env, s1, s2);
      WaitMinds(cfg, env, s2, e, [HUMAN_HANDOFF_REPLY], []);
    }
  }
}
