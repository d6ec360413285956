/** Which checkpoints a run consults, in which order, and what it does between them. */
module Stages {
  import opened Wrappers
  import opened Messages
  import opened Dedup
  import opened Discovery
  import opened Outbox
  import opened Conversation
  import opened Histories
  import opened Runs

  // ── Vocabulary ──────────────────────────────────────────────────────

  /** The checkpoint that comes after this one; none comes after the end of the round. */
  ghost predicate MayFollow(last: Option<string>, next: string) {
    match last
    case None => next == "before_model_call"
    case Some(before) =>
      || (before == "before_model_call" && next == "after_model_call")
      || (before == "after_model_call" && (next == "before_tool_exec" || next == "round_end"))
      || (before == "before_tool_exec" && next == "after_tool_exec")
      || (before == "after_tool_exec" && next == "before_model_call")
  }

  /**
   * May a run do this, `last` being the checkpoint it consulted last? The model is asked, and its answer appended,
   * after before_model_call; tools are asked for, executed and answered after before_tool_exec; a checkpoint's messages
   * go out after that very checkpoint.
   */
  ghost predicate Fits(last: Option<string>, a: Act) {
    match a
    case Consulted(next) => MayFollow(last, next)
    case Tried(_, Asking) => last == Some("before_model_call")
    case Tried(_, Requesting(_)) => last == Some("before_tool_exec")
    case Tried(_, Executing(_, _)) => last == Some("before_tool_exec")
    case Tried(_, Dispatching(trigger)) => last == Some(trigger)
    case Tried(_, _) => false
    case Said(_, ByUser) => last == None
    case Said(_, ByModel(_)) => last == Some("before_model_call")
    case Said(_, _) => last == Some("before_tool_exec")
    case _ => true
  }

  /** The checkpoint consulted last, `from` being the last before these acts. */
  ghost function Last(from: Option<string>, acts: History): Option<string> {
    if acts == [] then from
    else
      var a := acts[|acts| - 1];
      if a.Consulted? then Some(a.trigger) else Last(from, acts[..|acts| - 1])
  }

  /** Each act fits where it stands. */
  ghost predicate Fitting(from: Option<string>, acts: History) {
    acts == []
    || (Fitting(from, acts[..|acts| - 1]) && Fits(Last(from, acts[..|acts| - 1]), acts[|acts| - 1]))
  }

  /** Between the two states everything fits, the last checkpoint being `from` before and `to` after. */
  ghost predicate Paced(s: State, from: Option<string>, t: State, to: Option<string>) {
    s.hist <= t.hist && Fitting(from, t.hist[|s.hist|..]) && Last(from, t.hist[|s.hist|..]) == to
  }

  lemma {:induction false} FittingConcat(from: Option<string>, a: History, b: History)
    ensures Fitting(from, a + b) <==> Fitting(from, a) && Fitting(Last(from, a), b)
    ensures Last(from, a + b) == Last(Last(from, a), b)
    decreases |b|
  {
    if b == [] {
      assert a + b == a;
    } else {
      var front := b[..|b| - 1];
      FittingConcat(from, a, front);
      assert (a + b)[..|a + b| - 1] == a + front;
    }
  }

  lemma PacedTrans(s: State, from: Option<string>, t: State, mid: Option<string>, u: State, to: Option<string>)
    requires Paced(s, from, t, mid) && Paced(t, mid, u, to)
    ensures Paced(s, from, u, to)
  {
    var a, b := t.hist[|s.hist|..], u.hist[|t.hist|..];
    FittingConcat(from, a, b);
    hide Fitting, Last;
    assert u.hist[|s.hist|..] == a + b;
  }

  lemma PacedSame(s: State, t: State, at: Option<string>)
    requires t.hist == s.hist
    ensures Paced(s, at, t, at)
  {
    assert t.hist[|s.hist|..] == [];
  }

  lemma DidPaced(s: State, from: Option<string>, a: Act)
    requires Fits(from, a)
    ensures Paced(s, from, s.Did(a), if a.Consulted? then Some(a.trigger) else from)
  {
    hide Fits;
    var acts := s.Did(a).hist[|s.hist|..];
    assert acts == [a] && acts[..|acts| - 1] == [];
    assert Fitting(from, []) && Last(from, []) == from;
  }

  // ── Pieces that consult nothing ─────────────────────────────────────

  lemma WritePaced(env: Env, s: State, text: Act, at: Option<string>)
    requires text.Wrote? || text.Scribbled?
    ensures Paced(s, at, WriteLine(env, s, text).1, at)
  {
    hide Paced, Fits;
    var t := s.(writes := s.writes + 1);
    PacedSame(s, t, at);
    assert Fits(at, text) && Fits(at, Ended) && Fits(at, Scribbled) by { NeutralFits(at, text); }
    DidPaced(t, at, text);
    DidPaced(t, at, Scribbled);
    DidPaced(t.Did(text), at, Ended);
    PacedTrans(s, at, t, at, t.Did(text), at);
    PacedTrans(s, at, t, at, t.Did(Scribbled), at);
    PacedTrans(s, at, t.Did(text), at, t.Did(text).Did(Ended), at);
  }

  lemma NeutralFits(at: Option<string>, a: Act)
    requires !a.Tried? && !a.Said? && !a.Consulted?
    ensures Fits(at, a) && Fits(at, Ended) && Fits(at, Scribbled)
  {
  }

  lemma AppendPaced(env: Env, s: State, e: Event, at: Option<string>)
    ensures Paced(s, at, Append(env, s, e).1, at)
  {
    hide Paced, WriteLine;
    WritePaced(env, s, Wrote(e), at);
  }

  lemma NotePaced(cfg: Config, env: Env, s: State, kind: string, at: Option<string>)
    ensures Paced(s, at, Note(cfg, env, s, kind), at)
  {
    hide Paced, Append;
    PacedSame(s, s, at);
    AppendPaced(env, s, Other(kind), at);
  }

  lemma HandPaced(env: Env, s: State, m: Message, origin: Origin, at: Option<string>)
    requires Fits(at, Tried(m, origin))
    ensures Paced(s, at, Hand(env, s, m, origin).1, at)
  {
    hide Paced, Fits;
    var u := s.Did(Tried(m, origin));
    var t := u.(sends := s.sends + 1, nextId := Above(s.nextId, m.cid));
    NeutralFits(at, Sent(m));
    DidPaced(s, at, Tried(m, origin));
    PacedSame(u, t, at);
    DidPaced(t, at, Sent(m));
    PacedTrans(s, at, u, at, t, at);
    PacedTrans(s, at, t, at, t.Did(Sent(m)), at);
  }

  lemma UnexpectedPaced(cfg: Config, env: Env, s: State, m: Message, at: Option<string>)
    ensures Paced(s, at, Unexpected(cfg, env, s, m).1, at)
  {
    hide Paced, Fits, Append, IsDuplicate, IsReplyType;
    NeutralFits(at, Unwound(m));
    DidPaced(s, at, Unwound(m));
    if IsReplyType(m.msgType) && m.cid.Some? {
      var t := s.(calls := s.calls + [m.cid.value]);
      var e := InboundReply(m.msgType, m.cid.value, m.from, m.payload);
      var u := if cfg.hasStore then Append(env, t, e).1 else t;
      PacedSame(s, t, at);
      PacedSame(t, t, at);
      AppendPaced(env, t, e, at);
      PacedTrans(s, at, t, at, u, at);
      DidPaced(u, at, Unwound(m));
      PacedTrans(s, at, u, at, u.Did(Unwound(m)), at);
    }
  }

  lemma ReceivedPaced(s: State, types: seq<string>, at: Option<string>)
    requires s.inbox != []
    ensures Paced(s, at, Received(s, types), at)
  {
    hide Paced, Fits;
    var t, a := s.(polls := s.polls + 1, inbox := s.inbox[1..]), Took(s.inbox[0].msg, types);
    NeutralFits(at, a);
    PacedSame(s, t, at);
    DidPaced(t, at, a);
    PacedTrans(s, at, t, at, t.Did(a), at);
  }

  lemma WaitOncePaced(cfg: Config, env: Env, s: State, e: WaitEvent, types: seq<string>, got: seq<Message>,
                      at: Option<string>)
    ensures Paced(s, at, WaitOnce(cfg, env, s, e, types, got).1, at)
  {
    hide Paced, Fits, Append, Unexpected, Received;
    var t := WaitOnce(cfg, env, s, e, types, got).1;
    var s1 := Poll(env, s).1;
    PacedSame(s, s1, at);
    if Poll(env, s).0 {
      PacedSame(s, t, at);
    } else if s.inbox == [] {
      NeutralFits(at, Closed);
      DidPaced(s1, at, Closed);
      PacedTrans(s, at, s1, at, s1.Did(Closed), at);
    } else {
      var m, u := s.inbox[0].msg, Received(s, types);
      ReceivedPaced(s, types, at);
      UnexpectedPaced(cfg, env, u, m, at);
      NeutralFits(at, Spoiled(m));
      DidPaced(u, at, Spoiled(m));
      var v := Counted(cfg, env, u, m, e.cid);
      PacedSame(u, u, at);
      AppendPaced(env, u, InboundReply(PEER_REPLY, e.cid, m.from, Null), at);
      PacedSame(v, Unregister(v, e), at);
      PacedTrans(u, at, v, at, Unregister(v, e), at);
      PacedTrans(s, at, u, at, t, at);
    }
  }

  lemma {:induction false} WaitPaced(cfg: Config, env: Env, s: State, e: WaitEvent, types: seq<string>,
                                     got: seq<Message>, at: Option<string>)
    ensures Paced(s, at, Wait(cfg, env, s, e, types, got).1, at)
    decreases |s.inbox|
  {
    hide Paced, WaitOnce;
    WaitOncePaced(cfg, env, s, e, types, got, at);
    var (turn, t) := WaitOnce(cfg, env, s, e, types, got);
    if turn.Still? {
      WaitPaced(cfg, env, t, e, types, turn.got, at);
      PacedTrans(s, at, t, at, Wait(cfg, env, t, e, types, turn.got).1, at);
    }
  }

  lemma AfterSendPaced(cfg: Config, env: Env, s: State, sent: bool, e: WaitEvent, ty: string, at: Option<string>)
    ensures Paced(s, at, AfterSend(cfg, env, s, sent, e, ty).1, at)
  {
    hide Paced, Wait;
    PacedSame(s, Unregister(s, e), at);
    WaitPaced(cfg, env, s, e, [ty], [], at);
  }

  lemma SendRegisteredPaced(cfg: Config, env: Env, s: State, m: Message, origin: Origin, cid: Uuid, at: Option<string>)
    requires Fits(at, Tried(m, origin))
    ensures Paced(s, at, SendRegistered(cfg, env, s, m, origin, cid).1, at)
  {
    hide Paced, Fits, Hand, AfterSend;
    var (e, s1) := Register(s, cid, AllMembers, AtLeastOne(|m.to|));
    PacedSame(s, s1, at);
    HandPaced(env, s1, m, origin, at);
    var (sent, s2) := Hand(env, s1, m, origin);
    AfterSendPaced(cfg, env, s2, sent, e, ResponseTypeFor(m.msgType), at);
    PacedTrans(s, at, s1, at, s2, at);
    PacedTrans(s, at, s2, at, AfterSend(cfg, env, s2, sent, e, ResponseTypeFor(m.msgType)).1, at);
  }

  lemma SendAndAwaitPaced(cfg: Config, env: Env, s: State, m: Message, origin: Origin, cid: Uuid, at: Option<string>)
    requires Fits(at, Tried(m, origin))
    ensures Paced(s, at, SendAndAwait(cfg, env, s, m, origin, cid).1, at)
  {
    hide Paced, Fits, SendRegistered;
    var s1 := Poll(env, s).1;
    PacedSame(s, s1, at);
    SendRegisteredPaced(cfg, env, s1, m, origin, cid, at);
    PacedTrans(s, at, s1, at, SendRegistered(cfg, env, s1, m, origin, cid).1, at);
  }

  // ── Tool turns ──────────────────────────────────────────────────────

  const TOOLS: Option<string> := Some("before_tool_exec")

  lemma SayPaced(s: State, m: ModelMessage, why: Why, at: Option<string>)
    requires Fits(at, Said(m, why))
    ensures Paced(s, at, Say(s, m, why), at)
  {
    hide Paced, Fits;
    var t := s.(messages := s.messages + [m]);
    PacedSame(s, t, at);
    DidPaced(t, at, Said(m, why));
    PacedTrans(s, at, t, at, t.Did(Said(m, why)), at);
  }

  lemma AnswerPaced(cfg: Config, env: Env, s: State, call: ToolCall, text: string, why: Why)
    requires !why.ByUser? && !why.ByModel?
    ensures Paced(s, TOOLS, Note(cfg, env, Say(s, ToolReply(call, text), why), "tool_call_end"), TOOLS)
    ensures Paced(s, TOOLS, Say(s, ToolReply(call, text), why), TOOLS)
  {
    assert Fits(TOOLS, Said(ToolReply(call, text), why));
    hide Paced, Fits, Note;
    var u := Say(s, ToolReply(call, text), why);
    SayPaced(s, ToolReply(call, text), why, TOOLS);
    NotePaced(cfg, env, u, "tool_call_end", TOOLS);
    PacedTrans(s, TOOLS, u, TOOLS, Note(cfg, env, u, "tool_call_end"), TOOLS);
  }

  lemma GatePaced(cfg: Config, env: Env, s: State, call: ToolCall)
    ensures Paced(s, TOOLS, Gate(cfg, env, s, call).1, TOOLS)
  {
    hide Paced, SendRegistered, Note, LookupPermission, Say;
    PacedSame(s, s, TOOLS);
    AnswerPaced(cfg, env, s, call, DENIED + call.name, ByPolicy(call));
    var (cid, s1) := Fresh(s);
    PacedSame(s, s1, TOOLS);
    var m := PermissionRequest(cfg, call, cid);
    SendRegisteredPaced(cfg, env, s1, m, Requesting(call), cid, TOOLS);
    var s2 := SendRegistered(cfg, env, s1, m, Requesting(call), cid).1;
    PacedTrans(s, TOOLS, s1, TOOLS, s2, TOOLS);
    var why := ByRefusal(call, cid);
    AnswerPaced(cfg, env, s2, call, REFUSED + call.name, why);
    PacedTrans(s, TOOLS, s2, TOOLS,
               Note(cfg, env, Say(s2, ToolReply(call, REFUSED + call.name), why), "tool_call_end"), TOOLS);
  }

  lemma ExecutePaced(cfg: Config, env: Env, s: State, call: ToolCall, permit: Option<Uuid>)
    ensures Paced(s, TOOLS, ExecuteTool(cfg, env, s, call, permit).1, TOOLS)
  {
    hide Paced, SendAndAwait, Note, ToolContent, Say, ExecTargets;
    var (cid, s1) := Fresh(s);
    PacedSame(s, s1, TOOLS);
    var m := ToolExec(cfg, call, cid);
    SendAndAwaitPaced(cfg, env, s1, m, Executing(call, permit), cid, TOOLS);
    var (response, s2) := SendAndAwait(cfg, env, s1, m, Executing(call, permit), cid);
    PacedTrans(s, TOOLS, s1, TOOLS, s2, TOOLS);
    var t := SettleCall(cfg, env, s2, call, cid, response).1;
    assert Paced(s2, TOOLS, t, TOOLS) by {
      PacedSame(s2, s2, TOOLS);
      NotePaced(cfg, env, s2, "tool_call_end", TOOLS);
      AnswerPaced(cfg, env, s2, call, INTERRUPTED + call.name, ByCancel(call));
      if response.Ok? {
        AnswerPaced(cfg, env, s2, call, ToolContent(response.value.payload), ByTool(call, cid));
      }
    }
    PacedTrans(s, TOOLS, s2, TOOLS, t, TOOLS);
  }

  lemma BatchTurnPaced(cfg: Config, env: Env, s: State, call: ToolCall)
    ensures Paced(s, TOOLS, BatchTurn(cfg, env, s, call).1, TOOLS)
  {
    hide Paced, Gate, ExecuteTool, Note, Say;
    var s1 := Poll(env, s).1;
    var s2 := s1.(turnCount := s1.turnCount + 1);
    PacedSame(s, s1, TOOLS);
    PacedSame(s, s2, TOOLS);
    var t := BatchTurn(cfg, env, s, call).1;
    if Poll(env, s).0 {
      AnswerPaced(cfg, env, s1, call, CANCELLED + call.name, ByCancel(call));
      PacedTrans(s, TOOLS, s1, TOOLS, t, TOOLS);
    } else {
      GatePaced(cfg, env, s2, call);
      var (verdict, s3) := Gate(cfg, env, s2, call);
      PacedTrans(s, TOOLS, s2, TOOLS, s3, TOOLS);
      if verdict.Passed? {
        ExecutePaced(cfg, env, s3, call, verdict.permit);
        PacedTrans(s, TOOLS, s3, TOOLS, t, TOOLS);
      }
    }
  }

  lemma {:induction false} ToolTurnsPaced(cfg: Config, env: Env, s: State, calls: seq<ToolCall>, i: nat,
                                          results: seq<Result<Json, RunError>>)
    requires i <= |calls|
    ensures Paced(s, TOOLS, ToolTurns(cfg, env, s, calls, i, results).1, TOOLS)
    decreases |calls| - i
  {
    hide Paced, BatchTurn;
    if i == |calls| {
      PacedSame(s, s, TOOLS);
    } else {
      BatchTurnPaced(cfg, env, s, calls[i]);
      var (r, t) := BatchTurn(cfg, env, s, calls[i]);
      if r != Err(Panicked) {
        ToolTurnsPaced(cfg, env, t, calls, i + 1, results + [r]);
        PacedTrans(s, TOOLS, t, TOOLS, ToolTurns(cfg, env, t, calls, i + 1, results + [r]).1, TOOLS);
      }
    }
  }

  // ── Checkpoints ─────────────────────────────────────────────────────

  lemma RecordPaced(cfg: Config, env: Env, s: State, m: Message, cid: Uuid, at: Option<string>)
    ensures Paced(s, at, RecordOutbound(cfg, env, s, m, cid).1, at)
  {
    hide Paced, Append;
    PacedSame(s, s, at);
    AppendPaced(env, s, OutboundSent(m.msgType, cid, 1, m.to, m.payload, env.writes(s.writes).at), at);
  }

  lemma CommandPaced(cfg: Config, env: Env, s: State, m: Message, cid: Uuid, trigger: string)
    ensures Paced(s, Some(trigger), Command(cfg, env, s, m, cid, Dispatching(trigger)).1, Some(trigger))
  {
    hide Paced, RecordOutbound, Hand;
    var at := Some(trigger);
    RecordPaced(cfg, env, s, m, cid, at);
    var s1 := RecordOutbound(cfg, env, s, m, cid).1;
    HandPaced(env, s1, m, Dispatching(trigger), at);
    PacedTrans(s, at, s1, at, Hand(env, s1, m, Dispatching(trigger)).1, at);
  }

  lemma QueryPaced(cfg: Config, env: Env, s: State, trigger: string, d: CheckpointMsg)
    ensures Paced(s, Some(trigger), Query(cfg, env, s, trigger, d).1, Some(trigger))
  {
    hide Paced, RecordOutbound, Hand, AfterSend;
    var at, m := Some(trigger), MessageOf(cfg, d);
    var s0 := Poll(env, s).1;
    PacedSame(s, s0, at);
    var (e, s1) := Register(s0, d.rule.cid, AllMembers, AtLeastOne(|d.recipients|));
    PacedSame(s, s1, at);
    RecordPaced(cfg, env, s1, m, d.rule.cid, at);
    var s2 := RecordOutbound(cfg, env, s1, m, d.rule.cid).1;
    PacedTrans(s, at, s1, at, s2, at);
    DidPaced(s2, at, Unrecorded);
    PacedTrans(s, at, s2, at, s2.Did(Unrecorded), at);
    HandPaced(env, s2, m, Dispatching(trigger), at);
    var (sent, s3) := Hand(env, s2, m, Dispatching(trigger));
    PacedTrans(s, at, s2, at, s3, at);
    AfterSendPaced(cfg, env, s3, sent, e, ResponseTypeFor(d.rule.msgType), at);
    PacedTrans(s, at, s3, at, AfterSend(cfg, env, s3, sent, e, ResponseTypeFor(d.rule.msgType)).1, at);
  }

  lemma {:induction false} DispatchAllPaced(cfg: Config, env: Env, s: State, trigger: string, built: seq<CheckpointMsg>,
                                            i: nat)
    requires i <= |built|
    ensures Paced(s, Some(trigger), DispatchAll(cfg, env, s, trigger, built, i).1, Some(trigger))
    decreases |built| - i
  {
    hide Paced, Query, Command;
    var at := Some(trigger);
    PacedSame(s, s, at);
    if i < |built| {
      QueryPaced(cfg, env, s, trigger, built[i]);
      CommandPaced(cfg, env, s, MessageOf(cfg, built[i]), built[i].rule.cid, trigger);
      var (r, t) := DispatchOne(cfg, env, s, trigger, built[i]);
      if r.Ok? {
        DispatchAllPaced(cfg, env, t, trigger, built, i + 1);
        PacedTrans(s, at, t, at, DispatchAll(cfg, env, t, trigger, built, i + 1).1, at);
      }
    }
  }

  /** A checkpoint that may come next; whether it is reached, a successful one was. */
  ghost predicate Reaches(s: State, from: Option<string>, trigger: string, r: Result<(), RunError>, t: State) {
    Paced(s, from, t, Some(trigger)) || (r.Err? && Paced(s, from, t, from))
  }

  lemma ConsultPaced(cfg: Config, env: Env, s: State, trigger: string, from: Option<string>)
    requires MayFollow(from, trigger)
    ensures Paced(s, from, Consult(cfg, env, s, trigger).1, Some(trigger))
  {
    hide Paced, DispatchAll, Evaluated, MayFollow;
    var at := Some(trigger);
    var input := env.checks(s.checks);
    var before := if input.invalidated then map[] else s.cached;
    var (built, cached) := Evaluated(trigger, input.rules, cfg.routes, input.nodes, before);
    var s1 := s.(checks := s.checks + 1, cached := cached);
    var s2 := s1.Did(Consulted(trigger));
    PacedSame(s, s1, from);
    DidPaced(s1, from, Consulted(trigger));
    PacedTrans(s, from, s1, from, s2, at);
    if built.Ok? {
      DispatchAllPaced(cfg, env, s2, trigger, built.value, 0);
      PacedTrans(s, from, s2, at, DispatchAll(cfg, env, s2, trigger, built.value, 0).1, at);
    }
  }

  lemma CheckPaced(cfg: Config, env: Env, s: State, trigger: string, from: Option<string>)
    requires MayFollow(from, trigger)
    ensures var (r, t) := Check(cfg, env, s, trigger); Reaches(s, from, trigger, r, t)
  {
    hide Paced, Consult, WriteLine, MayFollow;
    var s1 := Poll(env, s).1;
    PacedSame(s, s1, from);
    PacedSame(s1, s1, from);
    WritePaced(env, s1, Scribbled, from);
    var s2 := SaveState(cfg, env, s1).1;
    PacedTrans(s, from, s1, from, s2, from);
    ConsultPaced(cfg, env, s2, trigger, from);
    PacedTrans(s, from, s2, from, Consult(cfg, env, s2, trigger).1, Some(trigger));
  }

  // ── Passes ──────────────────────────────────────────────────────────

  const ASKING: Option<string> := Some("before_model_call")
  const ASKED: Option<string> := Some("after_model_call")
  const DONE: Option<string> := Some("after_tool_exec")
  const ENDED: Option<string> := Some("round_end")

  lemma ModelTurnPaced(cfg: Config, env: Env, s: State)
    ensures Paced(s, ASKING, ModelTurn(cfg, env, s).1, ASKING)
  {
    hide Paced, SendAndAwait, Note, ContentOf, CallsOf, Say;
    var s1 := s.(turnCount := s.turnCount + 1, modelTurns := s.modelTurns + 1);
    PacedSame(s, s1, ASKING);
    var (cid, s2) := Fresh(s1);
    PacedSame(s, s2, ASKING);
    var m := ModelCall(cfg, cid);
    SendAndAwaitPaced(cfg, env, s2, m, Asking, cid, ASKING);
    var (response, s3) := SendAndAwait(cfg, env, s2, m, Asking, cid);
    PacedTrans(s, ASKING, s2, ASKING, s3, ASKING);
    if response.Ok? && !env.aborts(s.modelTurns) {
      var p := response.value.payload;
      var s4 := if p.Get("usage").Some? then Note(cfg, env, s3, "model_call_end") else s3;
      PacedSame(s3, s3, ASKING);
      NotePaced(cfg, env, s3, "model_call_end", ASKING);
      PacedTrans(s, ASKING, s3, ASKING, s4, ASKING);
      var said, why := Assistant(ContentOf(p), CallsOf(p)), ByModel(cid);
      SayPaced(s4, said, why, ASKING);
      PacedTrans(s, ASKING, s4, ASKING, Say(s4, said, why), ASKING);
    }
  }

  /** A look at the token, then a checkpoint. */
  lemma PolledCheckPaced(cfg: Config, env: Env, s: State, trigger: string, from: Option<string>)
    requires MayFollow(from, trigger)
    ensures var s1 := Poll(env, s).1; var (r, t) := Check(cfg, env, s1, trigger);
            Paced(s, from, s1, from) && Reaches(s, from, trigger, r, t)
  {
    hide Paced, Check, MayFollow;
    var s1 := Poll(env, s).1;
    PacedSame(s, s1, from);
    CheckPaced(cfg, env, s1, trigger, from);
    var (r, t) := Check(cfg, env, s1, trigger);
    if Paced(s1, from, t, Some(trigger)) {
      PacedTrans(s, from, s1, from, t, Some(trigger));
    } else {
      PacedTrans(s, from, s1, from, t, from);
    }
  }

  /** Somewhere on the way; and there if it went well. */
  ghost predicate Arrives(s: State, from: Option<string>, ok: bool, t: State, to: Option<string>) {
    exists stop :: Paced(s, from, t, stop) && (ok ==> stop == to)
  }

  lemma ArrivesAt(s: State, from: Option<string>, ok: bool, t: State, to: Option<string>, stop: Option<string>)
    requires Paced(s, from, t, stop) && (ok ==> stop == to)
    ensures Arrives(s, from, ok, t, to)
  {
  }

  lemma ArrivesThen(s: State, from: Option<string>, t: State, mid: Option<string>, ok: bool, u: State,
                    to: Option<string>)
    requires Paced(s, from, t, mid) && Arrives(t, mid, ok, u, to)
    ensures Arrives(s, from, ok, u, to)
  {
    hide Paced;
    var stop :| Paced(t, mid, u, stop) && (ok ==> stop == to);
    PacedTrans(s, from, t, mid, u, stop);
  }

  lemma ReachedArrives(s: State, from: Option<string>, trigger: string, r: Result<(), RunError>, t: State)
    requires Reaches(s, from, trigger, r, t)
    ensures Arrives(s, from, r.Ok?, t, Some(trigger))
  {
    hide Paced;
  }

  lemma AfterModelPaced(cfg: Config, env: Env, s: State, answer: ModelAnswer)
    ensures var (r, t) := AfterModel(cfg, env, s, answer); Arrives(s, ASKING, r.Ok?, t, ASKED)
  {
    assert MayFollow(ASKING, "after_model_call");
    hide Arrives, Check, Spent, MayFollow;
    CheckedArrives(cfg, env, s, "after_model_call", ASKING, ASKED);
  }

  lemma ArrivesLess(s: State, from: Option<string>, ok: bool, t: State, to: Option<string>)
    requires Arrives(s, from, ok, t, to)
    ensures Arrives(s, from, false, t, to)
  {
    hide Paced;
  }

  lemma ModelPhasePaced(cfg: Config, env: Env, s: State, from: Option<string>)
    requires from == None || from == DONE
    ensures var (r, t) := ModelPhase(cfg, env, s); Arrives(s, from, r.Ok?, t, ASKED)
  {
    assert MayFollow(from, "before_model_call");
    hide Arrives, Check, ModelTurn, AfterModel, Spent, MayFollow, Poll;
    CheckedArrives(cfg, env, s, "before_model_call", from, ASKED);
    var (stop, s1) := Poll(env, s);
    if stop || Spent(s1.turnCount, cfg.maxTurns) {
      return;
    }
    var (before, s2) := Check(cfg, env, s1, "before_model_call");
    if before.Err? || Spent(s2.turnCount, cfg.maxTurns) {
      return;
    }
    AskedPaced(cfg, env, s, from, s2);
  }

  /** Up to the checkpoint, seen from the way to a later one. */
  lemma CheckedArrives(cfg: Config, env: Env, s: State, trigger: string, from: Option<string>, to: Option<string>)
    requires MayFollow(from, trigger)
    ensures var s1 := Poll(env, s).1; var (r, t) := Check(cfg, env, s1, trigger);
            Arrives(s, from, false, s1, to) && Arrives(s, from, false, t, to)
               && Arrives(s, from, r.Ok?, t, Some(trigger))
  {
    hide Paced, Arrives, Reaches, Check, MayFollow;
    PolledCheckPaced(cfg, env, s, trigger, from);
    var s1 := Poll(env, s).1;
    ArrivesAt(s, from, false, s1, to, from);
    var (r, t) := Check(cfg, env, s1, trigger);
    ReachedArrives(s, from, trigger, r, t);
    ArrivesLess(s, from, r.Ok?, t, Some(trigger));
    ArrivesAnywhere(s, from, t, Some(trigger), to);
  }

  lemma ArrivesAnywhere(s: State, from: Option<string>, t: State, to: Option<string>, other: Option<string>)
    requires Arrives(s, from, false, t, to)
    ensures Arrives(s, from, false, t, other)
  {
    hide Paced;
  }

  lemma AskedPaced(cfg: Config, env: Env, s: State, from: Option<string>, s2: State)
    requires Arrives(s, from, true, s2, ASKING)
    ensures var (answer, s3) := ModelTurn(cfg, env, s2);
            && Arrives(s, from, false, s3, ASKED)
            && (answer.Ok? ==>
                  var (r, t) := AfterModel(cfg, env, s3, answer.value); Arrives(s, from, r.Ok?, t, ASKED))
  {
    hide Paced, ModelTurn, AfterModel;
    assert Paced(s, from, s2, ASKING);
    ModelTurnPaced(cfg, env, s2);
    var (answer, s3) := ModelTurn(cfg, env, s2);
    PacedTrans(s, from, s2, ASKING, s3, ASKING);
    ArrivesAt(s, from, false, s3, ASKED, ASKING);
    if answer.Ok? {
      AfterModelPaced(cfg, env, s3, answer.value);
      var (r, t) := AfterModel(cfg, env, s3, answer.value);
      ArrivesThen(s, from, s3, ASKING, r.Ok?, t, ASKED);
    }
  }

  lemma ToolPhasePaced(cfg: Config, env: Env, s: State, calls: seq<ToolCall>)
    ensures var (stop, t) := ToolPhase(cfg, env, s, calls); Arrives(s, ASKED, stop.None?, t, DONE)
  {
    assert MayFollow(ASKED, "before_tool_exec");
    hide Arrives, Check, ToolTurns, AfterTools, MayFollow;
    CheckedArrives(cfg, env, s, "before_tool_exec", ASKED, DONE);
    var s1 := Poll(env, s).1;
    var (before, s2) := Check(cfg, env, s1, "before_tool_exec");
    if before.Ok? {
      BatchPaced(cfg, env, s, s2, calls);
    }
  }

  lemma BatchPaced(cfg: Config, env: Env, s: State, s2: State, calls: seq<ToolCall>)
    requires Arrives(s, ASKED, true, s2, TOOLS)
    ensures var (results, s3) := ToolTurns(cfg, env, s2, calls, 0, []);
            var (stop, t) := AfterTools(cfg, env, s3, FirstError(results));
            Arrives(s, ASKED, false, s3, DONE) && Arrives(s, ASKED, stop.None?, t, DONE)
  {
    hide Paced, ToolTurns, Check, Spent;
    ToolTurnsPaced(cfg, env, s2, calls, 0, []);
    var (results, s3) := ToolTurns(cfg, env, s2, calls, 0, []);
    PacedTrans(s, ASKED, s2, TOOLS, s3, TOOLS);
    CheckPaced(cfg, env, s3, "after_tool_exec", TOOLS);
    var (after, t) := Check(cfg, env, s3, "after_tool_exec");
    ReachedArrives(s3, TOOLS, "after_tool_exec", after, t);
    ArrivesThen(s, ASKED, s3, TOOLS, after.Ok?, t, DONE);
    ArrivesLess(s, ASKED, after.Ok?, t, DONE);
  }

  /** Where a pass ends. */
  ghost function EndOf(end: PassEnd): Option<string> {
    if end.GoOn? then DONE else ENDED
  }

  lemma PassPaced(cfg: Config, env: Env, s: State, from: Option<string>)
    requires from == None || from == DONE
    ensures var (end, t) := Pass(cfg, env, s); Arrives(s, from, !end.Failed?, t, EndOf(end))
  {
    hide Paced, Arrives, ModelPhase, ToolPhase, EndRound;
    ModelPhasePaced(cfg, env, s, from);
    var (answer, s1) := ModelPhase(cfg, env, s);
    ArrivesLess(s, from, answer.Ok?, s1, ASKED);
    ArrivesAnywhere(s, from, s1, ASKED, ENDED);
    if answer.Ok? {
      var (end, t) := Pass(cfg, env, s);
      assert Arrives(s1, ASKED, !end.Failed?, t, EndOf(end)) by {
        if answer.value.Answered? && answer.value.calls != [] {
          ToolPhasePaced(cfg, env, s1, answer.value.calls);
          var (stop, u) := ToolPhase(cfg, env, s1, answer.value.calls);
          ArrivesLess(s1, ASKED, stop.None?, u, DONE);
          ArrivesAnywhere(s1, ASKED, u, DONE, ENDED);
        } else {
          EndRoundPaced(cfg, env, s1, if answer.value.Aborted? then "" else answer.value.content);
        }
      }
      Onward(s, from, s1, ASKED, !end.Failed?, t, EndOf(end));
    }
  }

  lemma Onward(s: State, from: Option<string>, t: State, mid: Option<string>, ok: bool, u: State, to: Option<string>)
    requires Arrives(s, from, true, t, mid) && Arrives(t, mid, ok, u, to)
    ensures Arrives(s, from, ok, u, to)
  {
    hide Paced;
    assert Paced(s, from, t, mid);
    ArrivesThen(s, from, t, mid, ok, u, to);
  }

  lemma EndRoundPaced(cfg: Config, env: Env, s: State, content: string)
    ensures var (end, t) := EndRound(cfg, env, s, content); Arrives(s, ASKED, !end.Failed?, t, ENDED)
  {
    hide Paced, Check;
    CheckPaced(cfg, env, s, "round_end", ASKED);
    var (end, t) := Check(cfg, env, s, "round_end");
    ReachedArrives(s, ASKED, "round_end", end, t);
  }

  lemma {:induction false} LoopPaced(cfg: Config, env: Env, s: State, from: Option<string>)
    requires from == None || from == DONE
    ensures var (r, t) := Loop(cfg, env, s); Arrives(s, from, r.Ok?, t, ENDED)
    decreases |s.inbox|
  {
    hide Paced, Arrives, Pass;
    PassPaced(cfg, env, s, from);
    var (end, t) := Pass(cfg, env, s);
    if end.GoOn? {
      LoopPaced(cfg, env, t, DONE);
      var (r, u) := Loop(cfg, env, t);
      Onward(s, from, t, DONE, r.Ok?, u, ENDED);
    }
  }

  lemma RunPaced(cfg: Config, env: Env, s: State, input: string)
    ensures var (r, t) := Run(cfg, env, s, input); Arrives(s, None, r.Ok?, t, ENDED)
  {
    hide Paced, Arrives, Loop;
    PacedSame(s, s, None);
    ArrivesAt(s, None, false, s, ENDED, None);
    var u := s.(roundCount := s.roundCount + 1);
    SayPaced(s, User(input), ByUser, None);
    var said := Say(s, User(input), ByUser);
    PacedSame(said, Prepared(s, input), None);
    PacedTrans(s, None, said, None, Prepared(s, input), None);
    LoopPaced(cfg, env, Prepared(s, input), None);
    var (r, t) := Loop(cfg, env, Prepared(s, input));
    ArrivesThen(s, None, Prepared(s, input), None, r.Ok?, t, ENDED);
  }

  // ── The word of a run ───────────────────────────────────────────────

  /** The checkpoints consulted, in order. */
  ghost function Consults(acts: History): seq<string> {
    if acts == [] then []
    else
      var before, a := Consults(acts[..|acts| - 1]), acts[|acts| - 1];
      if a.Consulted? then before + [a.trigger] else before
  }

  /** `n` passes with a batch of tool calls. */
  ghost function Batches(n: nat): seq<string> {
    if n == 0 then []
    else Batches(n - 1) + ["before_model_call", "after_model_call", "before_tool_exec", "after_tool_exec"]
  }

  /** And the last pass. */
  ghost function Word(n: nat): seq<string> {
    Batches(n) + ["before_model_call", "after_model_call", "round_end"]
  }

  /** So far in the pass at hand. */
  ghost function PassSoFar(last: Option<string>): seq<string> {
    if last == ASKING then ["before_model_call"]
    else if last == ASKED then ["before_model_call", "after_model_call"]
    else if last == TOOLS then ["before_model_call", "after_model_call", "before_tool_exec"]
    else if last == ENDED then ["before_model_call", "after_model_call", "round_end"]
    else []
  }

  lemma {:induction false} FittingSpells(acts: History) returns (n: nat)
    requires Fitting(None, acts)
    ensures Consults(acts) == Batches(n) + PassSoFar(Last(None, acts))
    ensures Last(None, acts) in {None, ASKING, ASKED, TOOLS, DONE, ENDED}
    decreases |acts|
  {
    if acts == [] {
      n := 0;
    } else {
      var front, a := acts[..|acts| - 1], acts[|acts| - 1];
      n := FittingSpells(front);
      if a.Consulted? {
        var last := Last(None, front);
        if last == TOOLS {
          assert Consults(acts) == Batches(n + 1) + [];
          n := n + 1;
        } else {
          assert Consults(acts) == Batches(n) + (PassSoFar(last) + [a.trigger]);
        }
      }
    }
  }

  lemma SoFarIsBeginning(n: nat, last: Option<string>)
    ensures Batches(n) + PassSoFar(last) <= Word(n) || Batches(n) + PassSoFar(last) <= Word(n + 1)
  {
    var so, tools := PassSoFar(last), ["before_model_call", "after_model_call", "before_tool_exec", "after_tool_exec"];
    if last == TOOLS {
      assert Batches(n + 1) == Batches(n) + tools && so == tools[..3];
    }
  }

  ghost predicate Spells(s: State, ok: bool, t: State) {
    && s.hist <= t.hist && Fitting(None, t.hist[|s.hist|..])
    && exists n :: Consults(t.hist[|s.hist|..]) <= Word(n) && (ok ==> Consults(t.hist[|s.hist|..]) == Word(n))
  }

  /**
   * The checkpoints a run consults are a beginning of passes with tools and one without; on success they are all of it.
   * And each act of the run fits between them: the model is asked after before_model_call and before any other
   * checkpoint, executions and permission requests stand between before_tool_exec and after_tool_exec, and a
   * checkpoint's messages go out before the next one.
   */
  lemma RunSpells(cfg: Config, env: Env, s: State, input: string)
    ensures var (r, t) := Run(cfg, env, s, input); Spells(s, r.Ok?, t)
  {
    hide Run, Fitting;
    RunPaced(cfg, env, s, input);
    var (r, t) := Run(cfg, env, s, input);
    var acts := t.hist[|s.hist|..];
    var n := FittingSpells(acts);
    SoFarIsBeginning(n, Last(None, acts));
    assert Consults(acts) <= Word(n) || Consults(acts) <= Word(n + 1);
    assert r.Ok? ==> Consults(acts) == Word(n);
  }
}
