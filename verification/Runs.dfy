/**
 * What the engine does, as a function of its state and of everything its environment will do. The imperative
 * engine is proved to compute exactly these functions; what it promises is proved about them.
 */
module Runs {
  import opened Wrappers
  import opened Messages
  import opened Dedup
  import opened Discovery
  import opened Outbox
  import opened Conversation
  import opened Histories

  // ── The environment ─────────────────────────────────────────────────

  /** A message still to come, and whether the registered response processor will fail on it. */
  datatype Incoming = Incoming(msg: Message, spoils: bool)

  /** How one append to the log file ends. Only `Done` reports success. */
  datatype Outcome = Done | Unsynced | Unterminated | Torn | Lost

  datatype Write = Write(outcome: Outcome, at: nat)

  /** How one send ends. Only `Taken` reports success; `Unanswered` went out all the same. */
  datatype Delivery = Taken | Unanswered | Refused

  /** What one checkpoint finds: the listener's last word, the graph, and each rule's verdict and message. */
  datatype CheckInput = CheckInput(invalidated: bool, nodes: seq<NodeInfo>, rules: seq<Rule>)

  /**
   * All that happens to an engine from outside: the look at the cancellation token from which on it is set, the
   * outcomes of its sends, appends, checkpoints and middleware calls, each by number, and the store's health.
   */
  datatype Env = Env(cancelAt: Option<nat>, sends: nat -> Delivery, writes: nat -> Write, checks: nat -> CheckInput,
                     aborts: nat -> bool, storeBroken: bool, preSaved: bool, listFails: bool)

  datatype RunError =
    | MaxTurnsExceeded
    | Stopped
    | Internal
    | BusError
    | UndeclaredType(msgType: string)
    | Processor(msgType: string)
    | SessionNotPreSaved
    | SnapshotFailed
    /** No error of the code's: the run unwound. */
    | Panicked

  // ── The state ───────────────────────────────────────────────────────

  /** The last five fields count what was done so far, to number the environment's outcomes. */
  datatype State = State(messages: seq<ModelMessage>, turnCount: nat, roundCount: nat, waitEvents: seq<WaitEvent>,
                         inbox: seq<Incoming>, nextId: Uuid, hist: History, calls: seq<Uuid>, cached: Cached,
                         polls: nat, sends: nat, writes: nat, checks: nat, modelTurns: nat)
  {
    ghost function Did(a: Act): State {
      this.(hist := hist + [a])
    }
  }

  // ── Single acts ─────────────────────────────────────────────────────

  ghost function Poll(env: Env, s: State): (bool, State) {
    (env.cancelAt.Some? && s.polls >= env.cancelAt.value, s.(polls := s.polls + 1))
  }

  ghost function Fresh(s: State): (Uuid, State) {
    (s.nextId, s.(nextId := s.nextId + 1))
  }

  /** An id drawn later differs from every id used before, the application's own included. */
  function Above(nextId: Uuid, cid: Option<Uuid>): Uuid {
    if cid.Some? && cid.value >= nextId then cid.value + 1 else nextId
  }

  /** Text, end of line, sync; each may be the last thing that happens. */
  ghost function WriteLine(env: Env, s: State, text: Act): (bool, State) {
    var t := s.(writes := s.writes + 1);
    match env.writes(s.writes).outcome
    case Done => (true, t.Did(text).Did(Ended))
    case Unsynced => (false, t.Did(text).Did(Ended))
    case Unterminated => (false, t.Did(text))
    case Torn => (false, t.Did(Scribbled))
    case Lost => (false, t)
  }

  ghost function Append(env: Env, s: State, e: Event): (bool, State) {
    WriteLine(env, s, Wrote(e))
  }

  /** A checkpoint's snapshot is a line of the same file. */
  ghost function SaveState(cfg: Config, env: Env, s: State): (bool, State) {
    if cfg.hasStore then WriteLine(env, s, Scribbled) else (true, s)
  }

  /** A statistics event, best effort. */
  ghost function Note(cfg: Config, env: Env, s: State, kind: string): State {
    if cfg.hasStore then Append(env, s, Other(kind)).1 else s
  }

  ghost function Hand(env: Env, s: State, m: Message, origin: Origin): (bool, State) {
    var t := s.Did(Tried(m, origin)).(sends := s.sends + 1, nextId := Above(s.nextId, m.cid));
    match env.sends(s.sends)
    case Taken => (true, t.Did(Sent(m)))
    case Unanswered => (false, t.Did(Sent(m)))
    case Refused => (false, t)
  }

  ghost function Say(s: State, m: ModelMessage, why: Why): State {
    s.(messages := s.messages + [m]).Did(Said(m, why))
  }

  ghost function Register(s: State, cid: Uuid, strategy: WaitStrategy, expected: nat): (WaitEvent, State) {
    var e := WaitEvent(s.nextId, cid, strategy, expected);
    (e, s.(waitEvents := s.waitEvents + [e], nextId := s.nextId + 1))
  }

  ghost function Unregister(s: State, e: WaitEvent): State {
    s.(waitEvents := Without(s.waitEvents, e.id))
  }

  // ── Waiting ─────────────────────────────────────────────────────────

  /**
   * A message nobody waits for: a duplicate reply is dropped, any other reply is recorded; then the handlers' lock is
   * taken with a blocking call, which panics in asynchronous code, and this is asynchronous code. No handler is
   * reached. The first component says whether the run goes on.
   */
  ghost function Unexpected(cfg: Config, env: Env, s: State, m: Message): (bool, State) {
    if IsReplyType(m.msgType) && m.cid.Some? then
      var t := s.(calls := s.calls + [m.cid.value]);
      if IsDuplicate(m, s.calls, cfg.capacity) then (true, t)
      else
        var u := if cfg.hasStore then Append(env, t, InboundReply(m.msgType, m.cid.value, m.from, m.payload)).1 else t;
        (false, u.Did(Unwound(m)))
    else (false, s.Did(Unwound(m)))
  }

  /** A counted peer reply is recorded, best effort. */
  ghost function Counted(cfg: Config, env: Env, s: State, m: Message, cid: Uuid): State {
    if m.msgType == PEER_REPLY && cfg.hasStore then Append(env, s, InboundReply(PEER_REPLY, cid, m.from, Null)).1 else s
  }

  datatype WaitTurn = Still(got: seq<Message>) | Over(result: Result<seq<Message>, RunError>)

  /** A look at the token and the next message off the handle. */
  ghost function Received(s: State, types: seq<string>): State
    requires s.inbox != []
  {
    s.(polls := s.polls + 1, inbox := s.inbox[1..]).Did(Took(s.inbox[0].msg, types))
  }

  /** One turn of the wait loop, `got` being the responses so far. */
  ghost function WaitOnce(cfg: Config, env: Env, s: State, e: WaitEvent, types: seq<string>, got: seq<Message>)
    : (r: (WaitTurn, State))
    ensures |r.1.inbox| <= |s.inbox|
    ensures r.0.Still? || (r.0.Over? && r.0.result.Ok?) ==> |r.1.inbox| < |s.inbox|
  {
    var (stop, s1) := Poll(env, s);
    if stop then (Over(Err(Stopped)), Unregister(s1, e))
    else if s.inbox == [] then (Over(Err(Internal)), s1.Did(Closed))
    else
      var (m, s2) := (s.inbox[0].msg, Received(s, types));
      if m.msgType !in types then
        var (on, s3) := Unexpected(cfg, env, s2, m);
        (if on then Still(got) else Over(Err(Panicked)), s3)
      else if m.cid != Some(e.cid) then (Still(got), s2)
      else if s.inbox[0].spoils then (Over(Err(Processor(m.msgType))), s2.Did(Spoiled(m)))
      else
        var s3 := Counted(cfg, env, s2, m, e.cid);
        if Triggered(e, |got| + 1) then (Over(Ok(got + [m])), Unregister(s3, e))
        else (Still(got + [m]), s3)
  }

  /** The wait loop. */
  ghost function Wait(cfg: Config, env: Env, s: State, e: WaitEvent, types: seq<string>, got: seq<Message>)
    : (r: (Result<seq<Message>, RunError>, State))
    ensures |r.1.inbox| <= |s.inbox| && (r.0.Ok? ==> |r.1.inbox| < |s.inbox|)
    decreases |s.inbox|
  {
    var (turn, t) := WaitOnce(cfg, env, s, e, types, got);
    match turn
    case Over(r) => (r, t)
    case Still(more) => Wait(cfg, env, t, e, types, more)
  }

  function ResponseTypeFor(request: string): string {
    if request == MODEL_CALL then MODEL_RESPONSE
    else if request == TOOL_EXEC then TOOL_RESULT
    else if request == "subagent_delegate" then "subagent_result"
    else if request == PEER_MESSAGE then PEER_REPLY
    else if request == "memory_op" then "memory_op_result"
    else if request == HUMAN_HANDOFF then HUMAN_HANDOFF_REPLY
    else if request == PERMISSION_REQUEST then PERMISSION_RESPONSE
    else request + "_result"
  }

  /** Seven requests have a response of their own; any other is answered under its own name and "_result". */
  ghost predicate IsResponseTo(request: string, response: string) {
    || (request == "model_call" && response == "model_response")
    || (request == "tool_exec" && response == "tool_result")
    || (request == "subagent_delegate" && response == "subagent_result")
    || (request == "peer_message" && response == "peer_reply")
    || (request == "memory_op" && response == "memory_op_result")
    || (request == "human_handoff" && response == "human_handoff_reply")
    || (request == "permission_request" && response == "permission_response")
    || (request !in {"model_call", "tool_exec", "subagent_delegate", "peer_message", "memory_op", "human_handoff",
            "permission_request"} && response == request + "_result")
  }

  lemma ResponseTypeIff(request: string, response: string)
    ensures IsResponseTo(request, response) <==> response == ResponseTypeFor(request)
  {
  }

  /** After the send of a registered request: unregister and report, or wait. */
  ghost function AfterSend(cfg: Config, env: Env, s: State, sent: bool, e: WaitEvent, responseType: string)
    : (r: (Result<seq<Message>, RunError>, State))
    ensures |r.1.inbox| <= |s.inbox| && (r.0.Ok? ==> |r.1.inbox| < |s.inbox|)
  {
    if !sent then (Err(BusError), Unregister(s, e)) else Wait(cfg, env, s, e, [responseType], [])
  }

  /** Register, send, wait, for a request of which all recipients answer. */
  ghost function SendRegistered(cfg: Config, env: Env, s: State, m: Message, origin: Origin, cid: Uuid)
    : (r: (Result<seq<Message>, RunError>, State))
    ensures |r.1.inbox| <= |s.inbox| && (r.0.Ok? ==> |r.1.inbox| < |s.inbox|)
  {
    var (e, s1) := Register(s, cid, AllMembers, AtLeastOne(|m.to|));
    var (sent, s2) := Hand(env, s1, m, origin);
    AfterSend(cfg, env, s2, sent, e, ResponseTypeFor(m.msgType))
  }

  function First<T>(r: Result<seq<T>, RunError>): Result<T, RunError> {
    match r
    case Ok(ms) => if ms == [] then Err(Internal) else Ok(ms[0])
    case Err(e) => Err(e)
  }

  /** For model and tool calls: the first response. */
  ghost function SendAndAwait(cfg: Config, env: Env, s: State, m: Message, origin: Origin, cid: Uuid)
    : (r: (Result<Message, RunError>, State))
    ensures |r.1.inbox| <= |s.inbox| && (r.0.Ok? ==> |r.1.inbox| < |s.inbox|)
  {
    var (stop, s1) := Poll(env, s);
    if stop then (Err(Stopped), s1)
    else
      var (r, s2) := SendRegistered(cfg, env, s1, m, origin, cid);
      (First(r), s2)
  }

  // ── Tool turns ──────────────────────────────────────────────────────

  function Denied(reason: string): Json {
    Obj(map["content" := Str(""), "error" := Str(reason), "permission" := Str("deny")])
  }

  /** The answer to the request, and the request's id. */
  ghost function RequestPermission(cfg: Config, env: Env, s: State, call: ToolCall)
    : (r: (Result<bool, RunError>, Uuid, State))
    ensures |r.2.inbox| <= |s.inbox|
  {
    var (cid, s1) := Fresh(s);
    var (response, s2) := SendRegistered(cfg, env, s1, PermissionRequest(cfg, call, cid), Requesting(call), cid);
    match First(response)
    case Ok(m) => (Ok(SaysAllow(m)), cid, s2)
    case Err(e) => (Err(e), cid, s2)
  }

  datatype Verdict = Passed(permit: Option<Uuid>) | Decided(result: Result<Json, RunError>)

  /** The permission of a call: it passes, or it is settled without being executed. */
  ghost function Gate(cfg: Config, env: Env, s: State, call: ToolCall): (r: (Verdict, State))
    ensures |r.1.inbox| <= |s.inbox|
  {
    match LookupPermission(cfg.permissions, call.name)
    case Allow => (Passed(None), s)
    case Deny =>
      var text := DENIED + call.name;
      (Decided(Ok(Denied(text))), Note(cfg, env, Say(s, ToolReply(call, text), ByPolicy(call)), "tool_call_end"))
    case Ask =>
      var (granted, cid, s1) := RequestPermission(cfg, env, s, call);
      match granted
      case Err(e) => (Decided(Err(e)), s1)
      case Ok(true) => (Passed(Some(cid)), s1)
      case Ok(false) =>
        var text := REFUSED + call.name;
        (Decided(Ok(Denied(text))), Note(cfg, env, Say(s1, ToolReply(call, text), ByRefusal(call, cid)),
            "tool_call_end"))
  }

  /** What becomes of an execution's answer. */
  ghost function SettleCall(cfg: Config, env: Env, s: State, call: ToolCall, cid: Uuid,
                            response: Result<Message, RunError>)
    : (r: (Result<Json, RunError>, State))
    ensures r.1.inbox == s.inbox
  {
    match response
    case Ok(m) =>
      (Ok(m.payload), Note(cfg, env, Say(s, ToolReply(call, ToolContent(m.payload)), ByTool(call, cid)),
          "tool_call_end"))
    case Err(Stopped) =>
      (Err(Stopped), Note(cfg, env, Say(s, ToolReply(call, INTERRUPTED + call.name), ByCancel(call)), "tool_call_end"))
    case Err(Panicked) => (Err(Panicked), s)
    case Err(e) => (Err(e), Note(cfg, env, s, "tool_call_end"))
  }

  ghost function ExecuteTool(cfg: Config, env: Env, s: State, call: ToolCall, permit: Option<Uuid>)
    : (r: (Result<Json, RunError>, State))
    ensures |r.1.inbox| <= |s.inbox|
  {
    var (cid, s1) := Fresh(s);
    var (response, s2) := SendAndAwait(cfg, env, s1, ToolExec(cfg, call, cid), Executing(call, permit), cid);
    SettleCall(cfg, env, s2, call, cid, response)
  }

  ghost function ToolTurn(cfg: Config, env: Env, s: State, call: ToolCall): (r: (Result<Json, RunError>, State))
    ensures |r.1.inbox| <= |s.inbox|
  {
    var (verdict, s1) := Gate(cfg, env, s.(turnCount := s.turnCount + 1), call);
    match verdict
    case Decided(result) => (result, s1)
    case Passed(permit) => ExecuteTool(cfg, env, s1, call, permit)
  }

  /** One call of a batch: after a cancellation it is only answered. */
  ghost function BatchTurn(cfg: Config, env: Env, s: State, call: ToolCall): (r: (Result<Json, RunError>, State))
    ensures |r.1.inbox| <= |s.inbox|
  {
    var (stop, s1) := Poll(env, s);
    if stop then (Err(Stopped), Say(s1, ToolReply(call, CANCELLED + call.name), ByCancel(call)))
    else ToolTurn(cfg, env, s1, call)
  }

  /** The batch from call `i` on, with the results so far. Nothing but a panic cuts it short. */
  ghost function ToolTurns(cfg: Config, env: Env, s: State, calls: seq<ToolCall>, i: nat,
                           results: seq<Result<Json, RunError>>)
    : (r: (seq<Result<Json, RunError>>, State))
    requires i <= |calls|
    ensures |r.1.inbox| <= |s.inbox| && |r.0| <= |results| + |calls| - i && results <= r.0
    ensures Err(Panicked) in r.0[|results|..] || |r.0| == |results| + |calls| - i
    decreases |calls| - i
  {
    if i == |calls| then (results, s)
    else
      var (result, t) := BatchTurn(cfg, env, s, calls[i]);
      if result == Err(Panicked) then (results + [result], t)
      else ToolTurns(cfg, env, t, calls, i + 1, results + [result])
  }

  // ── Checkpoints ─────────────────────────────────────────────────────

  /** Records a message before it is sent; without a store there is nothing to do. */
  ghost function RecordOutbound(cfg: Config, env: Env, s: State, m: Message, cid: Uuid): (r: (bool, State))
    ensures r.1.inbox == s.inbox
  {
    if !cfg.hasStore then (true, s)
    else Append(env, s, OutboundSent(m.msgType, cid, 1, m.to, m.payload, env.writes(s.writes).at))
  }

  function MessageOf(cfg: Config, d: CheckpointMsg): Message {
    Message(d.rule.msgType, cfg.agentId, d.recipients, Some(d.rule.cid), d.rule.body)
  }

  /** Register, record, send, wait. A failing record leaves the event behind. */
  ghost function RegisteredQuery(cfg: Config, env: Env, s: State, trigger: string, d: CheckpointMsg)
    : (r: (Result<seq<Message>, RunError>, State))
    ensures |r.1.inbox| <= |s.inbox|
  {
    var (e, s1) := Register(s, d.rule.cid, AllMembers, AtLeastOne(|d.recipients|));
    var (recorded, s2) := RecordOutbound(cfg, env, s1, MessageOf(cfg, d), d.rule.cid);
    if !recorded then (Err(SnapshotFailed), s2.Did(Unrecorded))
    else
      var (sent, s3) := Hand(env, s2, MessageOf(cfg, d), Dispatching(trigger));
      AfterSend(cfg, env, s3, sent, e, ResponseTypeFor(d.rule.msgType))
  }

  ghost function Query(cfg: Config, env: Env, s: State, trigger: string, d: CheckpointMsg)
    : (r: (Result<seq<Message>, RunError>, State))
    ensures |r.1.inbox| <= |s.inbox|
  {
    var (stop, s1) := Poll(env, s);
    if stop then (Err(Stopped), s1) else RegisteredQuery(cfg, env, s1, trigger, d)
  }

  /** Record, send. */
  ghost function Command(cfg: Config, env: Env, s: State, m: Message, cid: Uuid, origin: Origin)
    : (r: (Result<(), RunError>, State))
    ensures r.1.inbox == s.inbox
  {
    var (recorded, s1) := RecordOutbound(cfg, env, s, m, cid);
    if !recorded then (Err(SnapshotFailed), s1)
    else
      var (sent, s2) := Hand(env, s1, m, origin);
      (if sent then Ok(()) else Err(BusError), s2)
  }

  ghost function DispatchOne(cfg: Config, env: Env, s: State, trigger: string, d: CheckpointMsg)
    : (r: (Result<(), RunError>, State))
    ensures |r.1.inbox| <= |s.inbox|
  {
    if d.rule.query then
      var (answers, t) := Query(cfg, env, s, trigger, d);
      (match answers case Ok(_) => Ok(()) case Err(e) => Err(e), t)
    else Command(cfg, env, s, MessageOf(cfg, d), d.rule.cid, Dispatching(trigger))
  }

  ghost function DispatchAll(cfg: Config, env: Env, s: State, trigger: string, built: seq<CheckpointMsg>, i: nat)
    : (r: (Result<(), RunError>, State))
    requires i <= |built|
    ensures |r.1.inbox| <= |s.inbox|
    decreases |built| - i
  {
    if i == |built| then (Ok(()), s)
    else
      var (r, t) := DispatchOne(cfg, env, s, trigger, built[i]);
      if r.Err? then (r, t) else DispatchAll(cfg, env, t, trigger, built, i + 1)
  }

  /** The rules' verdicts, routed, and dispatched. */
  ghost function Consult(cfg: Config, env: Env, s: State, trigger: string): (r: (Result<(), RunError>, State))
    ensures |r.1.inbox| <= |s.inbox|
  {
    var input := env.checks(s.checks);
    var before := if input.invalidated then map[] else s.cached;
    var (built, cached) := Evaluated(trigger, input.rules, cfg.routes, input.nodes, before);
    var t := s.(checks := s.checks + 1, cached := cached).Did(Consulted(trigger));
    match built
    case Err(e) => (Err(UndeclaredType(e.msgType)), t)
    case Ok(msgs) => DispatchAll(cfg, env, t, trigger, msgs, 0)
  }

  ghost function Check(cfg: Config, env: Env, s: State, trigger: string): (r: (Result<(), RunError>, State))
    ensures |r.1.inbox| <= |s.inbox|
  {
    var (stop, s1) := Poll(env, s);
    if stop then (Err(Stopped), s1)
    else
      var (taken, s2) := SaveState(cfg, env, s1);
      if taken then Consult(cfg, env, s2, trigger) else (Err(SnapshotFailed), s2)
  }

  // ── One pass ────────────────────────────────────────────────────────

  datatype ModelAnswer = Aborted | Answered(content: string, calls: seq<ToolCall>)

  /** Counts the turn, then asks the model, unless a middleware aborts the call. */
  ghost function ModelTurn(cfg: Config, env: Env, s: State): (r: (Result<ModelAnswer, RunError>, State))
    ensures |r.1.inbox| <= |s.inbox| && (r.0.Ok? && r.0.value.Answered? ==> |r.1.inbox| < |s.inbox|)
  {
    var s1 := s.(turnCount := s.turnCount + 1, modelTurns := s.modelTurns + 1);
    if env.aborts(s.modelTurns) then (Ok(Aborted), s1)
    else
      var (cid, s2) := Fresh(s1);
      var (response, s3) := SendAndAwait(cfg, env, s2, ModelCall(cfg, cid), Asking, cid);
      match response
      case Err(e) => (Err(e), s3)
      case Ok(m) =>
        var s4 := if m.payload.Get("usage").Some? then Note(cfg, env, s3, "model_call_end") else s3;
        var content, calls := ContentOf(m.payload), CallsOf(m.payload);
        (Ok(Answered(content, calls)), Say(s4, Assistant(content, calls), ByModel(cid)))
  }

  /** Cancellation, budget, checkpoint, budget, model turn, cancellation, checkpoint, budget. */
  ghost function ModelPhase(cfg: Config, env: Env, s: State): (r: (Result<ModelAnswer, RunError>, State))
    ensures |r.1.inbox| <= |s.inbox| && (r.0.Ok? && r.0.value.Answered? ==> |r.1.inbox| < |s.inbox|)
  {
    var (stop, s1) := Poll(env, s);
    if stop then (Err(Stopped), s1)
    else if Spent(s1.turnCount, cfg.maxTurns) then (Err(MaxTurnsExceeded), s1)
    else
      var (before, s2) := Check(cfg, env, s1, "before_model_call");
      if before.Err? then (Err(before.error), s2)
      else if Spent(s2.turnCount, cfg.maxTurns) then (Err(MaxTurnsExceeded), s2)
      else
        var (answer, s3) := ModelTurn(cfg, env, s2);
        if answer.Err? then (answer, s3) else AfterModel(cfg, env, s3, answer.value)
  }

  ghost function AfterModel(cfg: Config, env: Env, s: State, answer: ModelAnswer)
    : (r: (Result<ModelAnswer, RunError>, State))
    ensures |r.1.inbox| <= |s.inbox| && (r.0.Ok? ==> r.0.value == answer)
  {
    var (stop, s1) := Poll(env, s);
    if stop then (Err(Stopped), s1)
    else
      var (after, s2) := Check(cfg, env, s1, "after_model_call");
      if after.Err? then (Err(after.error), s2)
      else if Spent(s2.turnCount, cfg.maxTurns) then (Err(MaxTurnsExceeded), s2)
      else (Ok(answer), s2)
  }

  /** What a batch ends with: its panic, or else its first error. */
  ghost function BatchError(results: seq<Result<Json, RunError>>): Option<RunError> {
    if Err(Panicked) in results then Some(Panicked) else FirstError(results)
  }

  function FirstError(results: seq<Result<Json, RunError>>): (e: Option<RunError>)
    ensures e.Some? ==> Err(e.value) in results
  {
    if results == [] then None
    else if results[0].Err? then Some(results[0].error)
    else FirstError(results[1..])
  }

  /** The tool half of a pass: all calls run, also after an error, but not after a panic; `None`: the loop goes on. */
  ghost function ToolPhase(cfg: Config, env: Env, s: State, calls: seq<ToolCall>): (r: (Option<RunError>, State))
    ensures |r.1.inbox| <= |s.inbox|
  {
    var (stop, s1) := Poll(env, s);
    if stop then (Some(Stopped), s1)
    else
      var (before, s2) := Check(cfg, env, s1, "before_tool_exec");
      if before.Err? then (Some(before.error), s2)
      else
        var (results, s3) := ToolTurns(cfg, env, s2, calls, 0, []);
        if Err(Panicked) in results then (Some(Panicked), s3) else AfterTools(cfg, env, s3, FirstError(results))
  }

  ghost function AfterTools(cfg: Config, env: Env, s: State, failure: Option<RunError>): (r: (Option<RunError>, State))
    ensures |r.1.inbox| <= |s.inbox|
  {
    var (after, t) := Check(cfg, env, s, "after_tool_exec");
    if after.Err? then (Some(after.error), t)
    else if failure.Some? then (failure, t)
    else if Spent(t.turnCount, cfg.maxTurns) then (Some(MaxTurnsExceeded), t)
    else (None, t)
  }

  datatype PassEnd = GoOn | Finished(content: string) | Failed(error: RunError)

  ghost function Pass(cfg: Config, env: Env, s: State): (r: (PassEnd, State))
    ensures |r.1.inbox| <= |s.inbox| && (r.0.GoOn? ==> |r.1.inbox| < |s.inbox|)
  {
    var (answer, s1) := ModelPhase(cfg, env, s);
    match answer
    case Err(e) => (Failed(e), s1)
    case Ok(Aborted) => EndRound(cfg, env, s1, "")
    case Ok(Answered(content, calls)) =>
      if calls == [] then EndRound(cfg, env, s1, content)
      else
        var (stop, s2) := ToolPhase(cfg, env, s1, calls);
        (match stop case Some(e) => Failed(e) case None => GoOn, s2)
  }

  ghost function EndRound(cfg: Config, env: Env, s: State, content: string): (r: (PassEnd, State))
    ensures |r.1.inbox| <= |s.inbox| && !r.0.GoOn?
  {
    var (end, t) := Check(cfg, env, s, "round_end");
    (match end case Ok(_) => Finished(content) case Err(e) => Failed(e), t)
  }

  // ── Whole runs ──────────────────────────────────────────────────────

  ghost function Loop(cfg: Config, env: Env, s: State): (Result<string, RunError>, State)
    decreases |s.inbox|
  {
    var (end, t) := Pass(cfg, env, s);
    match end
    case GoOn => Loop(cfg, env, t)
    case Finished(content) => (Ok(content), t)
    case Failed(e) => (Err(e), t)
  }

  ghost function Prepared(s: State, input: string): State {
    Say(s, User(input), ByUser).(roundCount := s.roundCount + 1)
  }

  ghost function Run(cfg: Config, env: Env, s: State, input: string): (Result<string, RunError>, State) {
    if cfg.hasStore && env.storeBroken then (Err(SnapshotFailed), s)
    else if cfg.hasStore && !env.preSaved then (Err(SessionNotPreSaved), s)
    else Loop(cfg, env, Prepared(s, input))
  }

  /** A run between the records of its start and its end; a panic leaves no end. */
  ghost function Round(cfg: Config, env: Env, s: State, input: string): (Result<string, RunError>, State) {
    var (r, t) := Run(cfg, env, Note(cfg, env, s, "round_start"), input);
    (r, if r == Err(Panicked) then t else Note(cfg, env, t, "round_end"))
  }

  // ── Handing over to a human ─────────────────────────────────────────

  function AnswerText(r: Result<seq<Message>, RunError>): Result<string, RunError> {
    match First(r)
    case Err(e) => Err(e)
    case Ok(m) => match m.payload.GetStr("answer") case Some(text) => Ok(text) case None => Err(SnapshotFailed)
  }

  function HandoffMessage(cfg: Config, cid: Uuid, question: string, context: Json, options: seq<string>): Message {
    Message(HUMAN_HANDOFF, cfg.agentId, ["ui"], Some(cid), HandoffPayload(question, context, options))
  }

  /** To the user's node: the question, its context, and the options as texts. */
  ghost predicate AsksHuman(cfg: Config, m: Message, question: string, context: Json, options: seq<string>) {
    && m.msgType == HUMAN_HANDOFF && m.from == cfg.agentId && m.to == ["ui"]
    && HasField(m.payload, "question", Str(question)) && HasField(m.payload, "context", context)
    && exists items :: HasField(m.payload, "options", Arr(items)) && |items| == |options|
                       && forall i :: 0 <= i < |items| ==> items[i] == Str(options[i])
  }

  lemma HandoffAsks(cfg: Config, cid: Uuid, question: string, context: Json, options: seq<string>)
    ensures AsksHuman(cfg, HandoffMessage(cfg, cid, question, context, options), question, context, options)
  {
    var payload := HandoffPayload(question, context, options);
    assert HasField(payload, "options", payload.fields["options"]);
  }

  /** Record and send. */
  ghost function HandedOver(cfg: Config, env: Env, s: State, question: string, context: Json, options: seq<string>)
    : (Result<(), RunError>, State)
  {
    var (cid, s1) := Fresh(s);
    Command(cfg, env, s1, HandoffMessage(cfg, cid, question, context, options), cid, Handing)
  }

  /** Hand over, register, wait. */
  ghost function Handoff(cfg: Config, env: Env, s: State, question: string, context: Json, options: seq<string>)
    : (Result<string, RunError>, State)
  {
    var (sent, s1) := HandedOver(cfg, env, s, question, context, options);
    match sent
    case Err(e) => (Err(e), s1)
    case Ok(_) =>
      var (e, s2) := Register(s1, s.nextId, AllMembers, 1);
      var (r, s3) := Wait(cfg, env, s2, e, [HUMAN_HANDOFF_REPLY], []);
      (AnswerText(r), s3)
  }

  // ── Resending ───────────────────────────────────────────────────────

  /** One entry: rebuild, send, and record the next attempt only after a successful send. */
  ghost function ResendOne(cfg: Config, env: Env, s: State, p: PendingOutbound): State {
    match Reconstruct(p, cfg.agentId)
    case Err(_) => s
    case Ok(m) =>
      var (sent, t) := Hand(env, s, m, Resending);
      if sent then Append(env, t, OutboundSent(p.msgType, p.cid, p.attempt + 1, p.target, p.payload,
          env.writes(t.writes).at)).1
      else t
  }

  ghost function ResendFrom(cfg: Config, env: Env, s: State, pending: seq<PendingOutbound>, i: nat): State
    requires i <= |pending|
    decreases |pending| - i
  {
    if i == |pending| then s else ResendFrom(cfg, env, ResendOne(cfg, env, s, pending[i]), pending, i + 1)
  }

  /** After a restart, `pending` being the outbox the store lists; the count is of entries, not of messages sent. */
  ghost function Resend(cfg: Config, env: Env, s: State, pending: seq<PendingOutbound>)
    : (Result<nat, RunError>, State)
  {
    if !cfg.hasStore then (Ok(0), s)
    else if env.listFails then (Err(SnapshotFailed), s)
    else (Ok(|pending|), ResendFrom(cfg, env, s, pending, 0))
  }
}
