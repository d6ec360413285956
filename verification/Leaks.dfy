/** Runs that leave a wait event behind: ending Stopped, with a bus error, with a failed record, or in a panic. */
module Leaks {
  import opened Wrappers
  import opened Messages
  import opened Dedup
  import opened Discovery
  import opened Outbox
  import opened Conversation
  import opened Histories
  import opened Runs
  import opened RunLaws
  import opened TurnLaws
  import opened RunTheorems

  /** No store, no rule that fires, no middleware that aborts, and tools need no permission. */
  ghost predicate Bare(cfg: Config, env: Env) {
    && !cfg.hasStore && cfg.permissions == []
    && (forall n :: env.checks(n).rules == []) && forall n :: !env.aborts(n)
  }

  /** Nobody has cancelled at the first `n` looks. */
  ghost predicate Uncancelled(env: Env, n: nat) {
    env.cancelAt.Some? ==> env.cancelAt.value >= n
  }

  lemma BareCheck(cfg: Config, env: Env, s: State, trigger: string)
    requires Bare(cfg, env) && Uncancelled(env, s.polls + 1)
    ensures var (r, t) := Check(cfg, env, s, trigger);
            r.Ok? && t == s.(polls := s.polls + 1, checks := s.checks + 1, cached := t.cached).Did(Consulted(trigger))
  {
  }

  /** The event a request made in this state waits for. */
  ghost function EventOf(s: State, cid: Uuid): WaitEvent {
    WaitEvent(s.nextId, cid, AllMembers, 1)
  }

  /** What a request without store changes, apart from the wait events and the input. */
  ghost predicate AfterRequest(s: State, t: State) {
    && t.nextId == s.nextId + 1 && t.sends == s.sends + 1
    && t.messages == s.messages && t.turnCount == s.turnCount && t.modelTurns == s.modelTurns && t.polls <= s.polls + 2
  }

  /** A request that the bus refuses. */
  lemma RefusedRequest(cfg: Config, env: Env, s: State, m: Message, origin: Origin, cid: Uuid)
    requires Well(cfg, s) && Uncancelled(env, s.polls + 1) && m.cid == Some(cid) && cid < s.nextId && |m.to| <= 1
    requires env.sends(s.sends) == Refused
    ensures var (r, t) := SendAndAwait(cfg, env, s, m, origin, cid);
            r == Err(BusError) && AfterRequest(s, t) && t.waitEvents == s.waitEvents && t.inbox == s.inbox
  {
    hide Good;
    WithoutNew(s.waitEvents, EventOf(s, cid));
  }

  /** A request after which the handle is closed. */
  lemma ClosedRequest(cfg: Config, env: Env, s: State, m: Message, origin: Origin, cid: Uuid)
    requires Well(cfg, s) && Uncancelled(env, s.polls + 2) && m.cid == Some(cid) && cid < s.nextId && |m.to| <= 1
    requires env.sends(s.sends) == Taken && s.inbox == []
    ensures var (r, t) := SendAndAwait(cfg, env, s, m, origin, cid);
            r == Err(Internal) && AfterRequest(s, t) && t.waitEvents == s.waitEvents + [EventOf(s, cid)]
               && t.polls == s.polls + 2
  {
    hide Good;
  }

  /** A request whose answer comes next, with or without a failing processor. */
  lemma AnsweredRequest(cfg: Config, env: Env, s: State, m: Message, origin: Origin, cid: Uuid)
    requires Well(cfg, s) && !cfg.hasStore && Uncancelled(env, s.polls + 2) && m.cid == Some(cid) && cid < s.nextId
    requires |m.to| <= 1
    requires env.sends(s.sends) == Taken && s.inbox != [] && Counts(s.inbox[0].msg, [ResponseTypeFor(m.msgType)], cid)
    ensures var (r, t) := SendAndAwait(cfg, env, s, m, origin, cid);
            && AfterRequest(s, t) && t.inbox == s.inbox[1..] && t.polls == s.polls + 2
            && if s.inbox[0].spoils then
                 r == Err(Processor(s.inbox[0].msg.msgType)) && t.waitEvents == s.waitEvents + [EventOf(s, cid)]
               else r == Ok(s.inbox[0].msg) && t.waitEvents == s.waitEvents
  {
    hide Good, ResponseTypeFor;
    WithoutNew(s.waitEvents, EventOf(s, cid));
    var s1 := Poll(env, s).1;
    var (e, s2) := Register(s1, cid, AllMembers, AtLeastOne(|m.to|));
    var (sent, s3) := Hand(env, s2, m, origin);
    assert sent && e == EventOf(s, cid);
    var (turn, s4) := WaitOnce(cfg, env, s3, e, [ResponseTypeFor(m.msgType)], []);
    assert turn.Over?;
  }

  /** A request during whose wait a message nobody waits for comes first. */
  lemma StrayRequest(cfg: Config, env: Env, s: State, m: Message, origin: Origin, cid: Uuid)
    requires Well(cfg, s) && Uncancelled(env, s.polls + 2) && m.cid == Some(cid) && cid < s.nextId && |m.to| <= 1
    requires env.sends(s.sends) == Taken && s.inbox != []
    requires IsStray(s.inbox[0].msg, [ResponseTypeFor(m.msgType)], s.calls, cfg.capacity)
    ensures var (r, t) := SendAndAwait(cfg, env, s, m, origin, cid);
            r == Err(Panicked) && t.waitEvents == s.waitEvents + [EventOf(s, cid)]
  {
    hide Good, ResponseTypeFor, IsDuplicate, Recorded;
    var s1 := Poll(env, s).1;
    var (e, s2) := Register(s1, cid, AllMembers, AtLeastOne(|m.to|));
    var (sent, s3) := Hand(env, s2, m, origin);
    assert sent && e == EventOf(s, cid);
    var (turn, s4) := WaitOnce(cfg, env, s3, e, [ResponseTypeFor(m.msgType)], []);
    assert turn == Over(Err(Panicked));
  }

  /** The next message is the answer to the model call about to be made. */
  ghost predicate ModelAnswers(s: State, cid: Uuid) {
    s.inbox != [] && !s.inbox[0].spoils && Counts(s.inbox[0].msg, [MODEL_RESPONSE], cid)
  }

  /** What an answered model phase changes. */
  ghost predicate AfterModelPhase(s: State, t: State)
    requires s.inbox != []
  {
    && t.waitEvents == s.waitEvents && t.inbox == s.inbox[1..] && t.nextId == s.nextId + 2
    && t.polls == s.polls + 6 && t.sends == s.sends + 1
  }

  lemma BareModelTurn(cfg: Config, env: Env, s: State)
    requires Well(cfg, s) && Bare(cfg, env) && Uncancelled(env, s.polls + 2) && ModelAnswers(s, s.nextId)
    requires env.sends(s.sends) == Taken
    ensures var (r, t) := ModelTurn(cfg, env, s);
            && r == Ok(Answered(ContentOf(s.inbox[0].msg.payload), CallsOf(s.inbox[0].msg.payload)))
            && t.waitEvents == s.waitEvents && t.inbox == s.inbox[1..] && t.nextId == s.nextId + 2
            && t.polls == s.polls + 2 && t.sends == s.sends + 1 && t.turnCount == s.turnCount + 1
  {
    hide Good, SendAndAwait, ContentOf, CallsOf;
    var s1 := s.(turnCount := s.turnCount + 1, modelTurns := s.modelTurns + 1);
    var (cid, s2) := Fresh(s1);
    assert Well(cfg, s2) by { MovedLed(cfg, env, s, s2); }
    AnsweredRequest(cfg, env, s2, ModelCall(cfg, cid), Asking, cid);
  }

  lemma BareModelPhase(cfg: Config, env: Env, s: State)
    requires Well(cfg, s) && Bare(cfg, env) && Uncancelled(env, s.polls + 6) && ModelAnswers(s, s.nextId)
    requires env.sends(s.sends) == Taken
    requires !Spent(s.turnCount, cfg.maxTurns) && !Spent(s.turnCount + 1, cfg.maxTurns)
    ensures var (r, t) := ModelPhase(cfg, env, s);
            && r == Ok(Answered(ContentOf(s.inbox[0].msg.payload), CallsOf(s.inbox[0].msg.payload)))
            && AfterModelPhase(s, t) && Well(cfg, t)
  {
    hide Well, Check, ModelTurn, Spent, ContentOf, CallsOf, Kept;
    var s1 := Poll(env, s).1;
    BareCheck(cfg, env, s1, "before_model_call");
    BeforeModelKept(cfg, env, s);
    var s2 := Check(cfg, env, s1, "before_model_call").1;
    BareModelTurn(cfg, env, s2);
    var (answer, s3) := ModelTurn(cfg, env, s2);
    BareCheck(cfg, env, Poll(env, s3).1, "after_model_call");
    ModelPhaseKept(cfg, env, s);
    KeptIsWell(cfg, env, s, None, ModelPhase(cfg, env, s).1);
  }

  /** A tool turn without gate is a request. */
  lemma BareTurn(cfg: Config, env: Env, s: State, call: ToolCall)
    requires Well(cfg, s) && Bare(cfg, env) && Uncancelled(env, s.polls + 1)
    ensures var u := s.(polls := s.polls + 1, turnCount := s.turnCount + 1, nextId := s.nextId + 1);
            var (response, v) := SendAndAwait(cfg, env, u, ToolExec(cfg, call, s.nextId), Executing(call, None),
                s.nextId);
            var (r, t) := BatchTurn(cfg, env, s, call);
            && Well(cfg, u) && Well(cfg, t)
            && (response.Err? && response.error != Stopped ==> r == Err(response.error) && t == v)
  {
    hide Good, SendAndAwait, ExecTargets, Led;
    var u := s.(polls := s.polls + 1, turnCount := s.turnCount + 1, nextId := s.nextId + 1);
    MovedLed(cfg, env, s, u);
    BatchTurnLed(cfg, env, s, call);
  }

  lemma RefusedTurn(cfg: Config, env: Env, s: State, call: ToolCall)
    requires Well(cfg, s) && Bare(cfg, env) && Uncancelled(env, s.polls + 2) && env.sends(s.sends) == Refused
    ensures var (r, t) := BatchTurn(cfg, env, s, call);
            && r == Err(BusError) && t.waitEvents == s.waitEvents && t.inbox == s.inbox && Well(cfg, t)
            && t.nextId == s.nextId + 2 && t.sends == s.sends + 1 && t.polls <= s.polls + 3
  {
    hide Well, SendAndAwait, BatchTurn;
    var u := s.(polls := s.polls + 1, turnCount := s.turnCount + 1, nextId := s.nextId + 1);
    BareTurn(cfg, env, s, call);
    RefusedRequest(cfg, env, u, ToolExec(cfg, call, s.nextId), Executing(call, None), s.nextId);
  }

  lemma ClosedTurn(cfg: Config, env: Env, s: State, call: ToolCall)
    requires Well(cfg, s) && Bare(cfg, env) && Uncancelled(env, s.polls + 3) && env.sends(s.sends) == Taken
    requires s.inbox == []
    ensures var (r, t) := BatchTurn(cfg, env, s, call);
            r == Err(Internal) && t.waitEvents == s.waitEvents + [WaitEvent(s.nextId + 1, s.nextId, AllMembers, 1)]
               && t.polls == s.polls + 3
  {
    hide Well, SendAndAwait, BatchTurn;
    var u := s.(polls := s.polls + 1, turnCount := s.turnCount + 1, nextId := s.nextId + 1);
    BareTurn(cfg, env, s, call);
    ClosedRequest(cfg, env, u, ToolExec(cfg, call, s.nextId), Executing(call, None), s.nextId);
  }

  lemma SpoiledTurn(cfg: Config, env: Env, s: State, call: ToolCall)
    requires Well(cfg, s) && Bare(cfg, env) && Uncancelled(env, s.polls + 3) && env.sends(s.sends) == Taken
    requires s.inbox != [] && s.inbox[0].spoils && Counts(s.inbox[0].msg, [TOOL_RESULT], s.nextId)
    ensures var (r, t) := BatchTurn(cfg, env, s, call);
            && r == Err(Processor(TOOL_RESULT)) && t.polls == s.polls + 3
            && t.waitEvents == s.waitEvents + [WaitEvent(s.nextId + 1, s.nextId, AllMembers, 1)]
  {
    hide Well, SendAndAwait, BatchTurn;
    var u := s.(polls := s.polls + 1, turnCount := s.turnCount + 1, nextId := s.nextId + 1);
    BareTurn(cfg, env, s, call);
    AnsweredRequest(cfg, env, u, ToolExec(cfg, call, s.nextId), Executing(call, None), s.nextId);
  }

  // ── The runs ────────────────────────────────────────────────────────

  /** A state from which a model turn can begin and go on, its answer asking for these calls. */
  ghost predicate Calling(cfg: Config, env: Env, s: State, calls: seq<ToolCall>) {
    && Well(cfg, s) && Bare(cfg, env) && !Spent(s.turnCount, cfg.maxTurns) && !Spent(s.turnCount + 1, cfg.maxTurns)
    && ModelAnswers(s, s.nextId) && env.sends(s.sends) == Taken && CallsOf(s.inbox[0].msg.payload) == calls
  }

  /** From the start of a run to the start of its first batch. */
  lemma BareBatch(cfg: Config, env: Env, s: State, input: string, calls: seq<ToolCall>) returns (t: State)
    requires Calling(cfg, env, s, calls) && Uncancelled(env, s.polls + 8) && calls != []
    ensures t.waitEvents == s.waitEvents && t.inbox == s.inbox[1..] && t.nextId == s.nextId + 2
    ensures t.polls == s.polls + 8 && t.sends == s.sends + 1 && Well(cfg, t)
    ensures var (results, u) := ToolTurns(cfg, env, t, calls, 0, []);
            Err(Panicked) in results ||
            var (stop, v) := AfterTools(cfg, env, u, FirstError(results));
            stop.Some? ==> Run(cfg, env, s, input) == (Err(stop.value), v)
  {
    hide Well, Check, ToolTurns, AfterTools, ModelPhase, Spent, ContentOf, CallsOf, Kept;
    var s0 := Prepared(s, input);
    PreparedWell(cfg, env, s, input);
    BareModelPhase(cfg, env, s0);
    var s1 := ModelPhase(cfg, env, s0).1;
    var s2 := Poll(env, s1).1;
    BareCheck(cfg, env, s2, "before_tool_exec");
    t := Check(cfg, env, s2, "before_tool_exec").1;
    assert Well(cfg, t) by {
      MovedKept(cfg, env, s1, None, s2);
      KeptIsWell(cfg, env, s1, None, s2);
      CheckKept(cfg, env, s2, "before_tool_exec");
      KeptIsWell(cfg, env, s2, None, t);
    }
  }

  lemma OneTurnMore(cfg: Config, env: Env, s: State, calls: seq<ToolCall>, i: nat, results: seq<Result<Json, RunError>>)
    requires i < |calls|
    ensures var (r, t) := BatchTurn(cfg, env, s, calls[i]);
            r != Err(Panicked) ==>
              ToolTurns(cfg, env, s, calls, i, results) == ToolTurns(cfg, env, t, calls, i + 1, results + [r])
  {
    hide BatchTurn;
  }

  /**
   * Two calls: the first cannot be sent, on the second's result the processor fails. The run reports the first
   * error, a bus error, and leaves the second's wait event registered.
   */
  lemma BusErrorLeaks(cfg: Config, env: Env, s: State, input: string, c: ToolCall, d: ToolCall)
    requires Calling(cfg, env, s, [c, d]) && Uncancelled(env, s.polls + 15)
    requires env.sends(s.sends + 1) == Refused && env.sends(s.sends + 2) == Taken
    requires |s.inbox| > 1 && s.inbox[1].spoils && Counts(s.inbox[1].msg, [TOOL_RESULT], s.nextId + 4)
    ensures var (r, t) := Run(cfg, env, s, input);
            r == Err(BusError) && t.waitEvents == s.waitEvents + [WaitEvent(s.nextId + 5, s.nextId + 4, AllMembers, 1)]
  {
    hide Good, EventsBelow, Check, BatchTurn, Spent, Run, CallsOf;
    var s1 := BareBatch(cfg, env, s, input, [c, d]);
    RefusedTurn(cfg, env, s1, c);
    var (q, s2) := BatchTurn(cfg, env, s1, c);
    SpoiledTurn(cfg, env, s2, d);
    var (r, s3) := BatchTurn(cfg, env, s2, d);
    OneTurnMore(cfg, env, s1, [c, d], 0, []);
    OneTurnMore(cfg, env, s2, [c, d], 1, [q]);
    assert [] + [q] == [q] && [q] + [r] == [q, r];
    assert ToolTurns(cfg, env, s1, [c, d], 0, []) == ([q, r], s3);
    BareCheck(cfg, env, s3, "after_tool_exec");
  }

  /**
   * One call: the handle is found closed while waiting for its result, and then somebody cancels. The checkpoint
   * after the batch reports Stopped, and the call's wait event stays registered.
   */
  lemma StoppedLeaks(cfg: Config, env: Env, s: State, input: string, c: ToolCall)
    requires Calling(cfg, env, s, [c]) && env.cancelAt == Some(s.polls + 11) && env.sends(s.sends + 1) == Taken
    requires |s.inbox| == 1
    ensures var (r, t) := Run(cfg, env, s, input);
            r == Err(Stopped) && t.waitEvents == s.waitEvents + [WaitEvent(s.nextId + 3, s.nextId + 2, AllMembers, 1)]
  {
    hide Good, EventsBelow, BatchTurn, Spent, Run, CallsOf, DispatchAll;
    var s1 := BareBatch(cfg, env, s, input, [c]);
    ClosedTurn(cfg, env, s1, c);
    var (r, s2) := BatchTurn(cfg, env, s1, c);
    OneTurnMore(cfg, env, s1, [c], 0, []);
    assert [] + [r] == [r];
    assert ToolTurns(cfg, env, s1, [c], 0, []) == ([r], s2);
  }

  /** A message nobody waits for comes first: the run panics in its first wait, and the model call's event stays. */
  lemma StrayLeaks(cfg: Config, env: Env, s: State, input: string)
    requires Well(cfg, s) && Bare(cfg, env) && Uncancelled(env, s.polls + 4) && !Spent(s.turnCount, cfg.maxTurns)
    requires env.sends(s.sends) == Taken && s.inbox != []
    requires IsStray(s.inbox[0].msg, [MODEL_RESPONSE], s.calls, cfg.capacity)
    ensures var (r, t) := Run(cfg, env, s, input);
            r == Err(Panicked) && t.waitEvents == s.waitEvents + [WaitEvent(s.nextId + 1, s.nextId, AllMembers, 1)]
  {
    hide Well, Check, SendAndAwait, Spent, IsStray, Kept;
    var s0 := Prepared(s, input);
    PreparedWell(cfg, env, s, input);
    BeforeModelKept(cfg, env, s0);
    BareCheck(cfg, env, Poll(env, s0).1, "before_model_call");
    var s1 := Check(cfg, env, Poll(env, s0).1, "before_model_call").1;
    var s2 := s1.(turnCount := s1.turnCount + 1, modelTurns := s1.modelTurns + 1, nextId := s1.nextId + 1);
    assert Well(cfg, s2) by { MovedLed(cfg, env, s1, s2); }
    StrayRequest(cfg, env, s2, ModelCall(cfg, s1.nextId), Asking, s1.nextId);
    assert ModelPhase(cfg, env, s0).0 == Err(Panicked);
  }

  // ── Concrete ones ───────────────────────────────────────────────────

  ghost function CallJson(id: string): Json {
    Obj(map["id" := Str(id), "name" := Str("shell"), "arguments" := Null])
  }

  ghost function Call(id: string): ToolCall {
    ToolCall(id, "shell", Null, None)
  }

  ghost function NewEngine(inbox: seq<Incoming>): State {
    State([], 0, 0, [], inbox, 0, [], [], map[], 0, 0, 0, 0, 0)
  }

  ghost function Plain(cancelAt: Option<nat>, refused: nat): Env {
    Env(cancelAt, n => if n == refused then Refused else Taken, _ => Write(Done, 0),
        _ => CheckInput(false, [], []), _ => false, false, true, false)
  }

  ghost function OneTool(): Config {
    Config("engine", false, 9, "model", [], map["shell" := "tools"], map[], 1)
  }

  ghost function Reply(ids: seq<string>): Incoming {
    Incoming(Message(MODEL_RESPONSE, "model", ["engine"], Some(0),
                     Obj(map["tool_calls" := Arr(seq(|ids|, i requires 0 <= i < |ids| => CallJson(ids[i])))])), false)
  }

  lemma ReplyCalls(id: string)
    ensures CallsOf(Reply([id]).msg.payload) == [Call(id)]
    ensures CallsOf(Reply([id, id]).msg.payload) == [Call(id), Call(id)]
  {
    assert ParseToolCall(CallJson(id)) == Some(Call(id));
    var j := CallJson(id);
    assert ArrayAt(Reply([id]).msg.payload, "tool_calls") == [j];
    assert ArrayAt(Reply([id, id]).msg.payload, "tool_calls") == [j, j];
    assert [j][1..] == [] && ParseToolCalls([j]) == [Call(id)] + ParseToolCalls([]);
    assert [j, j][1..] == [j];
  }

  /** Messages nobody waits for. */
  ghost function Noise(n: nat): seq<Incoming> {
    seq(n, _ => Incoming(Message("noise", "peer", [], None, Null), false))
  }

  lemma {:induction false} NoSpoils(inbox: seq<Incoming>)
    requires forall i <- inbox :: !i.spoils
    ensures Spoils(inbox) == 0
  {
    if inbox != [] {
      NoSpoils(inbox[1..]);
    }
  }

  lemma NewIsTimely(cfg: Config, env: Env, inbox: seq<Incoming>, input: string)
    requires Run(cfg, env, NewEngine(inbox), input).0 != Err(Panicked)
    ensures Timely(cfg, NewEngine(inbox), Run(cfg, env, NewEngine(inbox), input).1)
  {
    hide Run, Timely;
    PanicsIffUntimely(cfg, env, NewEngine(inbox), input);
  }

  /** All that `CarefulRunRestores` asks for but one thing: a processor will fail. */
  lemma BusErrorHappens(input: string) returns (env: Env, s: State)
    ensures !WritesMayFail(OneTool(), env) && env.cancelAt == Some(15) && s.polls == 0 && |s.inbox| == 15
    ensures var (r, t) := Run(OneTool(), env, s, input);
            Timely(OneTool(), s, t) && s.waitEvents == [] && r == Err(BusError)
               && t.waitEvents == [WaitEvent(5, 4, AllMembers, 1)]
  {
    hide Run, CallsOf, Timely;
    var spoiled := Incoming(Message(TOOL_RESULT, "tools", ["engine"], Some(4), Null), true);
    env, s := Plain(Some(15), 1), NewEngine([Reply(["1", "1"]), spoiled] + Noise(13));
    ReplyCalls("1");
    BusErrorLeaks(OneTool(), env, s, input, Call("1"), Call("1"));
    NewIsTimely(OneTool(), env, s.inbox, input);
  }

  /** All but one thing: the messages run out before somebody cancels. */
  lemma StoppedHappens(input: string) returns (env: Env, s: State)
    ensures !WritesMayFail(OneTool(), env) && Spoils(s.inbox) == 0
    ensures var (r, t) := Run(OneTool(), env, s, input);
            && Timely(OneTool(), s, t)
            && s.waitEvents == [] && r == Err(Stopped) && t.waitEvents == [WaitEvent(3, 2, AllMembers, 1)]
  {
    hide Run, CallsOf, Timely;
    env, s := Plain(Some(11), 99), NewEngine([Reply(["1"])]);
    NoSpoils(s.inbox);
    ReplyCalls("1");
    StoppedLeaks(OneTool(), env, s, input, Call("1"));
    NewIsTimely(OneTool(), env, s.inbox, input);
  }

  /** One rule before each model call, asking a peer and waiting for the answer. */
  ghost function OneRule(): Rule {
    Rule("ask", "before_model_call", true, "note", 7, Null, true)
  }

  ghost function WithRule(): Config {
    Config("engine", true, 9, "model", [], map[], map["note" := Strict(["peer"])], 1)
  }

  lemma OneRuleBuilds(c: Cached)
    ensures Evaluated("before_model_call", [OneRule()], WithRule().routes, [], c) ==
            (Ok([CheckpointMsg(OneRule(), ["peer"])]), c)
  {
    var rules := [OneRule()];
    assert rules[..0] == [];
    assert Evaluated("before_model_call", rules[..0], WithRule().routes, [], c) == (Ok([]), c);
    assert FiresAt(rules[0], "before_model_call") && WithRule().routes["note"] == Strict(["peer"]);
    assert Lookup(c, Strict(["peer"]), []) == ["peer"] && AfterLookup(c, Strict(["peer"]), []) == c;
    assert [] + [CheckpointMsg(OneRule(), ["peer"])] == [CheckpointMsg(OneRule(), ["peer"])];
  }

  /** All but one thing: a write fails. */
  lemma UnrecordedHappens(input: string) returns (env: Env, s: State)
    ensures Spoils(s.inbox) == 0 && env.cancelAt == Some(3) && s.polls == 0 && |s.inbox| == 3
    ensures var (r, t) := Run(WithRule(), env, s, input);
            && Timely(WithRule(), s, t)
            && s.waitEvents == [] && r == Err(SnapshotFailed) && t.waitEvents == [WaitEvent(0, 7, AllMembers, 1)]
  {
    hide Evaluated, Timely;
    env := Env(Some(3), _ => Taken, n => Write(if n == 1 then Lost else Done, 0),
        _ => CheckInput(false, [], [OneRule()]), _ => false,
               false, true, false);
    s := NewEngine(Noise(3));
    NoSpoils(s.inbox);
    OneRuleBuilds(map[]);
    var s0 := Prepared(s, input);
    var s1 := Poll(env, s0).1;
    var d := CheckpointMsg(OneRule(), ["peer"]);
    var s2 := SaveState(WithRule(), env, Poll(env, s1).1).1.(checks := 1).Did(Consulted("before_model_call"));
    var (q, s3) := Query(WithRule(), env, s2, "before_model_call", d);
    assert q == Err(SnapshotFailed) && s3.waitEvents == [WaitEvent(0, 7, AllMembers, 1)];
    assert DispatchAll(WithRule(), env, s2, "before_model_call", [d], 0) == (Err(SnapshotFailed), s3);
    assert Check(WithRule(), env, s1, "before_model_call") == (Err(SnapshotFailed), s3);
    NewIsTimely(WithRule(), env, s.inbox, input);
  }

  /** All but one thing: a message comes that nobody waits for. */
  lemma PanicHappens(input: string) returns (env: Env, s: State)
    ensures !WritesMayFail(OneTool(), env) && Spoils(s.inbox) == 0
    ensures env.cancelAt == Some(4) && s.polls == 0 && |s.inbox| == 4
    ensures var (r, t) := Run(OneTool(), env, s, input);
            s.waitEvents == [] && r == Err(Panicked) && t.waitEvents == [WaitEvent(1, 0, AllMembers, 1)]
  {
    hide Run;
    env, s := Plain(Some(4), 99), NewEngine(Noise(4));
    NoSpoils(s.inbox);
    StrayLeaks(OneTool(), env, s, input);
  }
}
