/** The laws of whole turns and checkpoints, up to the run. */
module TurnLaws {
  import opened Wrappers
  import opened Messages
  import opened Dedup
  import opened Discovery
  import opened Outbox
  import opened Conversation
  import opened Histories
  import opened Runs
  import opened RunLaws

  // ── Pieces without faults ───────────────────────────────────────────

  lemma QuietLed(cfg: Config, env: Env, s: State, t: State)
    requires Well(cfg, s) && Quiet(cfg, env, s, t)
    ensures Led(cfg, env, s, None, t) && Steady(s, t) && Well(cfg, t)
  {
    hide Good, Consumed, Faulted, Spoken, Attended, Faults, Answer, SameTries;
  }

  lemma MovedLed(cfg: Config, env: Env, s: State, t: State)
    requires Well(cfg, s) && t.hist == s.hist && t.nextId >= s.nextId && t.waitEvents == s.waitEvents
    requires t.inbox == s.inbox && t.messages == s.messages && t.polls >= s.polls && SameMemory(cfg, s, t)
    ensures Led(cfg, env, s, None, t) && Well(cfg, t)
  {
    hide Good, Went, Faults;
    Moved(cfg, env, s, t);
  }

  lemma NoteLed(cfg: Config, env: Env, s: State, kind: string)
    requires Well(cfg, s)
    ensures var t := Note(cfg, env, s, kind);
            Led(cfg, env, s, None, t) && Steady(s, t) && Well(cfg, t) && SameAnswers(s.hist, t.hist)
  {
    hide Led, Good, EventsBelow, Quiet, Note, SameAnswers;
    NoteQuiet(cfg, env, s, kind);
    QuietLed(cfg, env, s, Note(cfg, env, s, kind));
    QuietAnswers(cfg, env, s, Note(cfg, env, s, kind));
  }

  lemma SayLed(cfg: Config, env: Env, s: State, m: ModelMessage, why: Why)
    requires Well(cfg, s) && Justified(cfg, s.hist, m, why)
    ensures Led(cfg, env, s, None, Say(s, m, why)) && Well(cfg, Say(s, m, why))
  {
    hide Good, Went, Faults, Justified;
    SayWent(cfg, env, s, m, why);
  }

  lemma LedThen(cfg: Config, env: Env, s: State, t: State, error: Option<RunError>, u: State)
    requires Led(cfg, env, s, None, t) && Led(cfg, env, t, error, u)
    ensures Led(cfg, env, s, error, u) && Well(cfg, u)
  {
    hide Led, Well;
    LedTrans(cfg, env, s, t, error, u);
    LedIsWell(cfg, env, s, error, u);
  }

  /** A failed piece, then one without faults. */
  lemma ThenLed(cfg: Config, env: Env, s: State, error: Option<RunError>, t: State, u: State)
    requires Led(cfg, env, s, error, t) && Led(cfg, env, t, None, u)
    ensures Led(cfg, env, s, error, u) && Well(cfg, u)
  {
    hide Went, Balanced, Faults, Well;
    WentTrans(cfg, env, s, t, u);
    BalancedTrans(s, t, u);
    LedIsWell(cfg, env, s, error, u);
  }

  lemma Blameless(cfg: Config, env: Env, s: State, error: RunError, t: State)
    requires Led(cfg, env, s, None, t) && !Leaks(error)
    ensures Led(cfg, env, s, Some(error), t)
  {
    hide Went, Balanced, Faults;
  }

  // ── Requests ────────────────────────────────────────────────────────

  lemma SendRegisteredLed(cfg: Config, env: Env, s: State, m: Message, origin: Origin, cid: Uuid)
    requires Well(cfg, s) && Sendable(cfg, s, m, origin, cid)
    ensures var (r, t) := SendRegistered(cfg, env, s, m, origin, cid); Requested(cfg, env, s, m, origin, cid, r, t)
  {
    hide Well, Sendable, Requested, Register, Hand, AfterSend;
    HandedLed(cfg, env, s, m, origin, cid, AtLeastOne(|m.to|));
  }

  /** A fresh id can be used in a request that may be sent. */
  lemma FreshSendable(cfg: Config, env: Env, s: State, m: Message, origin: Origin)
    requires Well(cfg, s) && m.cid == Some(s.nextId) && Allowed(cfg, s.hist, Tried(m, origin)) && !IsOutbox(m.msgType)
    requires origin.Executing? && origin.permit.Some? ==> origin.permit.value < s.nextId
    ensures var (cid, t) := Fresh(s);
            Sendable(cfg, t, m, origin, cid) && Led(cfg, env, s, None, t) && Steady(s, t) && Well(cfg, t)
               && Unused(t.hist, cid)
  {
    hide Led, Sound, Allowed;
    MovedLed(cfg, env, s, Fresh(s).1);
  }

  /** The books balance; success means that the request was sent, and returns the first answer to its id. */
  ghost predicate Awaited(cfg: Config, env: Env, s: State, m: Message, origin: Origin, cid: Uuid,
                          r: Result<Message, RunError>, t: State)
  {
    && Led(cfg, env, s, ErrorOf(r), t) && Well(cfg, t) && Steady(s, t) && IsWaitError(ErrorOf(r))
    && (r.Ok? ==> Tried(m, origin) in t.hist && Answer(t.hist, ResponseTypeFor(m.msgType), cid) == Some(r.value))
  }

  lemma SendAndAwaitLed(cfg: Config, env: Env, s: State, m: Message, origin: Origin, cid: Uuid)
    requires Well(cfg, s) && Sendable(cfg, s, m, origin, cid)
    ensures var (r, t) := SendAndAwait(cfg, env, s, m, origin, cid); Awaited(cfg, env, s, m, origin, cid, r, t)
  {
    hide Well, Led, Allowed, Asked, SendRegistered, Events, Announced, IsOutbox, Answer, ResponseTypeFor, TriedOnly;
    var (stop, s1) := Poll(env, s);
    MovedLed(cfg, env, s, s1);
    if stop {
      Blameless(cfg, env, s, Stopped, s1);
    } else {
      SendRegisteredLed(cfg, env, s1, m, origin, cid);
      var (r, t) := SendRegistered(cfg, env, s1, m, origin, cid);
      LedThen(cfg, env, s, s1, ErrorOf(r), t);
    }
  }

  // ── Tool turns ──────────────────────────────────────────────────────

  /** What was granted or refused is what the first response to this call's own request says, and yet unused. */
  ghost predicate Decreed(cfg: Config, env: Env, s: State, call: ToolCall, granted: Result<bool, RunError>, cid: Uuid,
                          t: State)
  {
    && Led(cfg, env, s, ErrorOf(granted), t) && Well(cfg, t) && Steady(s, t) && IsWaitError(ErrorOf(granted))
    && (granted.Ok? ==> cid < t.nextId && Unused(t.hist, cid) && Responded(cfg, t.hist, call, cid, granted.value))
  }

  lemma PermissionLed(cfg: Config, env: Env, s: State, call: ToolCall)
    requires Well(cfg, s)
    ensures var (granted, cid, t) := RequestPermission(cfg, env, s, call); Decreed(cfg, env, s, call, granted, cid, t)
  {
    hide Well, Led, Sendable, SendRegistered, Answer, Unused, TriedOnly, SaysAllow, HasField;
    var (cid, s1) := Fresh(s);
    var m := PermissionRequest(cfg, call, cid);
    RequestsMean(cfg, call, cid);
    FreshSendable(cfg, env, s, m, Requesting(call));
    SendRegisteredLed(cfg, env, s1, m, Requesting(call), cid);
    var (r, t) := SendRegistered(cfg, env, s1, m, Requesting(call), cid);
    if r.Ok? {
      AllowSays(r.value[0]);
    }
    LedThen(cfg, env, s, s1, ErrorOf(r), t);
    StaysUnused(s1.hist, Tried(m, Requesting(call)), t.hist, cid);
    LedGrows(cfg, env, s1, ErrorOf(r), t);
  }

  /** A grant is an `allow` that says true. */
  lemma AllowSays(m: Message)
    ensures SaysAllow(m) <==> HasField(m.payload, "allow", Bool(true))
  {
  }

  lemma LedGrows(cfg: Config, env: Env, s: State, error: Option<RunError>, t: State)
    requires Led(cfg, env, s, error, t)
    ensures s.hist <= t.hist && s.nextId <= t.nextId
  {
    hide Good, Consumed, Faulted, Spoken, Attended, Balanced, Blamed;
  }

  lemma StaysUnused(h: History, a: Act, k: History, permit: Uuid)
    requires Unused(h, permit) && TriedOnly(h, a, k) && a.Tried? && !a.origin.Executing?
    ensures Unused(k, permit)
  {
  }

  /** Where a call stands after its permission was looked at. */
  ghost predicate Gated(cfg: Config, env: Env, s: State, call: ToolCall, verdict: Verdict, t: State) {
    && Well(cfg, t) && t.turnCount == s.turnCount && t.modelTurns == s.modelTurns
    && match verdict
       case Passed(permit) =>
         && Led(cfg, env, s, None, t) && t.messages == s.messages
         && Cleared(cfg, t.hist, call, permit) && (permit.Some? ==> permit.value < t.nextId)
       case Decided(r) =>
         && Led(cfg, env, s, ErrorOf(r), t) && IsWaitError(ErrorOf(r))
         && if r.Err? then t.messages == s.messages && Permitted(cfg.permissions, call.name, Ask)
            else if Permitted(cfg.permissions, call.name, Deny)
            then
              && Refuses(r.value, DENIED + call.name)
              && t.messages == s.messages + [ToolReply(call, DENIED + call.name)]
            else
              && Refuses(r.value, REFUSED + call.name)
              && t.messages == s.messages + [ToolReply(call, REFUSED + call.name)]
              && Permitted(cfg.permissions, call.name, Ask) && exists cid :: Responded(cfg, t.hist, call, cid, false)
  }

  /** A tool has one permission. */
  lemma PermittedOnce(permissions: seq<(string, Permission)>, tool: string, p: Permission, q: Permission)
    requires Permitted(permissions, tool, p) && Permitted(permissions, tool, q)
    ensures p == q
  {
    LookupIsFirst(permissions, tool, p);
    LookupIsFirst(permissions, tool, q);
  }

  ghost predicate OneAnswer(s: State, call: ToolCall, t: State) {
    exists text :: t.messages == s.messages + [ToolReply(call, text)]
  }

  /** An answer that is not a tool's, noted. */
  lemma AnsweredLed(cfg: Config, env: Env, s: State, call: ToolCall, text: string, why: Why)
    requires Well(cfg, s) && Justified(cfg, s.hist, ToolReply(call, text), why)
    ensures var t := Note(cfg, env, Say(s, ToolReply(call, text), why), "tool_call_end");
            && Led(cfg, env, s, None, t) && Well(cfg, t) && t.messages == s.messages + [ToolReply(call, text)]
            && t.turnCount == s.turnCount && t.modelTurns == s.modelTurns && SameAnswers(s.hist, t.hist)
            && s.hist <= t.hist
  {
    hide Well, Led, Justified, Note, SameAnswers;
    var u := Say(s, ToolReply(call, text), why);
    SayLed(cfg, env, s, ToolReply(call, text), why);
    NoteLed(cfg, env, u, "tool_call_end");
    var t := Note(cfg, env, u, "tool_call_end");
    LedThen(cfg, env, s, u, None, t);
    SayingAnswersNothing(s.hist, Said(ToolReply(call, text), why));
    AnswersTrans(s.hist, u.hist, t.hist);
    LedGrows(cfg, env, s, None, t);
  }

  lemma RespondedStays(cfg: Config, h: History, call: ToolCall, cid: Uuid, allow: bool, k: History)
    requires Responded(cfg, h, call, cid, allow) && h <= k && SameAnswers(h, k)
    ensures Responded(cfg, k, call, cid, allow)
  {
    hide Answer, HasField;
    var a :| a in h && a.Tried? && a.origin == Requesting(call) && a.msg.cid == Some(cid);
    assert a in k;
  }

  lemma AnswersTrans(h: History, k: History, l: History)
    requires SameAnswers(h, k) && SameAnswers(k, l)
    ensures SameAnswers(h, l)
  {
    hide Answer;
  }

  /** The result of a call that was not executed. */
  ghost predicate Refuses(result: Json, reason: string) {
    && HasField(result, "content", Str("")) && HasField(result, "error", Str(reason))
    && HasField(result, "permission", Str("deny"))
  }

  lemma DeniedRefuses(reason: string)
    ensures Refuses(Denied(reason), reason)
  {
  }

  lemma GateLed(cfg: Config, env: Env, s: State, call: ToolCall)
    requires Well(cfg, s)
    ensures var (verdict, t) := Gate(cfg, env, s, call); Gated(cfg, env, s, call, verdict, t)
  {
    DeniedRefuses(DENIED + call.name);
    DeniedRefuses(REFUSED + call.name);
    hide Well, Led, Unused, Responded, Note, RequestPermission, LookupPermission, Permitted, Denied, Refuses;
    MovedLed(cfg, env, s, s);
    forall p ensures Permitted(cfg.permissions, call.name, p) <==> LookupPermission(cfg.permissions, call.name) == p {
      LookupIsFirst(cfg.permissions, call.name, p);
    }
    match LookupPermission(cfg.permissions, call.name) {
      case Allow =>
      case Deny =>
        AnsweredLed(cfg, env, s, call, DENIED + call.name, ByPolicy(call));
      case Ask =>
        PermissionLed(cfg, env, s, call);
        var (granted, cid, s1) := RequestPermission(cfg, env, s, call);
        if granted == Ok(false) {
          AnsweredLed(cfg, env, s1, call, REFUSED + call.name, ByRefusal(call, cid));
          RespondedStays(cfg, s1.hist, call, cid, false, Gate(cfg, env, s, call).1.hist);
          LedThen(cfg, env, s, s1, None, Gate(cfg, env, s, call).1);
        }
    }
  }

  /** May this call be executed next? */
  ghost predicate Executable(cfg: Config, s: State, call: ToolCall, permit: Option<Uuid>) {
    Well(cfg, s) && Cleared(cfg, s.hist, call, permit) && (permit.Some? ==> permit.value < s.nextId)
  }

  /**
   * Success appends what the first result of this execution says, a cancellation that the call was interrupted, and
   * every other end nothing.
   */
  ghost predicate Carried(cfg: Config, env: Env, s: State, call: ToolCall, r: Result<Json, RunError>, t: State) {
    && Led(cfg, env, s, ErrorOf(r), t) && Well(cfg, t) && IsWaitError(ErrorOf(r))
    && t.turnCount == s.turnCount && t.modelTurns == s.modelTurns
    && (r.Ok? ==>
          && (exists text :: Yields(r.value, text) && t.messages == s.messages + [ToolReply(call, text)])
          && var answer := Answer(t.hist, TOOL_RESULT, s.nextId);
             answer.Some? && answer.value.payload == r.value)
    && (r == Err(Stopped) ==> t.messages == s.messages + [ToolReply(call, INTERRUPTED + call.name)])
    && (r.Err? && r.error != Stopped ==> t.messages == s.messages)
  }

  lemma ExecuteLed(cfg: Config, env: Env, s: State, call: ToolCall, permit: Option<Uuid>)
    requires Executable(cfg, s, call, permit)
    ensures var (r, t) := ExecuteTool(cfg, env, s, call, permit); Carried(cfg, env, s, call, r, t)
  {
    hide Well, Led, Cleared, Note, Sendable, SendAndAwait, ExecTargets, Answer, Unused, ToolContent, Yields,
        IsExecution;
    var (cid, s1) := Fresh(s);
    var m := ToolExec(cfg, call, cid);
    RequestsMean(cfg, call, cid);
    FreshSendable(cfg, env, s, m, Executing(call, permit));
    SendAndAwaitLed(cfg, env, s1, m, Executing(call, permit), cid);
    var (response, s2) := SendAndAwait(cfg, env, s1, m, Executing(call, permit), cid);
    LedThen(cfg, env, s, s1, ErrorOf(response), s2);
    var (r, t) := ExecuteTool(cfg, env, s, call, permit);
    match response {
      case Ok(answer) =>
        assert Executed(cfg, s2.hist, call, cid);
        ContentYielded(answer.payload);
        AnsweredLed(cfg, env, s2, call, ToolContent(answer.payload), ByTool(call, cid));
      case Err(Stopped) =>
        AnsweredLed(cfg, env, s2, call, INTERRUPTED + call.name, ByCancel(call));
      case Err(Panicked) =>
        MovedLed(cfg, env, s2, s2);
      case Err(_) =>
        NoteLed(cfg, env, s2, "tool_call_end");
    }
    ThenLed(cfg, env, s, ErrorOf(response), s2, t);
  }

  /** One call dealt with: success appends one answer to it; a turn is counted, unless somebody cancelled before. */
  ghost predicate Turned(cfg: Config, env: Env, s: State, call: ToolCall, r: Result<Json, RunError>, t: State) {
    && Led(cfg, env, s, ErrorOf(r), t) && Well(cfg, t) && IsWaitError(ErrorOf(r))
    && s.turnCount <= t.turnCount <= s.turnCount + 1 && t.modelTurns == s.modelTurns
    && (r != Err(Stopped) ==> t.turnCount == s.turnCount + 1) && (r.Ok? ==> OneAnswer(s, call, t))
  }

  lemma ToolTurnLed(cfg: Config, env: Env, s: State, call: ToolCall)
    requires Well(cfg, s)
    ensures var (r, t) := ToolTurn(cfg, env, s, call); Turned(cfg, env, s, call, r, t)
  {
    hide Well, Led, Cleared, Gate, ExecuteTool;
    var s1 := s.(turnCount := s.turnCount + 1);
    MovedLed(cfg, env, s, s1);
    GateLed(cfg, env, s1, call);
    var (verdict, s2) := Gate(cfg, env, s1, call);
    match verdict {
      case Decided(r) =>
        LedThen(cfg, env, s, s1, ErrorOf(r), s2);
      case Passed(permit) =>
        LedThen(cfg, env, s, s1, None, s2);
        ExecuteLed(cfg, env, s2, call, permit);
        var (r, t) := ExecuteTool(cfg, env, s2, call, permit);
        LedThen(cfg, env, s, s2, ErrorOf(r), t);
    }
  }

  lemma BatchTurnLed(cfg: Config, env: Env, s: State, call: ToolCall)
    requires Well(cfg, s)
    ensures var (r, t) := BatchTurn(cfg, env, s, call); Turned(cfg, env, s, call, r, t)
  {
    hide Well, Led, ToolTurn;
    var (stop, s1) := Poll(env, s);
    MovedLed(cfg, env, s, s1);
    if stop {
      var u := Say(s1, ToolReply(call, CANCELLED + call.name), ByCancel(call));
      SayLed(cfg, env, s1, ToolReply(call, CANCELLED + call.name), ByCancel(call));
      LedThen(cfg, env, s, s1, None, u);
      Blameless(cfg, env, s, Stopped, u);
    } else {
      ToolTurnLed(cfg, env, s1, call);
      var (r, t) := ToolTurn(cfg, env, s1, call);
      LedThen(cfg, env, s, s1, ErrorOf(r), t);
    }
  }

  /** What an error says about the faults of a piece in which more may have failed than was reported. */
  ghost predicate Tells(s: State, error: Option<RunError>, t: State) {
    var before, after := Faults(s.hist), Faults(t.hist);
    && before.spoiled <= after.spoiled && before.closed <= after.closed && before.unrecorded <= after.unrecorded
    && before.panicked <= after.panicked && (after.panicked > before.panicked <==> error == Some(Panicked))
    && (after.unrecorded > before.unrecorded ==> error == Some(SnapshotFailed))
    && match error
       case Some(Processor(_)) => after.spoiled > before.spoiled
       case Some(Internal) => after.closed > before.closed
       case Some(MaxTurnsExceeded) => after == before
       case Some(SessionNotPreSaved) => after == before
       case None => after == before
       case _ => true
  }

  /** Errors only the loop itself raises. */
  ghost predicate IsRunsOwn(error: Option<RunError>) {
    error == Some(MaxTurnsExceeded) || error == Some(SessionNotPreSaved)
  }

  lemma LedTells(cfg: Config, env: Env, s: State, error: Option<RunError>, t: State)
    requires Led(cfg, env, s, error, t)
    ensures Tells(s, error, t)
  {
    hide Went, Balanced, Faults;
  }

  /** A later error is reported instead of the batch's. */
  lemma OverrideTells(s: State, failure: Option<RunError>, t: State, error: RunError, u: State)
    requires Tells(s, failure, t) && IsWaitError(failure) && failure != Some(Panicked)
    requires Tells(t, Some(error), u) && !IsRunsOwn(Some(error))
    ensures Tells(s, Some(error), u)
  {
    hide Faults;
  }

  lemma EvenTells(s: State, error: Option<RunError>, t: State, u: State)
    requires Tells(s, error, t) && Tells(t, None, u)
    ensures Tells(s, error, u)
  {
    hide Faults;
  }

  lemma TellsThen(s: State, t: State, error: Option<RunError>, u: State)
    requires Tells(s, None, t) && Tells(t, error, u)
    ensures Tells(s, error, u)
  {
    hide Faults;
  }

  /** The first error of a batch is the one that counts, unless the run panics later. */
  lemma FirstTells(s: State, first: RunError, t: State, later: Option<RunError>, u: State)
    requires Tells(s, Some(first), t) && Tells(t, later, u) && IsWaitError(Some(first)) && IsWaitError(later)
    ensures Tells(s, Unless(later, Some(first)), u)
  {
    hide Faults;
  }

  /** A panic, or else the error before it. */
  ghost function Unless(later: Option<RunError>, first: Option<RunError>): Option<RunError> {
    if later == Some(Panicked) || first.None? then later else first
  }

  lemma BatchErrorCons(r: Result<Json, RunError>, later: seq<Result<Json, RunError>>)
    ensures BatchError([r] + later) == Unless(BatchError(later), ErrorOf(r))
  {
    var all := [r] + later;
    assert all[1..] == later;
    assert Err(Panicked) in all <==> r == Err(Panicked) || Err(Panicked) in later;
  }

  /** What a batch does: balanced whatever fails, and answered in full if nothing does. */
  ghost predicate Batched(cfg: Config, env: Env, s: State, calls: seq<ToolCall>, failure: Option<RunError>, t: State) {
    && Went(cfg, env, s, t) && Balanced(s, t) && IsWaitError(failure) && Tells(s, failure, t)
    && s.turnCount <= t.turnCount <= s.turnCount + |calls| && t.modelTurns == s.modelTurns
    && (failure.None? ==> AnswersAll(t.messages[|s.messages|..], calls) && t.turnCount == s.turnCount + |calls|)
  }

  lemma BatchedNone(cfg: Config, env: Env, s: State)
    requires Well(cfg, s)
    ensures Batched(cfg, env, s, [], None, s)
  {
    hide Good, Faults, Saids, Spoils;
    assert s.messages[|s.messages|..] == [];
  }

  lemma BatchedCons(cfg: Config, env: Env, s: State, calls: seq<ToolCall>, r: Result<Json, RunError>, t: State,
                    failure: Option<RunError>, u: State)
    requires calls != [] && Turned(cfg, env, s, calls[0], r, t) && Batched(cfg, env, t, calls[1..], failure, u)
    ensures Batched(cfg, env, s, calls, Unless(failure, ErrorOf(r)), u)
  {
    hide Went, Balanced, Tells, Led, Well;
    assert Went(cfg, env, s, t) && Balanced(s, t) by { LedMeans(cfg, env, s, ErrorOf(r), t); }
    WentTrans(cfg, env, s, t, u);
    BalancedTrans(s, t, u);
    LedTells(cfg, env, s, ErrorOf(r), t);
    if r.Err? {
      FirstTells(s, r.error, t, failure, u);
    } else {
      TellsThen(s, t, failure, u);
    }
    if r.Ok? && failure.None? {
      var text :| t.messages == s.messages + [ToolReply(calls[0], text)];
      assert t.messages <= u.messages by { WentSpeaks(cfg, env, t, u); }
      AnswersCons(s.messages, t.messages, u.messages, calls, text);
    }
  }

  lemma LedMeans(cfg: Config, env: Env, s: State, error: Option<RunError>, t: State)
    requires Led(cfg, env, s, error, t)
    ensures Went(cfg, env, s, t) && Balanced(s, t)
  {
    hide Went, Balanced, Blamed;
  }

  lemma WentSpeaks(cfg: Config, env: Env, s: State, t: State)
    requires Went(cfg, env, s, t)
    ensures s.messages <= t.messages
  {
    hide Good, Consumed, Faulted, Saids, Attended;
  }

  lemma AnswersCons(before: seq<ModelMessage>, mid: seq<ModelMessage>, after: seq<ModelMessage>, calls: seq<ToolCall>,
                    text: string)
    requires calls != [] && mid == before + [ToolReply(calls[0], text)] && mid <= after
    requires AnswersAll(after[|mid|..], calls[1..])
    ensures AnswersAll(after[|before|..], calls)
  {
    var all, rest := after[|before|..], after[|mid|..];
    assert all == [ToolReply(calls[0], text)] + rest;
    assert forall k :: 0 < k < |calls| ==> all[k] == rest[k - 1] && calls[k] == calls[1..][k - 1];
  }

  lemma {:induction false} ToolTurnsLed(cfg: Config, env: Env, s: State, calls: seq<ToolCall>, i: nat,
                                        results: seq<Result<Json, RunError>>)
    requires Well(cfg, s) && i <= |calls|
    ensures var (all, t) := ToolTurns(cfg, env, s, calls, i, results);
            Well(cfg, t) && Batched(cfg, env, s, calls[i..], BatchError(all[|results|..]), t)
    decreases |calls| - i
  {
    hide Well, Turned, Batched, BatchTurn;
    if i == |calls| {
      BatchedNone(cfg, env, s);
      assert results[|results|..] == [] && calls[i..] == [];
    } else {
      var (r, t) := BatchTurn(cfg, env, s, calls[i]);
      BatchTurnLed(cfg, env, s, calls[i]);
      assert Well(cfg, t) by { TurnedIsWell(cfg, env, s, calls[i], r, t); }
      assert calls[i..][1..] == calls[i + 1..];
      if r == Err(Panicked) {
        BatchUnwinds(cfg, env, s, calls[i..], t);
        assert (results + [r])[|results|..] == [r] && r in [r];
      } else {
        ToolTurnsLed(cfg, env, t, calls, i + 1, results + [r]);
        var (all, u) := ToolTurns(cfg, env, t, calls, i + 1, results + [r]);
        var later := all[|results| + 1..];
        BatchedCons(cfg, env, s, calls[i..], r, t, BatchError(later), u);
        assert all[|results|..] == [r] + later;
        BatchErrorCons(r, later);
      }
    }
  }

  /** A panic ends the batch. */
  lemma BatchUnwinds(cfg: Config, env: Env, s: State, calls: seq<ToolCall>, t: State)
    requires calls != [] && Turned(cfg, env, s, calls[0], Err(Panicked), t)
    ensures Batched(cfg, env, s, calls, Some(Panicked), t)
  {
    hide Went, Balanced, Tells, Led, Well;
    LedMeans(cfg, env, s, Some(Panicked), t);
    LedTells(cfg, env, s, Some(Panicked), t);
  }

  lemma TurnedIsWell(cfg: Config, env: Env, s: State, call: ToolCall, r: Result<Json, RunError>, t: State)
    requires Turned(cfg, env, s, call, r, t)
    ensures Well(cfg, t)
  {
    hide Led, Well;
  }

  // ── Checkpoints ─────────────────────────────────────────────────────

  /** A piece that says nothing and begins no turn, with its result accounting for the fault. */
  ghost predicate Checked(cfg: Config, env: Env, s: State, error: Option<RunError>, t: State) {
    Led(cfg, env, s, error, t) && Well(cfg, t) && Steady(s, t) && !IsRunsOwn(error)
  }

  /** Recorded, or there is nothing to record it in. */
  ghost predicate OnRecord(cfg: Config, t: State, m: Message) {
    cfg.hasStore ==> Announced(Events(t.hist), m)
  }

  lemma AppendFails(env: Env, s: State, e: Event)
    ensures Append(env, s, e).0 <==> env.writes(s.writes).outcome == Done
  {
  }

  lemma RecordQuiet(cfg: Config, env: Env, s: State, m: Message, cid: Uuid)
    requires Good(cfg, s) && m.cid == Some(cid)
    ensures var (ok, t) := RecordOutbound(cfg, env, s, m, cid);
            Quiet(cfg, env, s, t) && Good(cfg, t) && (if ok then OnRecord(cfg, t, m) else WritesMayFail(cfg, env))
  {
    hide Quiet, Good, Append, Events;
    MovedQuiet(cfg, env, s, s);
    if cfg.hasStore {
      var e := OutboundSent(m.msgType, cid, 1, m.to, m.payload, env.writes(s.writes).at);
      AppendQuiet(cfg, env, s, e);
      AppendFails(env, s, e);
      assert Covers(e, m);
    }
  }

  lemma CommandLed(cfg: Config, env: Env, s: State, m: Message, cid: Uuid, origin: Origin)
    requires Well(cfg, s) && m.cid == Some(cid)
    requires (origin.Dispatching? || (origin == Handing && m.msgType == HUMAN_HANDOFF))
    ensures var (r, t) := Command(cfg, env, s, m, cid, origin);
            && Checked(cfg, env, s, ErrorOf(r), t) && t.waitEvents == s.waitEvents
            && if r == Err(SnapshotFailed) then SameTries(s.hist, t.hist) else Tried(m, origin) in t.hist
  {
    hide Good, Went, Calm, Quiet, RecordOutbound, Hand, Events, Announced, Faults, Led, IsOutbox, SameTries;
    var (recorded, s1) := RecordOutbound(cfg, env, s, m, cid);
    RecordQuiet(cfg, env, s, m, cid);
    QuietLed(cfg, env, s, s1);
    QuietSame(cfg, env, s, s1);
    if recorded {
      HandCalm(cfg, env, s1, m, origin);
      var (sent, s2) := Hand(env, s1, m, origin);
      CalmLed(cfg, env, s1, s2);
      CalmSteady(s1, s2);
      LedThen(cfg, env, s, s1, None, s2);
      if !sent {
        Blameless(cfg, env, s, BusError, s2);
      }
    } else {
      Blameless(cfg, env, s, SnapshotFailed, s1);
    }
  }

  lemma QuietSame(cfg: Config, env: Env, s: State, t: State)
    requires Quiet(cfg, env, s, t)
    ensures SameTries(s.hist, t.hist) && t.waitEvents == s.waitEvents
  {
    hide Went, SameTries, Answer, Faults;
  }

  lemma CalmLed(cfg: Config, env: Env, s: State, t: State)
    requires Well(cfg, s) && Went(cfg, env, s, t) && Calm(s, t)
    ensures Led(cfg, env, s, None, t) && Steady(s, t) && Well(cfg, t)
  {
    hide Good, Consumed, Faulted, Spoken, Attended, Faults, Answer;
  }

  lemma UnrecordedWent(cfg: Config, env: Env, s: State)
    requires Good(cfg, s) && WritesMayFail(cfg, env)
    ensures var t := s.Did(Unrecorded); Went(cfg, env, s, t) && Blamed(s, Some(SnapshotFailed), t)
    ensures Faults(s.Did(Unrecorded).hist) == Faults(s.hist).(unrecorded := Faults(s.hist).unrecorded + 1)
  {
    hide Good, Faults, Saids, Spoils, WritesMayFail, Consumed, Spoken, Attended, Recorded;
    DidGood(cfg, s, Unrecorded);
    TallySnoc(s.hist, Unrecorded);
    NothingSaid(s, s.Did(Unrecorded));
    NothingTaken(s, s.Did(Unrecorded));
    NobodyStrayed(cfg, s, s.Did(Unrecorded));
  }

  lemma UnrecordedLed(cfg: Config, env: Env, s: State, e: WaitEvent, s1: State, t: State)
    requires Well(cfg, s) && e.id == s.nextId && s1.waitEvents == s.waitEvents + [e] && s1.hist == s.hist
    requires s1.nextId > e.id
    requires Went(cfg, env, s, t) && Went(cfg, env, s1, t) && Calm(s1, t) && WritesMayFail(cfg, env)
    ensures Led(cfg, env, s, Some(SnapshotFailed), t.Did(Unrecorded)) && Well(cfg, t.Did(Unrecorded))
    ensures |t.waitEvents| == |s.waitEvents| + 1
  {
    hide Good, Went, Faults, Answer;
    WentIsGood(cfg, env, s, t);
    UnrecordedWent(cfg, env, t);
    WentTrans(cfg, env, s, t, t.Did(Unrecorded));
    WentGrows(cfg, env, s1, t);
    WentIsGood(cfg, env, s, t.Did(Unrecorded));
  }

  lemma QuietMeans(cfg: Config, env: Env, s: State, t: State)
    requires Quiet(cfg, env, s, t)
    ensures Went(cfg, env, s, t) && Calm(s, t)
  {
    hide Went, Calm;
  }

  lemma CalmSteady(s: State, t: State)
    requires Calm(s, t)
    ensures Steady(s, t) && t.waitEvents == s.waitEvents && Faults(t.hist) == Faults(s.hist)
  {
    hide Faults, Answer;
  }

  /** A query leaves its event exactly after a failing record, a failing processor, a closed handle or a panic. */
  ghost predicate LeftByQuery(s: State, error: Option<RunError>, t: State) {
    |t.waitEvents| ==
    |s.waitEvents| + if error.Some? && (Leaks(error.value) || error.value == SnapshotFailed) then 1 else 0
  }

  /** A registered and recorded query is sent and waited for. */
  lemma SentQueryLed(cfg: Config, env: Env, s: State, e: WaitEvent, s1: State, s2: State, m: Message, trigger: string,
                     ty: string)
    requires Well(cfg, s) && e.id == s.nextId && s1.waitEvents == s.waitEvents + [e] && s1.hist == s.hist
    requires s1.nextId > e.id
    requires Steady(s, s1) && Went(cfg, env, s, s1) && Went(cfg, env, s1, s2) && Calm(s1, s2) && OnRecord(cfg, s2, m)
    ensures var (sent, s3) := Hand(env, s2, m, Dispatching(trigger)); var (r, t) := AfterSend(cfg, env, s3, sent, e,
            ty);
            Checked(cfg, env, s, ErrorOf(r), t) && LeftByQuery(s, ErrorOf(r), t)
  {
    hide Good, Went, Calm, Hand, AfterSend, Events, Announced, Faults, IsOutbox;
    WentIsGood(cfg, env, s1, s2);
    HandCalm(cfg, env, s2, m, Dispatching(trigger));
    var (sent, s3) := Hand(env, s2, m, Dispatching(trigger));
    Calmly(cfg, env, s1, s2, s3);
    CalmSteady(s1, s3);
    AfterSendWent(cfg, env, s3, sent, e, ty);
    var (r, t) := AfterSend(cfg, env, s3, sent, e, ty);
    WentTrans(cfg, env, s1, s3, t);
    SettledBalances(cfg, env, s, s1, e, ErrorOf(r), t);
    WentTrans(cfg, env, s, s1, t);
    LedIsWell(cfg, env, s, ErrorOf(r), t);
  }

  lemma QueryLed(cfg: Config, env: Env, s: State, trigger: string, d: CheckpointMsg)
    requires Well(cfg, s)
    ensures var (r, t) := Query(cfg, env, s, trigger, d);
            Checked(cfg, env, s, ErrorOf(r), t) && LeftByQuery(s, ErrorOf(r), t)
  {
    hide Well, Led, RegisteredQuery;
    var (stop, s0) := Poll(env, s);
    MovedLed(cfg, env, s, s0);
    if stop {
      Blameless(cfg, env, s, Stopped, s0);
    } else {
      RegisteredQueryLed(cfg, env, s0, trigger, d);
      var (r, t) := RegisteredQuery(cfg, env, s0, trigger, d);
      LedThen(cfg, env, s, s0, ErrorOf(r), t);
    }
  }

  lemma RegisteredQueryLed(cfg: Config, env: Env, s: State, trigger: string, d: CheckpointMsg)
    requires Well(cfg, s)
    ensures var (r, t) := RegisteredQuery(cfg, env, s, trigger, d);
            Checked(cfg, env, s, ErrorOf(r), t) && LeftByQuery(s, ErrorOf(r), t)
  {
    hide Good, Went, Calm, Quiet, RecordOutbound, Hand, AfterSend, Events, Announced, Faults, IsOutbox, Idle,
        ResponseTypeFor;
    var (e, s1) := Register(s, d.rule.cid, AllMembers, AtLeastOne(|d.recipients|));
    var m := MessageOf(cfg, d);
    Moved(cfg, env, s, s1);
    var (recorded, s2) := RecordOutbound(cfg, env, s1, m, d.rule.cid);
    RecordQuiet(cfg, env, s1, m, d.rule.cid);
    assert Went(cfg, env, s1, s2) && Calm(s1, s2) by { QuietMeans(cfg, env, s1, s2); }
    if !recorded {
      WentTrans(cfg, env, s, s1, s2);
      UnrecordedLed(cfg, env, s, e, s1, s2);
      assert Steady(s, s2) by { CalmSteady(s1, s2); }
    } else {
      SentQueryLed(cfg, env, s, e, s1, s2, m, trigger, ResponseTypeFor(d.rule.msgType));
    }
  }

  lemma DispatchOneLed(cfg: Config, env: Env, s: State, trigger: string, d: CheckpointMsg)
    requires Well(cfg, s)
    ensures var (r, t) := DispatchOne(cfg, env, s, trigger, d); Checked(cfg, env, s, ErrorOf(r), t)
  {
    hide Checked, Well, Query, Command;
    if d.rule.query {
      QueryLed(cfg, env, s, trigger, d);
    } else {
      CommandLed(cfg, env, s, MessageOf(cfg, d), d.rule.cid, Dispatching(trigger));
    }
  }

  lemma CheckedThen(cfg: Config, env: Env, s: State, t: State, error: Option<RunError>, u: State)
    requires Checked(cfg, env, s, None, t) && Checked(cfg, env, t, error, u)
    ensures Checked(cfg, env, s, error, u)
  {
    hide Led, Well;
    LedThen(cfg, env, s, t, error, u);
  }

  lemma CheckedIsWell(cfg: Config, env: Env, s: State, error: Option<RunError>, t: State)
    requires Checked(cfg, env, s, error, t)
    ensures Well(cfg, t)
  {
    hide Led, Well;
  }

  lemma MovedChecked(cfg: Config, env: Env, s: State, error: Option<RunError>, t: State)
    requires Well(cfg, s) && t.hist == s.hist && t.nextId >= s.nextId && t.waitEvents == s.waitEvents
    requires t.inbox == s.inbox && t.polls >= s.polls && Steady(s, t) && SameMemory(cfg, s, t)
    requires error.Some? ==> !Leaks(error.value) && !IsRunsOwn(error)
    ensures Checked(cfg, env, s, error, t)
  {
    hide Led, Well;
    MovedLed(cfg, env, s, t);
    if error.Some? {
      Blameless(cfg, env, s, error.value, t);
    }
  }

  lemma {:induction false} DispatchAllLed(cfg: Config, env: Env, s: State, trigger: string, built: seq<CheckpointMsg>,
                                          i: nat)
    requires Well(cfg, s) && i <= |built|
    ensures var (r, t) := DispatchAll(cfg, env, s, trigger, built, i); Checked(cfg, env, s, ErrorOf(r), t)
    decreases |built| - i
  {
    hide Checked, Well, DispatchOne;
    if i == |built| {
      MovedChecked(cfg, env, s, None, s);
    } else {
      DispatchOneLed(cfg, env, s, trigger, built[i]);
      var (r, t) := DispatchOne(cfg, env, s, trigger, built[i]);
      if r.Ok? {
        CheckedIsWell(cfg, env, s, None, t);
        DispatchAllLed(cfg, env, t, trigger, built, i + 1);
        var (q, u) := DispatchAll(cfg, env, t, trigger, built, i + 1);
        CheckedThen(cfg, env, s, t, ErrorOf(q), u);
      }
    }
  }

  lemma ConsultedChecked(cfg: Config, env: Env, s: State, trigger: string)
    requires Well(cfg, s)
    ensures Checked(cfg, env, s, None, s.Did(Consulted(trigger)))
  {
    hide Good, EventsBelow, Quiet, Led;
    DidQuiet(cfg, env, s, Consulted(trigger));
    QuietLed(cfg, env, s, s.Did(Consulted(trigger)));
  }

  lemma BlamelessChecked(cfg: Config, env: Env, s: State, error: RunError, t: State)
    requires Checked(cfg, env, s, None, t) && !Leaks(error) && !IsRunsOwn(Some(error))
    ensures Checked(cfg, env, s, Some(error), t)
  {
    hide Led, Well;
    Blameless(cfg, env, s, error, t);
  }

  lemma ConsultLed(cfg: Config, env: Env, s: State, trigger: string)
    requires Well(cfg, s)
    ensures var (r, t) := Consult(cfg, env, s, trigger); Checked(cfg, env, s, ErrorOf(r), t)
  {
    hide Checked, Well, DispatchAll, Evaluated;
    var (r, t) := Consult(cfg, env, s, trigger);
    var input := env.checks(s.checks);
    var cached := if input.invalidated then map[] else s.cached;
    var (built, c) := Evaluated(trigger, input.rules, cfg.routes, input.nodes, cached);
    var s0 := s.(checks := s.checks + 1, cached := c);
    var s1 := s0.Did(Consulted(trigger));
    MovedChecked(cfg, env, s, None, s0);
    CheckedIsWell(cfg, env, s, None, s0);
    ConsultedChecked(cfg, env, s0, trigger);
    CheckedThen(cfg, env, s, s0, None, s1);
    match built {
      case Err(e) =>
        BlamelessChecked(cfg, env, s, UndeclaredType(e.msgType), s1);
      case Ok(msgs) =>
        CheckedIsWell(cfg, env, s, None, s1);
        DispatchAllLed(cfg, env, s1, trigger, msgs, 0);
        CheckedThen(cfg, env, s, s1, ErrorOf(r), t);
    }
  }

  lemma SaveLed(cfg: Config, env: Env, s: State)
    requires Well(cfg, s)
    ensures var (taken, t) := SaveState(cfg, env, s); Checked(cfg, env, s, if taken then None
            else Some(SnapshotFailed), t)
  {
    hide Good, EventsBelow, Quiet, Led, SaveState;
    SaveQuiet(cfg, env, s);
    var t := SaveState(cfg, env, s).1;
    QuietLed(cfg, env, s, t);
    Blameless(cfg, env, s, SnapshotFailed, t);
  }

  lemma CheckLed(cfg: Config, env: Env, s: State, trigger: string)
    requires Well(cfg, s)
    ensures var (r, t) := Check(cfg, env, s, trigger); Checked(cfg, env, s, ErrorOf(r), t)
  {
    hide Checked, Well, SaveState, Consult;
    var (stop, s1) := Poll(env, s);
    MovedChecked(cfg, env, s, if stop then Some(Stopped) else None, s1);
    if !stop {
      CheckedIsWell(cfg, env, s, None, s1);
      SaveLed(cfg, env, s1);
      var (taken, s2) := SaveState(cfg, env, s1);
      CheckedThen(cfg, env, s, s1, if taken then None else Some(SnapshotFailed), s2);
      if taken {
        CheckedIsWell(cfg, env, s, None, s2);
        ConsultLed(cfg, env, s2, trigger);
        var (r, t) := Consult(cfg, env, s2, trigger);
        CheckedThen(cfg, env, s, s2, ErrorOf(r), t);
      }
    }
  }

  // ── Passes ──────────────────────────────────────────────────────────

  /** A model turn counts itself and appends what the first answer to its call says; an abort appends nothing. */
  ghost predicate Modelled(cfg: Config, env: Env, s: State, r: Result<ModelAnswer, RunError>, t: State) {
    && Led(cfg, env, s, ErrorOf(r), t) && Well(cfg, t)
    && t.turnCount == s.turnCount + 1 && t.modelTurns == s.modelTurns + 1 && IsWaitError(ErrorOf(r))
    && match r
       case Ok(Answered(content, calls)) =>
         && t.messages == s.messages + [Assistant(content, calls)]
         && var answer := Answer(t.hist, MODEL_RESPONSE, s.nextId);
            answer.Some? && Says(answer.value.payload, content) && Asks(answer.value.payload, calls)
       case _ => t.messages == s.messages
  }

  lemma ModelTurnLed(cfg: Config, env: Env, s: State)
    requires Well(cfg, s)
    ensures var (r, t) := ModelTurn(cfg, env, s); Modelled(cfg, env, s, r, t)
  {
    hide Well, Led, Note, Sendable, SendAndAwait, Answer, Unused, ContentOf, CallsOf, Says, Asks, IsModelCall;
    var s1 := s.(turnCount := s.turnCount + 1, modelTurns := s.modelTurns + 1);
    MovedLed(cfg, env, s, s1);
    if !env.aborts(s.modelTurns) {
      var (cid, s2) := Fresh(s1);
      var m := ModelCall(cfg, cid);
      ModelCallMeans(cfg, cid);
      FreshSendable(cfg, env, s1, m, Asking);
      SendAndAwaitLed(cfg, env, s2, m, Asking, cid);
      var (response, s3) := SendAndAwait(cfg, env, s2, m, Asking, cid);
      LedThen(cfg, env, s1, s2, ErrorOf(response), s3);
      LedThen(cfg, env, s, s1, ErrorOf(response), s3);
      if response.Ok? {
        CallsAsked(response.value.payload);
        ContentSaid(response.value.payload);
        AnswerSaid(cfg, env, s3, cid, response.value);
        LedThen(cfg, env, s, s3, None, ModelTurn(cfg, env, s).1);
      }
    }
  }

  /** The usage note, and the assistant message the answer parses to. */
  lemma AnswerSaid(cfg: Config, env: Env, s: State, cid: Uuid, m: Message)
    requires Well(cfg, s) && Tried(ModelCall(cfg, cid), Asking) in s.hist
    requires Answer(s.hist, MODEL_RESPONSE, cid) == Some(m)
    ensures var u := if m.payload.Get("usage").Some? then Note(cfg, env, s, "model_call_end") else s;
            var t := Say(u, Assistant(ContentOf(m.payload), CallsOf(m.payload)), ByModel(cid));
            && Led(cfg, env, s, None, t) && Well(cfg, t) && Steady(s, u)
            && Answer(t.hist, MODEL_RESPONSE, cid) == Some(m)
  {
    hide Good, EventsBelow, Led, Went, Note, Answer, ContentOf, CallsOf, Quiet, SameTries, Says, Asks;
    CallsAsked(m.payload);
    ContentSaid(m.payload);
    var u := if m.payload.Get("usage").Some? then Note(cfg, env, s, "model_call_end") else s;
    MovedQuiet(cfg, env, s, s);
    NoteQuiet(cfg, env, s, "model_call_end");
    QuietLed(cfg, env, s, u);
    QuietAnswers(cfg, env, s, u);
    assert Answer(u.hist, MODEL_RESPONSE, cid) == Some(m);
    SayLed(cfg, env, u, Assistant(ContentOf(m.payload), CallsOf(m.payload)), ByModel(cid));
    SayingAnswersNothing(u.hist, Said(Assistant(ContentOf(m.payload), CallsOf(m.payload)), ByModel(cid)));
    LedThen(cfg, env, s, u, None, Say(u, Assistant(ContentOf(m.payload), CallsOf(m.payload)), ByModel(cid)));
  }
}
