/** What holds of every sound history, and of every part of one a crash leaves. */
module SoundHistories {
  import opened Wrappers
  import opened Messages
  import opened Outbox
  import opened Conversation
  import opened Histories

  lemma {:induction false} PrefixIsSound(cfg: Config, h: History, n: nat)
    requires Sound(cfg, h) && n <= |h|
    ensures Sound(cfg, h[..n]) && (n < |h| ==> Allowed(cfg, h[..n], h[n]))
    decreases |h|
  {
    var front := h[..|h| - if h == [] then 0 else 1];
    if n == |h| {
      assert h[..n] == h;
    } else {
      PrefixIsSound(cfg, front, n);
      assert front[..n] == h[..n];
    }
  }

  /**
   * A crash at any act, also between an event's text and the end of its line, or inside the text, leaves a sound
   * history.
   */
  lemma CrashKeepsSound(cfg: Config, h: History, n: nat)
    requires Sound(cfg, h) && n <= |h|
    ensures Sound(cfg, h[..n]) && Sound(cfg, h[..n] + [Scribbled])
  {
    PrefixIsSound(cfg, h, n);
    SoundSnoc(cfg, h[..n], Scribbled);
  }

  // ── The outbox ──────────────────────────────────────────────────────

  lemma {:induction false} WrittenAt(h: History, e: Event) returns (j: nat)
    requires e in Events(h)
    ensures j < |h| && h[j] == Wrote(e)
    decreases |h|
  {
    var front, last := h[..|h| - 1], h[|h| - 1];
    if last == Wrote(e) {
      j := |front|;
    } else {
      j := WrittenAt(front, e);
    }
  }

  /** With a store, every peer message and handoff on the bus has its record at an earlier place. */
  lemma RecordedFirst(cfg: Config, h: History, i: nat) returns (j: nat)
    requires Sound(cfg, h) && cfg.hasStore && i < |h| && h[i].Sent? && IsOutbox(h[i].msg.msgType)
    ensures j < i && h[j].Wrote? && Covers(h[j].event, h[i].msg)
  {
    PrefixIsSound(cfg, h, i);
    var e :| e in Events(h[..i]) && Covers(e, h[i].msg);
    j := WrittenAt(h[..i], e);
  }

  /** Every recorded send is a first one, or has a higher attempt than all before it in the log. */
  ghost predicate Climbs(events: seq<Event>) {
    forall j :: 0 <= j < |events| && events[j].OutboundSent? ==>
      events[j].attempt == 1 || events[j].attempt > MaxAttempt(events[..j], events[j].cid)
  }

  lemma {:induction false} SoundLogClimbs(cfg: Config, h: History)
    requires Sound(cfg, h)
    ensures Climbs(ReadBack(h))
    decreases |h|
  {
    if h == [] {
      ReadBackEmpty();
    } else {
      var front, a := h[..|h| - 1], h[|h| - 1];
      SoundLogClimbs(cfg, front);
      assert h == front + [a];
      ReadBackSnoc(front, a);
      var before, after := ReadBack(front), ReadBack(h);
      if after == before {
      } else if a.Wrote? && Tail(front) == [] {
        ClimbsSnoc(before, a.event);
      } else {
        ClimbsFront(after, Tail(front)[0].value);
      }
    }
  }

  lemma ReadBackEmpty()
    ensures ReadBack([]) == []
  {
    var f: LogFile := [[]];
    assert f[..0] == [];
  }

  lemma ClimbsSnoc(events: seq<Event>, e: Event)
    requires Climbs(events) && (e.OutboundSent? ==> e.attempt == 1 || e.attempt > MaxAttempt(events, e.cid))
    ensures Climbs(events + [e])
  {
    var all := events + [e];
    forall j | 0 <= j < |all| && all[j].OutboundSent?
      ensures all[j].attempt == 1 || all[j].attempt > MaxAttempt(all[..j], all[j].cid)
    {
      if j < |events| {
        assert all[..j] == events[..j];
      } else {
        assert all[..j] == events;
      }
    }
  }

  lemma ClimbsFront(events: seq<Event>, e: Event)
    requires Climbs(events + [e])
    ensures Climbs(events)
  {
    var all := events + [e];
    forall j | 0 <= j < |events| && events[j].OutboundSent?
      ensures events[j].attempt == 1 || events[j].attempt > MaxAttempt(events[..j], events[j].cid)
    {
      assert all[j] == events[j] && all[..j] == events[..j];
    }
  }

  lemma {:induction false} AttemptBound(events: seq<Event>, e: Event)
    requires e in events && e.OutboundSent?
    ensures e.attempt <= MaxAttempt(events, e.cid)
    decreases |events|
  {
    var front, last := events[..|events| - 1], events[|events| - 1];
    if e != last {
      assert e in front;
      AttemptBound(front, e);
    }
  }

  /** After its first record no other first send of this id is in the log. */
  ghost predicate SentAnewOnce(events: seq<Event>, cid: Uuid) {
    forall i, j :: 0 <= i < j < |events| && IsSent(events[i], cid) && IsSent(events[j], cid) ==> events[j].attempt != 1
  }

  ghost predicate Positive(events: seq<Event>) {
    forall e <- events :: e.OutboundSent? ==> e.attempt > 0
  }

  lemma {:induction false} ClimbingIsPositive(events: seq<Event>)
    requires Climbs(events)
    ensures Positive(events)
  {
    forall e | e in events && e.OutboundSent? ensures e.attempt > 0 {
      var j :| 0 <= j < |events| && events[j] == e;
    }
  }

  /** In the log of a sound history an id's attempts rise strictly exactly if no first send reused the id. */
  lemma RisesIffSentAnewOnce(cfg: Config, h: History, cid: Uuid)
    requires Sound(cfg, h)
    ensures Rises(ReadBack(h), cid) <==> SentAnewOnce(ReadBack(h), cid)
  {
    var events := ReadBack(h);
    SoundLogClimbs(cfg, h);
    ClimbingIsPositive(events);
    forall i, j | 0 <= i < j < |events| && IsSent(events[i], cid) && IsSent(events[j], cid) && events[j].attempt != 1
      ensures events[i].attempt < events[j].attempt
    {
      assert events[i] in events[..j];
      AttemptBound(events[..j], events[i]);
    }
    forall i, j | 0 <= i < j < |events| && IsSent(events[i], cid)
       && IsSent(events[j], cid) ensures events[i].attempt > 0 {
      assert events[i] in events;
    }
  }

  // ── Tool executions ─────────────────────────────────────────────────

  /**
   * The id was first used at `i`, this call's own request with it was made, and at `k` comes the first response to it,
   * which says allow.
   */
  ghost predicate Granted(cfg: Config, h: History, call: ToolCall, cid: Uuid, i: nat, k: nat) {
    && i < k < |h| && h[i].Tried? && h[i].msg.cid == Some(cid)
    && (exists a <- h :: a.Tried? && a.origin == Requesting(call) && a.msg.cid == Some(cid)
                         && IsPermissionRequest(cfg, a.msg, call))
    && h[k].Took? && Counts(h[k].msg, [PERMISSION_RESPONSE], cid) && HasField(h[k].msg.payload, "allow", Bool(true))
    && forall m :: i < m < k && h[m].Took? ==> !Counts(h[m].msg, [PERMISSION_RESPONSE], cid)
  }

  /** Every request on the bus is what it says it is. */
  lemma RequestIsMeant(cfg: Config, h: History, a: Act)
    requires Sound(cfg, h) && a in h && a.Tried?
    ensures a.origin.Asking? ==> IsModelCall(cfg, a.msg)
    ensures a.origin.Requesting? ==> IsPermissionRequest(cfg, a.msg, a.origin.call)
    ensures a.origin.Executing? ==> IsExecution(cfg, a.msg, a.origin.call)
  {
    var j :| 0 <= j < |h| && h[j] == a;
    PrefixIsSound(cfg, h, j);
  }

  /**
   * A tool turn's execution goes to the call's own target, else its owner, else everyone, with the call's arguments.
   * The tool's first permission entry is Allow, or it has none; or else that entry is Ask, and it was granted before.
   */
  lemma ExecutionIsCleared(cfg: Config, h: History, j: nat) returns (i: nat, k: nat)
    requires Sound(cfg, h) && j < |h| && h[j].Tried? && h[j].origin.Executing?
    ensures IsExecution(cfg, h[j].msg, h[j].origin.call)
    ensures var call, permit := h[j].origin.call, h[j].origin.permit;
            if permit.None? then Permitted(cfg.permissions, call.name, Allow)
            else Permitted(cfg.permissions, call.name, Ask) && i < k < j
                   && Granted(cfg, h[..j], call, permit.value, i, k)
  {
    hide Permitted, Answer;
    PrefixIsSound(cfg, h, j);
    i, k := 0, 0;
    if h[j].origin.permit.Some? {
      var cid := h[j].origin.permit.value;
      i, k := AnswerPlace(h[..j], PERMISSION_RESPONSE, cid);
      var a :| a in h[..j] && a.Tried? && a.origin == Requesting(h[j].origin.call) && a.msg.cid == Some(cid);
      RequestIsMeant(cfg, h[..j], a);
    }
  }

  /** One grant, one execution. */
  lemma GrantsAreUsedOnce(cfg: Config, h: History, i: nat, j: nat)
    requires Sound(cfg, h) && i < j < |h| && h[i].Tried? && h[i].origin.Executing? && h[j].Tried?
    requires h[j].origin.Executing?
    requires h[j].origin.permit.Some?
    ensures h[i].origin.permit != h[j].origin.permit
  {
    PrefixIsSound(cfg, h, j);
    assert h[..j][i] == h[i];
  }

  /** A tool_exec on the bus is a tool turn's, or a checkpoint rule's own message. */
  lemma ExecutionsComeFromTurns(cfg: Config, h: History, j: nat)
    requires Sound(cfg, h) && j < |h| && h[j].Tried? && h[j].msg.msgType == TOOL_EXEC
    ensures h[j].origin.Executing? || h[j].origin.Dispatching?
  {
    PrefixIsSound(cfg, h, j);
  }

  // ── Conversation messages ───────────────────────────────────────────

  /**
   * An assistant message says what the first model_response to its own model_call says; a tool message what the
   * first tool_result to its own tool_exec says, or that the call was denied, refused or cancelled.
   */
  lemma MessageIsJustified(cfg: Config, h: History, j: nat)
    requires Sound(cfg, h) && j < |h| && h[j].Said?
    ensures Justified(cfg, h[..j], h[j].message, h[j].why)
    ensures h[j].message.role == "assistant" ==> h[j].why.ByModel?
    ensures h[j].message.role == "tool" ==> !h[j].why.ByModel? && !h[j].why.ByUser?
  {
    PrefixIsSound(cfg, h, j);
  }
}
