/** What a checkpoint hands to the bus. */
module Checkpoints {
  import opened Wrappers
  import opened Messages
  import opened Discovery
  import opened Outbox
  import opened Conversation
  import opened Histories
  import opened Runs
  import opened Stages

  /** The messages handed to the bus, taken or not. */
  ghost function Tries(h: History): seq<Message> {
    if h == [] then []
    else
      var before, last := Tries(h[..|h| - 1]), h[|h| - 1];
      if last.Tried? then before + [last.msg] else before
  }

  lemma TriesSnoc(h: History, a: Act)
    ensures Tries(h + [a]) == if a.Tried? then Tries(h) + [a.msg] else Tries(h)
  {
    assert (h + [a])[..|h|] == h;
  }

  lemma AppendTries(env: Env, s: State, e: Event)
    ensures Tries(Append(env, s, e).1.hist) == Tries(s.hist)
  {
    TriesSnoc(s.hist, Wrote(e));
    TriesSnoc(s.hist + [Wrote(e)], Ended);
    TriesSnoc(s.hist, Scribbled);
  }

  lemma HandTries(env: Env, s: State, m: Message, origin: Origin)
    ensures Tries(Hand(env, s, m, origin).1.hist) == Tries(s.hist) + [m]
  {
    TriesSnoc(s.hist, Tried(m, origin));
    TriesSnoc(s.hist + [Tried(m, origin)], Sent(m));
  }

  lemma UnexpectedTries(cfg: Config, env: Env, s: State, m: Message)
    ensures Tries(Unexpected(cfg, env, s, m).1.hist) == Tries(s.hist)
  {
    hide Append, IsDuplicate;
    TriesSnoc(s.hist, Unwound(m));
    if IsReplyType(m.msgType) && m.cid.Some? {
      var t, e := s.(calls := s.calls + [m.cid.value]), InboundReply(m.msgType, m.cid.value, m.from, m.payload);
      AppendTries(env, t, e);
      TriesSnoc(t.hist, Unwound(m));
      TriesSnoc(Append(env, t, e).1.hist, Unwound(m));
    }
  }

  lemma WaitOnceTries(cfg: Config, env: Env, s: State, e: WaitEvent, types: seq<string>, got: seq<Message>)
    ensures Tries(WaitOnce(cfg, env, s, e, types, got).1.hist) == Tries(s.hist)
  {
    hide Append, Unexpected, Tries;
    TriesSnoc(s.hist, Closed);
    if s.inbox != [] {
      var m, u := s.inbox[0].msg, Received(s, types);
      TriesSnoc(s.hist, Took(m, types));
      TriesSnoc(u.hist, Spoiled(m));
      UnexpectedTries(cfg, env, u, m);
      AppendTries(env, u, InboundReply(PEER_REPLY, e.cid, m.from, Null));
    }
  }

  lemma {:induction false} WaitTries(cfg: Config, env: Env, s: State, e: WaitEvent, types: seq<string>,
                                     got: seq<Message>)
    ensures Tries(Wait(cfg, env, s, e, types, got).1.hist) == Tries(s.hist)
    decreases |s.inbox|
  {
    hide WaitOnce, Tries;
    WaitOnceTries(cfg, env, s, e, types, got);
    var (turn, t) := WaitOnce(cfg, env, s, e, types, got);
    if turn.Still? {
      WaitTries(cfg, env, t, e, types, turn.got);
    }
  }

  /** A dispatch that succeeds hands its message to the bus; one that fails hands over that one or nothing. */
  lemma DispatchOneTries(cfg: Config, env: Env, s: State, trigger: string, d: CheckpointMsg)
    ensures var (r, t) := DispatchOne(cfg, env, s, trigger, d);
            || Tries(t.hist) == Tries(s.hist) + [MessageOf(cfg, d)]
            || (r.Err? && Tries(t.hist) == Tries(s.hist))
  {
    hide Tries, Append, Hand, Wait;
    var m, cid := MessageOf(cfg, d), d.rule.cid;
    if d.rule.query {
      var s1 := Poll(env, s).1;
      var (e, s2) := Register(s1, cid, AllMembers, Dedup.AtLeastOne(|d.recipients|));
      var (recorded, s3) := RecordOutbound(cfg, env, s2, m, cid);
      AppendTries(env, s2, OutboundSent(m.msgType, cid, 1, m.to, m.payload, env.writes(s2.writes).at));
      TriesSnoc(s3.hist, Unrecorded);
      HandTries(env, s3, m, Dispatching(trigger));
      WaitTries(cfg, env, Hand(env, s3, m, Dispatching(trigger)).1, e, [ResponseTypeFor(d.rule.msgType)], []);
    } else {
      AppendTries(env, s, OutboundSent(m.msgType, cid, 1, m.to, m.payload, env.writes(s.writes).at));
      HandTries(env, RecordOutbound(cfg, env, s, m, cid).1, m, Dispatching(trigger));
    }
  }

  ghost function Sendings(cfg: Config, built: seq<CheckpointMsg>): seq<Message> {
    seq(|built|, i requires 0 <= i < |built| => MessageOf(cfg, built[i]))
  }

  lemma {:induction false} DispatchAllTries(cfg: Config, env: Env, s: State, trigger: string, built: seq<CheckpointMsg>,
                                            i: nat)
    requires i <= |built|
    ensures var (r, t) := DispatchAll(cfg, env, s, trigger, built, i);
            exists n :: i <= n <= |built| && Tries(t.hist) == Tries(s.hist) + Sendings(cfg, built)[i..n]
               && (r.Ok? ==> n == |built|)
    decreases |built| - i
  {
    hide Tries, DispatchOne;
    var all := Sendings(cfg, built);
    if i == |built| {
      assert Tries(s.hist) == Tries(s.hist) + all[i..i];
    } else {
      DispatchOneTries(cfg, env, s, trigger, built[i]);
      var (r, t) := DispatchOne(cfg, env, s, trigger, built[i]);
      assert all[i..i] == [] && all[i..i + 1] == [all[i]];
      if r.Ok? {
        DispatchAllTries(cfg, env, t, trigger, built, i + 1);
        var (q, u) := DispatchAll(cfg, env, t, trigger, built, i + 1);
        var n: nat :| i + 1 <= n <= |built| && Tries(u.hist) == Tries(t.hist) + all[i + 1..n]
           && (q.Ok? ==> n == |built|);
        assert all[i..n] == [all[i]] + all[i + 1..n];
      }
    }
  }

  /** The cache a checkpoint begins with. */
  ghost function CachedAt(env: Env, s: State): Cached {
    if env.checks(s.checks).invalidated then map[] else s.cached
  }

  lemma SaveTries(cfg: Config, env: Env, s: State)
    ensures var t := SaveState(cfg, env, s).1;
            Tries(t.hist) == Tries(s.hist) && t.checks == s.checks && t.cached == s.cached
  {
    TriesSnoc(s.hist, Scribbled);
    TriesSnoc(s.hist + [Scribbled], Ended);
  }

  /** A checkpoint's first acts: a whole snapshot, if there is a store, and its own mark. */
  ghost function Preamble(cfg: Config, trigger: string): History {
    (if cfg.hasStore then [Scribbled, Ended] else []) + [Consulted(trigger)]
  }

  lemma PreambleFirst(cfg: Config, env: Env, s: State, trigger: string)
    ensures var (r, t) := Check(cfg, env, s, trigger); r.Ok? ==> s.hist + Preamble(cfg, trigger) <= t.hist
  {
    hide Evaluated, DispatchAll, Paced;
    var s1 := Poll(env, s).1;
    var (taken, s2) := SaveState(cfg, env, s1);
    var input := env.checks(s2.checks);
    var (built, c) := Evaluated(trigger, input.rules, cfg.routes, input.nodes, CachedAt(env, s2));
    var s3 := s2.(checks := s2.checks + 1, cached := c).Did(Consulted(trigger));
    if taken {
      assert s3.hist == s.hist + Preamble(cfg, trigger);
    }
    if built.Ok? {
      DispatchAllPaced(cfg, env, s3, trigger, built.value, 0);
      PacedGrows(s3, Some(trigger), DispatchAll(cfg, env, s3, trigger, built.value, 0).1, Some(trigger));
    }
  }

  lemma PacedGrows(s: State, from: Option<string>, t: State, to: Option<string>)
    requires Paced(s, from, t, to)
    ensures s.hist <= t.hist
  {
  }

  /** What the checkpoint's rules make of its snapshot and of the cache. */
  ghost function Built(cfg: Config, env: Env, s: State, trigger: string): Result<seq<CheckpointMsg>, EvaluateError> {
    var input := env.checks(s.checks);
    Evaluated(trigger, input.rules, cfg.routes, input.nodes, CachedAt(env, s)).0
  }

  /** The rule's own type, id and body, to the recipients. */
  ghost predicate IsRuleMessage(cfg: Config, d: CheckpointMsg, m: Message) {
    && m.msgType == d.rule.msgType && m.from == cfg.agentId && m.to == d.recipients && m.cid == Some(d.rule.cid)
    && m.payload == d.rule.body
  }

  /** Since `before`, the first `n` messages were handed to the bus, in order, and nothing else. */
  ghost predicate HandsOver(cfg: Config, before: History, built: seq<CheckpointMsg>, n: nat, after: History) {
    && n <= |built| && |Tries(after)| == |Tries(before)| + n && Tries(before) <= Tries(after)
    && forall k :: 0 <= k < n ==> IsRuleMessage(cfg, built[k], Tries(after)[|Tries(before)| + k])
  }

  /**
   * A checkpoint that succeeds handed to the bus, in order, one message for each rule that fires, routed by the
   * cache or else the snapshot; one that fails, a beginning of that list, or nothing if no list could be made. Before
   * its first message the conversation was saved.
   */
  ghost predicate Dispatches(cfg: Config, env: Env, s: State, trigger: string, r: Result<(), RunError>, t: State) {
    var input := env.checks(s.checks);
    var cached: Cached := if input.invalidated then map[] else s.cached;
    && (r.Ok? ==> s.hist + Preamble(cfg, trigger) <= t.hist)
    && ((exists at, built, n ::
           && Plans(trigger, input.rules, cfg.routes, input.nodes, cached, at, built)
           && HandsOver(cfg, s.hist, built, n, t.hist) && (r.Ok? ==> n == |built|))
        || (r.Err? && Tries(t.hist) == Tries(s.hist)
            && exists i, msgType :: Misroutes(trigger, input.rules, cfg.routes, i, msgType)))
  }

  lemma CheckSends(cfg: Config, env: Env, s: State, trigger: string)
    ensures var (r, t) := Check(cfg, env, s, trigger); Dispatches(cfg, env, s, trigger, r, t)
  {
    hide Check, Evaluated, Plans, Misroutes, Preamble, Tries;
    var input := env.checks(s.checks);
    PreambleFirst(cfg, env, s, trigger);
    EvaluatedPlans(trigger, input.rules, cfg.routes, input.nodes, CachedAt(env, s));
    CheckTries(cfg, env, s, trigger);
    var built, t := Built(cfg, env, s, trigger), Check(cfg, env, s, trigger).1;
    if built.Ok? {
      var n: nat :| n <= |built.value| && (Check(cfg, env, s, trigger).0.Ok? ==> n == |built.value|)
         && Tries(t.hist) == Tries(s.hist) + Sendings(cfg, built.value)[..n];
      assert HandsOver(cfg, s.hist, built.value, n, t.hist);
    }
  }

  lemma CheckTries(cfg: Config, env: Env, s: State, trigger: string)
    ensures var (r, t) := Check(cfg, env, s, trigger); var built := Built(cfg, env, s, trigger);
            if built.Err? then r.Err? && Tries(t.hist) == Tries(s.hist)
            else exists n: nat :: n <= |built.value| && (r.Ok? ==> n == |built.value|)
                                  && Tries(t.hist) == Tries(s.hist) + Sendings(cfg, built.value)[..n]
  {
    hide Tries, Evaluated, DispatchAll, Preamble;
    var (stop, s1) := Poll(env, s);
    var (taken, s2) := SaveState(cfg, env, s1);
    SaveTries(cfg, env, s1);
    var input, built := env.checks(s.checks), Built(cfg, env, s, trigger);
    TriesSnoc(s2.hist, Consulted(trigger));
    if built.Ok? {
      var all := Sendings(cfg, built.value);
      assert Tries(s.hist) == Tries(s.hist) + all[..0];
      if !stop && taken {
        var c := Evaluated(trigger, input.rules, cfg.routes, input.nodes, CachedAt(env, s)).1;
        DispatchAllTries(cfg, env, s2.(checks := s.checks + 1, cached := c).Did(Consulted(trigger)), trigger,
            built.value,
            0);
        assert forall n :: 0 <= n <= |built.value| ==> all[0..n] == all[..n];
      }
    }
  }
}
