/** How many model turns a run can begin. */
module Budgets {
  import opened Wrappers
  import opened Messages
  import opened Dedup
  import opened Conversation
  import opened Histories
  import opened Runs
  import opened RunLaws
  import opened TurnLaws
  import opened Waits
  import opened RunTheorems

  /** What the messages to come can add to the turn counter: each a model turn, and the tool turns it asks for. */
  ghost function Weight(inbox: seq<Incoming>): nat {
    if inbox == [] then 0 else 1 + |CallsOf(inbox[0].msg.payload)| + Weight(inbox[1..])
  }

  /** From `s` to `t` a message was taken that asks for these calls. */
  ghost predicate Paid(s: State, calls: seq<ToolCall>, t: State) {
    Weight(t.inbox) + 1 + |calls| <= Weight(s.inbox)
  }

  lemma {:induction false} TakenWeighs(inbox: seq<Incoming>, n: nat, i: nat)
    requires i < n <= |inbox|
    ensures Weight(inbox[n..]) + 1 + |CallsOf(inbox[i].msg.payload)| <= Weight(inbox)
    decreases |inbox|
  {
    hide CallsOf;
    if i > 0 {
      TakenWeighs(inbox[1..], n - 1, i - 1);
      assert inbox[1..][n - 1..] == inbox[n..];
    } else {
      DroppedWeighs(inbox[1..], n - 1);
      assert inbox[1..][n - 1..] == inbox[n..];
    }
  }

  lemma {:induction false} DroppedWeighs(inbox: seq<Incoming>, n: nat)
    requires n <= |inbox|
    ensures Weight(inbox[n..]) <= Weight(inbox)
    decreases n
  {
    hide CallsOf;
    if n == 0 {
      assert inbox[0..] == inbox;
    } else {
      DroppedWeighs(inbox[1..], n - 1);
      assert inbox[1..][n - 1..] == inbox[n..];
    }
  }

  lemma ConsumedWeighs(s: State, t: State)
    requires Consumed(s, t)
    ensures Weight(t.inbox) <= Weight(s.inbox)
  {
    ConsumedIsTail(s, t);
    DroppedWeighs(s.inbox, |s.inbox| - |t.inbox|);
  }

  lemma WaitPays(cfg: Config, env: Env, s: State, e: WaitEvent, types: seq<string>)
    ensures var (r, t) := Wait(cfg, env, s, e, types, []);
            r.Ok? && r.value != [] ==> Paid(s, CallsOf(r.value[0].payload), t)
  {
    hide Wait, CallsOf, PanicsOnStray, ReplyIds, Weight;
    WaitIsShortest(cfg, env, s, e, types);
    var (r, t) := Wait(cfg, env, s, e, types, []);
    if r.Ok? && r.value != [] {
      var taken := TakenFrom(s, t);
      OthersNeverCount(taken, types, e.cid);
      assert r.value[0] in r.value;
      var i: nat :| i < |taken| && taken[i] == r.value[0];
      assert s.inbox[..|s.inbox| - |t.inbox|][i] == s.inbox[i];
      TakenWeighs(s.inbox, |taken|, i);
    }
  }

  lemma SendAndAwaitPays(cfg: Config, env: Env, s: State, m: Message, origin: Origin, cid: Uuid)
    ensures var (r, t) := SendAndAwait(cfg, env, s, m, origin, cid); r.Ok? ==> Paid(s, CallsOf(r.value.payload), t)
  {
    hide Wait, CallsOf, Weight, ResponseTypeFor;
    var (stop, s1) := Poll(env, s);
    if !stop {
      var (e, s2) := Register(s1, cid, AllMembers, AtLeastOne(|m.to|));
      var (sent, s3) := Hand(env, s2, m, origin);
      WaitPays(cfg, env, s3, e, [ResponseTypeFor(m.msgType)]);
    }
  }

  lemma ModelTurnPays(cfg: Config, env: Env, s: State)
    ensures var (r, t) := ModelTurn(cfg, env, s); r.Ok? && r.value.Answered? ==> Paid(s, r.value.calls, t)
  {
    hide SendAndAwait, CallsOf, ContentOf, Weight;
    if !env.aborts(s.modelTurns) {
      var (cid, s2) := Fresh(s.(turnCount := s.turnCount + 1, modelTurns := s.modelTurns + 1));
      SendAndAwaitPays(cfg, env, s2, ModelCall(cfg, cid), Asking, cid);
    }
  }

  lemma KeptWeighs(cfg: Config, env: Env, s: State, error: Option<RunError>, t: State)
    requires Kept(cfg, env, s, error, t)
    ensures Weight(t.inbox) <= Weight(s.inbox)
  {
    hide Good, Faulted, Spoken, Attended, Balanced, Tells, Well, Weight;
    ConsumedWeighs(s, t);
  }

  lemma ModelPhasePays(cfg: Config, env: Env, s: State)
    requires Well(cfg, s)
    ensures var (r, t) := ModelPhase(cfg, env, s); r.Ok? && r.value.Answered? ==> Paid(s, r.value.calls, t)
  {
    hide Kept, Well, Check, Spent, ModelTurn, AfterModel, Led, Weight;
    var (stop, s1) := Poll(env, s);
    var (before, s2) := Check(cfg, env, s1, "before_model_call");
    BeforeModelKept(cfg, env, s);
    var (r, t) := ModelPhase(cfg, env, s);
    if r.Ok? && r.value.Answered? {
      var (answer, s3) := ModelTurn(cfg, env, s2);
      ModelTurnPays(cfg, env, s2);
      ModelTurnLed(cfg, env, s2);
      AfterModelKept(cfg, env, s3, answer.value);
      KeptWeighs(cfg, env, s, None, s2);
      KeptWeighs(cfg, env, s3, None, t);
    }
  }

  /** A pass counts no more turns than the messages it took ask for, and one more only if it is the last. */
  lemma PassPays(cfg: Config, env: Env, s: State)
    requires Well(cfg, s)
    ensures var (end, t) := Pass(cfg, env, s);
            t.turnCount + Weight(t.inbox) <= s.turnCount + Weight(s.inbox) + if end.GoOn? then 0 else 1
  {
    hide Kept, Well, ModelPhase, EndRound, ToolPhase, Weight, AnswersAll;
    ModelPhasePays(cfg, env, s);
    ModelPhaseKept(cfg, env, s);
    var (answer, s1) := ModelPhase(cfg, env, s);
    KeptWeighs(cfg, env, s, ErrorOf(answer), s1);
    if answer.Ok? {
      KeptIsWell(cfg, env, s, None, s1);
      if answer.value.Aborted? || answer.value.calls == [] {
        var content := if answer.value.Aborted? then "" else answer.value.content;
        EndRoundKept(cfg, env, s1, content);
        var (end, t) := EndRound(cfg, env, s1, content);
        KeptWeighs(cfg, env, s1, EndError(end), t);
      } else {
        ToolPhaseKept(cfg, env, s1, answer.value.calls);
        var (stop, t) := ToolPhase(cfg, env, s1, answer.value.calls);
        KeptWeighs(cfg, env, s1, stop, t);
      }
    }
  }

  lemma {:induction false} LoopPays(cfg: Config, env: Env, s: State)
    requires Well(cfg, s)
    ensures var t := Loop(cfg, env, s).1; t.turnCount + Weight(t.inbox) <= s.turnCount + Weight(s.inbox) + 1
    decreases |s.inbox|
  {
    hide Kept, Well, Pass, Weight;
    PassPays(cfg, env, s);
    PassKept(cfg, env, s);
    var (end, t) := Pass(cfg, env, s);
    if end.GoOn? {
      KeptIsWell(cfg, env, s, None, t);
      LoopPays(cfg, env, t);
    }
  }

  /**
   * If the counter and what the messages to come can add to it stay below 2^32, a run begins no more model turns
   * than its budget had left.
   */
  lemma BudgetHolds(cfg: Config, env: Env, s: State, input: string)
    requires Well(cfg, s) && s.turnCount + Weight(s.inbox) + 1 < 0x1_0000_0000
    ensures var t := Run(cfg, env, s, input).1;
            t.modelTurns - s.modelTurns <= if cfg.maxTurns > s.turnCount then cfg.maxTurns - s.turnCount else 0
  {
    hide Kept, Well, Loop, Weight, Concluded;
    var rounds := RunKept(cfg, env, s, input);
    if !(cfg.hasStore && (env.storeBroken || !env.preSaved)) {
      PreparedWell(cfg, env, s, input);
      LoopPays(cfg, env, Prepared(s, input));
    }
  }

  // ── Counters at or above the limit ──────────────────────────────────

  /** What lets the first model turn begin. */
  ghost predicate Begins(cfg: Config, env: Env, s: State) {
    var (stop, t) := Poll(env, s);
    !stop && !Spent(s.turnCount, cfg.maxTurns) && Check(cfg, env, t, "before_model_call").0.Ok?
  }

  lemma ModelPhaseBeginsIff(cfg: Config, env: Env, s: State)
    requires Well(cfg, s)
    ensures ModelPhase(cfg, env, s).1.modelTurns > s.modelTurns <==> Begins(cfg, env, s)
  {
    hide Kept, Well, Check, Spent, ModelTurn, AfterModel, Led;
    BeforeModelKept(cfg, env, s);
    if Begins(cfg, env, s) {
      var s2 := Check(cfg, env, Poll(env, s).1, "before_model_call").1;
      ModelTurnLed(cfg, env, s2);
      var (answer, s3) := ModelTurn(cfg, env, s2);
      if answer.Ok? {
        AfterModelKept(cfg, env, s3, answer.value);
      }
    }
  }

  lemma PassBeginsIff(cfg: Config, env: Env, s: State)
    requires Well(cfg, s)
    ensures Pass(cfg, env, s).1.modelTurns > s.modelTurns <==> Begins(cfg, env, s)
  {
    hide Kept, Well, ModelPhase, EndRound, ToolPhase, AnswersAll, Begins;
    ModelPhaseBeginsIff(cfg, env, s);
    ModelPhaseKept(cfg, env, s);
    var (answer, s1) := ModelPhase(cfg, env, s);
    if answer.Ok? {
      KeptIsWell(cfg, env, s, None, s1);
      EndRoundKept(cfg, env, s1, "");
      if answer.value.Answered? {
        EndRoundKept(cfg, env, s1, answer.value.content);
        ToolPhaseKept(cfg, env, s1, answer.value.calls);
      }
    }
  }

  /**
   * A run that starts with its counter at or above the limit has no budget left. It begins a model turn all the same
   * exactly if the store lets it start, nobody has cancelled, the counter's low 32 bits are below the limit, and the
   * first checkpoint succeeds.
   */
  lemma OverspentIff(cfg: Config, env: Env, s: State, input: string)
    requires Well(cfg, s) && s.turnCount >= cfg.maxTurns
    ensures Run(cfg, env, s, input).1.modelTurns > s.modelTurns <==>
            (cfg.hasStore ==> !env.storeBroken && env.preSaved) && Begins(cfg, env, Prepared(s, input))
  {
    hide Kept, Well, Pass, Begins;
    if cfg.hasStore ==> !env.storeBroken && env.preSaved {
      var s0 := Prepared(s, input);
      PreparedWell(cfg, env, s, input);
      PassBeginsIff(cfg, env, s0);
      PassKept(cfg, env, s0);
      var (end, t) := Pass(cfg, env, s0);
      if end.GoOn? {
        KeptIsWell(cfg, env, s0, None, t);
        var rounds := LoopKept(cfg, env, t);
        KeptSpeaks(cfg, env, t, ErrorOf(Loop(cfg, env, t).0), Loop(cfg, env, t).1);
      }
    }
  }

  /** A bare environment: nothing fails, no rule fires, nobody cancels, and a middleware aborts every model call. */
  ghost predicate Aborting(cfg: Config, env: Env) {
    && !cfg.hasStore && env.cancelAt.None?
    && (forall n :: env.checks(n).rules == []) && forall n :: env.aborts(n)
  }

  lemma QuietCheck(cfg: Config, env: Env, s: State, trigger: string)
    requires !cfg.hasStore && env.cancelAt.None? && forall n :: env.checks(n).rules == []
    ensures var (r, t) := Check(cfg, env, s, trigger);
            r.Ok? && t == s.(polls := s.polls + 1, checks := s.checks + 1, cached := t.cached).Did(Consulted(trigger))
  {
  }

  /**
   * A counter that stands at 2^32 has its whole budget again: the run begins a model turn and succeeds, though
   * the counter is far above the limit.
   */
  lemma WrappedBudget(cfg: Config, env: Env, s: State, input: string)
    requires Aborting(cfg, env) && s.turnCount == 0x1_0000_0000 && 1 < cfg.maxTurns < 0x1_0000_0000
    ensures var (r, t) := Run(cfg, env, s, input);
            r == Ok("") && s.turnCount > cfg.maxTurns && t.modelTurns == s.modelTurns + 1
  {
    hide Check;
    var s0 := Prepared(s, input);
    var s1 := Poll(env, s0).1;
    QuietCheck(cfg, env, s1, "before_model_call");
    var s2 := Check(cfg, env, s1, "before_model_call").1;
    var s3 := ModelTurn(cfg, env, s2).1;
    var s4 := Poll(env, s3).1;
    QuietCheck(cfg, env, s4, "after_model_call");
    var s5 := Check(cfg, env, s4, "after_model_call").1;
    QuietCheck(cfg, env, s5, "round_end");
    assert ModelPhase(cfg, env, s0) == (Ok(Aborted), s5);
  }
}
