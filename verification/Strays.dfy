/** What a caller can see to beforehand so that no message strays and no run panics. */
module Strays {
  import opened Wrappers
  import opened Messages
  import opened Dedup
  import opened Discovery
  import opened Conversation
  import opened Histories
  import opened Runs
  import opened RunLaws
  import opened Waits
  import opened RunTheorems

  /** A reply the memory holds, or a model's answer that asks for no call the policy does not deny. */
  ghost predicate IsWelcome(cfg: Config, m: Message, calls: seq<Uuid>) {
    || IsDuplicate(m, calls, cfg.capacity)
    || (m.msgType == MODEL_RESPONSE && AllDenied(cfg, CallsOf(m.payload)))
  }

  ghost predicate AllDenied(cfg: Config, calls: seq<ToolCall>) {
    forall c <- calls :: Permitted(cfg.permissions, c.name, Deny)
  }

  ghost predicate AllWelcome(cfg: Config, s: State) {
    forall i <- s.inbox :: IsWelcome(cfg, i.msg, s.calls)
  }

  /** No checkpoint rule waits for an answer. */
  ghost predicate NoQueries(env: Env) {
    forall n :: forall r <- env.checks(n).rules :: !r.query
  }

  lemma WaitIsWelcome(cfg: Config, env: Env, s: State, e: WaitEvent)
    requires AllWelcome(cfg, s)
    ensures var (r, t) := Wait(cfg, env, s, e, [MODEL_RESPONSE], []);
            r != Err(Panicked) && (r.Ok? && r.value != [] ==> AllDenied(cfg, CallsOf(r.value[0].payload)))
  {
    hide Wait, CallsOf, AllDenied, Recorded, ReplyIds, PanicsOnStray;
    WaitPanicsIff(cfg, env, s, e, [MODEL_RESPONSE]);
    WaitIsShortest(cfg, env, s, e, [MODEL_RESPONSE]);
    var (r, t) := Wait(cfg, env, s, e, [MODEL_RESPONSE], []);
    var taken := TakenFrom(s, t);
    forall m | m in taken ensures IsWelcome(cfg, m, s.calls) {
      var i: nat :| i < |taken| && taken[i] == m;
      assert s.inbox[..|s.inbox| - |t.inbox|][i] in s.inbox;
    }
    if r.Ok? && r.value != [] {
      OthersNeverCount(taken, [MODEL_RESPONSE], e.cid);
      assert r.value[0] in r.value;
    }
  }

  lemma ModelTurnIsWelcome(cfg: Config, env: Env, s: State)
    requires AllWelcome(cfg, s)
    ensures var (r, t) := ModelTurn(cfg, env, s);
            r != Err(Panicked) && (r.Ok? && r.value.Answered? ==> AllDenied(cfg, r.value.calls))
  {
    hide Wait, CallsOf, ContentOf, IsWelcome, AllDenied;
    var (cid, s1) := Fresh(s.(turnCount := s.turnCount + 1, modelTurns := s.modelTurns + 1));
    var m := ModelCall(cfg, cid);
    var (e, s2) := Register(Poll(env, s1).1, cid, AllMembers, AtLeastOne(|m.to|));
    WaitIsWelcome(cfg, env, Hand(env, s2, m, Asking).1, e);
  }

  lemma {:induction false} BuiltFromRules(trigger: string, rules: seq<Rule>, routes: Routes, nodes: seq<NodeInfo>,
                                          cached: Cached)
    ensures var (r, _) := Evaluated(trigger, rules, routes, nodes, cached);
            r.Ok? ==> forall d <- r.value :: d.rule in rules
    decreases |rules|
  {
    if rules != [] {
      BuiltFromRules(trigger, rules[..|rules| - 1], routes, nodes, cached);
    }
  }

  lemma {:induction false} CommandsNeverPanic(cfg: Config, env: Env, s: State, trigger: string,
                                              built: seq<CheckpointMsg>, i: nat)
    requires i <= |built| && forall d <- built :: !d.rule.query
    ensures DispatchAll(cfg, env, s, trigger, built, i).0 != Err(Panicked)
    decreases |built| - i
  {
    hide Append, Hand;
    if i < |built| {
      CommandsNeverPanic(cfg, env, DispatchOne(cfg, env, s, trigger, built[i]).1, trigger, built, i + 1);
    }
  }

  lemma CheckNeverPanics(cfg: Config, env: Env, s: State, trigger: string)
    requires NoQueries(env)
    ensures Check(cfg, env, s, trigger).0 != Err(Panicked)
  {
    hide Evaluated, DispatchAll, WriteLine;
    var t := SaveState(cfg, env, Poll(env, s).1).1;
    var input := env.checks(t.checks);
    var before := if input.invalidated then map[] else t.cached;
    BuiltFromRules(trigger, input.rules, cfg.routes, input.nodes, before);
    var (built, cached) := Evaluated(trigger, input.rules, cfg.routes, input.nodes, before);
    if built.Ok? {
      var u := t.(checks := t.checks + 1, cached := cached).Did(Consulted(trigger));
      CommandsNeverPanic(cfg, env, u, trigger, built.value, 0);
    }
  }

  lemma DenialNeverPanics(cfg: Config, env: Env, s: State, call: ToolCall)
    requires Permitted(cfg.permissions, call.name, Deny)
    ensures BatchTurn(cfg, env, s, call).0 != Err(Panicked)
  {
    hide Note, LookupPermission, Permitted;
    LookupIsFirst(cfg.permissions, call.name, Deny);
  }

  lemma {:induction false} DenialsNeverPanic(cfg: Config, env: Env, s: State, calls: seq<ToolCall>, i: nat,
                                             results: seq<Result<Json, RunError>>)
    requires i <= |calls| && AllDenied(cfg, calls) && Err(Panicked) !in results
    ensures Err(Panicked) !in ToolTurns(cfg, env, s, calls, i, results).0
    decreases |calls| - i
  {
    hide BatchTurn, Permitted;
    if i < |calls| {
      var (r, t) := BatchTurn(cfg, env, s, calls[i]);
      DenialNeverPanics(cfg, env, s, calls[i]);
      DenialsNeverPanic(cfg, env, t, calls, i + 1, results + [r]);
    }
  }

  lemma ToolPhaseNeverPanics(cfg: Config, env: Env, s: State, calls: seq<ToolCall>)
    requires NoQueries(env) && AllDenied(cfg, calls)
    ensures ToolPhase(cfg, env, s, calls).0 != Some(Panicked)
  {
    hide Check, ToolTurns, AllDenied, NoQueries;
    var s1 := Poll(env, s).1;
    CheckNeverPanics(cfg, env, s1, "before_tool_exec");
    var s2 := Check(cfg, env, s1, "before_tool_exec").1;
    DenialsNeverPanic(cfg, env, s2, calls, 0, []);
    CheckNeverPanics(cfg, env, ToolTurns(cfg, env, s2, calls, 0, []).1, "after_tool_exec");
  }

  /** Without a panic, what is welcome stays so. */
  lemma StaysWelcome(cfg: Config, env: Env, s: State, error: Option<RunError>, t: State)
    requires Kept(cfg, env, s, error, t) && error != Some(Panicked) && AllWelcome(cfg, s)
    ensures AllWelcome(cfg, t)
  {
    hide Good, Faulted, Spoken, Balanced, Well, Faults, CallsOf, AllDenied, StrayTaken, Recorded;
    KeptPanics(cfg, env, s, error, t);
    ConsumedIsTail(s, t);
  }

  lemma ModelPhaseIsWelcome(cfg: Config, env: Env, s: State)
    requires Well(cfg, s) && AllWelcome(cfg, s) && NoQueries(env)
    ensures var (r, t) := ModelPhase(cfg, env, s);
            r != Err(Panicked) && (r.Ok? && r.value.Answered? ==> AllDenied(cfg, r.value.calls))
  {
    hide Well, AllWelcome, NoQueries, AllDenied, Check, ModelTurn, Kept, Spent;
    var s1 := Poll(env, s).1;
    CheckNeverPanics(cfg, env, s1, "before_model_call");
    var (before, s2) := Check(cfg, env, s1, "before_model_call");
    BeforeModelKept(cfg, env, s);
    if before.Ok? {
      StaysWelcome(cfg, env, s, None, s2);
      ModelTurnIsWelcome(cfg, env, s2);
      CheckNeverPanics(cfg, env, Poll(env, ModelTurn(cfg, env, s2).1).1, "after_model_call");
    }
  }

  lemma PassNeverPanics(cfg: Config, env: Env, s: State)
    requires Well(cfg, s) && AllWelcome(cfg, s) && NoQueries(env)
    ensures EndError(Pass(cfg, env, s).0) != Some(Panicked)
  {
    hide Well, AllWelcome, NoQueries, AllDenied, ModelPhase, ToolPhase, Check;
    ModelPhaseIsWelcome(cfg, env, s);
    var (answer, t) := ModelPhase(cfg, env, s);
    CheckNeverPanics(cfg, env, t, "round_end");
    if answer.Ok? && answer.value.Answered? {
      ToolPhaseNeverPanics(cfg, env, t, answer.value.calls);
    }
  }

  lemma {:induction false} LoopNeverPanics(cfg: Config, env: Env, s: State)
    requires Well(cfg, s) && AllWelcome(cfg, s) && NoQueries(env)
    ensures Loop(cfg, env, s).0 != Err(Panicked)
    decreases |s.inbox|
  {
    hide Well, AllWelcome, NoQueries, Pass, Kept;
    PassNeverPanics(cfg, env, s);
    PassKept(cfg, env, s);
    var (end, t) := Pass(cfg, env, s);
    if end.GoOn? {
      KeptIsWell(cfg, env, s, None, t);
      StaysWelcome(cfg, env, s, None, t);
      LoopNeverPanics(cfg, env, t);
    }
  }

  /**
   * An engine that uses no tools: if every message to come is a model's answer that asks at most for denied calls, or
   * a reply the memory holds, and no rule waits for an answer, no message strays and no run panics.
   */
  lemma WelcomeIsTimely(cfg: Config, env: Env, s: State, input: string)
    requires Well(cfg, s) && AllWelcome(cfg, s) && NoQueries(env)
    ensures var (r, t) := Run(cfg, env, s, input); r != Err(Panicked) && Timely(cfg, s, t)
  {
    hide Well, NoQueries, Loop, Kept, IsWelcome, Timely;
    PreparedWell(cfg, env, s, input);
    LoopNeverPanics(cfg, env, Prepared(s, input));
    PanicsIffUntimely(cfg, env, s, input);
  }

  /**
   * What such a caller can see to beforehand: with processors that do not fail, a cancellation before the messages run
   * out, and a store that does not fail, the run restores its wait events, however it ends.
   */
  lemma WelcomeRunRestores(cfg: Config, env: Env, s: State, input: string)
    requires Well(cfg, s) && AllWelcome(cfg, s) && NoQueries(env) && Spoils(s.inbox) == 0 && !WritesMayFail(cfg, env)
    requires env.cancelAt.Some? && env.cancelAt.value <= s.polls + |s.inbox|
    ensures Run(cfg, env, s, input).1.waitEvents == s.waitEvents
  {
    hide Run, Well, AllWelcome, NoQueries, Spoils, WritesMayFail, Timely;
    WelcomeIsTimely(cfg, env, s, input);
    CarefulRunRestores(cfg, env, s, input);
  }
}
