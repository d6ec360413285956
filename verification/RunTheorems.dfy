/** What whole runs promise. */
module RunTheorems {
  import opened Wrappers
  import opened Messages
  import opened Conversation
  import opened Histories
  import opened Runs
  import opened RunLaws
  import opened TurnLaws
  import opened SoundHistories

  // ── Phases ──────────────────────────────────────────────────────────

  /** What a pass or a part of it does, whatever its end. */
  ghost predicate Kept(cfg: Config, env: Env, s: State, error: Option<RunError>, t: State) {
    && Went(cfg, env, s, t) && Balanced(s, t) && Well(cfg, t) && Tells(s, error, t)
    && s.turnCount <= t.turnCount && s.modelTurns <= t.modelTurns
  }

  lemma KeptThen(cfg: Config, env: Env, s: State, t: State, error: Option<RunError>, u: State)
    requires Kept(cfg, env, s, None, t) && Kept(cfg, env, t, error, u)
    ensures Kept(cfg, env, s, error, u)
  {
    hide Went, Balanced, Well, Tells;
    WentTrans(cfg, env, s, t, u);
    BalancedTrans(s, t, u);
    TellsThen(s, t, error, u);
  }

  lemma LedKept(cfg: Config, env: Env, s: State, error: Option<RunError>, t: State)
    requires Led(cfg, env, s, error, t) && s.turnCount <= t.turnCount && s.modelTurns <= t.modelTurns
    ensures Kept(cfg, env, s, error, t)
  {
    hide Led, Tells, Went, Balanced, Well;
    LedIsWell(cfg, env, s, error, t);
    LedTells(cfg, env, s, error, t);
    LedMeans(cfg, env, s, error, t);
  }

  lemma MovedKept(cfg: Config, env: Env, s: State, error: Option<RunError>, t: State)
    requires Well(cfg, s) && t.hist == s.hist && t.nextId >= s.nextId && t.waitEvents == s.waitEvents
    requires t.inbox == s.inbox && t.polls >= s.polls && Steady(s, t) && SameMemory(cfg, s, t)
    requires error.Some? ==> !Leaks(error.value) && !IsRunsOwn(error)
    ensures Kept(cfg, env, s, error, t)
  {
    hide Led, Kept;
    MovedChecked(cfg, env, s, error, t);
    LedKept(cfg, env, s, error, t);
  }

  lemma CheckKept(cfg: Config, env: Env, s: State, trigger: string)
    requires Well(cfg, s)
    ensures var (r, t) := Check(cfg, env, s, trigger);
            Kept(cfg, env, s, ErrorOf(r), t) && Steady(s, t) && !IsRunsOwn(ErrorOf(r))
  {
    hide Led, Kept, Well, Check;
    CheckLed(cfg, env, s, trigger);
    var (r, t) := Check(cfg, env, s, trigger);
    LedKept(cfg, env, s, ErrorOf(r), t);
  }

  lemma KeptIsWell(cfg: Config, env: Env, s: State, error: Option<RunError>, t: State)
    requires Kept(cfg, env, s, error, t)
    ensures Well(cfg, t)
  {
    hide Went, Balanced, Well, Tells;
  }

  /** The phase after a model turn. */
  lemma AfterModelKept(cfg: Config, env: Env, s: State, answer: ModelAnswer)
    requires Well(cfg, s)
    ensures var (r, t) := AfterModel(cfg, env, s, answer);
            && Kept(cfg, env, s, ErrorOf(r), t) && Steady(s, t) && (r.Ok? ==> !Spent(t.turnCount, cfg.maxTurns))
            && (r == Err(MaxTurnsExceeded) ==> Spent(t.turnCount, cfg.maxTurns))
  {
    hide Kept, Well, Check, Spent;
    var (stop, s1) := Poll(env, s);
    MovedKept(cfg, env, s, if stop then Some(Stopped) else None, s1);
    if !stop {
      KeptIsWell(cfg, env, s, None, s1);
      CheckKept(cfg, env, s1, "after_model_call");
      var (after, t) := Check(cfg, env, s1, "after_model_call");
      KeptThen(cfg, env, s, s1, ErrorOf(after), t);
      if after.Ok? {
        KeptSpent(cfg, env, s, t);
      }
    }
  }

  lemma KeptSpent(cfg: Config, env: Env, s: State, t: State)
    requires Kept(cfg, env, s, None, t)
    ensures Kept(cfg, env, s, Some(MaxTurnsExceeded), t)
  {
    hide Went, Balanced, Well, Faults;
  }

  /** What the model phase appends, and when it counts a turn. */
  ghost predicate Phased(cfg: Config, env: Env, s: State, r: Result<ModelAnswer, RunError>, t: State) {
    && Kept(cfg, env, s, ErrorOf(r), t) && t.modelTurns <= s.modelTurns + 1
    && t.turnCount - s.turnCount == t.modelTurns - s.modelTurns
    && (t.modelTurns > s.modelTurns ==> !Spent(s.turnCount, cfg.maxTurns))
    && (r == Err(MaxTurnsExceeded) ==> Spent(t.turnCount, cfg.maxTurns))
    && (r.Ok? ==>
          && !Spent(t.turnCount, cfg.maxTurns) && t.modelTurns > s.modelTurns
          && (r.value.Aborted? <==> env.aborts(s.modelTurns))
          && t.messages == s.messages + if r.value.Answered? then [Assistant(r.value.content, r.value.calls)] else [])
  }

  lemma BeforeModelKept(cfg: Config, env: Env, s: State)
    requires Well(cfg, s)
    ensures var (stop, s1) := Poll(env, s); var (before, s2) := Check(cfg, env, s1, "before_model_call");
            && Kept(cfg, env, s, if stop then Some(Stopped) else None, s1) && Well(cfg, s1)
            && Kept(cfg, env, s, ErrorOf(before), s2) && Well(cfg, s2) && Steady(s, s2)
            && Kept(cfg, env, s, None, s1) && !IsRunsOwn(ErrorOf(before))
  {
    hide Kept, Well, Check;
    var (stop, s1) := Poll(env, s);
    MovedKept(cfg, env, s, if stop then Some(Stopped) else None, s1);
    MovedKept(cfg, env, s, None, s1);
    KeptIsWell(cfg, env, s, None, s1);
    CheckKept(cfg, env, s1, "before_model_call");
    var (before, s2) := Check(cfg, env, s1, "before_model_call");
    KeptThen(cfg, env, s, s1, ErrorOf(before), s2);
    KeptIsWell(cfg, env, s, ErrorOf(before), s2);
  }

  lemma ModelPhaseKept(cfg: Config, env: Env, s: State)
    requires Well(cfg, s)
    ensures var (r, t) := ModelPhase(cfg, env, s); Phased(cfg, env, s, r, t)
  {
    hide Kept, Well, Check, Spent, ModelTurn, AfterModel, Led;
    BeforeModelKept(cfg, env, s);
    var (stop, s1) := Poll(env, s);
    if !stop {
      if Spent(s1.turnCount, cfg.maxTurns) {
        KeptSpent(cfg, env, s, s1);
      } else {
        var (before, s2) := Check(cfg, env, s1, "before_model_call");
        if before.Ok? {
          if Spent(s2.turnCount, cfg.maxTurns) {
            KeptSpent(cfg, env, s, s2);
          } else {
            ModelTurnLed(cfg, env, s2);
            assert ModelTurn(cfg, env, s2).0 != Err(MaxTurnsExceeded);
            var (answer, s3) := ModelTurn(cfg, env, s2);
            LedKept(cfg, env, s2, ErrorOf(answer), s3);
            KeptThen(cfg, env, s, s2, ErrorOf(answer), s3);
            if answer.Ok? {
              AfterModelKept(cfg, env, s3, answer.value);
              var (r, t) := AfterModel(cfg, env, s3, answer.value);
              KeptThen(cfg, env, s, s3, ErrorOf(r), t);
              ModelTurnAborts(cfg, env, s2);
            }
          }
        }
      }
    }
  }

  lemma ModelTurnAborts(cfg: Config, env: Env, s: State)
    ensures var (r, t) := ModelTurn(cfg, env, s); r.Ok? ==> (r.value.Aborted? <==> env.aborts(s.modelTurns))
  {
    hide SendAndAwait, Note, ContentOf, CallsOf;
  }

  /** The tool phase from the batch on. */
  lemma BatchKept(cfg: Config, env: Env, s: State, calls: seq<ToolCall>)
    requires Well(cfg, s)
    ensures var (results, t) := ToolTurns(cfg, env, s, calls, 0, []);
            if Err(Panicked) in results
            then Kept(cfg, env, s, Some(Panicked), t) && s.modelTurns == t.modelTurns
                 && t.turnCount <= s.turnCount + |calls|
            else
              var (stop, u) := AfterTools(cfg, env, t, FirstError(results));
              && Kept(cfg, env, s, stop, u)
              && s.modelTurns == u.modelTurns && u.turnCount <= s.turnCount + |calls|
              && (stop.None? ==> AnswersAll(u.messages[|s.messages|..], calls) && u.turnCount == s.turnCount + |calls|)
              && SpentOnly(cfg, stop, u)
  {
    hide Kept, Well, Went, Balanced, Tells, AfterTools;
    ToolTurnsLed(cfg, env, s, calls, 0, []);
    var (results, t) := ToolTurns(cfg, env, s, calls, 0, []);
    assert results[0..] == results && calls[0..] == calls;
    if Err(Panicked) in results {
      BatchedKept(cfg, env, s, calls, Some(Panicked), t);
    } else {
      AfterToolsKept(cfg, env, s, calls, FirstError(results), t);
    }
  }

  lemma BatchedKept(cfg: Config, env: Env, s: State, calls: seq<ToolCall>, failure: Option<RunError>, t: State)
    requires Batched(cfg, env, s, calls, failure, t) && Well(cfg, t)
    ensures Kept(cfg, env, s, failure, t)
  {
    hide Went, Balanced, Well, Tells;
  }

  lemma BatchFailure(cfg: Config, env: Env, s: State, calls: seq<ToolCall>, failure: Option<RunError>, t: State)
    requires Batched(cfg, env, s, calls, failure, t)
    ensures failure != Some(MaxTurnsExceeded)
  {
    hide Went, Balanced, Tells;
  }

  /** A pass goes on with budget left, and only a spent budget is reported as one. */
  ghost predicate SpentOnly(cfg: Config, stop: Option<RunError>, t: State) {
    && (stop.None? ==> !Spent(t.turnCount, cfg.maxTurns))
    && (stop == Some(MaxTurnsExceeded) ==> Spent(t.turnCount, cfg.maxTurns))
  }

  lemma AfterToolsKept(cfg: Config, env: Env, s: State, calls: seq<ToolCall>, failure: Option<RunError>, t: State)
    requires Batched(cfg, env, s, calls, failure, t) && Well(cfg, t) && failure != Some(Panicked)
    ensures var (stop, u) := AfterTools(cfg, env, t, failure);
            && Kept(cfg, env, s, stop, u) && t.messages == u.messages && t.modelTurns == u.modelTurns
            && t.turnCount == u.turnCount && (stop.None? ==> failure.None?) && SpentOnly(cfg, stop, u)
  {
    assert failure != Some(MaxTurnsExceeded) by {
      BatchFailure(cfg, env, s, calls, failure, t);
    }
    hide Kept, Well, Batched, Check, Spent;
    CheckKept(cfg, env, t, "after_tool_exec");
    var (after, u) := Check(cfg, env, t, "after_tool_exec");
    BatchThenCheck(cfg, env, s, calls, failure, t, ErrorOf(after), u);
    if after.Ok? && failure.None? {
      KeptSpent(cfg, env, s, u);
    }
  }

  lemma BatchThenCheck(cfg: Config, env: Env, s: State, calls: seq<ToolCall>, failure: Option<RunError>, t: State,
                       error: Option<RunError>, u: State)
    requires Batched(cfg, env, s, calls, failure, t) && Kept(cfg, env, t, error, u) && !IsRunsOwn(error)
    requires failure != Some(Panicked)
    ensures Kept(cfg, env, s, if error.Some? then error else failure, u)
  {
    hide Well, Went, Balanced, Tells;
    WentTrans(cfg, env, s, t, u);
    BalancedTrans(s, t, u);
    if error.Some? {
      OverrideTells(s, failure, t, error.value, u);
    } else {
      EvenTells(s, failure, t, u);
    }
  }

  lemma ToolPhaseKept(cfg: Config, env: Env, s: State, calls: seq<ToolCall>)
    requires Well(cfg, s)
    ensures var (stop, t) := ToolPhase(cfg, env, s, calls);
            && Kept(cfg, env, s, stop, t) && t.modelTurns == s.modelTurns && t.turnCount <= s.turnCount + |calls|
            && SpentOnly(cfg, stop, t)
            && (stop.None? ==> AnswersAll(t.messages[|s.messages|..], calls) && t.turnCount == s.turnCount + |calls|)
  {
    hide Kept, Well, Check, ToolTurns, AfterTools, Spent;
    var (stop, s1) := Poll(env, s);
    MovedKept(cfg, env, s, if stop then Some(Stopped) else None, s1);
    if !stop {
      KeptIsWell(cfg, env, s, None, s1);
      CheckKept(cfg, env, s1, "before_tool_exec");
      var (before, s2) := Check(cfg, env, s1, "before_tool_exec");
      KeptThen(cfg, env, s, s1, ErrorOf(before), s2);
      if before.Ok? {
        KeptIsWell(cfg, env, s, None, s2);
        BatchKept(cfg, env, s2, calls);
        var (end, t) := ToolPhase(cfg, env, s, calls);
        KeptThen(cfg, env, s, s2, end, t);
      }
    }
  }

  // ── Loop ──────────────────────────────────────────────────────────

  ghost function EndError(end: PassEnd): Option<RunError> {
    if end.Failed? then Some(end.error) else None
  }

  /** The final assistant message; there is none after a middleware aborted the last model turn. */
  ghost function Final(aborted: bool, content: string): seq<ModelMessage> {
    if aborted then [] else [Assistant(content, [])]
  }

  /** One pass: at most one model turn begins, only with budget left; a pass that goes on adds one full round. */
  ghost predicate OnePass(cfg: Config, env: Env, s: State, end: PassEnd, t: State) {
    && Kept(cfg, env, s, EndError(end), t) && t.modelTurns <= s.modelTurns + 1
    && (t.modelTurns > s.modelTurns ==> !Spent(s.turnCount, cfg.maxTurns) && t.turnCount > s.turnCount)
    && match end
       case GoOn =>
         && s.messages <= t.messages && IsRound(t.messages[|s.messages|..]) && t.modelTurns > s.modelTurns
         && t.turnCount == s.turnCount + |t.messages| - |s.messages| && !Spent(t.turnCount, cfg.maxTurns)
       case Finished(content) =>
         && !Spent(t.turnCount, cfg.maxTurns) && t.modelTurns > s.modelTurns && t.turnCount == s.turnCount + 1
         && t.messages == s.messages + Final(env.aborts(s.modelTurns), content)
         && (env.aborts(s.modelTurns) ==> content == "")
       case Failed(e) => e == MaxTurnsExceeded ==> Spent(t.turnCount, cfg.maxTurns)
  }

  lemma EndRoundKept(cfg: Config, env: Env, s: State, content: string)
    requires Well(cfg, s)
    ensures var (end, t) := EndRound(cfg, env, s, content);
            && Kept(cfg, env, s, EndError(end), t) && Steady(s, t) && (end.Finished? ==> end.content == content)
            && end != Failed(MaxTurnsExceeded)
  {
    hide Kept, Well, Check;
    CheckKept(cfg, env, s, "round_end");
  }

  lemma RoundOf(before: seq<ModelMessage>, mid: seq<ModelMessage>, after: seq<ModelMessage>, content: string,
                calls: seq<ToolCall>)
    requires calls != [] && mid == before + [Assistant(content, calls)] && mid <= after
    requires AnswersAll(after[|mid|..], calls)
    ensures before <= after && IsRound(after[|before|..]) && |after| == |before| + 1 + |calls|
  {
    var round := after[|before|..];
    assert round[0] == mid[|before|] && round[1..] == after[|mid|..];
  }

  lemma KeptSpeaks(cfg: Config, env: Env, s: State, error: Option<RunError>, t: State)
    requires Kept(cfg, env, s, error, t)
    ensures s.messages <= t.messages && s.turnCount <= t.turnCount && s.modelTurns <= t.modelTurns
  {
    hide Well, Balanced, Tells, Went;
    WentSpeaks(cfg, env, s, t);
  }

  lemma PassKept(cfg: Config, env: Env, s: State)
    requires Well(cfg, s)
    ensures var (end, t) := Pass(cfg, env, s); OnePass(cfg, env, s, end, t)
  {
    hide Kept, Well, ModelPhase, EndRound, ToolPhase, Spent, AnswersAll, IsRound;
    ModelPhaseKept(cfg, env, s);
    var (answer, s1) := ModelPhase(cfg, env, s);
    if answer.Ok? {
      KeptIsWell(cfg, env, s, None, s1);
      if answer.value.Aborted? || answer.value.calls == [] {
        var content := if answer.value.Aborted? then "" else answer.value.content;
        EndRoundKept(cfg, env, s1, content);
        var (end, t) := EndRound(cfg, env, s1, content);
        KeptThen(cfg, env, s, s1, EndError(end), t);
      } else {
        var calls := answer.value.calls;
        ToolPhaseKept(cfg, env, s1, calls);
        var (stop, t) := ToolPhase(cfg, env, s1, calls);
        KeptThen(cfg, env, s, s1, stop, t);
        KeptSpeaks(cfg, env, s1, stop, t);
        if stop.None? {
          RoundOf(s.messages, s1.messages, t.messages, answer.value.content, calls);
        }
      }
    }
  }

  // ── Runs ────────────────────────────────────────────────────────────

  /** No more model turns than the budget had left, unless the counter passed 2^32. */
  ghost predicate WithinBudget(cfg: Config, s: State, t: State) {
    && s.modelTurns <= t.modelTurns
    && (t.turnCount < 0x1_0000_0000 ==>
          t.modelTurns - s.modelTurns <= if cfg.maxTurns > s.turnCount then cfg.maxTurns - s.turnCount else 0)
  }

  /**
   * A conversation that came to its end: full rounds, the final message, and budget left. Each message of a round
   * counted one turn, and so did the last model call.
   */
  ghost predicate Concluded(cfg: Config, env: Env, s: State, rounds: seq<seq<ModelMessage>>, content: string,
                            t: State) {
    && AreRounds(rounds) && t.modelTurns == s.modelTurns + |rounds| + 1 && !Spent(t.turnCount, cfg.maxTurns)
    && t.turnCount == s.turnCount + |Flatten(rounds)| + 1
    && t.messages == s.messages + Flatten(rounds) + Final(env.aborts(t.modelTurns - 1), content)
    && (env.aborts(t.modelTurns - 1) ==> content == "")
  }

  lemma {:induction false} FlattenCons(round: seq<ModelMessage>, rounds: seq<seq<ModelMessage>>)
    ensures Flatten([round] + rounds) == round + Flatten(rounds)
    decreases |rounds|
  {
    var all := [round] + rounds;
    if rounds == [] {
      assert all == [round] && all[..0] == [];
    } else {
      FlattenCons(round, rounds[..|rounds| - 1]);
      assert all[..|all| - 1] == [round] + rounds[..|rounds| - 1];
    }
  }

  lemma OneMoreRound(cfg: Config, env: Env, s: State, t: State, rounds: seq<seq<ModelMessage>>, content: string,
                     u: State)
    returns (all: seq<seq<ModelMessage>>)
    requires s.messages <= t.messages && IsRound(t.messages[|s.messages|..]) && t.modelTurns == s.modelTurns + 1
    requires t.turnCount == s.turnCount + |t.messages| - |s.messages|
    requires Concluded(cfg, env, t, rounds, content, u)
    ensures Concluded(cfg, env, s, all, content, u)
  {
    hide Spent, IsRound;
    var round := t.messages[|s.messages|..];
    all := [round] + rounds;
    FlattenCons(round, rounds);
  }

  lemma NoRounds(cfg: Config, env: Env, s: State, content: string, t: State)
    requires OnePass(cfg, env, s, Finished(content), t)
    ensures Concluded(cfg, env, s, [], content, t)
  {
    hide Kept, Spent;
    assert s.messages + [] == s.messages;
  }

  lemma {:induction false} LoopKept(cfg: Config, env: Env, s: State) returns (rounds: seq<seq<ModelMessage>>)
    requires Well(cfg, s)
    ensures var (r, t) := Loop(cfg, env, s);
            && Kept(cfg, env, s, ErrorOf(r), t) && WithinBudget(cfg, s, t)
            && (r.Ok? ==> Concluded(cfg, env, s, rounds, r.value, t))
            && (r == Err(MaxTurnsExceeded) ==> Spent(t.turnCount, cfg.maxTurns))
    decreases |s.inbox|
  {
    hide Kept, Well, Pass, Spent, Concluded, IsRound;
    rounds := [];
    PassKept(cfg, env, s);
    var (end, t) := Pass(cfg, env, s);
    KeptSpeaks(cfg, env, s, EndError(end), t);
    assert t.modelTurns > s.modelTurns && t.turnCount < 0x1_0000_0000 ==>
        cfg.maxTurns > s.turnCount by { BudgetWraps(s.turnCount, cfg.maxTurns); }
    match end {
      case GoOn =>
        KeptIsWell(cfg, env, s, None, t);
        var later := LoopKept(cfg, env, t);
        var (r, u) := Loop(cfg, env, t);
        KeptThen(cfg, env, s, t, ErrorOf(r), u);
        KeptSpeaks(cfg, env, t, ErrorOf(r), u);
        if r.Ok? {
          rounds := OneMoreRound(cfg, env, s, t, later, r.value, u);
        }
      case Finished(content) =>
        NoRounds(cfg, env, s, content, t);
      case Failed(_) =>
    }
  }

  lemma PreparedWell(cfg: Config, env: Env, s: State, input: string)
    requires Well(cfg, s)
    ensures Kept(cfg, env, s, None, Prepared(s, input)) && Well(cfg, Prepared(s, input))
  {
    hide Kept, Led, Well;
    var u := s.(roundCount := s.roundCount + 1);
    MovedLed(cfg, env, s, u);
    SayLed(cfg, env, u, User(input), ByUser);
    LedThen(cfg, env, s, u, None, Prepared(s, input));
    LedKept(cfg, env, s, None, Prepared(s, input));
  }

  lemma KeptRefused(cfg: Config, env: Env, s: State, t: State)
    requires Kept(cfg, env, s, Some(SnapshotFailed), t) && t == s
    ensures Kept(cfg, env, s, Some(SessionNotPreSaved), t)
  {
    hide Went, Balanced, Well, Faults;
  }

  /**
   * A run, whatever its end, keeps the state well and its books balanced. On success the budget is not spent and
   * the messages appended are the user's, full rounds, and the final assistant message (absent only after a
   * middleware abort), whose content is the result. While the counter stays below 2^32, no more model turns begin
   * than the budget had left.
   */
  lemma RunKept(cfg: Config, env: Env, s: State, input: string) returns (rounds: seq<seq<ModelMessage>>)
    requires Well(cfg, s)
    ensures var (r, t) := Run(cfg, env, s, input);
            && Kept(cfg, env, s, ErrorOf(r), t) && WithinBudget(cfg, s, t)
            && (r.Ok? ==> Concluded(cfg, env, s.(messages := s.messages + [User(input)]), rounds, r.value, t))
            && (r == Err(MaxTurnsExceeded) ==> Spent(t.turnCount, cfg.maxTurns))
  {
    hide Kept, Well, Loop, AreRounds, Flatten;
    rounds := [];
    var (r, t) := Run(cfg, env, s, input);
    if cfg.hasStore && (env.storeBroken || !env.preSaved) {
      MovedKept(cfg, env, s, Some(SnapshotFailed), t);
      KeptRefused(cfg, env, s, t);
    } else {
      var u := Prepared(s, input);
      PreparedWell(cfg, env, s, input);
      rounds := LoopKept(cfg, env, u);
      KeptThen(cfg, env, s, u, ErrorOf(r), t);
    }
  }

  // ── Wait events ─────────────────────────────────────────────────────

  /** A wait ended here that leaves its event registered. */
  ghost predicate IsFault(a: Act) {
    a.Spoiled? || a.Closed? || a.Unrecorded? || a.Unwound?
  }

  lemma {:induction false} FaultsGrow(h: History, k: History)
    requires h <= k
    ensures var before, after := Faults(h), Faults(k); var news := k[|h|..];
            && before.spoiled <= after.spoiled && before.closed <= after.closed && before.unrecorded <= after.unrecorded
            && (before.spoiled < after.spoiled <==> exists a <- news :: a.Spoiled?)
            && (before.closed < after.closed <==> exists a <- news :: a.Closed?)
            && (before.unrecorded < after.unrecorded <==> exists a <- news :: a.Unrecorded?)
            && before.panicked <= after.panicked && (before.panicked < after.panicked <==> exists a <- news ::
                a.Unwound?)
    decreases |k|
  {
    if h == k {
      assert k[|h|..] == [];
    } else {
      var front, a := k[..|k| - 1], k[|k| - 1];
      FaultsGrow(h, front);
      assert k[|h|..] == front[|h|..] + [a];
      assert forall x :: x in k[|h|..] <==> x in front[|h|..] || x == a;
    }
  }

  /** What happened between two states of a run. */
  ghost function News(s: State, t: State): History {
    if s.hist <= t.hist then t.hist[|s.hist|..] else []
  }

  /**
   * The wait events are as they were exactly if no wait ended with a failing processor, a closed handle, an
   * unrecorded query or a panic. Ok and a spent budget mean they are; a processor's error, a closed handle or a panic
   * that they are not; with every other result but a failed record it takes a failed processor or a closed handle to
   * lose one.
   */
  ghost predicate RestoredWhen<T>(s: State, r: Result<T, RunError>, t: State) {
    && s.hist <= t.hist && s.waitEvents <= t.waitEvents
    && (t.waitEvents == s.waitEvents <==> forall a <- News(s, t) :: !IsFault(a))
    && (r.Ok? || IsRunsOwn(ErrorOf(r)) ==> t.waitEvents == s.waitEvents)
    && (r.Err? && Leaks(r.error) ==> t.waitEvents != s.waitEvents)
    && (r.Err? && r.error != SnapshotFailed && r.error != Panicked ==>
          (t.waitEvents == s.waitEvents <==> forall a <- News(s, t) :: !a.Spoiled? && !a.Closed?))
  }

  lemma KeptRestores<T>(cfg: Config, env: Env, s: State, r: Result<T, RunError>, t: State)
    requires Kept(cfg, env, s, ErrorOf(r), t)
    ensures RestoredWhen(s, r, t)
  {
    hide Well, Good, Faults, Consumed, Faulted, Spoken, Attended;
    FaultsGrow(s.hist, t.hist);
    var before, after := Faults(s.hist), Faults(t.hist);
    assert t.waitEvents == s.waitEvents <==> after.Sum() == before.Sum();
    assert after.Sum() == before.Sum() <==> after == before;
    assert after == before <==> forall a <- News(s, t) :: !IsFault(a) by {
      if after != before {
        var a :| a in News(s, t) && IsFault(a);
      }
    }
  }

  /**
   * A run that ends Stopped or with a bus error restores its wait events iff no processor failed and no handle was
   * closed.
   */
  lemma RestoredIff(cfg: Config, env: Env, s: State, input: string)
    requires Well(cfg, s)
    ensures var (r, t) := Run(cfg, env, s, input); RestoredWhen(s, r, t)
  {
    hide Run, Well, Kept, RestoredWhen;
    var rounds := RunKept(cfg, env, s, input);
    var (r, t) := Run(cfg, env, s, input);
    KeptRestores(cfg, env, s, r, t);
  }

  /** Every message taken was of a type then awaited, or a reply the memory held at the start. */
  ghost predicate Timely(cfg: Config, s: State, t: State) {
    forall a <- News(s, t) :: !IsStrayTake(a, s.calls, cfg.capacity)
  }

  lemma KeptPanics(cfg: Config, env: Env, s: State, error: Option<RunError>, t: State)
    requires Kept(cfg, env, s, error, t)
    ensures error == Some(Panicked) <==> !Timely(cfg, s, t)
    ensures error == Some(Panicked) <==> Faults(t.hist).panicked > Faults(s.hist).panicked
  {
    hide Good, Consumed, Spoken, Balanced, Well, Faults, Spoils, IsStrayTake, SameMemory;
    var news := News(s, t);
    if error == Some(Panicked) {
      var i :| |s.hist| <= i < |t.hist| && IsStrayTake(t.hist[i], s.calls, cfg.capacity);
      assert news[i - |s.hist|] == t.hist[i] && t.hist[i] in news;
    } else {
      forall a | a in news ensures !IsStrayTake(a, s.calls, cfg.capacity) {
        var i :| 0 <= i < |news| && news[i] == a;
        assert t.hist[|s.hist| + i] == a;
      }
    }
  }

  /**
   * A run panics exactly if it takes a message that is of no type awaited then, and no reply the memory holds when
   * the run starts.
   */
  lemma PanicsIffUntimely(cfg: Config, env: Env, s: State, input: string)
    requires Well(cfg, s)
    ensures var (r, t) := Run(cfg, env, s, input); r == Err(Panicked) <==> !Timely(cfg, s, t)
  {
    hide Run, Well, Kept, Timely;
    var rounds := RunKept(cfg, env, s, input);
    var (r, t) := Run(cfg, env, s, input);
    KeptPanics(cfg, env, s, ErrorOf(r), t);
  }

  /**
   * If no processor fails on a message to come, somebody cancels before the messages run out, no write fails, and
   * every message comes while its type is awaited or is a duplicate reply, a run restores its wait events, however
   * it ends.
   */
  lemma CarefulRunRestores(cfg: Config, env: Env, s: State, input: string)
    requires Well(cfg, s) && Spoils(s.inbox) == 0 && !WritesMayFail(cfg, env)
    requires env.cancelAt.Some? && env.cancelAt.value <= s.polls + |s.inbox|
    requires Timely(cfg, s, Run(cfg, env, s, input).1)
    ensures Run(cfg, env, s, input).1.waitEvents == s.waitEvents
  {
    hide Run, Well, Good, Faults, Spoils, WritesMayFail, Consumed, Spoken, Attended, Timely;
    var rounds := RunKept(cfg, env, s, input);
    KeptPanics(cfg, env, s, ErrorOf(Run(cfg, env, s, input).0), Run(cfg, env, s, input).1);
  }

  // ── Where messages and executions come from ─────────────────────────

  lemma {:induction false} SaidAt(h: History, k: History, i: nat) returns (j: nat)
    requires h <= k && |Saids(h)| <= i < |Saids(k)|
    ensures |h| <= j < |k| && k[j].Said? && k[j].message == Saids(k)[i]
    decreases |k|
  {
    var front := k[..|k| - 1];
    assert h != k && h <= front;
    if i < |Saids(front)| {
      j := SaidAt(h, front, i);
    } else {
      j := |front|;
    }
  }

  /**
   * Each message a run adds to the conversation is said at some point of the run, and there it is justified: an
   * assistant message is what the first response to its own model call says, a tool message what the first result
   * of its own execution says, or a denial, a refusal or a cancellation.
   */
  lemma MessagesAreJustified(cfg: Config, env: Env, s: State, input: string, i: nat) returns (j: nat)
    requires Well(cfg, s) && |s.messages| <= i < |Run(cfg, env, s, input).1.messages|
    ensures var t := Run(cfg, env, s, input).1;
            && |s.hist| <= j < |t.hist| && t.hist[j].Said? && t.hist[j].message == t.messages[i]
            && Justified(cfg, t.hist[..j], t.messages[i], t.hist[j].why)
            && (t.messages[i].role == "assistant" ==> t.hist[j].why.ByModel?)
            && (t.messages[i].role == "tool" ==> !t.hist[j].why.ByModel? && !t.hist[j].why.ByUser?)
  {
    hide Run, Faults, Justified, Saids;
    var rounds := RunKept(cfg, env, s, input);
    var t := Run(cfg, env, s, input).1;
    var k := |Saids(s.hist)| + (i - |s.messages|);
    j := SaidAt(s.hist, t.hist, k);
    MessageIsJustified(cfg, t.hist, j);
  }

  /**
   * Each tool_exec a run hands to the bus is a checkpoint rule's own or a tool turn's. A tool turn's goes to its own
   * target, else the tool's owner, else everyone, with the call's arguments. The tool's first permission entry is not
   * Deny. If it is Ask, this call's own request was made before, the first response with that request's id says allow,
   * and no other execution rests on it.
   */
  lemma ExecutionsAreCleared(cfg: Config, env: Env, s: State, input: string, j: nat) returns (i: nat, k: nat)
    requires Well(cfg, s)
    requires var h := Run(cfg, env, s, input).1.hist;
             |s.hist| <= j < |h| && h[j].Tried? && (h[j].origin.Executing? || h[j].msg.msgType == TOOL_EXEC)
    ensures var a := Run(cfg, env, s, input).1.hist[j]; a.origin.Executing? || a.origin.Dispatching?
    ensures var h := Run(cfg, env, s, input).1.hist;
            h[j].origin.Executing? ==>
              var call, permit := h[j].origin.call, h[j].origin.permit;
              && IsExecution(cfg, h[j].msg, call) && !Permitted(cfg.permissions, call.name, Deny)
              && (Permitted(cfg.permissions, call.name, Ask) ==>
                    && permit.Some? && i < k < j && Granted(cfg, h[..j], call, permit.value, i, k)
                    && forall x :: 0 <= x < j && h[x].Tried? && h[x].origin.Executing? ==> h[x].origin.permit != permit)
  {
    hide Run, Faults, Saids, Permitted, Granted, IsExecution;
    var rounds := RunKept(cfg, env, s, input);
    var h := Run(cfg, env, s, input).1.hist;
    i, k := 0, 0;
    if h[j].origin.Executing? {
      i, k := ExecutionIsCleared(cfg, h, j);
      forall p, q | Permitted(cfg.permissions, h[j].origin.call.name, p)
          && Permitted(cfg.permissions, h[j].origin.call.name, q) ensures p == q {
        PermittedOnce(cfg.permissions, h[j].origin.call.name, p, q);
      }
      forall x | 0 <= x < j && h[x].Tried? && h[x].origin.Executing? && h[j].origin.permit.Some?
        ensures h[x].origin.permit != h[j].origin.permit
      {
        GrantsAreUsedOnce(cfg, h, x, j);
      }
    } else {
      ExecutionsComeFromTurns(cfg, h, j);
    }
  }
}
