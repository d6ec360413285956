/** A session over many processes: runs, handoffs, resends, and crashes at any act. */
module Sessions {
  import opened Wrappers
  import opened Messages
  import opened Outbox
  import opened Histories
  import opened SoundHistories
  import opened Runs
  import opened RunLaws
  import opened TurnLaws
  import opened RunTheorems
  import opened Restarts

  /**
   * A crash forgets everything after some act, possibly leaving torn text at the end of the log file; the process
   * that comes after it starts with any conversation, any input, and ids nobody used.
   */
  datatype Deed =
    | Running(env: Env, input: string)
    | HandingOff(env: Env, question: string, context: Json, options: seq<string>)
    | ResendingAll(env: Env, pending: seq<PendingOutbound>)
    | Crashing(act: nat, torn: bool, next: State)

  ghost predicate Possible(s: State, d: Deed) {
    match d
    case Running(_, _) => true
    case HandingOff(_, _, _, _) => true
    case ResendingAll(_, pending) => IsOutboxOf(pending, ReadBack(s.hist))
    case Crashing(n, torn, next) =>
      && n <= |s.hist| && next.hist == s.hist[..n] + (if torn then [Scribbled] else [])
      && next.waitEvents == [] && next.nextId >= s.nextId
  }

  ghost function After(cfg: Config, s: State, d: Deed): State {
    match d
    case Running(env, input) => Round(cfg, env, s, input).1
    case HandingOff(env, question, context, options) => Handoff(cfg, env, s, question, context, options).1
    case ResendingAll(env, pending) => Resend(cfg, env, s, pending).1
    case Crashing(_, _, next) => next
  }

  /** The states a session can reach from `s`, deed by deed. */
  ghost predicate Session(cfg: Config, s: State, deeds: seq<Deed>, t: State)
    decreases |deeds|
  {
    if deeds == [] then t == s
    else Possible(s, deeds[0]) && Session(cfg, After(cfg, s, deeds[0]), deeds[1..], t)
  }

  lemma RoundKept(cfg: Config, env: Env, s: State, input: string)
    requires Well(cfg, s)
    ensures var (r, t) := Round(cfg, env, s, input); Kept(cfg, env, s, ErrorOf(r), t) && RestoredWhen(s, r, t)
  {
    hide Well, Kept, Note, Run, Led, RestoredWhen;
    var s1 := Note(cfg, env, s, "round_start");
    NoteLed(cfg, env, s, "round_start");
    LedKept(cfg, env, s, None, s1);
    var rounds := RunKept(cfg, env, s1, input);
    var (r, s2) := Run(cfg, env, s1, input);
    KeptThen(cfg, env, s, s1, ErrorOf(r), s2);
    KeptIsWell(cfg, env, s, ErrorOf(r), s2);
    var t := Round(cfg, env, s, input).1;
    if r != Err(Panicked) {
      NoteLed(cfg, env, s2, "round_end");
      LedKept(cfg, env, s2, None, t);
      KeptBefore(cfg, env, s, ErrorOf(r), s2, t);
    }
    KeptRestores(cfg, env, s, r, t);
  }

  lemma KeptBefore(cfg: Config, env: Env, s: State, error: Option<RunError>, t: State, u: State)
    requires Kept(cfg, env, s, error, t) && Kept(cfg, env, t, None, u)
    ensures Kept(cfg, env, s, error, u)
  {
    hide Went, Balanced, Well, Tells;
    WentTrans(cfg, env, s, t, u);
    BalancedTrans(s, t, u);
    EvenTells(s, error, t, u);
  }

  lemma CrashWell(cfg: Config, s: State, n: nat, torn: bool, next: State)
    requires Well(cfg, s) && Possible(s, Crashing(n, torn, next))
    ensures Well(cfg, next)
  {
    hide Sound, FileOf;
    CrashKeepsSound(cfg, s.hist, n);
    assert s.hist[..n] + [] == s.hist[..n];
    UsedIsKept(s.hist, n, s.nextId);
  }

  lemma UsedIsKept(h: History, n: nat, bound: Uuid)
    requires UsedBelow(h, bound) && n <= |h|
    ensures UsedBelow(h[..n], bound) && UsedBelow(h[..n] + [Scribbled], bound)
  {
    assert forall a <- h[..n] :: a in h;
  }

  lemma AfterWell(cfg: Config, s: State, d: Deed)
    requires Well(cfg, s) && Possible(s, d)
    ensures Well(cfg, After(cfg, s, d))
  {
    hide Well, Kept, Round, Handoff, Resend, Led, IsOutboxOf, ReadBack;
    match d {
      case Running(env, input) =>
        RoundKept(cfg, env, s, input);
        KeptIsWell(cfg, env, s, ErrorOf(Round(cfg, env, s, input).0), Round(cfg, env, s, input).1);
      case HandingOff(env, question, context, options) =>
        HandoffLed(cfg, env, s, question, context, options);
      case ResendingAll(env, pending) =>
        ResendLed(cfg, env, s, pending);
      case Crashing(n, torn, next) =>
        CrashWell(cfg, s, n, torn, next);
    }
  }

  /**
   * Whatever a session does and wherever it crashes, its history stays sound: everything `SoundHistories` says of
   * executions, conversation messages, records and attempts holds of it.
   */
  lemma {:induction false} SessionWell(cfg: Config, s: State, deeds: seq<Deed>, t: State)
    requires Well(cfg, s) && Session(cfg, s, deeds, t)
    ensures Well(cfg, t) && Sound(cfg, t.hist)
    decreases |deeds|
  {
    if deeds == [] {
      hide Sound;
    } else {
      hide Well, Sound, After, Possible;
      AfterWell(cfg, s, deeds[0]);
      SessionWell(cfg, After(cfg, s, deeds[0]), deeds[1..], t);
    }
  }

  /** A new engine is well. */
  lemma NewIsWell(cfg: Config, s: State)
    requires s.hist == [] && s.waitEvents == []
    ensures Well(cfg, s)
  {
  }

  /** In every session that begins with a new engine, each peer message or handoff on the bus was recorded before. */
  lemma SessionRecordsFirst(cfg: Config, s: State, deeds: seq<Deed>, t: State, i: nat) returns (j: nat)
    requires s.hist == [] && s.waitEvents == [] && Session(cfg, s, deeds, t)
    requires cfg.hasStore && i < |t.hist| && t.hist[i].Sent? && IsOutbox(t.hist[i].msg.msgType)
    ensures j < i && t.hist[j].Wrote? && Covers(t.hist[j].event, t.hist[i].msg)
  {
    NewIsWell(cfg, s);
    SessionWell(cfg, s, deeds, t);
    j := RecordedFirst(cfg, t.hist, i);
  }
}
