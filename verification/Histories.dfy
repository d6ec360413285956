/** Everything the engine did in a session, in order, and what a sound history looks like. */
module Histories {
  import opened Wrappers
  import opened Seqs
  import opened Messages
  import opened Discovery
  import opened Outbox
  import opened Conversation

  datatype Permission = Allow | Ask | Deny

  /** What stays fixed for an engine. */
  datatype Config = Config(agentId: NodeId, hasStore: bool, maxTurns: nat, model: NodeId,
                           permissions: seq<(string, Permission)>, owners: map<string, NodeId>, routes: Routes,
                               capacity: nat)

  /**
   * On whose behalf a message is handed to the bus; an execution names the request that permitted it, if one was
   * needed, and a checkpoint's message the checkpoint.
   */
  datatype Origin =
    | Asking
    | Requesting(call: ToolCall)
    | Executing(call: ToolCall, permit: Option<Uuid>)
    | Dispatching(trigger: string)
    | Handing
    | Resending

  /** What a conversation message rests on. */
  datatype Why =
    | ByUser
    | ByModel(cid: Uuid)
    | ByTool(call: ToolCall, cid: Uuid)
    | ByPolicy(call: ToolCall)
    | ByRefusal(call: ToolCall, cid: Uuid)
    | ByCancel(call: ToolCall)

  /**
   * One act. A line of the log file takes two: its text, `Wrote` for an event and `Scribbled` for a snapshot or for
   * a torn part of either, and its end, `Ended`. A message is taken by a wait for some types. `Spoiled`, `Closed`,
   * `Unrecorded` and `Unwound` are the ends of a wait that leave its event registered: a failing response processor,
   * a closed handle, a query whose record failed, and a message nobody waits for, on whose way to the handlers the
   * run panics. At a checkpoint the rules are `Consulted`.
   */
  datatype Act =
    | Wrote(event: Event)
    | Scribbled
    | Ended
    | Tried(msg: Message, origin: Origin)
    | Sent(msg: Message)
    | Took(msg: Message, types: seq<string>)
    | Said(message: ModelMessage, why: Why)
    | Spoiled(msg: Message)
    | Closed
    | Unrecorded
    | Unwound(msg: Message)
    | Consulted(trigger: string)

  type History = seq<Act>

  // ── The log file ────────────────────────────────────────────────────

  ghost function AddPiece(f: LogFile, piece: Option<Event>): LogFile
    requires f != []
  {
    f[..|f| - 1] + [f[|f| - 1] + [piece]]
  }

  /** The file these acts leave behind; its last line has not ended. */
  ghost function FileOf(h: History): (f: LogFile)
    ensures f != []
  {
    if h == [] then [[]]
    else
      var before := FileOf(h[..|h| - 1]);
      match h[|h| - 1]
      case Wrote(e) => AddPiece(before, Some(e))
      case Scribbled => AddPiece(before, None)
      case Ended => before + [[]]
      case _ => before
  }

  ghost function Tail(h: History): seq<Option<Event>> {
    var f := FileOf(h);
    f[|f| - 1]
  }

  /** The events written. */
  ghost function Events(h: History): seq<Event> {
    if h == [] then []
    else
      var before, last := Events(h[..|h| - 1]), h[|h| - 1];
      if last.Wrote? then before + [last.event] else before
  }

  /** The events a reader of the file finds. */
  ghost function ReadBack(h: History): seq<Event> {
    Parsed(FileOf(h))
  }

  lemma ParsedAdd(f: LogFile, piece: Option<Event>)
    requires f != []
    ensures Parsed(AddPiece(f, piece)) == Parsed(f[..|f| - 1]) + LineEvent(f[|f| - 1] + [piece])
    ensures Parsed(f) == Parsed(f[..|f| - 1]) + LineEvent(f[|f| - 1])
  {
    var g := AddPiece(f, piece);
    assert g[..|g| - 1] == f[..|f| - 1];
  }

  /** A piece on a fresh line is read back; on a line that holds one event it takes that one along. */
  lemma ReadBackSnoc(h: History, a: Act)
    ensures a.Wrote? && Tail(h) == [] ==> ReadBack(h + [a]) == ReadBack(h) + [a.event]
    ensures (a.Wrote? || a.Scribbled?) && |Tail(h)| == 1 && Tail(h)[0].Some? ==>
            ReadBack(h) == ReadBack(h + [a]) + [Tail(h)[0].value]
    ensures a.Wrote? && Tail(h) != [] && !(|Tail(h)| == 1 && Tail(h)[0].Some?) ==> ReadBack(h + [a]) == ReadBack(h)
    ensures a.Scribbled? && !(|Tail(h)| == 1 && Tail(h)[0].Some?) ==> ReadBack(h + [a]) == ReadBack(h)
    ensures !a.Wrote? && !a.Scribbled? ==> ReadBack(h + [a]) == ReadBack(h)
  {
    assert (h + [a])[..|h|] == h;
    var f := FileOf(h);
    match a
    case Wrote(e) => ParsedAdd(f, Some(e));
    case Scribbled => ParsedAdd(f, None);
    case Ended => assert (f + [[]])[..|f|] == f;
    case _ =>
  }

  /** The whole events among the pieces of a line. */
  ghost function Whole(line: seq<Option<Event>>): seq<Event> {
    if line == [] then []
    else Whole(line[..|line| - 1]) + match line[|line| - 1] case Some(e) => [e] case None => []
  }

  ghost function AllWhole(f: LogFile): seq<Event> {
    if f == [] then [] else AllWhole(f[..|f| - 1]) + Whole(f[|f| - 1])
  }

  lemma {:induction false} AllWholeIsEvents(h: History)
    ensures AllWhole(FileOf(h)) == Events(h)
    decreases |h|
  {
    if h == [] {
      var f: LogFile := [[]];
      assert f[..0] == [];
    } else {
      AllWholeIsEvents(h[..|h| - 1]);
      var f := FileOf(h[..|h| - 1]);
      match h[|h| - 1]
      case Wrote(e) => WholeAdd(f, Some(e));
      case Scribbled => WholeAdd(f, None);
      case Ended => assert (f + [[]])[..|f|] == f;
      case _ =>
    }
  }

  lemma WholeAdd(f: LogFile, piece: Option<Event>)
    requires f != []
    ensures AllWhole(AddPiece(f, piece)) == AllWhole(f) + match piece case Some(e) => [e] case None => []
  {
    var g, line := AddPiece(f, piece), f[|f| - 1];
    assert g[..|g| - 1] == f[..|f| - 1];
    assert (line + [piece])[..|line|] == line;
  }

  /** A line on which no event was joined by another piece. */
  ghost predicate CleanLine(line: seq<Option<Event>>) {
    |line| <= 1 || forall piece <- line :: piece.None?
  }

  ghost predicate Clean(f: LogFile) {
    forall line <- f :: CleanLine(line)
  }

  lemma {:induction false} LineReadsBackIff(line: seq<Option<Event>>)
    ensures Whole(line) == [] <==> forall piece <- line :: piece.None?
    ensures |LineEvent(line)| <= |Whole(line)| && (|LineEvent(line)| == |Whole(line)| <==> CleanLine(line))
    ensures CleanLine(line) ==> LineEvent(line) == Whole(line)
    decreases |line|
  {
    if line != [] {
      var front, last := line[..|line| - 1], line[|line| - 1];
      LineReadsBackIff(front);
      assert forall piece :: piece in line <==> piece in front || piece == last;
      if |line| == 1 {
        assert front == [];
      } else {
        assert LineEvent(line) == [];
      }
    }
  }

  lemma {:induction false} ParsesWholeIff(f: LogFile)
    ensures |Parsed(f)| <= |AllWhole(f)| && (|Parsed(f)| == |AllWhole(f)| <==> Clean(f))
    ensures Clean(f) ==> Parsed(f) == AllWhole(f)
    decreases |f|
  {
    if f != [] {
      var front, last := f[..|f| - 1], f[|f| - 1];
      ParsesWholeIff(front);
      LineReadsBackIff(last);
      assert forall line :: line in f <==> line in front || line == last;
    }
  }

  /** The file reads back as everything written exactly if no event shares its line with another piece. */
  lemma ReadsBackIffClean(h: History)
    ensures ReadBack(h) == Events(h) <==> Clean(FileOf(h))
  {
    AllWholeIsEvents(h);
    ParsesWholeIff(FileOf(h));
  }

  /** What is read back was written. */
  lemma {:induction false} ReadBackIsWritten(h: History, e: Event)
    requires e in ReadBack(h)
    ensures e in Events(h)
    decreases |h|
  {
    if h != [] {
      var front, a := h[..|h| - 1], h[|h| - 1];
      assert h == front + [a];
      ReadBackSnoc(front, a);
      if e in ReadBack(front) {
        ReadBackIsWritten(front, e);
      }
    }
  }

  /**
   * A line left without its end swallows the next event too: both are written, the second to the end of its
   * line, and a reader finds neither.
   */
  lemma GluedEventsVanish(h: History, a: Event, b: Event, glued: History)
    requires Tail(h) == [] && glued == ((h + [Wrote(a)]) + [Wrote(b)]) + [Ended]
    ensures ReadBack(glued) == ReadBack(h) && Events(glued) == Events(h) + [a, b]
  {
    var one := h + [Wrote(a)];
    var two := one + [Wrote(b)];
    OneGlued(h, a, one);
    TwoGlued(h, a, b, one, two);
    ReadBackSnoc(two, Ended);
    EventsSnoc(two, Ended);
  }

  lemma OneGlued(h: History, a: Event, one: History)
    requires Tail(h) == [] && one == h + [Wrote(a)]
    ensures Tail(one) == [Some(a)] && ReadBack(one) == ReadBack(h) + [a] && Events(one) == Events(h) + [a]
  {
    TailSnoc(h, Wrote(a));
    ReadBackSnoc(h, Wrote(a));
    EventsSnoc(h, Wrote(a));
  }

  lemma TwoGlued(h: History, a: Event, b: Event, one: History, two: History)
    requires Tail(one) == [Some(a)] && ReadBack(one) == ReadBack(h) + [a] && Events(one) == Events(h) + [a]
    requires two == one + [Wrote(b)]
    ensures ReadBack(two) == ReadBack(h) && Events(two) == Events(h) + [a, b]
  {
    GlueTakesAlong(one, a, b);
    SameFront(ReadBack(h), ReadBack(two), a);
    EventsSnoc(one, Wrote(b));
  }

  lemma GlueTakesAlong(h: History, a: Event, b: Event)
    requires Tail(h) == [Some(a)]
    ensures ReadBack(h) == ReadBack(h + [Wrote(b)]) + [a]
  {
    ReadBackSnoc(h, Wrote(b));
  }

  lemma SameFront<T>(x: seq<T>, y: seq<T>, a: T)
    requires x + [a] == y + [a]
    ensures x == y
  {
    assert x == (x + [a])[..|x|] && y == (y + [a])[..|y|];
  }

  lemma EventsSnoc(h: History, a: Act)
    ensures Events(h + [a]) == if a.Wrote? then Events(h) + [a.event] else Events(h)
  {
    assert (h + [a])[..|h|] == h;
  }

  lemma TailSnoc(h: History, a: Act)
    ensures Tail(h + [a]) ==
            match a
            case Wrote(e) => Tail(h) + [Some(e)]
            case Scribbled => Tail(h) + [None]
            case Ended => []
            case _ => Tail(h)
  {
    assert (h + [a])[..|h|] == h;
  }

  // ── Requests and answers ────────────────────────────────────────────

  /** A message with this id was handed to the bus. */
  ghost predicate Asked(h: History, cid: Uuid) {
    exists a <- h :: a.Tried? && a.msg.cid == Some(cid)
  }

  /** The first message of this type with this id received after the id was first used in a message. */
  ghost function Answer(h: History, msgType: string, cid: Uuid): Option<Message> {
    if h == [] then None
    else
      var front, last := h[..|h| - 1], h[|h| - 1];
      var before := Answer(front, msgType, cid);
      if before.Some? then before
      else if last.Took? && Counts(last.msg, [msgType], cid) && Asked(front, cid) then Some(last.msg)
      else None
  }

  /** Where the answer stands: after a use of the id, and first of its kind since. */
  lemma {:induction false} AnswerPlace(h: History, msgType: string, cid: Uuid) returns (i: nat, k: nat)
    requires Answer(h, msgType, cid).Some?
    ensures i < k < |h| && h[i].Tried? && h[i].msg.cid == Some(cid)
    ensures h[k].Took? && h[k].msg == Answer(h, msgType, cid).value && Counts(h[k].msg, [msgType], cid)
    ensures forall j :: i < j < k && h[j].Took? ==> !Counts(h[j].msg, [msgType], cid)
    ensures forall j :: 0 <= j < i ==> !(h[j].Tried? && h[j].msg.cid == Some(cid))
    decreases |h|
  {
    var front, last := h[..|h| - 1], h[|h| - 1];
    if Answer(front, msgType, cid).Some? {
      i, k := AnswerPlace(front, msgType, cid);
    } else {
      k := |h| - 1;
      i := FirstAsked(front, cid);
      forall j | i < j < k && h[j].Took? ensures !Counts(h[j].msg, [msgType], cid) {
        UnansweredSince(front, msgType, cid, i, j);
      }
    }
  }

  lemma {:induction false} FirstAsked(h: History, cid: Uuid) returns (i: nat)
    requires Asked(h, cid)
    ensures i < |h| && h[i].Tried? && h[i].msg.cid == Some(cid)
    ensures forall j :: 0 <= j < i ==> !(h[j].Tried? && h[j].msg.cid == Some(cid))
    decreases |h|
  {
    var front, last := h[..|h| - 1], h[|h| - 1];
    if Asked(front, cid) {
      i := FirstAsked(front, cid);
    } else {
      i := |h| - 1;
      assert forall j :: 0 <= j < i ==> h[j] in front;
      var a :| a in h && a.Tried? && a.msg.cid == Some(cid);
      assert a in front || a == last;
    }
  }

  lemma {:induction false} UnansweredSince(h: History, msgType: string, cid: Uuid, i: nat, j: nat)
    requires Answer(h, msgType, cid).None? && i < j < |h| && h[i].Tried? && h[i].msg.cid == Some(cid) && h[j].Took?
    ensures !Counts(h[j].msg, [msgType], cid)
    decreases |h|
  {
    var front := h[..|h| - 1];
    if j < |front| {
      UnansweredSince(front, msgType, cid, i, j);
    } else {
      assert front[i] in front;
    }
  }

  // ── Sound histories ─────────────────────────────────────────────────

  function ModelCall(cfg: Config, cid: Uuid): Message {
    Message(MODEL_CALL, cfg.agentId, [cfg.model], Some(cid), Null)
  }

  function PermissionRequest(cfg: Config, call: ToolCall, cid: Uuid): Message {
    Message(PERMISSION_REQUEST, cfg.agentId, [], Some(cid),
            Obj(map["tool_name" := Str(call.name), "arguments" := call.arguments, "tool_call_id" := Str(call.id)]))
  }

  /** The call's own target, else the node that owns the tool, else everyone. */
  function ExecTargets(cfg: Config, call: ToolCall): seq<NodeId> {
    if call.target.Some? then [call.target.value]
    else if call.name in cfg.owners then [cfg.owners[call.name]]
    else []
  }

  function ToolExec(cfg: Config, call: ToolCall, cid: Uuid): Message {
    var to := ExecTargets(cfg, call);
    Message(TOOL_EXEC, cfg.agentId, to, Some(cid),
            Obj(map["tool_name" := Str(call.name), "arguments" := call.arguments,
                    "target" := if to == [] then Null else Str(to[0])]))
  }

  function LookupPermission(permissions: seq<(string, Permission)>, tool: string): Permission {
    if permissions == [] then Allow
    else if permissions[0].0 == tool then permissions[0].1
    else LookupPermission(permissions[1..], tool)
  }

  ghost predicate FirstEntry(permissions: seq<(string, Permission)>, tool: string, i: nat) {
    i < |permissions| && permissions[i].0 == tool && forall j :: 0 <= j < i ==> permissions[j].0 != tool
  }

  /** The tool's first entry says `p`; a tool without an entry is allowed. */
  ghost predicate Permitted(permissions: seq<(string, Permission)>, tool: string, p: Permission) {
    || (exists i: nat :: FirstEntry(permissions, tool, i) && permissions[i].1 == p)
    || (p == Allow && forall i :: 0 <= i < |permissions| ==> permissions[i].0 != tool)
  }

  lemma {:induction false} LookupIsFirst(permissions: seq<(string, Permission)>, tool: string, p: Permission)
    ensures Permitted(permissions, tool, p) <==> LookupPermission(permissions, tool) == p
    decreases |permissions|
  {
    if permissions != [] {
      if permissions[0].0 == tool {
        assert FirstEntry(permissions, tool, 0);
      } else {
        var rest := permissions[1..];
        LookupIsFirst(rest, tool, p);
        if i: nat :| FirstEntry(rest, tool, i) && rest[i].1 == p {
          assert permissions[i + 1] == rest[i];
          forall j | 0 <= j < i + 1 ensures permissions[j].0 != tool {
            assert j > 0 ==> permissions[j] == rest[j - 1];
          }
          assert FirstEntry(permissions, tool, i + 1);
        }
        if i: nat :| FirstEntry(permissions, tool, i) && permissions[i].1 == p {
          assert FirstEntry(rest, tool, i - 1);
        }
        assert (forall i :: 0 <= i < |permissions| ==> permissions[i].0 != tool) <==>
               (forall i :: 0 <= i < |rest| ==> rest[i].0 != tool) by {
          if forall i :: 0 <= i < |rest| ==> rest[i].0 != tool {
            forall i | 0 <= i < |permissions| ensures permissions[i].0 != tool {
              assert i > 0 ==> permissions[i] == rest[i - 1];
            }
          }
        }
      }
    }
  }

  predicate SaysAllow(m: Message) {
    m.payload.Get("allow") == Some(Bool(true))
  }

  // ── What answers say ────────────────────────────────────────────────

  /** The model's text is the content of its message; nothing if that is no text. */
  ghost predicate Says(payload: Json, content: string) {
    || (exists m :: HasField(payload, "message", m) && HasField(m, "content", Str(content)))
    || (content == "" && forall m, t :: !(HasField(payload, "message", m) && HasField(m, "content", Str(t))))
  }

  /** Each field of the call is that of the item; without a target the item has none, or null. */
  ghost predicate IsCallOf(item: Json, c: ToolCall) {
    && HasField(item, "id", Str(c.id)) && HasField(item, "name", Str(c.name))
    && HasField(item, "arguments", c.arguments)
    && match c.target
       case Some(t) => HasField(item, "target", Str(t))
       case None => "target" !in item.fields || item.fields["target"] == Null
  }

  /** No text for an id or a name, no arguments, or a target that is neither text nor null. */
  ghost predicate IsNoCall(item: Json) {
    || !item.Obj? || "id" !in item.fields || !item.fields["id"].Str?
    || "name" !in item.fields || !item.fields["name"].Str? || "arguments" !in item.fields
    || ("target" in item.fields && !item.fields["target"].Str? && !item.fields["target"].Null?)
  }

  /** The calls are those of the items at these rising places; the other items are no calls. */
  ghost predicate CallsAt(items: seq<Json>, at: seq<nat>, calls: seq<ToolCall>) {
    && |at| == |calls| && Rising(at)
    && (forall k :: 0 <= k < |at| ==> at[k] < |items| && IsCallOf(items[at[k]], calls[k]))
    && forall i :: 0 <= i < |items| && i !in at ==> IsNoCall(items[i])
  }

  ghost function Items(payload: Json): seq<Json> {
    if payload.Obj? && "tool_calls" in payload.fields && payload.fields["tool_calls"].Arr?
    then payload.fields["tool_calls"].items
    else []
  }

  /** The model asks for these calls, in this order. */
  ghost predicate Asks(payload: Json, calls: seq<ToolCall>) {
    exists at :: CallsAt(Items(payload), at, calls)
  }

  /** A tool's text: its error, or else its content. */
  ghost predicate Yields(payload: Json, text: string) {
    || (exists e :: HasField(payload, "error", Str(e)) && text == "error: " + e)
    || (HasText(payload, "error", None) &&
        (HasField(payload, "content", Str(text)) || (text == "" && HasText(payload, "content", None))))
  }

  function ParseToolCall(j: Json): Option<ToolCall> {
    var id, name, arguments := j.GetStr("id"), j.GetStr("name"), j.Get("arguments");
    if id.None? || name.None? || arguments.None? then None
    else
      match j.Get("target")
      case Some(Str(t)) => Some(ToolCall(id.value, name.value, arguments.value, Some(t)))
      case Some(Null) => Some(ToolCall(id.value, name.value, arguments.value, None))
      case Some(_) => None
      case None => Some(ToolCall(id.value, name.value, arguments.value, None))
  }

  /** The calls that parse, in order. */
  function ParseToolCalls(items: seq<Json>): seq<ToolCall> {
    if items == [] then []
    else (match ParseToolCall(items[0]) case Some(c) => [c] case None => []) + ParseToolCalls(items[1..])
  }

  lemma ParsesIff(item: Json)
    ensures match ParseToolCall(item) case Some(c) => IsCallOf(item, c) case None => IsNoCall(item)
  {
  }

  /** Every place moves up by one, and the new item's, if it is a call, comes first. */
  ghost function Shifted(rest: seq<nat>, first: bool): (at: seq<nat>)
    ensures |at| == |rest| + (if first then 1 else 0) && (first ==> at[0] == 0)
    ensures forall k :: 0 <= k < |rest| ==> at[k + if first then 1 else 0] == rest[k] + 1
  {
    (if first then [0] else []) + seq(|rest|, k requires 0 <= k < |rest| => rest[k] + 1)
  }

  lemma ShiftedRises(rest: seq<nat>, first: bool)
    requires Rising(rest)
    ensures Rising(Shifted(rest, first))
  {
    var at, n := Shifted(rest, first), if first then 1 else 0;
    hide Shifted;
    forall j, k | 0 <= j < k < |at| ensures at[j] < at[k] {
      assert at[k - n + n] == rest[k - n] + 1;
      if j >= n {
        assert at[j - n + n] == rest[j - n] + 1;
      }
    }
  }

  /** One item more in front. */
  lemma CallsCons(items: seq<Json>, rest: seq<nat>, calls: seq<ToolCall>, own: seq<ToolCall>)
    requires items != [] && CallsAt(items[1..], rest, calls) && |own| <= 1
    requires if own == [] then IsNoCall(items[0]) else IsCallOf(items[0], own[0])
    ensures CallsAt(items, Shifted(rest, own != []), own + calls)
  {
    hide IsCallOf, IsNoCall, Shifted, Rising;
    ShiftedRises(rest, own != []);
    hide CallsAt;
    var at, all := Shifted(rest, own != []), own + calls;
    forall k | 0 <= k < |at| ensures at[k] < |items| && IsCallOf(items[at[k]], all[k]) {
      ItemRead(items, rest, calls, own, k);
    }
    forall i | 0 <= i < |items| ensures i in at || IsNoCall(items[i]) {
      ItemCovered(items, rest, calls, own, i);
    }
    CallsStand(items, at, all);
  }

  lemma CallsStand(items: seq<Json>, at: seq<nat>, calls: seq<ToolCall>)
    requires |at| == |calls| && Rising(at)
    requires forall k :: 0 <= k < |at| ==> at[k] < |items| && IsCallOf(items[at[k]], calls[k])
    requires forall i :: 0 <= i < |items| ==> i in at || IsNoCall(items[i])
    ensures CallsAt(items, at, calls)
  {
  }

  lemma ItemRead(items: seq<Json>, rest: seq<nat>, calls: seq<ToolCall>, own: seq<ToolCall>, k: nat)
    requires items != [] && CallsAt(items[1..], rest, calls) && |own| <= 1 && k < |own| + |rest|
    requires own != [] ==> IsCallOf(items[0], own[0])
    ensures var at := Shifted(rest, own != []); at[k] < |items| && IsCallOf(items[at[k]], (own + calls)[k])
  {
    hide IsCallOf, IsNoCall, Rising, Shifted;
    var at := Shifted(rest, own != []);
    if k >= |own| {
      var j := k - |own|;
      assert at[j + if own != [] then 1 else 0] == rest[j] + 1 && (own + calls)[k] == calls[j];
      assert items[rest[j] + 1] == items[1..][rest[j]];
    }
  }

  lemma ItemCovered(items: seq<Json>, rest: seq<nat>, calls: seq<ToolCall>, own: seq<ToolCall>, i: nat)
    requires items != [] && CallsAt(items[1..], rest, calls) && |own| <= 1 && i < |items|
    requires own == [] ==> IsNoCall(items[0])
    ensures i in Shifted(rest, own != []) || IsNoCall(items[i])
  {
    hide IsCallOf, IsNoCall, Rising, Shifted;
    var at := Shifted(rest, own != []);
    if i > 0 {
      assert items[i] == items[1..][i - 1];
      if i - 1 in rest {
        var k: nat :| k < |rest| && rest[k] == i - 1;
        assert at[k + if own != [] then 1 else 0] == i;
      }
    }
  }

  /** Each call at its item's place. */
  lemma {:induction false} ParsedInOrder(items: seq<Json>) returns (at: seq<nat>)
    ensures CallsAt(items, at, ParseToolCalls(items))
    decreases |items|
  {
    hide ParseToolCall, IsCallOf, IsNoCall;
    if items == [] {
      at := [];
    } else {
      var rest := ParsedInOrder(items[1..]);
      ParsesIff(items[0]);
      var own := match ParseToolCall(items[0]) case Some(c) => [c] case None => [];
      CallsCons(items, rest, ParseToolCalls(items[1..]), own);
      at := Shifted(rest, own != []);
    }
  }

  lemma CallsAsked(payload: Json)
    ensures Asks(payload, CallsOf(payload))
  {
    var at := ParsedInOrder(Items(payload));
  }

  lemma ContentSaid(payload: Json)
    ensures Says(payload, ContentOf(payload))
  {
    if payload.Get("message").Some? {
      var m := payload.Get("message").value;
      assert HasField(payload, "message", m) && forall x :: HasField(payload, "message", x) ==> x == m;
    }
  }

  lemma ContentYielded(payload: Json)
    ensures Yields(payload, ToolContent(payload))
  {
  }

  function OrEmpty(s: Option<string>): string {
    if s.Some? then s.value else ""
  }

  function ContentOf(payload: Json): string {
    match payload.Get("message")
    case Some(m) => OrEmpty(m.GetStr("content"))
    case None => ""
  }

  function CallsOf(payload: Json): seq<ToolCall> {
    ParseToolCalls(ArrayAt(payload, "tool_calls"))
  }

  function ToolContent(payload: Json): string {
    match payload.GetStr("error")
    case Some(e) => "error: " + e
    case None => OrEmpty(payload.GetStr("content"))
  }

  const DENIED := "tool call denied by policy: "
  const REFUSED := "user denied tool call: "
  const CANCELLED := "[cancelled by user] "
  const INTERRUPTED := "[cancelled mid-execution] "

  // ── What the engine asks for ────────────────────────────────────────

  ghost predicate IsModelCall(cfg: Config, m: Message) {
    m.msgType == MODEL_CALL && m.from == cfg.agentId && m.to == [cfg.model]
  }

  /** To everyone, with the call's name, arguments and id. */
  ghost predicate IsPermissionRequest(cfg: Config, m: Message, call: ToolCall) {
    && m.msgType == PERMISSION_REQUEST && m.from == cfg.agentId && m.to == []
    && HasField(m.payload, "tool_name", Str(call.name)) && HasField(m.payload, "arguments", call.arguments)
    && HasField(m.payload, "tool_call_id", Str(call.id))
  }

  /** To the call's own target, else to the node that owns the tool, else to everyone, with the call's arguments. */
  ghost predicate IsExecution(cfg: Config, m: Message, call: ToolCall) {
    && m.msgType == TOOL_EXEC && m.from == cfg.agentId
    && (call.target.Some? ==> m.to == [call.target.value])
    && (call.target.None? && call.name in cfg.owners ==> m.to == [cfg.owners[call.name]])
    && (call.target.None? && call.name !in cfg.owners ==> m.to == [])
    && HasField(m.payload, "tool_name", Str(call.name)) && HasField(m.payload, "arguments", call.arguments)
    && HasField(m.payload, "target", if m.to == [] then Null else Str(m.to[0]))
  }

  lemma ModelCallMeans(cfg: Config, cid: Uuid)
    ensures IsModelCall(cfg, ModelCall(cfg, cid))
  {
  }

  lemma RequestsMean(cfg: Config, call: ToolCall, cid: Uuid)
    ensures IsExecution(cfg, ToolExec(cfg, call, cid), call)
    ensures IsPermissionRequest(cfg, PermissionRequest(cfg, call, cid), call)
  {
  }

  ghost predicate IsOutbox(msgType: string) {
    msgType == PEER_MESSAGE || msgType == HUMAN_HANDOFF
  }

  /** The event records the sending of this message, or of one that is rebuilt as this message. */
  ghost predicate Covers(e: Event, m: Message) {
    && e.OutboundSent? && m.cid == Some(e.cid) && m.msgType == e.msgType && m.to == e.target
    && (m.payload == e.payload
        || Reconstruct(PendingOutbound(e.msgType, e.cid, e.target, e.payload, e.attempt), m.from) == Ok(m))
  }

  ghost predicate Announced(events: seq<Event>, m: Message) {
    exists e <- events :: Covers(e, m)
  }

  /** The request for this call, with this id, was made, and the first response to it grants it, or does not. */
  ghost predicate Responded(cfg: Config, h: History, call: ToolCall, cid: Uuid, allow: bool) {
    && WasRequested(h, call, cid)
    && var response := Answer(h, PERMISSION_RESPONSE, cid);
       response.Some? && (HasField(response.value.payload, "allow", Bool(true)) <==> allow)
  }

  ghost predicate WasRequested(h: History, call: ToolCall, cid: Uuid) {
    exists a <- h :: a.Tried? && a.origin == Requesting(call) && a.msg.cid == Some(cid)
  }

  ghost predicate WasCalled(h: History, cid: Uuid) {
    exists a <- h :: a.Tried? && a.origin == Asking && a.msg.cid == Some(cid)
  }

  /** No execution rests on this permit yet. */
  ghost predicate Unused(h: History, permit: Uuid) {
    forall a <- h :: a.Tried? && a.origin.Executing? ==> a.origin.permit != Some(permit)
  }

  /** Allowed outright, or asked for and granted by the first response to this call's own request, for one execution. */
  ghost predicate Cleared(cfg: Config, h: History, call: ToolCall, permit: Option<Uuid>) {
    match permit
    case None => Permitted(cfg.permissions, call.name, Allow)
    case Some(cid) =>
      Permitted(cfg.permissions, call.name, Ask) && Responded(cfg, h, call, cid, true) && Unused(h, cid)
  }

  ghost predicate Executed(cfg: Config, h: History, call: ToolCall, cid: Uuid) {
    exists a <- h :: a.Tried? && a.origin.Executing? && a.origin.call == call && a.msg.cid == Some(cid)
  }

  /** What a conversation message says is what it rests on. */
  ghost predicate Justified(cfg: Config, h: History, m: ModelMessage, why: Why) {
    match why
    case ByUser => m.role == "user"
    case ByModel(cid) =>
      && WasCalled(h, cid) && m == Assistant(m.content, m.toolCalls)
      && var a := Answer(h, MODEL_RESPONSE, cid);
         a.Some? && Says(a.value.payload, m.content) && Asks(a.value.payload, m.toolCalls)
    case ByTool(call, cid) =>
      && Executed(cfg, h, call, cid) && m == ToolReply(call, m.content)
      && var a := Answer(h, TOOL_RESULT, cid);
         a.Some? && Yields(a.value.payload, m.content)
    case ByPolicy(call) => Permitted(cfg.permissions, call.name, Deny) && m == ToolReply(call, DENIED + call.name)
    case ByRefusal(call, cid) =>
      && Permitted(cfg.permissions, call.name, Ask) && Responded(cfg, h, call, cid, false)
      && m == ToolReply(call, REFUSED + call.name)
    case ByCancel(call) => m == ToolReply(call, CANCELLED + call.name) || m == ToolReply(call, INTERRUPTED + call.name)
  }

  ghost predicate TookReply(h: History, cid: Uuid) {
    exists a <- h :: a.Took? && a.msg.cid == Some(cid) && IsReplyType(a.msg.msgType)
  }

  /** May this act come next? */
  ghost predicate Allowed(cfg: Config, h: History, a: Act) {
    match a
    case Wrote(OutboundSent(_, cid, attempt, _, _, _)) => attempt == 1 || attempt > MaxAttempt(ReadBack(h), cid)
    case Wrote(InboundReply(_, cid, _, _)) => TookReply(h, cid)
    case Tried(m, Asking) => m.cid.Some? && IsModelCall(cfg, m)
    case Tried(m, Requesting(call)) => m.cid.Some? && IsPermissionRequest(cfg, m, call)
    case Tried(m, Executing(call, permit)) => m.cid.Some? && IsExecution(cfg, m, call) && Cleared(cfg, h, call, permit)
    case Tried(m, Handing) => m.msgType == HUMAN_HANDOFF
    case Tried(m, Resending) => IsOutbox(m.msgType)
    case Sent(m) => cfg.hasStore && IsOutbox(m.msgType) ==> Announced(Events(h), m)
    case Said(m, why) => Justified(cfg, h, m, why)
    case _ => true
  }

  ghost predicate Sound(cfg: Config, h: History) {
    h == [] || (Sound(cfg, h[..|h| - 1]) && Allowed(cfg, h[..|h| - 1], h[|h| - 1]))
  }

  lemma SoundSnoc(cfg: Config, h: History, a: Act)
    ensures Sound(cfg, h + [a]) <==> Sound(cfg, h) && Allowed(cfg, h, a)
  {
    assert (h + [a])[..|h|] == h;
  }
}
