/** The shape of a conversation, and what it means to wait for answers. */
module Conversation {
  import opened Wrappers
  import opened Seqs
  import opened Messages
  import opened Dedup

  datatype ToolCall = ToolCall(id: string, name: string, arguments: Json, target: Option<NodeId>)

  datatype ModelMessage = ModelMessage(role: string, content: string, toolCalls: seq<ToolCall>,
                                       toolCallId: Option<string>, name: Option<string>)

  function User(content: string): ModelMessage {
    ModelMessage("user", content, [], None, None)
  }

  function Assistant(content: string, calls: seq<ToolCall>): ModelMessage {
    ModelMessage("assistant", content, calls, None, None)
  }

  function ToolReply(call: ToolCall, content: string): ModelMessage {
    ModelMessage("tool", content, [], Some(call.id), Some(call.name))
  }

  // ── Grammar ─────────────────────────────────────────────────────────

  ghost predicate Answers(m: ModelMessage, call: ToolCall) {
    m.role == "tool" && m.toolCallId == Some(call.id) && m.name == Some(call.name) && m.toolCalls == []
  }

  /** One answer per call, in call order. */
  ghost predicate AnswersAll(ms: seq<ModelMessage>, calls: seq<ToolCall>) {
    |ms| == |calls| && forall k :: 0 <= k < |calls| ==> Answers(ms[k], calls[k])
  }

  /** An assistant message with tool calls, and the answers to them. */
  ghost predicate IsRound(ms: seq<ModelMessage>) {
    && |ms| > 1 && ms[0].role == "assistant"
    && AnswersAll(ms[1..], ms[0].toolCalls)
  }

  ghost predicate AreRounds(rounds: seq<seq<ModelMessage>>) {
    forall r <- rounds :: IsRound(r)
  }

  ghost function Flatten(rounds: seq<seq<ModelMessage>>): seq<ModelMessage> {
    if rounds == [] then [] else Flatten(rounds[..|rounds| - 1]) + rounds[|rounds| - 1]
  }

  /** In a list of rounds, each tool message answers a call of the last assistant message before it. */
  lemma {:induction false} EveryToolMessageIsPaired(rounds: seq<seq<ModelMessage>>, i: nat) returns (a: nat)
    requires AreRounds(rounds) && i < |Flatten(rounds)| && Flatten(rounds)[i].role == "tool"
    ensures var ms := Flatten(rounds);
            && a < i && ms[a].role == "assistant" && i - a - 1 < |ms[a].toolCalls|
            && Answers(ms[i], ms[a].toolCalls[i - a - 1])
            && forall j :: a < j < i ==> ms[j].role == "tool"
    decreases |rounds|
  {
    var front, last := rounds[..|rounds| - 1], rounds[|rounds| - 1];
    var before := |Flatten(front)|;
    assert IsRound(last);
    if i < before {
      a := EveryToolMessageIsPaired(front, i);
    } else {
      a := before;
      var ms := Flatten(rounds);
      assert ms[a] == last[0] && ms[i] == last[i - a];
      assert last[i - a] == last[1..][i - a - 1];
      forall j | a < j < i ensures ms[j].role == "tool" {
        assert ms[j] == last[1..][j - a - 1];
      }
    }
  }

  /** In a list of rounds every tool call of every assistant message has its answer, at the place its position says. */
  lemma {:induction false} EveryCallIsAnswered(rounds: seq<seq<ModelMessage>>, a: nat, k: nat)
    requires AreRounds(rounds) && a < |Flatten(rounds)|
    requires Flatten(rounds)[a].role == "assistant" && k < |Flatten(rounds)[a].toolCalls|
    ensures a + 1 + k < |Flatten(rounds)| && Answers(Flatten(rounds)[a + 1 + k], Flatten(rounds)[a].toolCalls[k])
    decreases |rounds|
  {
    var front, last := rounds[..|rounds| - 1], rounds[|rounds| - 1];
    var before, ms := |Flatten(front)|, Flatten(rounds);
    assert IsRound(last);
    if a < before {
      EveryCallIsAnswered(front, a, k);
    } else {
      assert ms[a] == last[a - before];
      forall j | 0 < j < |last| ensures last[j].role == "tool" {
        assert last[j] == last[1..][j - 1];
      }
      assert a == before;
      assert ms[a + 1 + k] == last[1..][k];
    }
  }

  // ── Waiting ─────────────────────────────────────────────────────────

  datatype WaitStrategy = AllMembers | AnyMember | Count(n: nat)

  datatype WaitEvent = WaitEvent(id: Uuid, cid: Uuid, strategy: WaitStrategy, expected: nat)

  /** Checked after each response: is the event done with `n` of them? */
  predicate Triggered(e: WaitEvent, n: nat) {
    match e.strategy
    case AllMembers => n >= e.expected
    case AnyMember => true
    case Count(k) => n >= k
  }

  /** How many responses it takes. */
  ghost function Need(e: WaitEvent): (n: nat)
    ensures n > 0 && Triggered(e, n) && forall k :: 0 < k < n ==> !Triggered(e, k)
  {
    match e.strategy
    case AllMembers => AtLeastOne(e.expected)
    case AnyMember => 1
    case Count(k) => AtLeastOne(k)
  }

  /** One response at least; otherwise as many as were expected, one, or the number asked for. */
  ghost predicate Suffices(e: WaitEvent, n: nat) {
    match e.strategy
    case AllMembers => n == if e.expected == 0 then 1 else e.expected
    case AnyMember => n == 1
    case Count(k) => n == if k == 0 then 1 else k
  }

  lemma NeedSuffices(e: WaitEvent)
    ensures Suffices(e, Need(e))
  {
  }

  /** A response the event counts. */
  ghost predicate Counts(m: Message, types: seq<string>, cid: Uuid) {
    m.msgType in types && m.cid == Some(cid)
  }

  ghost function Matching(ms: seq<Message>, types: seq<string>, cid: Uuid): seq<Message> {
    if ms == [] then []
    else
      var front, last := Matching(ms[..|ms| - 1], types, cid), ms[|ms| - 1];
      if Counts(last, types, cid) then front + [last] else front
  }

  ghost predicate IsResponse(m: Message, types: seq<string>, cid: Uuid) {
    m.cid == Some(cid) && exists i :: 0 <= i < |types| && m.msgType == types[i]
  }

  /** The responses are those at these rising places, which are all there are. */
  ghost predicate HarvestedAt(taken: seq<Message>, types: seq<string>, cid: Uuid, at: seq<nat>, got: seq<Message>) {
    && |at| == |got| && Rising(at)
    && (forall k :: 0 <= k < |at| ==> at[k] < |taken| && IsResponse(taken[at[k]], types, cid) && got[k] == taken[at[k]])
    && forall i :: 0 <= i < |taken| && IsResponse(taken[i], types, cid) ==> i in at
  }

  /** Exactly `n` responses were taken, the last of them last of all. */
  ghost predicate Harvested(taken: seq<Message>, types: seq<string>, cid: Uuid, n: nat, got: seq<Message>) {
    exists at :: HarvestedAt(taken, types, cid, at, got) && |at| == n > 0 && at[n - 1] == |taken| - 1
  }

  lemma HarvestedSnoc(taken: seq<Message>, types: seq<string>, cid: Uuid, at: seq<nat>, got: seq<Message>, m: Message)
    requires HarvestedAt(taken, types, cid, at, got)
    ensures if IsResponse(m, types, cid) then HarvestedAt(taken + [m], types, cid, at + [|taken|], got + [m])
            else HarvestedAt(taken + [m], types, cid, at, got)
  {
    hide IsResponse;
    var all := taken + [m];
    assert forall i :: 0 <= i < |taken| ==> all[i] == taken[i];
    assert forall i :: i in at ==> i in at + [|taken|];
    assert |taken| in at + [|taken|];
  }

  lemma {:induction false} MatchingInOrder(ms: seq<Message>, types: seq<string>, cid: Uuid) returns (at: seq<nat>)
    ensures HarvestedAt(ms, types, cid, at, Matching(ms, types, cid))
    decreases |ms|
  {
    if ms == [] {
      at := [];
    } else {
      hide HarvestedAt;
      var n := |ms| - 1;
      at := MatchingInOrder(ms[..n], types, cid);
      HarvestedSnoc(ms[..n], types, cid, at, Matching(ms[..n], types, cid), ms[n]);
      assert ms[..n] + [ms[n]] == ms;
      if Counts(ms[n], types, cid) {
        at := at + [n];
      }
    }
  }

  lemma LastHarvested(taken: seq<Message>, types: seq<string>, cid: Uuid, at: seq<nat>, got: seq<Message>)
    requires HarvestedAt(taken, types, cid, at, got) && taken != [] && IsResponse(taken[|taken| - 1], types, cid)
    ensures |at| == |got| > 0 && at[|at| - 1] == |taken| - 1
  {
    hide IsResponse;
    var k: nat :| k < |at| && at[k] == |taken| - 1;
    assert forall j :: 0 <= j < |at| - 1 ==> at[j] < at[|at| - 1];
  }

  lemma LastCounts(taken: seq<Message>, types: seq<string>, e: WaitEvent)
    requires Completes(taken, types, e)
    ensures taken != [] && IsResponse(taken[|taken| - 1], types, e.cid)
    ensures |Matching(taken, types, e.cid)| == Need(e)
  {
    hide Need;
  }

  lemma CompletesHarvests(taken: seq<Message>, types: seq<string>, e: WaitEvent)
    requires Completes(taken, types, e)
    ensures Suffices(e, |Matching(taken, types, e.cid)|)
    ensures Harvested(taken, types, e.cid, |Matching(taken, types, e.cid)|, Matching(taken, types, e.cid))
  {
    LastCounts(taken, types, e);
    NeedSuffices(e);
    hide Need, Matching, Completes, IsResponse, HarvestedAt;
    var at := MatchingInOrder(taken, types, e.cid);
    LastHarvested(taken, types, e.cid, at, Matching(taken, types, e.cid));
  }

  /** `taken` is the shortest stretch of input that holds as many responses as the event needs. */
  ghost predicate Completes(taken: seq<Message>, types: seq<string>, e: WaitEvent) {
    && taken != [] && |Matching(taken, types, e.cid)| == Need(e)
    && |Matching(taken[..|taken| - 1], types, e.cid)| < Need(e)
  }

  lemma {:induction false} MatchingGrows(ms: seq<Message>, n: nat, types: seq<string>, cid: Uuid)
    requires n <= |ms|
    ensures Matching(ms[..n], types, cid) <= Matching(ms, types, cid)
    decreases |ms|
  {
    if n == |ms| {
      assert ms[..n] == ms;
    } else {
      MatchingGrows(ms[..|ms| - 1], n, types, cid);
      assert ms[..|ms| - 1][..n] == ms[..n];
    }
  }

  /** Whatever the input, at most one of its prefixes completes an event. */
  lemma CompletesOnce(input: seq<Message>, m: nat, n: nat, types: seq<string>, e: WaitEvent)
    requires m <= |input| && n <= |input| && Completes(input[..m], types, e) && Completes(input[..n], types, e)
    ensures m == n
  {
    if m < n {
      CompletesFirst(input, m, n, types, e);
    } else if n < m {
      CompletesFirst(input, n, m, types, e);
    }
  }

  lemma CompletesFirst(input: seq<Message>, m: nat, n: nat, types: seq<string>, e: WaitEvent)
    requires m < n <= |input| && Completes(input[..m], types, e)
    ensures !Completes(input[..n], types, e)
  {
    MatchingGrows(input[..n - 1], m, types, e.cid);
    assert input[..n - 1][..m] == input[..m] && input[..n][..n - 1] == input[..n - 1];
  }

  /** Responses that carry another id, such as late ones to an older event, never count. */
  lemma {:induction false} OthersNeverCount(ms: seq<Message>, types: seq<string>, cid: Uuid)
    ensures Matching(ms, types, cid) == [] <==> forall m <- ms :: !Counts(m, types, cid)
    ensures forall m <- Matching(ms, types, cid) :: m in ms && Counts(m, types, cid)
    decreases |ms|
  {
    if ms != [] {
      var front, last := ms[..|ms| - 1], ms[|ms| - 1];
      OthersNeverCount(front, types, cid);
      assert ms == front + [last];
    }
  }

  /** `wait_events.retain(|e| e.id != id)` */
  function Without(events: seq<WaitEvent>, id: Uuid): seq<WaitEvent> {
    if events == [] then []
    else
      var front, last := Without(events[..|events| - 1], id), events[|events| - 1];
      if last.id == id then front else front + [last]
  }

  lemma {:induction false} WithoutNew(events: seq<WaitEvent>, e: WaitEvent)
    requires forall x <- events :: x.id != e.id
    ensures Without(events + [e], e.id) == events
  {
    WithoutAbsent(events, e.id);
    assert (events + [e])[..|events|] == events;
  }

  lemma {:induction false} WithoutAbsent(events: seq<WaitEvent>, id: Uuid)
    requires forall x <- events :: x.id != id
    ensures Without(events, id) == events
    decreases |events|
  {
    if events != [] {
      WithoutAbsent(events[..|events| - 1], id);
    }
  }

  // ── Messages nobody waits for ───────────────────────────────────────

  predicate IsReplyType(msgType: string) {
    msgType == PEER_REPLY || msgType == HUMAN_HANDOFF_REPLY
  }

  ghost predicate IsDuplicate(m: Message, calls: seq<Uuid>, capacity: nat) {
    IsReplyType(m.msgType) && m.cid.Some? && Recent(Recorded(calls, capacity), AtLeastOne(capacity), m.cid.value)
  }

  /** The ids of the unawaited replies, each looked up in the duplicate memory. */
  ghost function ReplyIds(taken: seq<Message>, types: seq<string>): seq<Uuid> {
    if taken == [] then []
    else
      var front, m := ReplyIds(taken[..|taken| - 1], types), taken[|taken| - 1];
      if m.msgType !in types && IsReplyType(m.msgType) && m.cid.Some? then front + [m.cid.value] else front
  }

  /** A message of a type not awaited, and no reply the memory already holds: it is due to the handlers. */
  ghost predicate IsStray(m: Message, types: seq<string>, calls: seq<Uuid>, capacity: nat) {
    m.msgType !in types && !IsDuplicate(m, calls, capacity)
  }

  // ── Turn budget ─────────────────────────────────────────────────────

  /** The counter is compared after truncation to 32 bits. */
  ghost predicate Spent(turnCount: nat, maxTurns: nat) {
    turnCount % 0x1_0000_0000 >= maxTurns
  }

  /** Below 2^32 the check is the plain comparison; a counter that reaches 2^32 has its whole budget again. */
  lemma BudgetWraps(turnCount: nat, maxTurns: nat)
    ensures turnCount < 0x1_0000_0000 ==> (Spent(turnCount, maxTurns) <==> turnCount >= maxTurns)
    ensures Spent(turnCount + 0x1_0000_0000, maxTurns) <==> Spent(turnCount, maxTurns)
    ensures maxTurns > 0 ==> !Spent(0x1_0000_0000, maxTurns)
  {
  }
}
