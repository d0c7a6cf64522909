/** The ai-chat edge function (ai-chat/index.ts): one debounced turn of the
    AI agent on a conversation. A turn stamps the conversation row with its
    fragment and its ballot, waits, re-reads the row and either gives way to
    a later turn or claims the whole buffer; a claiming turn builds the
    prompt, runs the tool-calling loop against the model API and delivers
    the reply. The wait splits a turn into two methods, Stamp and Resume,
    between which other turns may run. */
module ConversationEngine {
  import opened Optional
  import opened Text
  import opened JsValues
  import opened Seqs
  import opened Tables
  import opened ToolResults
  import opened BusinessHours
  import opened ToolDispatch
  import opened SystemPrompt

  /** The request body: `{ conversation_id, instance_id, phone, text_added }`. */
  datatype Payload = Payload(conversationId: Id, instanceId: Id, phone: string, textAdded: Option<string>)

  // ---- the debounce ballot -------------------------------------------------

  /** The buffer a turn writes: the stored buffer, a space and the new
      fragment, trimmed. */
  function Appended(stored: string, added: Option<string>): string {
    Trim(stored + " " + added.GetOr(""))
  }

  /** The buffer as read (`conversation?.temp_buffer || ""`). */
  function BufferOf(row: Option<Conversation>): string {
    if row.Some? then row.value.tempBuffer else ""
  }

  /** `{ temp_buffer, last_message_at }`: the stamp of a turn. */
  function StampPatch(buffer: string, executionId: int): ConversationPatch {
    ConversationPatch(None, Some(buffer), Some(executionId), None, None, None)
  }

  /** `{ temp_buffer: "" }`: the claim. */
  const ClearPatch: ConversationPatch := ConversationPatch(None, Some(""), None, None, None, None)

  /** The store after the first half of a turn. */
  function StampTables(t: Tables, p: Payload, executionId: int): Tables {
    var buffer := Appended(BufferOf(FindConversation(t.conversations, p.conversationId)), p.textAdded);
    t.(conversations := UpdateConversation(t.conversations, p.conversationId, StampPatch(buffer, executionId)))
  }

  /** The first half of a turn: read the buffer, write back the buffer with
      this turn's fragment appended and stamp the row with this turn's id.
      Returns the row as read, which the tools later get as their
      conversation. */
  method Stamp(db: Database, p: Payload, executionId: int) returns (read: Option<Conversation>)
    modifies db
    ensures read == FindConversation(old(db.conversations), p.conversationId)
    ensures db.Snapshot() == StampTables(old(db.Snapshot()), p, executionId)
  {
    read := FindConversation(db.conversations, p.conversationId);
    var buffer := Appended(BufferOf(read), p.textAdded);
    db.conversations := UpdateConversation(db.conversations, p.conversationId, StampPatch(buffer, executionId));
  }

  /** A stamp leaves the row holding the appended buffer and this turn's
      ballot, changes nothing else on it, and touches no other row; a
      missing row stays missing. */
  lemma StampedRow(t: Tables, p: Payload, executionId: int, other: Id)
    ensures var before := FindConversation(t.conversations, p.conversationId);
      var after := FindConversation(StampTables(t, p, executionId).conversations, p.conversationId);
      && (before.None? ==> after.None?)
      && (before.Some? ==> after == Some(before.value.(tempBuffer := Trim(before.value.tempBuffer + " " + p.textAdded.GetOr("")),
                                                        lastMessageAt := executionId)))
    ensures other != p.conversationId ==>
      FindConversation(StampTables(t, p, executionId).conversations, other) == FindConversation(t.conversations, other)
    ensures StampTables(t, p, executionId).(conversations := t.conversations) == t
  {
    var buffer := Appended(BufferOf(FindConversation(t.conversations, p.conversationId)), p.textAdded);
    FindUpdated(t.conversations, p.conversationId, StampPatch(buffer, executionId), other);
  }

  /** What the re-check decides: the row is gone, the turn gives way, or it
      claims the buffer it read. */
  datatype Ballot = Vanished | GiveWay | Claim(text: string)

  /** The re-check: give way iff a human has taken over or a later turn has
      stamped the row since. */
  function BallotOf(row: Option<Conversation>, executionId: int): (b: Ballot)
    ensures b.Vanished? <==> row.None?
    ensures b.GiveWay? <==> row.Some? && (row.value.isHumanActive || row.value.lastMessageAt > executionId)
    ensures b.Claim? ==> b.text == row.value.tempBuffer
  {
    if row.None? then Vanished
    else if row.value.isHumanActive || row.value.lastMessageAt > executionId then GiveWay
    else Claim(row.value.tempBuffer)
  }

  /** The store after the re-check: a claiming turn empties the buffer. */
  function BallotTables(t: Tables, id: Id, executionId: int): Tables {
    if BallotOf(FindConversation(t.conversations, id), executionId).Claim? then
      t.(conversations := UpdateConversation(t.conversations, id, ClearPatch))
    else t
  }

  /** A turn that gives way, or whose row is gone, writes nothing; a turn
      that claims leaves its conversation with an empty buffer and every
      other column and row as it was. */
  lemma BallotWrites(t: Tables, id: Id, executionId: int, other: Id)
    ensures var row := FindConversation(t.conversations, id);
      var after := BallotTables(t, id, executionId);
      && (!BallotOf(row, executionId).Claim? ==> after == t)
      && (BallotOf(row, executionId).Claim? ==>
            && FindConversation(after.conversations, id) == Some(row.value.(tempBuffer := ""))
            && after.(conversations := t.conversations) == t)
    ensures other != id ==> FindConversation(BallotTables(t, id, executionId).conversations, other) == FindConversation(t.conversations, other)
  {
    FindUpdated(t.conversations, id, ClearPatch, other);
  }

  /** A turn that no other turn overtakes during its wait gives way only to
      a human operator; otherwise it claims the stored buffer with its own
      fragment appended. */
  lemma LoneTurnClaims(t: Tables, p: Payload, executionId: int)
    requires FindConversation(t.conversations, p.conversationId).Some?
    ensures var row := FindConversation(t.conversations, p.conversationId).value;
      BallotOf(FindConversation(StampTables(t, p, executionId).conversations, p.conversationId), executionId)
        == if row.isHumanActive then GiveWay else Claim(Trim(row.tempBuffer + " " + p.textAdded.GetOr("")))
  {
    StampedRow(t, p, executionId, p.conversationId);
  }

  /** A stamp equal to the turn's own id does not make it give way. */
  lemma EqualStampProceeds(row: Conversation, executionId: int)
    requires !row.isHumanActive && row.lastMessageAt == executionId
    ensures BallotOf(Some(row), executionId) == Claim(row.tempBuffer)
  {
  }

  /** Trimming a space followed by a string with no whitespace at either
      end gives that string. */
  lemma {:induction false} TrimLeadingSpace(a: string)
    requires a != [] && !IsSpace(a[0]) && !IsSpace(a[|a| - 1])
    ensures Trim(" " + a) == a
  {
    assert (" " + a)[1..] == a;
    TrimStartNoSpace(a);
    assert TrimStart(" " + a) == a;
    TrimEndNoSpace(a);
  }

  /** A stamp on a conversation with an empty buffer leaves the fragment
      alone in it, when the fragment has no whitespace at either end. */
  lemma StampOnEmpty(t: Tables, p: Payload, executionId: int)
    requires FindConversation(t.conversations, p.conversationId).Some?
    requires FindConversation(t.conversations, p.conversationId).value.tempBuffer == ""
    requires p.textAdded.Some?
    requires var b := p.textAdded.value; b != [] && !IsSpace(b[0]) && !IsSpace(b[|b| - 1])
    ensures var row := FindConversation(t.conversations, p.conversationId).value;
      FindConversation(StampTables(t, p, executionId).conversations, p.conversationId)
        == Some(row.(tempBuffer := p.textAdded.value, lastMessageAt := executionId))
  {
    var b := p.textAdded.value;
    assert "" + " " + b == " " + b;
    TrimLeadingSpace(b);
    assert Appended("", p.textAdded) == b;
    var buffer := Appended(BufferOf(FindConversation(t.conversations, p.conversationId)), p.textAdded);
    FindUpdated(t.conversations, p.conversationId, StampPatch(buffer, executionId), p.conversationId);
  }

  /** A turn stamping an idle conversation with an empty buffer claims
      exactly its own fragment. */
  lemma StampOnEmptyClaims(t: Tables, p: Payload, executionId: int)
    requires FindConversation(t.conversations, p.conversationId).Some?
    requires var row := FindConversation(t.conversations, p.conversationId).value;
      row.tempBuffer == "" && !row.isHumanActive
    requires p.textAdded.Some?
    requires var b := p.textAdded.value; b != [] && !IsSpace(b[0]) && !IsSpace(b[|b| - 1])
    ensures BallotOf(FindConversation(StampTables(t, p, executionId).conversations, p.conversationId), executionId)
      == Claim(p.textAdded.value)
  {
    StampOnEmpty(t, p, executionId);
  }

  /** Two turns A and B on one conversation with an empty buffer whose
      stamps both land before either re-check, B's id being the later: A
      gives way and writes nothing, and B claims both fragments joined by
      one space. */
  lemma LaterTurnClaimsBoth(t: Tables, pa: Payload, pb: Payload, idA: int, idB: int)
    requires pa.conversationId == pb.conversationId
    requires FindConversation(t.conversations, pa.conversationId).Some?
    requires var row := FindConversation(t.conversations, pa.conversationId).value;
      row.tempBuffer == "" && !row.isHumanActive
    requires idA < idB
    requires pa.textAdded.Some? && pb.textAdded.Some?
    requires var a := pa.textAdded.value; a != [] && !IsSpace(a[0]) && !IsSpace(a[|a| - 1])
    requires var b := pb.textAdded.value; b != [] && !IsSpace(b[0]) && !IsSpace(b[|b| - 1])
    ensures var stamped := StampTables(StampTables(t, pa, idA), pb, idB);
      && BallotOf(FindConversation(stamped.conversations, pa.conversationId), idA) == GiveWay
      && BallotTables(stamped, pa.conversationId, idA) == stamped
      && BallotOf(FindConversation(stamped.conversations, pb.conversationId), idB)
           == Claim(pa.textAdded.value + " " + pb.textAdded.value)
  {
    var id := pa.conversationId;
    var a, b := pa.textAdded.value, pb.textAdded.value;
    var t1 := StampTables(t, pa, idA);
    StampOnEmpty(t, pa, idA);
    var t2 := StampTables(t1, pb, idB);
    StampedRow(t1, pb, idB, id);
    var joined := a + " " + b;
    assert joined[0] == a[0] && joined[|joined| - 1] == b[|b| - 1];
    TrimFixed(joined);
    assert FindConversation(t2.conversations, id).value.tempBuffer == joined;
  }

  /** Two turns whose windows do not overlap each claim their own fragment:
      the first empties the buffer before the second appends to it. */
  lemma SeparateTurnsClaimSeparately(t: Tables, pa: Payload, pb: Payload, idA: int, idB: int)
    requires pa.conversationId == pb.conversationId
    requires FindConversation(t.conversations, pa.conversationId).Some?
    requires !FindConversation(t.conversations, pa.conversationId).value.isHumanActive
    requires pb.textAdded.Some?
    requires var b := pb.textAdded.value; b != [] && !IsSpace(b[0]) && !IsSpace(b[|b| - 1])
    ensures var t1 := StampTables(t, pa, idA);
      var t2 := BallotTables(t1, pa.conversationId, idA);
      var t3 := StampTables(t2, pb, idB);
      && BallotOf(FindConversation(t1.conversations, pa.conversationId), idA)
           == Claim(Trim(FindConversation(t.conversations, pa.conversationId).value.tempBuffer + " " + pa.textAdded.GetOr("")))
      && BallotOf(FindConversation(t3.conversations, pb.conversationId), idB) == Claim(pb.textAdded.value)
  {
    var id := pa.conversationId;
    var t1 := StampTables(t, pa, idA);
    StampedRow(t, pa, idA, id);
    var t2 := BallotTables(t1, id, idA);
    BallotWrites(t1, id, idA, id);
    StampOnEmptyClaims(t2, pb, idB);
  }

  // ---- the history window --------------------------------------------------

  /** `b` is not newer than `a`: timestamps are ISO-8601 strings of one
      format, whose text order is their time order. */
  predicate NotNewer(b: Message, a: Message) {
    LexLe(b.timestamp, a.timestamp)
  }

  /** Newest first, pair by pair: no message is newer than the one before
      it. */
  predicate NewestFirstOrder(s: seq<Message>) {
    forall i :: 0 < i < |s| ==> NotNewer(s[i], s[i - 1])
  }

  /** Sorted pair by pair is sorted: no message is newer than any before
      it. */
  lemma {:induction false} NewestFirstPairwise(s: seq<Message>, i: int, j: int)
    requires NewestFirstOrder(s)
    requires 0 <= i < j < |s|
    ensures NotNewer(s[j], s[i])
    decreases j - i
  {
    if j > i + 1 {
      NewestFirstPairwise(s, i + 1, j);
      LexLeTransitive(s[j].timestamp, s[i + 1].timestamp, s[i].timestamp);
    }
  }

  /** The message placed into a list sorted newest first, before the first
      message that is not newer than it. */
  function InsertByTime(m: Message, s: seq<Message>): (r: seq<Message>)
    ensures multiset(r) == multiset(s) + multiset{m}
    ensures |r| == |s| + 1
    ensures r[0] == m || (s != [] && r[0] == s[0])
  {
    if s == [] then [m]
    else if NotNewer(s[0], m) then [m] + s
    else
      assert s == [s[0]] + s[1..];
      [s[0]] + InsertByTime(m, s[1..])
  }

  lemma {:induction false} InsertByTimeSorted(m: Message, s: seq<Message>)
    requires NewestFirstOrder(s)
    ensures NewestFirstOrder(InsertByTime(m, s))
  {
    if s != [] && !NotNewer(s[0], m) {
      InsertByTimeSorted(m, s[1..]);
      LexLeTotal(s[0].timestamp, m.timestamp);
      var r := InsertByTime(m, s);
      assert r == [s[0]] + InsertByTime(m, s[1..]);
      assert NotNewer(r[1], r[0]);
    }
  }

  /** `.order("timestamp", { ascending: false })`: the messages sorted newest
      first (the model keeps the table order among equal timestamps, on
      which the database promises nothing). */
  function NewestFirst(ms: seq<Message>): (r: seq<Message>)
    ensures multiset(r) == multiset(ms) && |r| == |ms|
    ensures NewestFirstOrder(r)
  {
    if ms == [] then []
    else
      var rest := NewestFirst(ms[1..]);
      InsertByTimeSorted(ms[0], rest);
      assert ms == [ms[0]] + ms[1..];
      InsertByTime(ms[0], rest)
  }

  /** `.eq("conversation_id", id)` on messages. */
  function OwnMessages(ms: seq<Message>, id: Id): (r: seq<Message>)
    ensures forall m :: m in r <==> m in ms && m.conversationId == id
    ensures multiset(r) <= multiset(ms)
  {
    Filter(ms, (m: Message) => m.conversationId == id)
  }

  /** The window the turn shows the model: the ten newest messages of the
      conversation, put oldest first. */
  function History(ms: seq<Message>, id: Id): seq<Message> {
    Reverse(Limit(NewestFirst(OwnMessages(ms, id)), 10))
  }

  /** The newest ten of a list sorted newest first, reversed, are oldest
      first. */
  lemma WindowOrdered(s: seq<Message>, i: int, j: int)
    requires NewestFirstOrder(s)
    requires 0 <= i < j < |Reverse(Limit(s, 10))|
    ensures NotNewer(Reverse(Limit(s, 10))[i], Reverse(Limit(s, 10))[j])
  {
    var n := |Limit(s, 10)|;
    NewestFirstPairwise(s, n - 1 - j, n - 1 - i);
  }

  /** Nothing a window leaves out of a list sorted newest first is newer
      than anything it keeps. */
  lemma WindowKeepsNewest(s: seq<Message>, m: Message, k: int)
    requires NewestFirstOrder(s)
    requires 0 <= k < |Reverse(Limit(s, 10))|
    requires multiset(Reverse(Limit(s, 10)))[m] < multiset(s)[m]
    ensures NotNewer(m, Reverse(Limit(s, 10))[k])
  {
    var p := Limit(s, 10);
    var n := |p|;
    assert multiset(Reverse(p)) == multiset(s[..n]);
    var j := BeyondPrefix(s, n, m);
    assert Reverse(p)[k] == s[n - 1 - k];
    NewestFirstPairwise(s, n - 1 - k, j);
  }

  /** A message held more often than a prefix holds it occurs after it. */
  lemma BeyondPrefix(s: seq<Message>, n: nat, m: Message) returns (j: int)
    requires n <= |s| && multiset(s[..n])[m] < multiset(s)[m]
    ensures n <= j < |s| && s[j] == m
  {
    var rest := s[n..];
    assert s == s[..n] + rest;
    assert multiset(s) == multiset(s[..n]) + multiset(rest);
    assert m in multiset(rest);
    var i :| 0 <= i < |rest| && rest[i] == m;
    j := n + i;
  }

  lemma {:induction false} PrefixMultiset(s: seq<Message>, n: nat)
    requires n <= |s|
    ensures multiset(s[..n]) <= multiset(s)
  {
    assert s == s[..n] + s[n..];
  }

  /** The window holds as many messages as the conversation has, up to ten,
      none more often than stored. */
  lemma HistoryCount(ms: seq<Message>, id: Id)
    ensures |History(ms, id)| == (if |OwnMessages(ms, id)| <= 10 then |OwnMessages(ms, id)| else 10)
    ensures multiset(History(ms, id)) <= multiset(OwnMessages(ms, id))
  {
    var s := NewestFirst(OwnMessages(ms, id));
    PrefixMultiset(s, |Limit(s, 10)|);
  }

  /** Every message in the window is a message of the conversation. */
  lemma HistoryOwn(ms: seq<Message>, id: Id, k: int)
    requires 0 <= k < |History(ms, id)|
    ensures History(ms, id)[k] in ms && History(ms, id)[k].conversationId == id
  {
    HistoryCount(ms, id);
    var h := History(ms, id);
    assert h[k] in multiset(h);
    assert h[k] in OwnMessages(ms, id);
  }

  /** The window is oldest first. */
  lemma HistoryOldestFirst(ms: seq<Message>, id: Id, i: int, j: int)
    requires 0 <= i < j < |History(ms, id)|
    ensures NotNewer(History(ms, id)[i], History(ms, id)[j])
  {
    WindowOrdered(NewestFirst(OwnMessages(ms, id)), i, j);
  }

  /** Every message of the conversation that the window leaves out (counting
      repeats) is no newer than any message in it. */
  lemma HistoryKeepsNewest(ms: seq<Message>, id: Id, m: Message, k: int)
    requires 0 <= k < |History(ms, id)|
    requires multiset(History(ms, id))[m] < multiset(OwnMessages(ms, id))[m]
    ensures NotNewer(m, History(ms, id)[k])
  {
    WindowKeepsNewest(NewestFirst(OwnMessages(ms, id)), m, k);
  }

  // ---- the message list ----------------------------------------------------

  datatype Role = SystemRole | UserRole | AssistantRole

  /** A tool call of the model: its id, the tool's name, and its arguments
      as parsed, None standing for text that JSON.parse rejects. */
  datatype ToolCall = ToolCall(id: string, name: string, arguments: Option<JsValue>)

  /** `choices[0].message`: its text and its `tool_calls`, if present. */
  datatype AssistantMessage = AssistantMessage(content: Option<string>, toolCalls: Option<seq<ToolCall>>)

  /** An entry of `msgs`: a plain message, a message of the model pushed back
      as received, or the result of one tool call. */
  datatype ChatMessage =
    | Said(role: Role, content: string)
    | Assistant(message: AssistantMessage)
    | ToolAnswer(toolCallId: string, name: string, result: ToolResult)

  /** A stored message as the model sees it: USER messages are the user's,
      those of every other sender the assistant's. */
  function HistoryEntry(m: Message): ChatMessage {
    Said(if m.sender == User then UserRole else AssistantRole, m.content)
  }

  /** The first message list: the system message, the history in order, and
      the claimed text as the user's message. */
  function Opening(system: string, history: seq<Message>, text: string): (r: seq<ChatMessage>)
    ensures |r| == |history| + 2
    ensures r[0] == Said(SystemRole, system) && r[|r| - 1] == Said(UserRole, text)
    ensures forall i :: 0 <= i < |history| ==>
      && r[i + 1].Said? && r[i + 1].content == history[i].content && r[i + 1].role != SystemRole
      && (r[i + 1].role == UserRole <==> history[i].sender == User)
  {
    [Said(SystemRole, system)] + Map(history, HistoryEntry) + [Said(UserRole, text)]
  }

  // ---- the tool-calling loop -----------------------------------------------

  /** An answer of the model API: `choices?.[0]?.message`, None when the
      answer has no choice (an error body, say); or `Unanswered`, when the
      fetch rejects or `res.json()` cannot parse the body, which throws. */
  datatype Completion = Completion(message: Option<AssistantMessage>) | Unanswered

  /** The loop condition `response.choices?.[0]?.message?.tool_calls`: an
      array, even an empty one, is truthy. */
  predicate CallsTools(c: Completion) {
    c.Completion? && c.message.Some? && c.message.value.toolCalls.Some?
  }

  function ReplyOf(c: Completion): Option<string> {
    if c.Completion? && c.message.Some? then c.message.value.content else None
  }

  /** What the world answers during a turn, in order: the model API's
      answers, for each tool call the environment its handler meets, and
      whether the Evolution API's send of the reply rejects. A run that
      needs more answers than scripted is not described. */
  datatype Oracle = Oracle(answers: seq<Completion>, worlds: seq<Environment>, sendRejected: bool)

  /** How the loop ends: with the model's final answer; by an exception
      (arguments JSON.parse rejects, or the model API cannot be read); in a
      handler that never returns; or beyond the script. */
  datatype LoopEnd = Answered(reply: Option<string>) | Broke | Hung | OutOfScript

  /** The store, the message list and the unused environments, and how the
      loop ended if it has. */
  datatype LoopState = LoopState(tables: Tables, msgs: seq<ChatMessage>, worlds: seq<Environment>, end: Option<LoopEnd>)

  /** What one tool call does to the store and what it returns, given the
      handlers' environment. */
  type Dispatch = (Tables, string, JsValue, Environment) -> Effect

  /** executeTool for one instance and the conversation row the turn read
      (None when it read none). */
  function Tools(inst: Instance, conversation: Option<Conversation>): Dispatch {
    (t: Tables, name: string, args: JsValue, env: Environment) => DispatchEffect(t, name, args, inst, conversation, env)
  }

  /** The inner `for`: each call is parsed, dispatched and answered by a
      tool message carrying its id, in order. The calls stop early only on
      a failure, never with a reply. */
  function CallsEffect(t: Tables, msgs: seq<ChatMessage>, calls: seq<ToolCall>, worlds: seq<Environment>,
                       dispatch: Dispatch): (r: LoopState)
    ensures r.end.Some? ==> !r.end.value.Answered?
    decreases |calls|
  {
    if calls == [] then LoopState(t, msgs, worlds, None)
    else if calls[0].arguments.None? then LoopState(t, msgs, worlds, Some(Broke))
    else if worlds == [] then LoopState(t, msgs, worlds, Some(OutOfScript))
    else
      var e := dispatch(t, calls[0].name, calls[0].arguments.value, worlds[0]);
      match e.outcome
      case Returned(r) =>
        CallsEffect(e.tables, msgs + [ToolAnswer(calls[0].id, calls[0].name, r)], calls[1..], worlds[1..], dispatch)
      case Raised(_) => LoopState(e.tables, msgs, worlds[1..], Some(Broke))
      case Diverges => LoopState(e.tables, msgs, worlds[1..], Some(Hung))
  }

  /** The `while`: as long as the model answers with tool calls, push its
      message, answer the calls and ask again. */
  function LoopEffect(t: Tables, msgs: seq<ChatMessage>, answers: seq<Completion>, worlds: seq<Environment>,
                      dispatch: Dispatch): (r: LoopState)
    ensures r.end.Some?
    decreases |answers|
  {
    if answers == [] then LoopState(t, msgs, worlds, Some(OutOfScript))
    else if answers[0].Unanswered? then LoopState(t, msgs, worlds, Some(Broke))
    else if !CallsTools(answers[0]) then LoopState(t, msgs, worlds, Some(Answered(ReplyOf(answers[0]))))
    else
      var m := answers[0].message.value;
      var c := CallsEffect(t, msgs + [Assistant(m)], m.toolCalls.value, worlds, dispatch);
      if c.end.Some? then c else LoopEffect(c.tables, c.msgs, answers[1..], c.worlds, dispatch)
  }

  /** The calls of one answer of the model. */
  method RunCalls(db: Database, msgs0: seq<ChatMessage>, calls: seq<ToolCall>, worlds0: seq<Environment>,
                  inst: Instance, conversation: Option<Conversation>)
    returns (msgs: seq<ChatMessage>, worlds: seq<Environment>, end: Option<LoopEnd>)
    modifies db
    ensures CallsEffect(old(db.Snapshot()), msgs0, calls, worlds0, Tools(inst, conversation))
      == LoopState(db.Snapshot(), msgs, worlds, end)
  {
    msgs, worlds, end := msgs0, worlds0, None;
    var j := 0;
    while j < |calls|
      invariant 0 <= j <= |calls|
      invariant CallsEffect(old(db.Snapshot()), msgs0, calls, worlds0, Tools(inst, conversation))
        == CallsEffect(db.Snapshot(), msgs, calls[j..], worlds, Tools(inst, conversation))
      decreases |calls| - j
    {
      var call := calls[j];
      assert calls[j..][1..] == calls[j + 1..];
      if call.arguments.None? {
        return msgs, worlds, Some(Broke);
      }
      if worlds == [] {
        return msgs, worlds, Some(OutOfScript);
      }
      var out := ExecuteTool(db, call.name, call.arguments.value, inst, conversation, worlds[0]);
      worlds := worlds[1..];
      match out {
        case Returned(r) =>
          msgs := msgs + [ToolAnswer(call.id, call.name, r)];
        case Raised(_) =>
          return msgs, worlds, Some(Broke);
        case Diverges =>
          return msgs, worlds, Some(Hung);
      }
      j := j + 1;
    }
  }

  /** The first call of the model and the loop over its answers. */
  method ToolLoop(db: Database, msgs0: seq<ChatMessage>, oracle: Oracle, inst: Instance, conversation: Option<Conversation>)
    returns (msgs: seq<ChatMessage>, end: LoopEnd)
    modifies db
    ensures var r := LoopEffect(old(db.Snapshot()), msgs0, oracle.answers, oracle.worlds, Tools(inst, conversation));
      db.Snapshot() == r.tables && msgs == r.msgs && r.end == Some(end)
  {
    var answers, worlds := oracle.answers, oracle.worlds;
    msgs := msgs0;
    if answers == [] {
      return msgs, OutOfScript;
    }
    var response := answers[0];
    var k := 1;
    while CallsTools(response)
      invariant 1 <= k <= |answers| && response == answers[k - 1]
      invariant LoopEffect(old(db.Snapshot()), msgs0, answers, oracle.worlds, Tools(inst, conversation))
        == LoopEffect(db.Snapshot(), msgs, answers[k - 1..], worlds, Tools(inst, conversation))
      decreases |answers| - k
    {
      var message := response.message.value;
      var stop;
      assert answers[k - 1..][1..] == answers[k..];
      msgs, worlds, stop := RunCalls(db, msgs + [Assistant(message)], message.toolCalls.value, worlds, inst, conversation);
      if stop.Some? {
        return msgs, stop.value;
      }
      if k == |answers| {
        return msgs, OutOfScript;
      }
      response := answers[k];
      k := k + 1;
    }
    end := if response.Unanswered? then Broke else Answered(ReplyOf(response));
  }

  /** One tool message per call, in order, each carrying the call's id and
      the tool's name. */
  predicate AnswersCalls(replies: seq<ChatMessage>, calls: seq<ToolCall>) {
    && |replies| == |calls|
    && forall i :: 0 <= i < |calls| ==>
         replies[i].ToolAnswer? && replies[i].toolCallId == calls[i].id && replies[i].name == calls[i].name
  }

  /** What the loop appends for a run of answers that all call tools: for
      each, the model's message followed by the answers to its calls. */
  predicate Transcript(extra: seq<ChatMessage>, answers: seq<Completion>)
    decreases |answers|
  {
    if answers == [] then extra == []
    else
      && CallsTools(answers[0])
      && var m := answers[0].message.value;
         var n := |m.toolCalls.value|;
         && 1 + n <= |extra|
         && extra[0] == Assistant(m)
         && AnswersCalls(extra[1..1 + n], m.toolCalls.value)
         && Transcript(extra[1 + n..], answers[1..])
  }

  /** The position of the first answer without tool calls. */
  function FirstReply(answers: seq<Completion>): (k: nat)
    ensures k <= |answers|
    ensures forall i :: 0 <= i < k ==> CallsTools(answers[i])
    ensures k < |answers| ==> !CallsTools(answers[k])
  {
    if answers == [] || !CallsTools(answers[0]) then 0 else 1 + FirstReply(answers[1..])
  }

  /** When every call of an answer is answered, the list grows by exactly
      one tool message per call and one environment is used per call. */
  lemma {:induction false} CallsAnswerEach(t: Tables, msgs: seq<ChatMessage>, calls: seq<ToolCall>, worlds: seq<Environment>,
                                           dispatch: Dispatch)
    ensures var c := CallsEffect(t, msgs, calls, worlds, dispatch);
      c.end.None? ==>
        && |msgs| <= |c.msgs| && c.msgs[..|msgs|] == msgs
        && AnswersCalls(c.msgs[|msgs|..], calls)
        && |calls| <= |worlds| && c.worlds == worlds[|calls|..]
    decreases |calls|
  {
    if calls != [] && calls[0].arguments.Some? && worlds != [] {
      var e := dispatch(t, calls[0].name, calls[0].arguments.value, worlds[0]);
      if e.outcome.Returned? {
        var m1 := msgs + [ToolAnswer(calls[0].id, calls[0].name, e.outcome.result)];
        CallsAnswerEach(e.tables, m1, calls[1..], worlds[1..], dispatch);
        var c := CallsEffect(t, msgs, calls, worlds, dispatch);
        if c.end.None? {
          var rest := c.msgs[|m1|..];
          assert c.msgs[|msgs|..] == [m1[|msgs|]] + rest;
          assert worlds[1..][|calls| - 1..] == worlds[|calls|..];
        }
      }
    }
  }

  /** One more answer with tool calls, its message and the answers to its
      calls, in front of a transcript. */
  lemma TranscriptCons(answers: seq<Completion>, k: nat, replies: seq<ChatMessage>, rest: seq<ChatMessage>)
    requires 0 < k <= |answers| && CallsTools(answers[0])
    requires AnswersCalls(replies, answers[0].message.value.toolCalls.value)
    requires Transcript(rest, answers[1..][..k - 1])
    ensures Transcript([Assistant(answers[0].message.value)] + replies + rest, answers[..k])
  {
    var extra := [Assistant(answers[0].message.value)] + replies + rest;
    var n := |replies|;
    assert extra[1..1 + n] == replies;
    assert extra[1 + n..] == rest;
    assert answers[..k][1..] == answers[1..][..k - 1];
  }

  /** A list that grew by an answer's message and the answers to its calls,
      and then by a transcript of the later answers, grew by a transcript. */
  lemma TranscriptStep(msgs: seq<ChatMessage>, answers: seq<Completion>, k: nat, called: seq<ChatMessage>, final: seq<ChatMessage>)
    requires 0 < k <= |answers| && CallsTools(answers[0])
    requires |msgs| + 1 <= |called| && called[..|msgs| + 1] == msgs + [Assistant(answers[0].message.value)]
    requires AnswersCalls(called[|msgs| + 1..], answers[0].message.value.toolCalls.value)
    requires |called| <= |final| && final == called + final[|called|..]
    requires Transcript(final[|called|..], answers[1..][..k - 1])
    ensures |msgs| <= |final| && final == msgs + final[|msgs|..]
    ensures Transcript(final[|msgs|..], answers[..k])
  {
    var replies := called[|msgs| + 1..];
    var rest := final[|called|..];
    TranscriptCons(answers, k, replies, rest);
    assert called == msgs + [Assistant(answers[0].message.value)] + replies;
    assert final[|msgs|..] == [Assistant(answers[0].message.value)] + replies + rest;
  }

  /** A loop that ends with the model's answer has stopped at the first
      answer without tool calls, which the model API did answer, and
      replies with its content. */
  lemma {:induction false} LoopReply(t: Tables, msgs: seq<ChatMessage>, answers: seq<Completion>, worlds: seq<Environment>,
                                     dispatch: Dispatch)
    ensures var r := LoopEffect(t, msgs, answers, worlds, dispatch);
      r.end.value.Answered? ==>
        && FirstReply(answers) < |answers| && answers[FirstReply(answers)].Completion?
        && r.end.value.reply == ReplyOf(answers[FirstReply(answers)])
    decreases |answers|
  {
    if answers != [] && CallsTools(answers[0]) {
      var m := answers[0].message.value;
      var c := CallsEffect(t, msgs + [Assistant(m)], m.toolCalls.value, worlds, dispatch);
      if c.end.None? {
        LoopReply(c.tables, c.msgs, answers[1..], c.worlds, dispatch);
        var r := LoopEffect(c.tables, c.msgs, answers[1..], c.worlds, dispatch);
        assert LoopEffect(t, msgs, answers, worlds, dispatch) == r;
        if r.end.value.Answered? {
          var k := FirstReply(answers);
          assert k == 1 + FirstReply(answers[1..]);
          assert answers[1..][k - 1] == answers[k];
        }
      }
    }
  }

  /** Before the model's answer, the loop appends, for every earlier answer,
      that answer's message and one tool message per call, and nothing
      else. */
  lemma {:induction false} LoopTranscript(t: Tables, msgs: seq<ChatMessage>, answers: seq<Completion>, worlds: seq<Environment>,
                                          dispatch: Dispatch)
    ensures var r := LoopEffect(t, msgs, answers, worlds, dispatch);
      r.end.value.Answered? ==>
        && |msgs| <= |r.msgs| && r.msgs == msgs + r.msgs[|msgs|..]
        && Transcript(r.msgs[|msgs|..], answers[..FirstReply(answers)])
    decreases |answers|
  {
    if answers != [] && CallsTools(answers[0]) {
      var m := answers[0].message.value;
      var m1 := msgs + [Assistant(m)];
      var c := CallsEffect(t, m1, m.toolCalls.value, worlds, dispatch);
      CallsAnswerEach(t, m1, m.toolCalls.value, worlds, dispatch);
      if c.end.None? {
        LoopTranscript(c.tables, c.msgs, answers[1..], c.worlds, dispatch);
        var r := LoopEffect(c.tables, c.msgs, answers[1..], c.worlds, dispatch);
        assert LoopEffect(t, msgs, answers, worlds, dispatch) == r;
        if r.end.value.Answered? {
          var k := FirstReply(answers);
          assert k == 1 + FirstReply(answers[1..]);
          TranscriptStep(msgs, answers, k, c.msgs, r.msgs);
        }
      }
    }
  }

  // ---- the reply -----------------------------------------------------------

  /** `{ last_message: reply.substring(0, 100), last_timestamp }` */
  function ReplyPatch(reply: string, sentAt: string): ConversationPatch {
    ConversationPatch(None, None, None, None, Some(Take(reply, 100)), Some(sentAt))
  }

  /** The store after the reply: a non-empty reply is sent to the phone
      through the instance, stored as the AI's message and shown as the
      conversation's last message; no reply, or an empty one, writes
      nothing. */
  function DeliverTables(t: Tables, p: Payload, inst: Instance, reply: Option<string>, sentAt: string): Tables {
    if reply.Some? && reply.value != "" then
      t.(outbox := t.outbox + [SendText(inst.name, inst.token, p.phone, reply.value)],
         messages := t.messages + [Message(p.conversationId, Ai, reply.value, sentAt)],
         conversations := UpdateConversation(t.conversations, p.conversationId, ReplyPatch(reply.value, sentAt)))
    else t
  }

  /** `if (reply)`: the reply is sent and stored. */
  predicate Sends(reply: Option<string>) {
    reply.Some? && reply.value != ""
  }

  /** The end of a turn that has its reply: the send, then the writes. A
      send that rejects throws before the writes, so the turn fails with the
      store as the loop left it. */
  function DeliverTurn(t: Tables, p: Payload, inst: Instance, reply: Option<string>, sentAt: string,
                       sendRejected: bool): Turn
  {
    if Sends(reply) && sendRejected then Turn(t, Failed)
    else Turn(DeliverTables(t, p, inst, reply, sentAt), Finished)
  }

  method Deliver(db: Database, p: Payload, inst: Instance, reply: Option<string>, sentAt: string, sendRejected: bool)
    returns (end: TurnEnd)
    modifies db
    ensures Turn(db.Snapshot(), end) == DeliverTurn(old(db.Snapshot()), p, inst, reply, sentAt, sendRejected)
  {
    end := Finished;
    if reply.Some? && reply.value != "" {
      if sendRejected {
        return Failed;
      }
      db.outbox := db.outbox + [SendText(inst.name, inst.token, p.phone, reply.value)];
      db.messages := db.messages + [Message(p.conversationId, Ai, reply.value, sentAt)];
      db.conversations := UpdateConversation(db.conversations, p.conversationId, ReplyPatch(reply.value, sentAt));
    }
  }

  /** A non-empty reply makes exactly one send and one stored message, and
      the conversation's last message becomes the reply's first hundred
      characters; otherwise nothing changes. */
  lemma DeliveredReply(t: Tables, p: Payload, inst: Instance, reply: Option<string>, sentAt: string)
    ensures var after := DeliverTables(t, p, inst, reply, sentAt);
      var row := FindConversation(t.conversations, p.conversationId);
      && (reply.None? || reply.value == "" ==> after == t)
      && (reply.Some? && reply.value != "" ==>
            && after.outbox == t.outbox + [SendText(inst.name, inst.token, p.phone, reply.value)]
            && after.messages == t.messages + [Message(p.conversationId, Ai, reply.value, sentAt)]
            && (row.Some? ==>
                  var shown := FindConversation(after.conversations, p.conversationId).value.lastMessage;
                  |shown| == (if |reply.value| < 100 then |reply.value| else 100) && StartsWith(reply.value, shown))
            && after.(outbox := t.outbox, messages := t.messages, conversations := t.conversations) == t)
  {
    if reply.Some? && reply.value != "" {
      FindUpdated(t.conversations, p.conversationId, ReplyPatch(reply.value, sentAt), p.conversationId);
    }
  }

  /** A send that rejects fails the turn and writes nothing; otherwise the
      turn finishes with the delivery DeliveredReply describes. */
  lemma RejectedSendFails(t: Tables, p: Payload, inst: Instance, reply: Option<string>, sentAt: string,
                          sendRejected: bool)
    ensures var d := DeliverTurn(t, p, inst, reply, sentAt, sendRejected);
      && (d.end == Failed <==> Sends(reply) && sendRejected)
      && (d.end == Failed ==> d.tables == t)
      && (d.end != Failed ==> d == Turn(DeliverTables(t, p, inst, reply, sentAt), Finished))
  {
  }

  // ---- the second half of a turn -------------------------------------------

  /** How a turn ends: it gave way (`Skipped`), answered (`OK`), failed with
      an exception (a 500), stayed in a handler that never returns, or ran
      beyond the script. */
  datatype TurnEnd = Skipped | Finished | Failed | Hangs | Unscripted

  datatype Turn = Turn(tables: Tables, end: TurnEnd)

  /** The agent row: `.eq("id", inst.agent_id)`, which matches nothing when
      the instance has no agent. */
  function AgentOf(rows: seq<Agent>, inst: Instance): (r: Option<Agent>)
    ensures r.Some? ==> inst.agentId.Some? && r.value.id == inst.agentId.value
  {
    if inst.agentId.Some? then FindAgent(rows, inst.agentId.value) else None
  }

  /** The first message list of a claiming turn: the system message built
      from the agent, the company's settings and the clock, the history of
      the conversation, and the claimed text. */
  ghost function TurnOpening(t: Tables, p: Payload, inst: Instance, text: string, now: Clock, dateTime: string,
                             instructions: string): seq<ChatMessage>
  {
    var settings := SettingsOf(t.settings, inst.companyId);
    var context := BusinessContext(settings, IsOpen(settings, now), WorkingDays(settings));
    Opening(SystemContent(AgentOf(t.agents, inst), context, dateTime, instructions), History(t.messages, p.conversationId), text)
  }

  /** The end of a turn whose loop has ended. */
  function LoopOutcome(t: Tables, p: Payload, inst: Instance, loopEnd: LoopEnd, sentAt: string, sendRejected: bool): Turn {
    match loopEnd
    case Answered(reply) => DeliverTurn(t, p, inst, reply, sentAt, sendRejected)
    case Broke => Turn(t, Failed)
    case Hung => Turn(t, Hangs)
    case OutOfScript => Turn(t, Unscripted)
  }

  /** A claiming turn once its first message list is built: the loop and
      the reply. It never skips. */
  function AnswerEffect(t: Tables, p: Payload, inst: Instance, msgs: seq<ChatMessage>, sentAt: string, oracle: Oracle,
                        dispatch: Dispatch): (r: Turn)
    ensures r.end != Skipped
  {
    var r := LoopEffect(t, msgs, oracle.answers, oracle.worlds, dispatch);
    LoopOutcome(r.tables, p, inst, r.end.value, sentAt, oracle.sendRejected)
  }

  /** The second half of a turn, after the wait, on the store as it then
      is. `read` is the row the first half read, None when it read none;
      the tools get it as their conversation. A missing row at the
      re-check, or a missing instance, throws. `tools` gives the tools of
      an instance and a conversation: Tools in the edge function, any
      dispatch at all in the lemmas below. */
  ghost function ResumeEffect(t: Tables, p: Payload, read: Option<Conversation>, executionId: int, now: Clock,
                              dateTime: string, sentAt: string, oracle: Oracle, instructions: string,
                              tools: (Instance, Option<Conversation>) -> Dispatch): Turn
  {
    var b := BallotOf(FindConversation(t.conversations, p.conversationId), executionId);
    if b.Vanished? then Turn(t, Failed)
    else if b.GiveWay? then Turn(t, Skipped)
    else ClaimedEffect(BallotTables(t, p.conversationId, executionId), p, read, b.text, now, dateTime, sentAt, oracle,
                       instructions, tools)
  }

  /** A turn after it has claimed `text`. */
  ghost function ClaimedEffect(t: Tables, p: Payload, read: Option<Conversation>, text: string, now: Clock,
                               dateTime: string, sentAt: string, oracle: Oracle, instructions: string,
                               tools: (Instance, Option<Conversation>) -> Dispatch): (r: Turn)
    ensures r.end != Skipped
  {
    var inst := FindInstance(t.instances, p.instanceId);
    if inst.None? then Turn(t, Failed)
    else
      var msgs := TurnOpening(t, p, inst.value, text, now, dateTime, instructions);
      AnswerEffect(t, p, inst.value, msgs, sentAt, oracle, tools(inst.value, read))
  }

  /** The re-check, and the claim of the buffer if the turn proceeds. */
  method Recheck(db: Database, p: Payload, executionId: int) returns (b: Ballot)
    modifies db
    ensures b == BallotOf(FindConversation(old(db.conversations), p.conversationId), executionId)
    ensures db.Snapshot() == BallotTables(old(db.Snapshot()), p.conversationId, executionId)
  {
    b := BallotOf(FindConversation(db.conversations, p.conversationId), executionId);
    if b.Claim? {
      db.conversations := UpdateConversation(db.conversations, p.conversationId, ClearPatch);
    }
  }

  /** The reads that build the first message list. */
  method OpenTurn(db: Database, p: Payload, inst: Instance, text: string, now: Clock, dateTime: string,
                  instructions: string)
    returns (msgs: seq<ChatMessage>)
    ensures msgs == TurnOpening(db.Snapshot(), p, inst, text, now, dateTime, instructions)
  {
    var agent := AgentOf(db.agents, inst);
    var settings := SettingsOf(db.settings, inst.companyId);
    var open := CheckBusinessHours(settings, now);
    var context := BusinessContext(settings, open, WorkingDays(settings));
    msgs := Opening(SystemContent(agent, context, dateTime, instructions), History(db.messages, p.conversationId), text);
  }

  /** The end of the turn once the loop has ended. */
  method Conclude(db: Database, p: Payload, inst: Instance, loopEnd: LoopEnd, sentAt: string, sendRejected: bool)
    returns (end: TurnEnd)
    modifies db
    ensures Turn(db.Snapshot(), end)
      == LoopOutcome(old(db.Snapshot()), p, inst, loopEnd, sentAt, sendRejected)
  {
    match loopEnd {
      case Answered(reply) =>
        end := Deliver(db, p, inst, reply, sentAt, sendRejected);
      case Broke => end := Failed;
      case Hung => end := Hangs;
      case OutOfScript => end := Unscripted;
    }
  }

  /** A claiming turn once its first message list is built. */
  method Answer(db: Database, p: Payload, inst: Instance, conversation: Option<Conversation>, msgs0: seq<ChatMessage>,
                sentAt: string, oracle: Oracle)
    returns (end: TurnEnd)
    modifies db
    ensures Turn(db.Snapshot(), end) == AnswerEffect(old(db.Snapshot()), p, inst, msgs0, sentAt, oracle, Tools(inst, conversation))
  {
    var msgs, loopEnd := ToolLoop(db, msgs0, oracle, inst, conversation);
    ghost var loopTables := db.Snapshot();
    end := Conclude(db, p, inst, loopEnd, sentAt, oracle.sendRejected);
    assert Turn(db.Snapshot(), end) == LoopOutcome(loopTables, p, inst, loopEnd, sentAt, oracle.sendRejected);
  }

  /** The second half of a turn: the re-check, the claim, the prompt, the
      loop and the reply. */
  method Resume(db: Database, p: Payload, read: Option<Conversation>, executionId: int, now: Clock,
                dateTime: string, sentAt: string, oracle: Oracle, instructions: string)
    returns (end: TurnEnd)
    modifies db
    ensures Turn(db.Snapshot(), end)
      == ResumeEffect(old(db.Snapshot()), p, read, executionId, now, dateTime, sentAt, oracle, instructions, Tools)
  {
    var b := Recheck(db, p, executionId);
    if b.Vanished? {
      return Failed;
    }
    if b.GiveWay? {
      return Skipped;
    }
    end := Proceed(db, p, read, b.text, now, dateTime, sentAt, oracle, instructions);
  }

  /** The second half of a turn as the function runs it: with the fixed
      instructions at the end of the system message. */
  method ResumeWithFixedInstructions(db: Database, p: Payload, read: Option<Conversation>, executionId: int, now: Clock,
                                     dateTime: string, sentAt: string, oracle: Oracle)
    returns (end: TurnEnd)
    modifies db
    ensures Turn(db.Snapshot(), end)
      == ResumeEffect(old(db.Snapshot()), p, read, executionId, now, dateTime, sentAt, oracle, FixedInstructions, Tools)
  {
    end := Resume(db, p, read, executionId, now, dateTime, sentAt, oracle, FixedInstructions);
  }

  /** A turn after it has claimed `text`: the instance, the prompt, the
      loop and the reply. */
  method Proceed(db: Database, p: Payload, read: Option<Conversation>, text: string, now: Clock,
                 dateTime: string, sentAt: string, oracle: Oracle, instructions: string)
    returns (end: TurnEnd)
    modifies db
    ensures Turn(db.Snapshot(), end)
      == ClaimedEffect(old(db.Snapshot()), p, read, text, now, dateTime, sentAt, oracle, instructions, Tools)
  {
    var inst := FindInstance(db.instances, p.instanceId);
    if inst.None? {
      return Failed;
    }
    var msgs := OpenTurn(db, p, inst.value, text, now, dateTime, instructions);
    end := Answer(db, p, inst.value, read, msgs, sentAt, oracle);
  }

  /** A turn skips exactly when it gives way; a turn that does not claim
      writes and sends nothing; a turn whose row vanished, or that finds no
      instance, fails, in the second case after emptying the buffer; a
      turn that claims and finds its instance answers with the tools of
      that instance and of the row the first half read, even when that
      read found no row. */
  lemma ResumeOutcomes(t: Tables, p: Payload, read: Option<Conversation>, executionId: int, now: Clock,
                       dateTime: string, sentAt: string, oracle: Oracle, instructions: string,
                       tools: (Instance, Option<Conversation>) -> Dispatch)
    ensures var b := BallotOf(FindConversation(t.conversations, p.conversationId), executionId);
      var r := ResumeEffect(t, p, read, executionId, now, dateTime, sentAt, oracle, instructions, tools);
      && (r.end == Skipped <==> b.GiveWay?)
      && (!b.Claim? ==> r.tables == t)
      && (b.Vanished? ==> r.end == Failed)
      && (b.Claim? && FindInstance(t.instances, p.instanceId).None? ==>
            r == Turn(BallotTables(t, p.conversationId, executionId), Failed))
      && (b.Claim? && FindInstance(t.instances, p.instanceId).Some? ==>
            var inst := FindInstance(t.instances, p.instanceId).value;
            var t' := BallotTables(t, p.conversationId, executionId);
            r == AnswerEffect(t', p, inst, TurnOpening(t', p, inst, b.text, now, dateTime, instructions), sentAt, oracle,
                              tools(inst, read)))
  {
  }

  /** A turn that finishes has replied with the content of the first
      answer of the model that calls no tool, which the model API did
      answer, delivered on the store as the tools left it; a turn ends
      Finished exactly when the loop ended with an answer whose send, if
      it sends one, does not reject; a rejected send fails the turn on the
      store as the tools left it. */
  lemma AnsweredTurn(t: Tables, p: Payload, inst: Instance, msgs: seq<ChatMessage>, sentAt: string, oracle: Oracle,
                     dispatch: Dispatch)
    ensures var r := LoopEffect(t, msgs, oracle.answers, oracle.worlds, dispatch);
      var a := AnswerEffect(t, p, inst, msgs, sentAt, oracle, dispatch);
      && (a.end == Finished <==> r.end.value.Answered? && !(oracle.sendRejected && Sends(r.end.value.reply)))
      && (r.end.value.Answered? && oracle.sendRejected && Sends(r.end.value.reply) ==> a == Turn(r.tables, Failed))
      && (a.end == Finished ==>
            && FirstReply(oracle.answers) < |oracle.answers|
            && oracle.answers[FirstReply(oracle.answers)].Completion?
            && a.tables == DeliverTables(r.tables, p, inst, ReplyOf(oracle.answers[FirstReply(oracle.answers)]), sentAt))
  {
    LoopReply(t, msgs, oracle.answers, oracle.worlds, dispatch);
  }

  /** When the model API cannot be read on the first call, the turn fails
      with no write beyond the claim, and nothing is sent. */
  lemma UnansweredCallFails(t: Tables, p: Payload, inst: Instance, msgs: seq<ChatMessage>, sentAt: string,
                            oracle: Oracle, dispatch: Dispatch)
    requires oracle.answers != [] && oracle.answers[0].Unanswered?
    ensures AnswerEffect(t, p, inst, msgs, sentAt, oracle, dispatch) == Turn(t, Failed)
  {
  }

  /** The model first sees the system message, at most ten earlier
      messages of the conversation, and the claimed text last. */
  lemma TurnOpeningShape(t: Tables, p: Payload, inst: Instance, text: string, now: Clock, dateTime: string,
                         instructions: string)
    ensures var msgs := TurnOpening(t, p, inst, text, now, dateTime, instructions);
      var settings := SettingsOf(t.settings, inst.companyId);
      var context := BusinessContext(settings, IsOpen(settings, now), WorkingDays(settings));
      && 2 <= |msgs| <= 12
      && msgs[0] == Said(SystemRole, SystemContent(AgentOf(t.agents, inst), context, dateTime, instructions))
      && msgs[|msgs| - 1] == Said(UserRole, text)
  {
    HistoryCount(t.messages, p.conversationId);
  }
}
