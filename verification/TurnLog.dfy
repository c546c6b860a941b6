/** What one turn adds to the prompt and to the session log, and why every prompt is well formed. */
module TurnLog {
  import opened Messages
  import opened Json
  import opened Options
  import opened ContextBuilder
  import opened Pairing
  import opened Session
  import opened SessionStore
  import ProjectionLaws

  datatype LLMResponse = LLMResponse(content: string, toolCalls: seq<ToolCall>, usage: map<string, int>)

  datatype Answered = Answered(call: ToolCall, result: string)

  /** One pass of the turn loop that does not end the turn at a reply. */
  datatype Event =
    | Round(response: LLMResponse, answered: seq<Answered>)
    | Guardrail(text: string)
    | PostToolReminder(text: string)

  function Calls(answered: seq<Answered>): (r: seq<ToolCall>)
    ensures |r| == |answered|
  {
    seq(|answered|, i requires 0 <= i < |answered| => answered[i].call)
  }

  function ResultsOf(answered: seq<Answered>): (r: seq<Message>)
    ensures |r| == |answered|
  {
    seq(|answered|,
        i requires 0 <= i < |answered| => Result(answered[i].call.id, answered[i].call.name, answered[i].result))
  }

  function ResultEntry(a: Answered, now: string): SessionMessage {
    SessionMessage(Tool, a.result, now, a.call.name, a.call.id, [], None)
  }

  function ResultEntries(answered: seq<Answered>, now: string): (r: seq<SessionMessage>)
    ensures |r| == |answered|
  {
    seq(|answered|, i requires 0 <= i < |answered| => ResultEntry(answered[i], now))
  }

  function AssistantMessage(response: LLMResponse): Message {
    Text(Assistant, response.content).(toolCalls := response.toolCalls, usage := response.usage)
  }

  function Entry(role: Role, content: string, now: string): SessionMessage {
    SessionMessage(role, content, now, "", "", [], None)
  }

  function AssistantEntry(response: LLMResponse, now: string): SessionMessage {
    Entry(Assistant, response.content, now).(toolCalls := response.toolCalls, usageJson := UsageText(response.usage))
  }

  /** What an event adds to the list of messages ... */
  function Grows(e: Event): seq<Message> {
    match e
    case Round(response, answered) => [AssistantMessage(response)] + ResultsOf(answered)
    case Guardrail(text) => [Text(User, text)]
    case PostToolReminder(text) => [Text(User, text)]
  }

  /** ... and to the log, which does not keep the reminders. */
  function Logs(e: Event, now: string): seq<SessionMessage> {
    match e
    case Round(response, answered) => [AssistantEntry(response, now)] + ResultEntries(answered, now)
    case Guardrail(_) => []
    case PostToolReminder(_) => []
  }

  /** A round is shown as the model's message and the result of each call, in order; a reminder as a user message. */
  lemma GrowsMeans(e: Event)
    ensures match e
            case Round(response, answered) =>
              && |Grows(e)| == |answered| + 1
              && Grows(e)[0] ==
                 Message(Assistant, response.content, "", "", response.toolCalls, [], response.usage, false)
              && forall k :: 0 <= k < |answered| ==>
                   var a := answered[k];
                   Grows(e)[k + 1] == Message(Tool, a.result, a.call.name, a.call.id, [], [], map[], false)
            case Guardrail(text) => Grows(e) == [Message(User, text, "", "", [], [], map[], false)]
            case PostToolReminder(text) => Grows(e) == [Message(User, text, "", "", [], [], map[], false)]
  {
  }

  /** The log keeps the same of a round, with the time, and nothing of a reminder. */
  lemma LogsMean(e: Event, now: string)
    ensures if e.Round? then
              && |Logs(e, now)| == |e.answered| + 1
              && Logs(e, now)[0] == SessionMessage(Assistant, e.response.content, now, "", "", e.response.toolCalls,
                                                   UsageText(e.response.usage))
              && forall k :: 0 <= k < |e.answered| ==>
                   var a := e.answered[k];
                   Logs(e, now)[k + 1] == SessionMessage(Tool, a.result, now, a.call.name, a.call.id, [], None)
            else Logs(e, now) == []
  {
  }

  function Grown(events: seq<Event>): seq<Message> {
    if events == [] then [] else Grown(events[..|events| - 1]) + Grows(events[|events| - 1])
  }

  function Logged(events: seq<Event>, now: string): seq<SessionMessage> {
    if events == [] then [] else Logged(events[..|events| - 1], now) + Logs(events[|events| - 1], now)
  }

  // ---------------------------------------------------------------------------------------------
  // Well-formed logs
  // ---------------------------------------------------------------------------------------------

  predicate NulFreeIds(calls: seq<ToolCall>) {
    forall i :: 0 <= i < |calls| ==> NulFree(calls[i].id)
  }

  predicate HasTurnRole(m: SessionMessage) {
    m.role in {User, Assistant, Tool}
  }

  predicate KeepsIds(m: SessionMessage) {
    NulFreeIds(m.toolCalls) && NulFree(m.toolCallId)
  }

  /** A log as the turns write it.  With `lasting`, its ids also come back whole from the tables. */
  predicate GoodLog(log: seq<SessionMessage>, lasting: bool) {
    && Paired(View(log))
    && forall i :: 0 <= i < |log| ==> HasTurnRole(log[i]) && (lasting ==> KeepsIds(log[i]))
  }

  lemma ViewJoin(a: seq<SessionMessage>, b: seq<SessionMessage>)
    ensures View(a + b) == View(a) + View(b)
  {
  }

  lemma GoodLogJoin(a: seq<SessionMessage>, b: seq<SessionMessage>, lasting: bool)
    requires GoodLog(a, lasting) && GoodLog(b, lasting)
    ensures GoodLog(a + b, lasting)
  {
    ViewJoin(a, b);
    PairedJoin(View(a), View(b));
  }

  lemma SingleIsPaired(m: Message)
    requires m.role != Tool && m.toolCalls == []
    ensures Paired([m])
  {
    assert [m][1..] == [];
  }

  lemma GoodSingle(role: Role, content: string, now: string, lasting: bool)
    requires role in {User, Assistant}
    ensures GoodLog([Entry(role, content, now)], lasting)
  {
    var log := [Entry(role, content, now)];
    assert View(log) == [ToMessage(log[0])];
    SingleIsPaired(ToMessage(log[0]));
  }

  /** What the log keeps of a round is what the model was shown of it. */
  lemma LogMirrorsRound(e: Event, now: string)
    requires e.Round?
    ensures View(Logs(e, now)) == Grows(e)
  {
    UsageRoundTrip(e.response.usage);
    assert ToMessage(AssistantEntry(e.response, now)) == AssistantMessage(e.response);
    forall i | 0 <= i < |e.answered|
      ensures ToMessage(ResultEntries(e.answered, now)[i]) == ResultsOf(e.answered)[i]
    {
    }
  }

  lemma RoundIsPaired(e: Event)
    requires e.Round? && Calls(e.answered) == e.response.toolCalls
    ensures Paired(Grows(e))
  {
    var block := Grows(e);
    assert block[1..] == ResultsOf(e.answered);
    assert forall k :: 0 <= k < |e.answered| ==> e.response.toolCalls[k] == Calls(e.answered)[k];
    assert block[BlockLength(block)..] == [];
  }

  lemma RoundIsGood(e: Event, now: string, lasting: bool)
    requires e.Round? && Calls(e.answered) == e.response.toolCalls && (lasting ==> NulFreeIds(e.response.toolCalls))
    ensures GoodLog(Logs(e, now), lasting)
  {
    LogMirrorsRound(e, now);
    RoundIsPaired(e);
    forall i | 0 <= i < |e.answered|
      ensures HasTurnRole(ResultEntries(e.answered, now)[i])
      ensures lasting ==> KeepsIds(ResultEntries(e.answered, now)[i])
    {
      assert e.response.toolCalls[i] == Calls(e.answered)[i];
    }
  }

  // ---------------------------------------------------------------------------------------------
  // Logs that went through the tables
  // ---------------------------------------------------------------------------------------------

  lemma ShapeOfView(log: seq<SessionMessage>)
    ensures forall i :: 0 <= i < |log| ==>
              && View(log)[i].role == log[i].role && !View(log)[i].isVirtual
              && View(log)[i].toolCalls == log[i].toolCalls && View(log)[i].toolCallId == log[i].toolCallId
  {
  }

  /** No call id of any assistant entry holds a NUL. */
  predicate CallsLast(log: seq<SessionMessage>) {
    forall i :: 0 <= i < |log| && log[i].role == Assistant ==> NulFreeIds(log[i].toolCalls)
  }

  lemma RoleIsKept(m: SessionMessage)
    requires HasTurnRole(m)
    ensures RoleOf(CStr(RoleText(m.role))) == m.role
  {
    CStrKeepsIff(RoleText(m.role));
  }

  lemma RereadShape(m: SessionMessage)
    requires HasTurnRole(m)
    ensures Reread(m).role == m.role && Reread(m).toolCallId == CStr(m.toolCallId)
    ensures NulFree(Reread(m).toolCallId)
  {
    RoleIsKept(m);
    CStrKeepsIff(m.toolCallId);
  }

  lemma RereadShapes(log: seq<SessionMessage>)
    requires forall i :: 0 <= i < |log| ==> HasTurnRole(log[i])
    ensures forall i :: 0 <= i < |log| ==>
              && View(RereadAll(log))[i].role == View(log)[i].role
              && View(RereadAll(log))[i].toolCalls == View(log)[i].toolCalls
              && View(RereadAll(log))[i].toolCallId == CStr(View(log)[i].toolCallId)
  {
    forall i | 0 <= i < |log|
      ensures View(RereadAll(log))[i].role == View(log)[i].role
      ensures View(RereadAll(log))[i].toolCalls == View(log)[i].toolCalls
      ensures View(RereadAll(log))[i].toolCallId == CStr(View(log)[i].toolCallId)
    {
      RereadShape(log[i]);
    }
  }

  /** The tool call ids of a list come back as C strings; the calls themselves as they were. */
  ghost predicate IsCutDown(back: seq<Message>, view: seq<Message>) {
    && |back| == |view|
    && forall i :: 0 <= i < |view| ==>
         && back[i].role == view[i].role && back[i].toolCalls == view[i].toolCalls
         && back[i].toolCallId == CStr(view[i].toolCallId)
  }

  lemma CutDownKeepsPairs(view: seq<Message>, back: seq<Message>)
    requires CallsAnswered(view) && ResultsOwned(view) && IsCutDown(back, view)
    requires forall i :: 0 <= i < |view| && view[i].role == Assistant ==> NulFreeIds(view[i].toolCalls)
    ensures CallsAnswered(back) && ResultsOwned(back)
  {
    forall i: nat, k: nat | i < |back| && back[i].role == Assistant && k < |back[i].toolCalls|
      ensures AnsweredAt(back, i, k)
    {
      assert AnsweredAt(view, i, k);
      CStrKeepsIff(view[i].toolCalls[k].id);
    }
    forall j: nat | j < |back| && back[j].role == Tool
      ensures Owned(back, j)
    {
      assert Owned(view, j);
      var i: nat :| Owns(view, i, j);
      assert Owns(back, i, j);
    }
  }

  lemma CutDownBreaksPair(view: seq<Message>, back: seq<Message>, i: nat, k: nat)
    requires CallsAnswered(view) && IsCutDown(back, view)
    requires i < |view| && view[i].role == Assistant && k < |view[i].toolCalls| && !NulFree(view[i].toolCalls[k].id)
    ensures !CallsAnswered(back)
  {
    assert AnsweredAt(view, i, k);
    CStrKeepsIff(view[i].toolCalls[k].id);
    assert !AnsweredAt(back, i, k);
  }

  /** A paired log comes back paired from the tables exactly if no call id holds a NUL: the ids of the
      calls are kept as JSON, and those of the results as C strings. */
  lemma RereadIsPairedIff(log: seq<SessionMessage>)
    requires Paired(View(log)) && forall i :: 0 <= i < |log| ==> HasTurnRole(log[i])
    ensures Paired(View(RereadAll(log))) <==> CallsLast(log)
  {
    var view, back := View(log), View(RereadAll(log));
    RereadShapes(log);
    assert IsCutDown(back, view);
    PairedMeansAnswered(view);
    PairedMeansAnswered(back);
    if CallsLast(log) {
      CutDownKeepsPairs(view, back);
    } else {
      var i :| 0 <= i < |log| && log[i].role == Assistant && !NulFreeIds(log[i].toolCalls);
      var k :| 0 <= k < |log[i].toolCalls| && !NulFree(log[i].toolCalls[k].id);
      CutDownBreaksPair(view, back, i, k);
    }
  }

  /** A log that a restart breaks, if the id of its one call holds a NUL ... */
  function TornLog(call: ToolCall, now: string): seq<SessionMessage> {
    [AssistantEntry(LLMResponse("", [call], map[]), now), ResultEntry(Answered(call, "text"), now)]
  }

  lemma TornLogIsNotPaired(call: ToolCall, now: string)
    requires !NulFree(call.id)
    ensures GoodLog(TornLog(call, now), false) && !Paired(View(RereadAll(TornLog(call, now))))
  {
    var log := TornLog(call, now);
    var e := Round(LLMResponse("", [call], map[]), [Answered(call, "text")]);
    assert Calls(e.answered) == [call] && Logs(e, now) == log;
    RoundIsGood(e, now, false);
    RereadIsPairedIff(log);
    assert log[0].role == Assistant && !NulFree(log[0].toolCalls[0].id);
  }

  /** ... for example this one. */
  lemma TornLogExists(now: string)
    ensures var log := TornLog(ToolCall("a\0b", "read_file", map[]), now);
            GoodLog(log, false) && !Paired(View(RereadAll(log)))
  {
    var call := ToolCall("a\0b", "read_file", map[]);
    assert call.id[1] == '\0';
    TornLogIsNotPaired(call, now);
  }

  lemma RereadKeepsGood(log: seq<SessionMessage>)
    requires GoodLog(log, true)
    ensures GoodLog(RereadAll(log), true)
  {
    RereadIsPairedIff(log);
    forall i | 0 <= i < |log|
      ensures HasTurnRole(RereadAll(log)[i]) && KeepsIds(RereadAll(log)[i])
    {
      RereadShape(log[i]);
    }
  }

  predicate LoadsGood(t: Tables, key: string, dump: Json -> string, lasting: bool) {
    GoodLog(RowMessages(Select(t.rows, key, true), dump), lasting)
  }

  /** A session that is cached under another key has not the same rows. */
  predicate NoAlias(cached: set<string>, key: string) {
    forall k :: k in cached && CStr(k) == CStr(key) ==> k == key
  }

  /** Every row can be read, and whatever key may be loaded, its log is well formed.  If ids do not last,
      this is asked of the keys whose rows no cached session has. */
  ghost predicate GoodTables(t: Tables, dump: Json -> string, cached: set<string>, lasting: bool) {
    && AllReadable(t.rows, dump)
    && forall key :: lasting || (key !in cached && NoAlias(cached, key)) ==> LoadsGood(t, key, dump, lasting)
  }

  /** What is saved can be taken up again by another run of the program exactly if no call id holds a NUL. */
  lemma SavedLogLoadsIff(t: Tables, s: SessionState, key: string, dump: Json -> string)
    requires GoodLog(s.messages, false) && CStr(key) == CStr(s.key)
    ensures LoadsGood(Insert(t, s), key, dump, false) <==> CallsLast(s.messages)
  {
    InsertedRows(t, s, key);
    RowsReread(t.nextId, s.key, s.messages, dump);
    RereadIsPairedIff(s.messages);
    RereadShapes(s.messages);
    ShapeOfView(s.messages);
    ShapeOfView(RereadAll(s.messages));
  }

  lemma NothingIsGood(dump: Json -> string, lasting: bool)
    ensures GoodLog(RowMessages([], dump), lasting)
  {
    assert View(RowMessages([], dump)) == [];
  }

  lemma NewStoreIsGood(dump: Json -> string, lasting: bool)
    ensures GoodTables(Tables(map[], [], 0), dump, {}, lasting)
  {
    NothingIsGood(dump, lasting);
  }

  lemma InsertKeepsGood(t: Tables, s: SessionState, dump: Json -> string, cached: set<string>, lasting: bool)
    requires GoodTables(t, dump, cached, lasting) && GoodLog(s.messages, lasting)
    ensures GoodTables(Insert(t, s), dump, cached + {s.key}, lasting)
  {
    StoreStaysReadable(t, s, s.key, dump);
    forall key | lasting || (key !in cached + {s.key} && NoAlias(cached + {s.key}, key))
      ensures LoadsGood(Insert(t, s), key, dump, lasting)
    {
      if CStr(key) == CStr(s.key) {
        assert s.key in cached + {s.key};
        InsertedRows(t, s, key);
        RowsReread(t.nextId, s.key, s.messages, dump);
        RereadKeepsGood(s.messages);
      } else {
        OtherRows(t, s, key);
        assert LoadsGood(t, key, dump, lasting);
      }
    }
  }

  lemma EraseKeepsGood(t: Tables, erased: string, dump: Json -> string, cached: set<string>, lasting: bool)
    requires GoodTables(t, dump, cached, lasting)
    ensures GoodTables(Erase(t, erased), dump, cached - {erased}, lasting)
  {
    StoreStaysReadable(t, SessionState(erased, [], "", "", Null, {}), erased, dump);
    forall key | lasting || (key !in cached - {erased} && NoAlias(cached - {erased}, key))
      ensures LoadsGood(Erase(t, erased), key, dump, lasting)
    {
      if CStr(key) == CStr(erased) {
        SelectSame(t.rows, erased, key);
        NothingIsGood(dump, lasting);
      } else {
        SelectOther(t.rows, erased, key);
        assert lasting || NoAlias(cached, key);
        assert LoadsGood(t, key, dump, lasting);
      }
    }
  }

  // ---------------------------------------------------------------------------------------------
  // Lists of messages that project to well-formed prompts
  // ---------------------------------------------------------------------------------------------

  /** From `head` on the list is paired; before it the projection keeps system messages at most. */
  ghost predicate Headed(messages: seq<Message>, head: nat) {
    && head <= |messages|
    && (forall i :: 0 <= i < head ==>
          messages[i].role in {System, Tool} || (messages[i].isVirtual && messages[i].role == User))
    && Paired(messages[head..]) && VirtualIsNeutral(messages[head..])
  }

  /** A prompt is paired exactly if no call in it has an empty id. */
  ghost predicate PairedUnlessEmptyId(prompt: seq<Message>) {
    Paired(prompt) <==> "" !in CallIds(prompt)
  }

  /** Any suffix of a paired list is a few results without their calls, then a paired list. */
  lemma {:induction false} SuffixOfPaired(a: seq<Message>, b: seq<Message>) returns (strays: nat)
    requires Paired(a + b)
    ensures strays <= |b| && Paired(b[strays..])
    ensures forall i :: 0 <= i < strays ==> b[i].role == Tool
    decreases |a|
  {
    if a == [] {
      strays := 0;
      assert a + b == b[0..];
    } else {
      var n := BlockLength(a + b);
      if n <= |a| {
        assert (a + b)[n..] == a[n..] + b;
        strays := SuffixOfPaired(a[n..], b);
      } else {
        strays := n - |a|;
        InsideBlock(a, b, n);
      }
    }
  }

  /** The first block ends inside `b`. */
  lemma InsideBlock(a: seq<Message>, b: seq<Message>, n: nat)
    requires a != [] && Paired(a + b) && n == BlockLength(a + b) > |a|
    ensures n - |a| <= |b| && Paired(b[n - |a|..])
    ensures forall i :: 0 <= i < n - |a| ==> b[i].role == Tool
  {
    var messages := a + b;
    assert messages[n..] == b[n - |a|..];
    forall i | 0 <= i < n - |a|
      ensures b[i].role == Tool
    {
      assert messages[1..][|a| + i - 1] == b[i];
    }
  }

  lemma {:induction false} VisibleHead(messages: seq<Message>)
    requires forall i :: 0 <= i < |messages| ==>
               messages[i].role in {System, Tool} || (messages[i].isVirtual && messages[i].role == User)
    ensures forall m :: m in RemoveVirtual(messages) ==> m.role in {System, Tool}
    decreases |messages|
  {
    if messages != [] {
      VisibleHead(messages[..|messages| - 1]);
    }
  }

  lemma CutBehind(front: seq<Message>, back: seq<Message>)
    requires forall m :: m in front ==> m.role in {System, Tool}
    ensures Cut(front + back) >= |front|
  {
    assert forall k :: 0 <= k < |front| ==> (front + back)[k] == front[k] && front[k] in front;
  }

  /** Behind such a front the protected tail of a paired list is paired. */
  lemma TailIsPaired(front: seq<Message>, back: seq<Message>)
    requires (forall m :: m in front ==> m.role in {System, Tool}) && Paired(back)
    ensures Paired((front + back)[Cut(front + back)..])
  {
    var visible := front + back;
    CutBehind(front, back);
    var cut := Cut(visible) - |front|;
    var dropped, tail := back[..cut], back[cut..];
    assert back == dropped + tail;
    assert visible[Cut(visible)..] == tail;
    assert tail != [] ==> tail[0] == visible[Cut(visible)];
    PairedCut(dropped, tail);
  }

  lemma KeptBehindHead(messages: seq<Message>, head: nat)
    requires Headed(messages, head)
    ensures Paired(Kept(messages))
  {
    var front, back := RemoveVirtual(messages[..head]), RemoveVirtual(messages[head..]);
    assert messages == messages[..head] + messages[head..];
    RemoveVirtualJoin(messages[..head], messages[head..]);
    VisibleHead(messages[..head]);
    RemoveVirtualPaired(messages[head..]);
    TailIsPaired(front, back);
    HeadsThenTail(front + back);
  }

  lemma HeadsThenTail(visible: seq<Message>)
    requires Paired(visible[Cut(visible)..])
    ensures Paired(Heads(visible[..Cut(visible)]) + visible[Cut(visible)..])
  {
    HeadsAreSystem(visible[..Cut(visible)]);
    SystemIsPaired(Heads(visible[..Cut(visible)]));
    PairedJoin(Heads(visible[..Cut(visible)]), visible[Cut(visible)..]);
  }

  lemma IdsOfPrompt(messages: seq<Message>, prompt: seq<Message>)
    requires IsProjection(messages, prompt)
    ensures CallIds(prompt) == CallIds(Kept(messages))
  {
    var kept := Kept(messages);
    var ids :| Lists(ids, Missing(kept)) && prompt == Coalesce(kept + Placeholders(ids));
    assert [] + (kept + Placeholders(ids)) == kept + Placeholders(ids);
    ProjectionLaws.CoalesceIds([], kept + Placeholders(ids));
    ProjectionLaws.PlaceholderIds(kept, ids);
  }

  /** Whatever the window of history started with, the prompt is paired exactly if no call in it has an
      empty id. */
  lemma PromptPairedIff(messages: seq<Message>, head: nat, prompt: seq<Message>)
    requires Headed(messages, head) && IsProjection(messages, prompt)
    ensures Paired(prompt) <==> "" !in CallIds(prompt)
  {
    KeptBehindHead(messages, head);
    KeptProjectsPaired(messages, prompt);
    IdsOfPrompt(messages, prompt);
  }

  lemma EventIsNeutral(e: Event)
    requires e.Round? ==> Calls(e.answered) == e.response.toolCalls
    ensures Paired(Grows(e))
    ensures forall m :: m in Grows(e) ==> !m.isVirtual
  {
    match e
    case Round(response, answered) =>
      RoundIsPaired(e);
    case Guardrail(text) =>
      SingleIsPaired(Text(User, text));
    case PostToolReminder(text) =>
      SingleIsPaired(Text(User, text));
  }

  lemma HeadedGrows(messages: seq<Message>, head: nat, e: Event)
    requires Headed(messages, head)
    requires e.Round? ==> Calls(e.answered) == e.response.toolCalls
    ensures Headed(messages + Grows(e), head)
  {
    var block := Grows(e);
    EventIsNeutral(e);
    assert (messages + block)[head..] == messages[head..] + block;
    PairedJoin(messages[head..], block);
  }

  // ---------------------------------------------------------------------------------------------
  // The list a turn starts from
  // ---------------------------------------------------------------------------------------------

  function Notices(texts: seq<string>): (r: seq<Message>)
    ensures |r| == |texts|
  {
    seq(|texts|, i requires 0 <= i < |texts| => Text(User, texts[i]).(isVirtual := true))
  }

  predicate AreNotices(messages: seq<Message>) {
    forall m :: m in messages ==> m.isVirtual && m.role == User && m.toolCalls == []
  }

  lemma NoticesArePaired(messages: seq<Message>)
    requires AreNotices(messages)
    ensures Paired(messages)
    decreases |messages|
  {
    if messages != [] {
      NoticesArePaired(messages[1..]);
    }
  }

  /** A window of a well-formed log: results whose calls lie before it, then a paired list. */
  ghost predicate SplitsAt(history: seq<Message>, strays: nat) {
    && strays <= |history| && Paired(history[strays..])
    && (forall i :: 0 <= i < strays ==> history[i].role == Tool)
    && forall m :: m in history ==> !m.isVirtual
  }

  lemma HistorySplits(log: seq<SessionMessage>, maxMessages: nat, history: seq<Message>) returns (strays: nat)
    requires Paired(View(log)) && IsHistory(View(log), maxMessages, history)
    ensures SplitsAt(history, strays)
  {
    hide IsHistory, Paired, SplitsAt, View;
    var view := View(log);
    var start := HistoryIsSuffix(view, maxMessages, history);
    ShapeOfView(log);
    strays := WindowSplits(view[..start], history, view);
  }

  lemma WindowSplits(front: seq<Message>, history: seq<Message>, view: seq<Message>) returns (strays: nat)
    requires view == front + history && Paired(view) && forall m :: m in view ==> !m.isVirtual
    ensures SplitsAt(history, strays)
  {
    strays := SuffixOfPaired(front, history);
    assert forall m :: m in history ==> m in view;
  }

  lemma HistoryIsSuffix(view: seq<Message>, maxMessages: nat, history: seq<Message>) returns (start: nat)
    requires IsHistory(view, maxMessages, history)
    ensures start <= |view| && history == view[start..] && view == view[..start] + history
  {
    start :| start <= |view| && IsHistoryStart(view, maxMessages, start) && history == view[start..];
  }

  /** Whatever history a turn starts with, its first list projects to a well-formed prompt. */
  lemma FirstListIsHeaded(history: seq<Message>, strays: nat, system: Message, contexts: seq<Message>, user: Message,
                            notices: seq<Message>,
                            list: seq<Message>)
    requires list == [system] + contexts + history + [user] + notices
    requires SplitsAt(history, strays)
    requires system.role == System && user.role == User && user.toolCalls == [] && !user.isVirtual
    requires AreNotices(contexts) && AreNotices(notices)
    ensures Headed(list, 1 + |contexts| + strays)
  {
    var front, back := history[..strays], history[strays..];
    var h, rest := [system] + contexts + front, back + [user] + notices;
    Regroup([system] + contexts, front, back, [user], notices, history);
    RestIsPaired(back, user, notices);
    assert forall m :: m in h ==> m == system || m in contexts || m in front;
    Assemble(h, rest);
  }

  lemma Regroup<T>(a: seq<T>, front: seq<T>, back: seq<T>, d: seq<T>, e: seq<T>, middle: seq<T>)
    requires middle == front + back
    ensures a + middle + d + e == (a + front) + (back + d + e)
  {
  }

  lemma RestIsPaired(back: seq<Message>, user: Message, notices: seq<Message>)
    requires Paired(back) && (forall m :: m in back ==> !m.isVirtual) && AreNotices(notices)
    requires user.role == User && user.toolCalls == [] && !user.isVirtual
    ensures Paired(back + [user] + notices) && VirtualIsNeutral(back + [user] + notices)
  {
    NoticesArePaired(notices);
    SingleIsPaired(user);
    PairedJoin(back, [user]);
    PairedJoin(back + [user], notices);
  }

  lemma Assemble(h: seq<Message>, rest: seq<Message>)
    requires forall m :: m in h ==> m.role in {System, Tool} || (m.isVirtual && m.role == User)
    requires Paired(rest) && VirtualIsNeutral(rest)
    ensures Headed(h + rest, |h|)
  {
    assert (h + rest)[|h|..] == rest;
    assert forall i :: 0 <= i < |h| ==> (h + rest)[i] == h[i] && h[i] in h;
  }

  /** Virtual messages make no difference to any prompt. */
  lemma NoticesNeverReachTheModel(before: seq<Message>, notices: seq<Message>, after: seq<Message>,
                                  prompt: seq<Message>)
    requires forall m :: m in notices ==> m.isVirtual
    ensures IsProjection(before + notices + after, prompt) <==> IsProjection(before + after, prompt)
  {
    RemoveVirtualJoin(before + notices, after);
    RemoveVirtualJoin(before, notices);
    RemoveVirtualJoin(before, after);
    NothingStays(notices);
    assert RemoveVirtual(before) + [] == RemoveVirtual(before);
  }

  lemma {:induction false} NothingStays(notices: seq<Message>)
    requires forall m :: m in notices ==> m.isVirtual
    ensures RemoveVirtual(notices) == []
  {
    if notices != [] {
      NothingStays(notices[..|notices| - 1]);
    }
  }

  // ---------------------------------------------------------------------------------------------
  // What becomes of the input in the course of a turn
  // ---------------------------------------------------------------------------------------------

  /** How many of these passes ended with a reminder. */
  function Reminders(events: seq<Event>): nat {
    if events == [] then 0
    else Reminders(events[..|events| - 1]) + if events[|events| - 1].Round? then 0 else 1
  }

  predicate NoRound(events: seq<Event>) {
    forall i :: 0 <= i < |events| ==> !events[i].Round?
  }

  /** After these passes the model is still shown the input of the turn: there are three user messages with it,
      or the last assistant message stands before it. */
  ghost predicate InputShown(history: seq<Message>, events: seq<Event>) {
    || CountUsers(history) + Reminders(events) >= 2
    || (NoRound(events) && exists m :: m in history && m.role == Assistant)
  }

  /** Messages that a turn adds: visible, with so many reminders, and a call among them or not. */
  ghost predicate IsAddition(messages: seq<Message>, reminders: nat, noCall: bool) {
    && CountUsers(messages) == reminders
    && (forall m :: m in messages ==> !m.isVirtual && (m.role == User ==> m.contentParts == []))
    && ((forall m :: m in messages ==> m.role != Assistant) <==> noCall)
  }

  lemma AdditionsJoin(a: seq<Message>, reminders: nat, noCall: bool, b: seq<Message>, reminders': nat, noCall': bool)
    requires IsAddition(a, reminders, noCall) && IsAddition(b, reminders', noCall')
    ensures IsAddition(a + b, reminders + reminders', noCall && noCall')
  {
    CountUsersJoin(a, b);
    assert forall m :: m in a + b <==> m in a || m in b;
  }

  lemma GrowsAddition(e: Event)
    ensures IsAddition(Grows(e), if e.Round? then 0 else 1, !e.Round?)
  {
    match e
    case Round(response, answered) =>
      NoUsers(Grows(e));
      assert AssistantMessage(response) in Grows(e);
    case Guardrail(text) => CountOne(Text(User, text));
    case PostToolReminder(text) => CountOne(Text(User, text));
  }

  lemma {:induction false} GrownAddition(events: seq<Event>)
    ensures IsAddition(Grown(events), Reminders(events), NoRound(events))
    decreases |events|
  {
    if events != [] {
      var front, last := events[..|events| - 1], events[|events| - 1];
      GrownAddition(front);
      GrowsAddition(last);
      AdditionsJoin(Grown(front), Reminders(front), NoRound(front),
                    Grows(last), if last.Round? then 0 else 1, !last.Round?);
      NoRoundStep(events);
    }
  }

  lemma NoRoundStep(events: seq<Event>)
    requires events != []
    ensures NoRound(events) <==> NoRound(events[..|events| - 1]) && !events[|events| - 1].Round?
  {
  }

  /** Contexts and notices make no difference to the projection of a list that a turn has come to. */
  lemma WithoutNotices(system: Message, contexts: seq<Message>, history: seq<Message>, user: Message,
                       notices: seq<Message>, grown: seq<Message>, out: seq<Message>)
    requires AreNotices(contexts) && AreNotices(notices)
    ensures IsProjection([system] + contexts + history + [user] + notices + grown, out) <==>
            IsProjection([system] + history + [user] + grown, out)
  {
    var front, back := [system] + contexts + history + [user], history + [user] + grown;
    NoticesNeverReachTheModel(front, notices, grown, out);
    assert front + grown == [system] + contexts + back;
    NoticesNeverReachTheModel([system], contexts, back, out);
    assert [system] + back == [system] + history + [user] + grown;
  }

  lemma InputBehindIff(system: Message, history: seq<Message>, user: Message, events: seq<Event>, out: seq<Message>)
    requires system.role == System && !system.isVirtual && user.role == User && !user.isVirtual
    requires user.contentParts != [] && !IsReminder(user) && Reminders(events) <= 2
    requires forall m :: m in history ==> !m.isVirtual
    requires IsProjection([system] + history + [user] + Grown(events), out)
    ensures user in out <==> InputShown(history, events)
  {
    var front, grown := [system] + history, Grown(events);
    GrownAddition(events);
    UsersBehindSystem(system, history);
    assert forall m :: m in front + [user] + grown ==> m in front || m == user || m in grown;
    ProjectionLaws.InputStaysIff(front, user, grown, out);
  }

  /** In every prompt of a turn: the input is in it exactly under that condition. */
  lemma InputInPromptIff(systemPrompt: string, contexts: seq<Message>, history: seq<Message>, current: string,
                         images: seq<string>, notices: seq<Message>, events: seq<Event>, out: seq<Message>)
    requires AreNotices(contexts) && AreNotices(notices) && Reminders(events) <= 2
    requires forall m :: m in history ==> !m.isVirtual
    requires IsProjection([Text(System, systemPrompt)] + contexts + history + [UserMessage(current, images)] + notices
                          + Grown(events), out)
    ensures UserMessage(current, images) in out <==> InputShown(history, events)
  {
    var system, user := Text(System, systemPrompt), UserMessage(current, images);
    WithoutNotices(system, contexts, history, user, notices, Grown(events), out);
    InputBehindIff(system, history, user, events, out);
  }

  lemma UsersBehindSystem(system: Message, history: seq<Message>)
    requires system.role == System
    ensures CountUsers([system] + history) == CountUsers(history)
    ensures forall m :: m in [system] + history <==> m == system || m in history
  {
    CountUsersJoin([system], history);
    CountOne(system);
  }

  /** A list as `BuildMessages` makes it, and what the passes added. */
  function ListAfter(history: seq<Message>, systemPrompt: string, current: string, images: seq<string>,
                     events: seq<Event>): seq<Message> {
    BuildMessages(history, systemPrompt, current, images) + Grown(events)
  }

  lemma InputAfterIff(history: seq<Message>, systemPrompt: string, current: string, images: seq<string>,
                      events: seq<Event>, out: seq<Message>)
    requires (forall m :: m in history ==> !m.isVirtual) && Reminders(events) <= 2
    requires IsProjection(ListAfter(history, systemPrompt, current, images, events), out)
    ensures UserMessage(current, images) in out <==> InputShown(history, events)
  {
    InputBehindIff(Text(System, systemPrompt), history, UserMessage(current, images), events, out);
  }

  lemma OneUserOfTwo(u: Message, a: Message)
    requires u.role == User && a.role == Assistant
    ensures CountUsers([u, a]) == 1 && a in [u, a]
  {
    assert [u, a] == [u] + [a];
    CountUsersJoin([u], [a]);
    CountOne(u);
    CountOne(a);
  }

  /** On the second turn of a session the first prompt holds the request, and the one behind a round does not. */
  lemma SecondPromptLosesInput(systemPrompt: string, current: string, images: seq<string>, round: Event,
                               first: seq<Message>, second: seq<Message>)
    requires round.Round?
    requires var history := [Text(User, "a"), Text(Assistant, "b")];
             && IsProjection(ListAfter(history, systemPrompt, current, images, []), first)
             && IsProjection(ListAfter(history, systemPrompt, current, images, [round]), second)
    ensures UserMessage(current, images) in first && UserMessage(current, images) !in second
  {
    hide IsProjection, ListAfter, Grown, CountUsers;
    var u, a := Text(User, "a"), Text(Assistant, "b");
    OneUserOfTwo(u, a);
    assert [round][..0] == [];
    InputAfterIff([u, a], systemPrompt, current, images, [], first);
    InputAfterIff([u, a], systemPrompt, current, images, [round], second);
  }

  lemma RemindersStep(events: seq<Event>, e: Event)
    ensures Reminders(events + [e]) == Reminders(events) + if e.Round? then 0 else 1
  {
    assert (events + [e])[..|events + [e]| - 1] == events;
  }

  lemma RemindersOfThree(a: Event, b: Event, c: Event)
    requires !a.Round? && b.Round? && !c.Round?
    ensures Reminders([a, b, c]) == 2
  {
    RemindersStep([], a);
    RemindersStep([] + [a], b);
    RemindersStep([] + [a] + [b], c);
    assert [] + [a] + [b] + [c] == [a, b, c];
  }

  /** On the first turn of a session the first prompt does not hold the request, and the one behind both reminders
      does. */
  lemma RemindersBringInputBack(systemPrompt: string, current: string, images: seq<string>, round: Event,
                                guardrail: string, reminder: string, first: seq<Message>, last: seq<Message>)
    requires round.Round?
    requires var events := [Guardrail(guardrail), round, PostToolReminder(reminder)];
             && IsProjection(ListAfter([], systemPrompt, current, images, []), first)
             && IsProjection(ListAfter([], systemPrompt, current, images, events), last)
    ensures UserMessage(current, images) !in first && UserMessage(current, images) in last
  {
    var events := [Guardrail(guardrail), round, PostToolReminder(reminder)];
    RemindersOfThree(Guardrail(guardrail), round, PostToolReminder(reminder));
    InputAfterIff([], systemPrompt, current, images, [], first);
    InputAfterIff([], systemPrompt, current, images, events, last);
  }

  // ---------------------------------------------------------------------------------------------
  // The prompt that a torn id leads to
  // ---------------------------------------------------------------------------------------------

  lemma {:induction false} CoalesceKeepsFront(merged: seq<Message>, messages: seq<Message>)
    requires merged != []
    ensures merged[..|merged| - 1] <= CoalesceOnto(merged, messages)
    decreases |messages|
  {
    if messages != [] {
      CoalesceKeepsFront(Append(merged, messages[0]), messages[1..]);
    }
  }

  lemma CoalesceSkips(merged: seq<Message>, m: Message, rest: seq<Message>)
    requires !IsReminder(m)
    ensures CoalesceOnto(merged, [m] + rest) == CoalesceOnto(merged + [m], rest)
  {
    assert ([m] + rest)[1..] == rest;
  }

  lemma FrontIsKept(s: Message, a: Message, t: Message, u: Message, rest: seq<Message>)
    requires !IsReminder(s) && !IsReminder(a) && !IsReminder(t) && !IsReminder(u)
    ensures [s, a, t] <= Coalesce([s, a, t, u] + rest)
  {
    assert [s, a, t, u] + rest == [s] + ([a] + ([t] + ([u] + rest)));
    CoalesceSkips([], s, [a] + ([t] + ([u] + rest)));
    CoalesceSkips([] + [s], a, [t] + ([u] + rest));
    CoalesceSkips([] + [s] + [a], t, [u] + rest);
    CoalesceSkips([] + [s] + [a] + [t], u, rest);
    assert [] + [s] + [a] + [t] + [u] == [s, a, t, u];
    CoalesceKeepsFront([s, a, t, u], rest);
    assert [s, a, t, u][..3] == [s, a, t];
  }

  lemma OneUserOfFour(s: Message, a: Message, t: Message, u: Message)
    requires s.role == System && a.role == Assistant && t.role == Tool && u.role == User
    ensures CountUsers([s, a, t, u]) == 1
  {
    assert [s, a, t, u] == [s] + ([a] + ([t] + [u]));
    CountUsersJoin([s], [a] + ([t] + [u]));
    CountUsersJoin([a], [t] + [u]);
    CountUsersJoin([t], [u]);
    CountOne(s);
    CountOne(a);
    CountOne(t);
    CountOne(u);
  }

  lemma KeptOfFour(s: Message, a: Message, t: Message, u: Message)
    requires s.role == System && a.role == Assistant && t.role == Tool && u.role == User
    requires !s.isVirtual && !a.isVirtual && !t.isVirtual && !u.isVirtual
    ensures Kept([s, a, t, u]) == [StripImages(s), a, t, u]
  {
    var messages := [s, a, t, u];
    NothingVirtual(messages);
    OneUserOfFour(s, a, t, u);
    ProjectionLaws.LastAssistantUnique(messages, |messages|, 1);
    assert messages[1..] == [a, t, u] && messages[..1] == [s];
    OneHead(s);
  }

  lemma OneHead(s: Message)
    requires s.role == System
    ensures Heads([s]) == [StripImages(s)]
  {
    assert [s][..0] == [];
  }

  /** An assistant message followed by a result of another id, as the second message of a short list. */
  lemma WrongResultStays(s: Message, a: Message, t: Message, u: Message, prompt: seq<Message>)
    requires s.role == System && a.role == Assistant && t.role == Tool && u.role == User && u.content == ""
    requires !s.isVirtual && !a.isVirtual && !t.isVirtual && !u.isVirtual
    requires |a.toolCalls| > 0 && a.toolCalls[0].id != t.toolCallId && IsProjection([s, a, t, u], prompt)
    ensures !Paired(prompt)
  {
    KeptOfFour(s, a, t, u);
    var kept := [StripImages(s), a, t, u];
    var ids :| Lists(ids, Missing(kept)) && prompt == Coalesce(kept + Placeholders(ids));
    FrontIsKept(StripImages(s), a, t, u, Placeholders(ids));
    PairedMeansAnswered(prompt);
    assert !AnsweredAt(prompt, 1, 0);
  }

  lemma TornLogComesBack(call: ToolCall, now: string) returns (a: Message, t: Message)
    ensures View(RereadAll(TornLog(call, now))) == [a, t] && !a.isVirtual && !t.isVirtual
    ensures a.role == Assistant && a.toolCalls == [call] && t.role == Tool && t.toolCallId == CStr(call.id)
  {
    var log := TornLog(call, now);
    RereadShapes(log);
    ShapeOfView(RereadAll(log));
    ShapeOfView(log);
    a, t := View(RereadAll(log))[0], View(RereadAll(log))[1];
  }

  lemma IdsOfFour(s: Message, a: Message, t: Message, u: Message, prompt: seq<Message>)
    requires s.role == System && a.role == Assistant && t.role == Tool && u.role == User
    requires !s.isVirtual && !a.isVirtual && !t.isVirtual && !u.isVirtual
    requires (forall c :: c in a.toolCalls ==> c.id != "") && IsProjection([s, a, t, u], prompt)
    ensures "" !in CallIds(prompt)
  {
    IdsOfPrompt([s, a, t, u], prompt);
    KeptOfFour(s, a, t, u);
    assert forall m :: m in [StripImages(s), a, t, u] && m.role == Assistant ==> m == a;
  }

  /** With that log the first prompt after a restart is not paired, though its one call has an id. */
  lemma TornLogBreaksPrompt(call: ToolCall, systemPrompt: string, current: string, now: string, prompt: seq<Message>)
    requires !NulFree(call.id)
    requires IsProjection(BuildMessages(View(RereadAll(TornLog(call, now))), systemPrompt, current, []), prompt)
    ensures !PairedUnlessEmptyId(prompt)
  {
    var a, t := TornLogComesBack(call, now);
    var s, u := Text(System, systemPrompt), UserMessage(current, []);
    assert BuildMessages([a, t], systemPrompt, current, []) == [s, a, t, u];
    CStrKeepsIff(call.id);
    WrongResultStays(s, a, t, u, prompt);
    IdsOfFour(s, a, t, u, prompt);
  }
}
