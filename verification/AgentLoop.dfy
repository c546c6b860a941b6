/** The turn loop (src/agent/agent_loop.cpp).

    The model and the tools are arbitrary: each answer is a function of everything that was asked
    before, and `None` stands for an exception. */
module AgentLoop {
  import opened Messages
  import opened Json
  import opened Options
  import opened ContextBuilder
  import opened Pairing
  import opened Session
  import opened SessionStore
  import opened TurnLog
  import opened ToolGuard
  import MemoryBlock
  import ProjectionLaws

  type Chat = seq<seq<Message>> -> Option<LLMResponse>

  /** Every call that a response asks for has an id that comes back whole from the tables. */
  ghost predicate IdsLast(chat: Chat) {
    forall asked :: chat(asked).Some? ==> NulFreeIds(chat(asked).value.toolCalls)
  }

  class Provider {
    const chat: Chat
    /** Every list of messages sent so far. */
    var prompts: seq<seq<Message>>

    constructor (chat: Chat)
      ensures this.chat == chat && prompts == []
    {
      this.chat, prompts := chat, [];
    }

    method Chat(prompt: seq<Message>) returns (response: Option<LLMResponse>)
      modifies this
      ensures prompts == old(prompts) + [prompt] && response == chat(prompts)
    {
      prompts := prompts + [prompt];
      response := chat(prompts);
    }
  }

  class ToolRegistry {
    const run: Run
    /** Every call executed so far. */
    var runs: seq<ToolCall>

    constructor (run: Run)
      ensures this.run == run && runs == []
    {
      this.run, runs := run, [];
    }

    method Execute(call: ToolCall) returns (result: Option<string>)
      modifies this
      ensures runs == old(runs) + [call] && result == run(runs)
    {
      runs := runs + [call];
      result := run(runs);
    }
  }

  class MemoryStore {
    const fails: seq<string> -> bool
    /** Every entry written so far. */
    var entries: seq<string>

    constructor (fails: seq<string> -> bool)
      ensures this.fails == fails && entries == []
    {
      this.fails, entries := fails, [];
    }

    method AppendToday(entry: string) returns (failed: bool)
      modifies this
      ensures entries == old(entries) + [entry] && failed == fails(entries)
    {
      entries := entries + [entry];
      failed := fails(entries);
    }
  }

  /** The settings and fixed texts of the loop.  `memoryEntry` is what `AppendMemoryEntry` writes for a
      key and a memory block, empty if the block has no line to write. */
  datatype Config = Config(
    maxIterations: int,
    maxHistoryMessages: nat,
    guardrail: string -> string,
    postToolReminder: string,
    notice: string -> string,
    workingDirectoryContext: string -> string,
    mergeRequestContext: string -> string,
    newSessionReply: string,
    memoryEntry: (string, string) -> string,
    requiresToolGuardrail: string -> bool)

  /** What a reply without tool calls is judged by. */
  datatype Ask = Ask(requiresGuardrail: bool, guardrail: string, postToolReminder: string)

  /** The flags a turn keeps. */
  datatype Flags = Flags(toolCalled: bool, guardrailRetryUsed: bool, postToolReminderUsed: bool, messageSent: bool)

  /** How one pass of the loop ends. */
  datatype Verdict = Throws | Continues | Planned(result: string) | Replied(content: string)

  /** How a turn ends: with a reply, with a reply whose memory block could not be written, or with an
      exception before the session was saved. */
  datatype Outcome = Done(reply: string, sent: bool) | Unremembered(reply: string, sent: bool) | Failed

  // ---------------------------------------------------------------------------------------------
  // The trace of a turn
  // ---------------------------------------------------------------------------------------------

  ghost predicate SendsMessage(calls: seq<ToolCall>) {
    exists k :: 0 <= k < |calls| && calls[k].name == "send_message"
  }

  /** The flags after these passes. */
  ghost function FlagsOf(events: seq<Event>): Flags {
    if events == [] then Flags(false, false, false, false)
    else FlagsAfter(FlagsOf(events[..|events| - 1]), events[|events| - 1])
  }

  ghost function FlagsAfter(flags: Flags, e: Event): Flags {
    match e
    case Round(response, _) => flags.(toolCalled := true, messageSent := flags.messageSent
        || SendsMessage(response.toolCalls))
    case Guardrail(_) => flags.(guardrailRetryUsed := true)
    case PostToolReminder(_) => flags.(postToolReminderUsed := true)
  }

  /** What the flags mean. */
  lemma {:induction false} FlagsMean(events: seq<Event>)
    ensures FlagsOf(events).toolCalled <==> exists i :: 0 <= i < |events| && events[i].Round?
    ensures FlagsOf(events).guardrailRetryUsed <==> exists i :: 0 <= i < |events| && events[i].Guardrail?
    ensures FlagsOf(events).postToolReminderUsed <==> exists i :: 0 <= i < |events| && events[i].PostToolReminder?
    ensures FlagsOf(events).messageSent <==>
              exists i, k :: 0 <= i < |events| && events[i].Round? && 0 <= k < |events[i].response.toolCalls|
                             && events[i].response.toolCalls[k].name == "send_message"
    decreases |events|
  {
    if events != [] {
      var front, last := events[..|events| - 1], events[|events| - 1];
      FlagsMean(front);
      assert forall i :: 0 <= i < |events| ==> events[i] == if i < |front| then front[i] else last;
      assert events[|front|] == last;
    }
  }

  /** Why a reply without tool calls is not accepted yet, if so. */
  ghost function Retry(flags: Flags, response: LLMResponse, ask: Ask): Option<Event> {
    if ask.requiresGuardrail && !flags.toolCalled && !flags.guardrailRetryUsed then Some(Guardrail(ask.guardrail))
    else if flags.toolCalled && MemoryBlock.Trim(response.content) == ""
        && !flags.postToolReminderUsed then Some(PostToolReminder(ask.postToolReminder))
    else None
  }

  /** The result of the last `plan_work` call of a round. */
  ghost function PlanResult(answered: seq<Answered>): Option<string> {
    if answered == [] then None
    else if answered[|answered| - 1].call.name == "plan_work" then Some(answered[|answered| - 1].result)
    else PlanResult(answered[..|answered| - 1])
  }

  ghost predicate EndsTurn(e: Event) {
    e.Round? && PlanResult(e.answered).Some?
  }

  /** `e`, coming after `earlier`, is what the loop makes of this response. */
  ghost predicate Explains(response: Option<LLMResponse>, earlier: seq<Event>, e: Event, ask: Ask) {
    && response.Some?
    && if response.value.toolCalls != []
       then e.Round? && e.response == response.value && Calls(e.answered) == response.value.toolCalls
       else Retry(FlagsOf(earlier), response.value, ask) == Some(e)
  }

  /** A run of passes from the first list of messages: each sends the projection of that list and of
      what the passes before it added, and is explained by the response. */
  ghost predicate Steps(chat: Chat, prompts: seq<seq<Message>>, before: seq<seq<Message>>, messages: seq<Message>,
                        events: seq<Event>, ask: Ask)
    decreases |events|
  {
    if events == [] then prompts == before
    else
      var front, last := events[..|events| - 1], events[|events| - 1];
      && |prompts| > 0 && Steps(chat, prompts[..|prompts| - 1], before, messages, front, ask)
      && MayContinue(front)
      && IsSent(prompts[|prompts| - 1], messages, front)
      && Explains(chat(prompts), front, last, ask)
  }

  ghost predicate MayContinue(events: seq<Event>) {
    events == [] || !EndsTurn(events[|events| - 1])
  }

  ghost predicate IsSent(prompt: seq<Message>, messages: seq<Message>, events: seq<Event>) {
    IsProjection(messages + Grown(events), prompt) && PairedUnlessEmptyId(prompt)
  }

  /** The tools as they are after these passes from `b`. */
  ghost predicate IsServed(run: Run, b: Bench, events: seq<Event>, to: Bench) {
    AreAnswers(run, b, AnsweredIn(events)) && to == AfterCalls(run, b, AnsweredIn(events))
  }

  lemma ServedOn(run: Run, b: Bench, events: seq<Event>, from: Bench, e: Event, to: Bench)
    requires IsServed(run, b, events, from) && IsTaken(run, from, e, to)
    ensures IsServed(run, b, events + [e], to)
  {
    EventsStep(events, e);
    if e.Round? {
      CallsJoin(run, b, AnsweredIn(events), e.answered);
    } else {
      assert AnsweredIn(events) + [] == AnsweredIn(events);
    }
  }

  /** A turn: a run of passes, and perhaps one more prompt that did not lead to a pass. */
  ghost predicate IsTurn(chat: Chat, prompts: seq<seq<Message>>, before: seq<seq<Message>>, messages: seq<Message>,
                         events: seq<Event>, ask: Ask) {
    || Steps(chat, prompts, before, messages, events, ask)
    || IsAsking(chat, prompts, before, messages, events, ask)
  }

  ghost predicate IsAsking(chat: Chat, prompts: seq<seq<Message>>, before: seq<seq<Message>>, messages: seq<Message>,
                           events: seq<Event>, ask: Ask) {
    && prompts != [] && Steps(chat, prompts[..|prompts| - 1], before, messages, events, ask)
    && MayContinue(events) && IsSent(prompts[|prompts| - 1], messages, events)
  }

  /** Why a prompt leads to no pass: the model throws, or a tool does, or the turn is cancelled between the calls. */
  ghost predicate IsBreak(response: Option<LLMResponse>, cancels: bool, threw: bool) {
    response.None? || (response.value.toolCalls != [] && (cancels || threw))
  }

  /** What a turn breaks off with: it is cancelled, or its last prompt leads to no pass. */
  ghost predicate IsFailure(chat: Chat, prompts: seq<seq<Message>>, before: seq<seq<Message>>, messages: seq<Message>,
                            events: seq<Event>, ask: Ask, cancels: bool, threw: bool) {
    || (Steps(chat, prompts, before, messages, events, ask) && MayContinue(events) && cancels)
    || (IsAsking(chat, prompts, before, messages, events, ask) && IsBreak(chat(prompts), cancels, threw))
  }

  /** What a pass makes of the bench. */
  ghost predicate IsTaken(run: Run, from: Bench, e: Event, to: Bench) {
    if e.Round? then AreAnswers(run, from, e.answered) && to == AfterCalls(run, from, e.answered) else to == from
  }

  /** What the turn ends with: an accepted reply, the result of `plan_work`, or nothing. */
  ghost predicate IsEnd(chat: Chat, prompts: seq<seq<Message>>, before: seq<seq<Message>>, messages: seq<Message>,
                        events: seq<Event>, ask: Ask,
                        maxIterations: int, content: string) {
    || (IsAsking(chat, prompts, before, messages, events, ask) && Accepts(chat(prompts), events, ask)
       && content == chat(prompts).value.content)
    || (Steps(chat, prompts, before, messages, events, ask)
        && if MayContinue(events) then content == "" && |events| == (if maxIterations < 0 then 0 else maxIterations)
           else content == PlanResult(events[|events| - 1].answered).value)
  }

  ghost predicate Accepts(response: Option<LLMResponse>, events: seq<Event>, ask: Ask) {
    response.Some? && response.value.toolCalls == [] && Retry(FlagsOf(events), response.value, ask).None?
  }

  lemma {:induction false} StepsLength(chat: Chat, prompts: seq<seq<Message>>, before: seq<seq<Message>>,
                                       messages: seq<Message>,
                                       events: seq<Event>, ask: Ask)
    requires Steps(chat, prompts, before, messages, events, ask)
    ensures |prompts| == |before| + |events| && before <= prompts
    ensures forall i :: |before| <= i < |prompts| ==> PairedUnlessEmptyId(prompts[i])
    decreases |events|
  {
    if events != [] {
      StepsLength(chat, prompts[..|prompts| - 1], before, messages, events[..|events| - 1], ask);
      OneMorePrompt(prompts[..|prompts| - 1], prompts, before);
    }
  }

  lemma OneMorePrompt(front: seq<seq<Message>>, prompts: seq<seq<Message>>, before: seq<seq<Message>>)
    requires prompts != [] && front == prompts[..|prompts| - 1] && before <= front
             && PairedUnlessEmptyId(prompts[|prompts| - 1])
    requires forall i :: |before| <= i < |front| ==> PairedUnlessEmptyId(front[i])
    ensures before <= prompts && forall i :: |before| <= i < |prompts| ==> PairedUnlessEmptyId(prompts[i])
  {
    assert forall i :: 0 <= i < |front| ==> front[i] == prompts[i];
  }

  /** In a whole turn every prompt is well formed; there is at most one more prompt than passes. */
  lemma TurnPromptsArePaired(chat: Chat, prompts: seq<seq<Message>>, before: seq<seq<Message>>, messages: seq<Message>,
                             events: seq<Event>, ask: Ask)
    requires IsTurn(chat, prompts, before, messages, events, ask)
    ensures before <= prompts && |before| + |events| <= |prompts| <= |before| + |events| + 1
    ensures forall i :: |before| <= i < |prompts| ==> PairedUnlessEmptyId(prompts[i])
  {
    if Steps(chat, prompts, before, messages, events, ask) {
      StepsLength(chat, prompts, before, messages, events, ask);
    } else {
      StepsLength(chat, prompts[..|prompts| - 1], before, messages, events, ask);
      OneMorePrompt(prompts[..|prompts| - 1], prompts, before);
    }
  }

  lemma LastStep(chat: Chat, prompts: seq<seq<Message>>, before: seq<seq<Message>>, messages: seq<Message>,
                 events: seq<Event>, ask: Ask)
    requires Steps(chat, prompts, before, messages, events, ask) && events != []
    ensures |prompts| > 0 && IsSent(prompts[|prompts| - 1], messages, events[..|events| - 1])
    ensures Steps(chat, prompts[..|prompts| - 1], before, messages, events[..|events| - 1], ask)
    ensures Explains(chat(prompts), events[..|events| - 1], events[|events| - 1], ask)
  {
  }

  /** How many kinds of reminders were given. */
  ghost function RemindersGiven(flags: Flags): nat {
    (if flags.guardrailRetryUsed then 1 else 0) + (if flags.postToolReminderUsed then 1 else 0)
  }

  lemma ReminderIsNew(response: Option<LLMResponse>, events: seq<Event>, ask: Ask)
    requires events != [] && Explains(response, events[..|events| - 1], events[|events| - 1], ask)
    requires Reminders(events[..|events| - 1]) == RemindersGiven(FlagsOf(events[..|events| - 1]))
    ensures Reminders(events) == RemindersGiven(FlagsOf(events))
  {
  }

  /** Each kind of reminder is given at most once. */
  lemma {:induction false} RemindersAreFew(chat: Chat, prompts: seq<seq<Message>>, before: seq<seq<Message>>,
                                           messages: seq<Message>, events: seq<Event>, ask: Ask)
    requires Steps(chat, prompts, before, messages, events, ask)
    ensures Reminders(events) == RemindersGiven(FlagsOf(events))
    decreases |events|
  {
    if events != [] {
      LastStep(chat, prompts, before, messages, events, ask);
      RemindersAreFew(chat, prompts[..|prompts| - 1], before, messages, events[..|events| - 1], ask);
      ReminderIsNew(chat(prompts), events, ask);
    }
  }

  /** `prompt` is the projection of the list as it is after these passes of a turn. */
  ghost predicate IsPromptAfter(prompt: seq<Message>, messages: seq<Message>, events: seq<Event>) {
    IsProjection(messages + Grown(events), prompt) && Reminders(events) <= 2
  }

  lemma LastIsPrompt(chat: Chat, prompts: seq<seq<Message>>, before: seq<seq<Message>>, messages: seq<Message>,
                     events: seq<Event>, ask: Ask, prompt: seq<Message>)
    requires Steps(chat, prompts, before, messages, events, ask) && IsSent(prompt, messages, events)
    ensures IsPromptAfter(prompt, messages, events)
  {
    RemindersAreFew(chat, prompts, before, messages, events, ask);
  }

  lemma {:induction false} StepsCount(chat: Chat, prompts: seq<seq<Message>>, before: seq<seq<Message>>,
                                      messages: seq<Message>, events: seq<Event>, ask: Ask)
    requires Steps(chat, prompts, before, messages, events, ask)
    ensures |prompts| == |before| + |events|
    decreases |events|
  {
    if events != [] {
      LastStep(chat, prompts, before, messages, events, ask);
      StepsCount(chat, prompts[..|prompts| - 1], before, messages, events[..|events| - 1], ask);
    }
  }

  lemma {:induction false} SentInSteps(chat: Chat, prompts: seq<seq<Message>>, before: seq<seq<Message>>,
                                       messages: seq<Message>, events: seq<Event>, ask: Ask, i: nat,
                                       prompt: seq<Message>, passed: seq<Event>)
    requires Steps(chat, prompts, before, messages, events, ask) && |before| <= i < |prompts|
    requires prompt == prompts[i] && |passed| == i - |before| && passed <= events
    ensures IsPromptAfter(prompt, messages, passed)
    decreases |events|
  {
    hide IsPromptAfter, IsSent, Explains, MayContinue;
    StepsCount(chat, prompts, before, messages, events, ask);
    var front, earlier := events[..|events| - 1], prompts[..|prompts| - 1];
    LastStep(chat, prompts, before, messages, events, ask);
    if i < |earlier| {
      SentInSteps(chat, earlier, before, messages, front, ask, i, prompt, passed);
    } else {
      assert passed == front;
      LastIsPrompt(chat, earlier, before, messages, passed, ask, prompt);
    }
  }

  /** The prompt behind so many passes of a turn is the projection of its first list and what they added. */
  lemma SentInTurn(chat: Chat, prompts: seq<seq<Message>>, before: seq<seq<Message>>, messages: seq<Message>,
                   events: seq<Event>, ask: Ask, i: nat, prompt: seq<Message>, passed: seq<Event>)
    requires IsTurn(chat, prompts, before, messages, events, ask) && |before| <= i < |prompts|
    requires prompt == prompts[i] && |passed| == i - |before| && passed <= events
    ensures IsPromptAfter(prompt, messages, passed)
  {
    hide IsPromptAfter, IsSent, MayContinue;
    if Steps(chat, prompts, before, messages, events, ask) {
      SentInSteps(chat, prompts, before, messages, events, ask, i, prompt, passed);
    } else {
      var earlier := prompts[..|prompts| - 1];
      StepsCount(chat, earlier, before, messages, events, ask);
      if i < |earlier| {
        SentInSteps(chat, earlier, before, messages, events, ask, i, prompt, passed);
      } else {
        assert passed == events;
        LastIsPrompt(chat, earlier, before, messages, passed, ask, prompt);
      }
    }
  }

  lemma AskedOnce(chat: Chat, prompts: seq<seq<Message>>, before: seq<seq<Message>>, messages: seq<Message>,
                  events: seq<Event>, ask: Ask, prompt: seq<Message>)
    requires Steps(chat, prompts, before, messages, events, ask) && MayContinue(events)
             && IsSent(prompt, messages, events)
    ensures IsAsking(chat, prompts + [prompt], before, messages, events, ask)
  {
    assert (prompts + [prompt])[..|prompts + [prompt]| - 1] == prompts;
  }

  lemma StepTaken(chat: Chat, prompts: seq<seq<Message>>, before: seq<seq<Message>>, messages: seq<Message>,
                  events: seq<Event>, ask: Ask, e: Event)
    requires IsAsking(chat, prompts, before, messages, events, ask) && Explains(chat(prompts), events, e, ask)
    ensures Steps(chat, prompts, before, messages, events + [e], ask)
  {
    assert (events + [e])[..|events + [e]| - 1] == events;
  }

  lemma TraceStep(events: seq<Event>, e: Event, now: string)
    ensures Grown(events + [e]) == Grown(events) + Grows(e)
    ensures Logged(events + [e], now) == Logged(events, now) + Logs(e, now)
  {
    assert (events + [e])[..|events + [e]| - 1] == events;
  }

  lemma FlagsStep(events: seq<Event>, e: Event)
    ensures FlagsOf(events + [e]) == FlagsAfter(FlagsOf(events), e)
  {
    assert (events + [e])[..|events + [e]| - 1] == events;
  }

  lemma GrownStep(messages0: seq<Message>, events: seq<Event>, e: Event)
    ensures messages0 + Grown(events) + Grows(e) == messages0 + Grown(events + [e])
  {
    TraceStep(events, e, "");
    Associate(messages0, Grown(events), Grows(e));
  }

  lemma Associate<T>(a: seq<T>, b: seq<T>, c: seq<T>)
    ensures a + b + c == a + (b + c)
  {
  }

  // ---------------------------------------------------------------------------------------------
  // The loop
  // ---------------------------------------------------------------------------------------------

  class AgentLoop {
    const sessions: SessionManager
    const provider: Provider
    const tools: ToolRegistry
    const memory: MemoryStore
    const config: Config
    /** No id that the model gives holds a NUL. */
    ghost const lasting: bool

    /** A loop over an existing store; starting the program again is the same. */
    constructor (tables: Tables, dump: Json -> string, provider: Provider, tools: ToolRegistry, memory: MemoryStore,
                 config: Config, ghost lasting: bool)
      requires GoodTables(tables, dump, {}, lasting) && (lasting ==> IdsLast(provider.chat))
      requires forall p :: p in provider.prompts ==> PairedUnlessEmptyId(p)
      requires EditsAreGuarded(tools.run, tools.runs)
      ensures Sound() && fresh(sessions) && sessions.tables == tables && sessions.cache == map[]
      ensures this.provider == provider && this.tools == tools && this.memory == memory && this.config == config
      ensures this.lasting == lasting
    {
      this.sessions := new SessionManager(tables, dump);
      this.provider, this.tools, this.memory, this.config := provider, tools, memory, config;
      this.lasting := lasting;
    }

    ghost predicate Sound()
      reads this, sessions, provider, tools
    {
      StoreIsSound() && PromptsAreSound() && ReadsAreSound(tools.run, tools.runs, sessions.cache)
    }

    ghost predicate StoreIsSound()
      reads this, sessions
    {
      GoodStore(sessions.tables, sessions.cache, sessions.dump, lasting)
    }

    ghost predicate PromptsAreSound()
      reads this, provider
    {
      (lasting ==> IdsLast(provider.chat)) && forall p :: p in provider.prompts ==> PairedUnlessEmptyId(p)
    }

    /** No cached session has the rows of this key under another key; or ids that last do no harm. */
    ghost predicate IsKey(key: string)
      reads this, sessions
    {
      lasting || NoAlias(sessions.cache.Keys, key)
    }

    /** What the calls of this session find. */
    ghost function At(session: Session): Bench
      reads session, tools
    {
      Bench(tools.runs, session.readFilePaths)
    }

    /** Only the messages, the read files and the time of the session may have changed. */
    twostate predicate IsGrown(session: Session)
      reads session
    {
      session.createdAt == old(session.createdAt) && session.metadata == old(session.metadata)
    }

    /** Since then a tool threw. */
    twostate predicate ToolThrew()
      reads tools
    {
      tools.runs != old(tools.runs) && tools.run(tools.runs).None?
    }

    method ExecuteToolWithGuardrails(session: Session, call: ToolCall) returns (result: Option<string>)
      modifies session, tools
      ensures session.State() == old(session.State()).(readFilePaths := session.readFilePaths)
      ensures call.name == "edit_file" && ("path" !in call.arguments || call.arguments["path"] == "") ==>
                tools.runs == old(tools.runs) && result == Some("Error: edit_file requires a path parameter")
      ensures call.name == "edit_file" && "path" in call.arguments && call.arguments["path"] != ""
              && call.arguments["path"] !in old(session.readFilePaths) ==>
                && tools.runs == old(tools.runs)
                && result == Some("Error: file must be read using read_file before editing with edit_file. Path: "
                                  + call.arguments["path"])
      ensures (call.name != "edit_file" || ("path" in call.arguments && call.arguments["path"] != ""
                                            && call.arguments["path"] in old(session.readFilePaths))) ==>
                tools.runs == old(tools.runs) + [call] && result == tools.run(tools.runs)
      ensures forall p :: p in session.readFilePaths <==>
                || p in old(session.readFilePaths)
                || (call.name == "read_file" && "path" in call.arguments && call.arguments["path"] == p
                    && result.Some? && result.value != "" && !("Error:" <= result.value))
      ensures result == AnswerTo(tools.run, old(At(session)), call)
      ensures At(session) == AfterCall(tools.run, old(At(session)), call)
    {
      if call.name == "edit_file" {
        if "path" !in call.arguments || call.arguments["path"] == "" {
          return Some("Error: edit_file requires a path parameter");
        }
        if !session.HasReadFile(call.arguments["path"]) {
          return Some("Error: file must be read using read_file before editing with edit_file. Path: "
              + call.arguments["path"]);
        }
      }
      result := tools.Execute(call);
      if call.name == "read_file" && result.Some? {
        if "path" in call.arguments && result.value != "" {
          if !("Error:" <= result.value) {
            session.RecordFileRead(call.arguments["path"]);
          }
        }
      }
    }

    /** The inner loop over the calls of one response. */
    method ExecuteCalls(session: Session, calls: seq<ToolCall>, messages0: seq<Message>, now: string,
                        cancelled: nat -> bool)
      returns (failed: bool, messages: seq<Message>, planResult: Option<string>, messageSent: bool,
          ghost answered: seq<Answered>)
      modifies session, tools
      ensures messages == messages0 + ResultsOf(answered)
      ensures session.messages == old(session.messages) + ResultEntries(answered, now)
      ensures !failed ==>
                Calls(answered) == calls && planResult == PlanResult(answered) && messageSent == SendsMessage(calls)
      ensures AreAnswers(tools.run, old(At(session)), answered) && old(tools.runs) <= tools.runs && IsGrown(session)
      ensures if failed then (exists k :: cancelled(k)) || ToolThrew()
              else At(session) == AfterCalls(tools.run, old(At(session)), answered)
      ensures IsCareful(tools.run, old(At(session))) ==> IsCareful(tools.run, At(session))
    {
      hide AreAnswers, AfterCalls, AfterCall, AnswerTo, IsCareful, SendsMessage, PlanResult, ResultsOf, ResultEntries;
      messages, planResult, messageSent, answered, failed := messages0, None, false, [], true;
      NothingAnswered(tools.run, At(session));
      for i := 0 to |calls|
        invariant messages == messages0 + ResultsOf(answered)
        invariant session.messages == old(session.messages) + ResultEntries(answered, now)
        invariant |answered| == i && forall k :: 0 <= k < i ==> answered[k].call == calls[k]
        invariant planResult == PlanResult(answered)
        invariant messageSent == SendsMessage(calls[..i])
        invariant AreAnswers(tools.run, old(At(session)), answered) && old(tools.runs) <= tools.runs && IsGrown(session)
        invariant At(session) == AfterCalls(tools.run, old(At(session)), answered)
        invariant IsCareful(tools.run, old(At(session))) ==> IsCareful(tools.run, At(session))
      {
        if cancelled(i) {
          return;
        }
        var call := calls[i];
        SendsStep(calls, i);
        if call.name == "send_message" {
          messageSent := true;
        }
        AnsweredNext(tools.run, old(At(session)), answered, At(session), call);
        var result := ExecuteToolWithGuardrails(session, call);
        if result.None? {
          return;
        }
        if call.name == "plan_work" {
          planResult := Some(result.value);
        }
        messages := AddToolResult(messages, call, result.value);
        session.AddToolMessage(call.id, call.name, result.value, now);
        AnsweredStep(answered, Answered(call, result.value), now);
        answered := answered + [Answered(call, result.value)];
      }
      assert calls[..|calls|] == calls;
      failed := false;
    }

    /** A response with calls, and all its calls. */
    method RunRound(session: Session, response: LLMResponse, messages0: seq<Message>, now: string,
                    cancelled: nat -> bool)
      returns (failed: bool, messages: seq<Message>, planResult: Option<string>, messageSent: bool, ghost e: Event)
      modifies session, tools
      ensures e.Round? && e.response == response
      ensures messages == messages0 + Grows(e) && session.messages == old(session.messages) + Logs(e, now)
      ensures !failed ==> Calls(e.answered) == response.toolCalls && planResult == PlanResult(e.answered)
      ensures !failed ==> messageSent == SendsMessage(response.toolCalls)
      ensures AreAnswers(tools.run, old(At(session)), e.answered) && old(tools.runs) <= tools.runs && IsGrown(session)
      ensures if failed then (exists k :: cancelled(k)) || ToolThrew()
              else At(session) == AfterCalls(tools.run, old(At(session)), e.answered)
      ensures IsCareful(tools.run, old(At(session))) ==> IsCareful(tools.run, At(session))
    {
      messages := AddAssistantMessage(messages0, response.content, response.toolCalls, response.usage);
      session.AddMessage(Assistant, response.content, response.toolCalls, response.usage, now);
      ghost var answered;
      failed, messages, planResult, messageSent, answered :=
          ExecuteCalls(session, response.toolCalls, messages, now, cancelled);
      e := Round(response, answered);
      Associate(messages0, [AssistantMessage(response)], ResultsOf(answered));
      Associate(old(session.messages), [AssistantEntry(response, now)], ResultEntries(answered, now));
    }

    /** One pass of the loop. */
    method Pass(session: Session, messages0: seq<Message>, ask: Ask, now: string, cancelled: nat -> bool,
                flags0: Flags, ghost events: seq<Event>)
      returns (verdict: Verdict, messages: seq<Message>, flags: Flags, ghost prompt: seq<Message>, ghost e: Event)
      requires flags0 == FlagsOf(events)
      modifies session, provider, tools
      ensures provider.prompts == old(provider.prompts) + [prompt]
              || (verdict.Throws? && provider.prompts == old(provider.prompts))
      ensures provider.prompts != old(provider.prompts) ==> IsProjection(messages0, prompt)
      ensures verdict.Continues? || verdict.Planned? ==>
                && Explains(provider.chat(provider.prompts), events, e, ask) && flags == FlagsOf(events + [e])
                && messages == messages0 + Grows(e) && session.messages == old(session.messages) + Logs(e, now)
                && (if EndsTurn(e) then verdict == Planned(PlanResult(e.answered).value) else verdict == Continues)
      ensures verdict.Replied? ==>
                && var response := provider.chat(provider.prompts);
                && response.Some? && response.value.toolCalls == [] && Retry(FlagsOf(events), response.value, ask).None?
                && verdict.content == response.value.content
                && messages == messages0 && session.messages == old(session.messages) && flags == flags0
      ensures verdict.Throws? ==>
                if provider.prompts == old(provider.prompts) then exists k :: cancelled(k)
                else IsBreak(provider.chat(provider.prompts), exists k :: cancelled(k), ToolThrew())
      ensures verdict.Continues? || verdict.Planned? ==> IsTaken(tools.run, old(At(session)), e, At(session))
      ensures verdict.Replied? ==> At(session) == old(At(session))
      ensures old(tools.runs) <= tools.runs && IsGrown(session)
      ensures IsCareful(tools.run, old(At(session))) ==> IsCareful(tools.run, At(session))
    {
      messages, flags, verdict, prompt, e := messages0, flags0, Throws, [], Guardrail("");
      if cancelled(0) {
        return;
      }
      var projected := ProjectMessages(messages);
      prompt := projected;
      var reply := provider.Chat(projected);
      if reply.None? {
        return;
      }
      var response := reply.value;
      if response.toolCalls != [] {
        var broke, planResult, sent;
        broke, messages, planResult, sent, e :=
            RunRound(session, response, messages, now, (k: nat) => cancelled(k + 1));
        if broke {
          return;
        }
        flags := flags.(toolCalled := true, messageSent := flags.messageSent || sent);
        FlagsStep(events, e);
        verdict := if planResult.Some? then Planned(planResult.value) else Continues;
      } else if ask.requiresGuardrail && !flags.toolCalled && !flags.guardrailRetryUsed {
        e := Guardrail(ask.guardrail);
        flags := flags.(guardrailRetryUsed := true);
        FlagsStep(events, e);
        messages := messages + [Text(User, ask.guardrail)];
        verdict := Continues;
      } else if flags.toolCalled && MemoryBlock.Trim(response.content) == "" && !flags.postToolReminderUsed {
        e := PostToolReminder(ask.postToolReminder);
        flags := flags.(postToolReminderUsed := true);
        FlagsStep(events, e);
        messages := messages + [Text(User, ask.postToolReminder)];
        verdict := Continues;
      } else {
        verdict := Replied(response.content);
      }
    }

    /** A pass, and what it does to the trace of the turn. */
    method TracedPass(session: Session, messages: seq<Message>, ask: Ask, cancelled: nat -> bool, flags: Flags,
                      now: string, ghost t: Trace)
      returns (verdict: Verdict, messages': seq<Message>, flags': Flags, ghost t': Trace,
          ghost news: seq<SessionMessage>)
      requires (lasting ==> IdsLast(provider.chat)) && Running(provider.chat, provider.prompts, messages, t, ask, flags)
      requires t.now == now && t.lasting == lasting && IsServed(tools.run, t.bench, t.events, At(session))
      modifies session, provider, tools
      ensures t'.before == t.before && t'.messages0 == t.messages0 && t'.now == now && t'.lasting == lasting
      ensures t'.bench == t.bench
      ensures After(provider.chat, provider.prompts, messages', t', ask, flags', config.maxIterations, verdict,
              exists k :: cancelled(k), ToolThrew())
      ensures IsServed(tools.run, t.bench, t'.events, if verdict.Throws? then old(At(session)) else At(session))
      ensures old(tools.runs) <= tools.runs && IsGrown(session)
      ensures IsCareful(tools.run, old(At(session))) ==> IsCareful(tools.run, At(session))
      ensures verdict.Continues? ==> |t'.events| == |t.events| + 1
      ensures t'.added == t.added + news && (!verdict.Throws? ==> session.messages == old(session.messages) + news)
    {
      hide Running, After, Explains, IsProjection, Grows, Logs, FlagsOf, IsServed, IsTaken, IsBreak, IsCareful;
      ghost var asked := provider.prompts;
      ghost var prompt, e;
      RunningFlags(provider.chat, asked, messages, t, ask, flags);
      verdict, messages', flags', prompt, e := Pass(session, messages, ask, now, cancelled, flags, t.events);
      t', news := t, [];
      if verdict.Continues? || verdict.Planned? {
        Advances(provider.chat, asked, messages, t, ask, flags, flags', prompt, e, config.maxIterations, verdict,
                 exists k :: cancelled(k), ToolThrew());
        ServedOn(tools.run, t.bench, t.events, old(At(session)), e, At(session));
        t', news := t.Plus(e), Logs(e, now);
      } else {
        Stays(provider.chat, asked, provider.prompts, messages, messages', t, ask, flags, flags', prompt,
              config.maxIterations, verdict, exists k :: cancelled(k), ToolThrew());
      }
    }

    /** The turn loop, which the three entry points share but for the cancel token. */
    method TurnLoop(session: Session, messages0: seq<Message>, ask: Ask, now: string, cancelled: (nat, nat) -> bool,
                    ghost head: nat)
      returns (failed: bool, finalContent: string, messageSent: bool, ghost t: Trace)
      requires Headed(messages0, head) && (lasting ==> IdsLast(provider.chat))
      modifies session, provider, tools
      ensures t.before == old(provider.prompts) && t.messages0 == messages0 && t.now == now && t.lasting == lasting
      ensures failed ==> IsFailure(provider.chat, provider.prompts, t.before, messages0, t.events, ask,
              exists i, k :: cancelled(i, k), ToolThrew())
      ensures t.bench == old(At(session)) && IsServedUpTo(tools.run, t.bench, t.events, failed, At(session))
      ensures old(tools.runs) <= tools.runs && IsGrown(session)
      ensures IsCareful(tools.run, old(At(session))) ==> IsCareful(tools.run, At(session))
      ensures !failed ==> session.messages == old(session.messages) + t.added
      ensures !failed ==>
              Finished(provider.chat, provider.prompts, t, ask, config.maxIterations, finalContent, messageSent)
    {
      hide Running, Finished, IsServed, IsServedUpTo, IsFailure, IsCareful;
      ghost var log := session.messages;
      t := Trace(provider.prompts, messages0, [], [], head, now, lasting, At(session));
      var messages, iteration, flags := messages0, 0, Flags(false, false, false, false);
      finalContent, messageSent, failed := "", false, true;
      RunningStarts(provider.chat, t, ask, flags);
      ServedSoFar(tools.run, t.bench);
      while iteration < config.maxIterations
        invariant 0 <= iteration <= if config.maxIterations < 0 then 0 else config.maxIterations
        invariant t.before == old(provider.prompts) && t.messages0 == messages0 && t.now == now && t.lasting == lasting
        invariant |t.events| == iteration && session.messages == log + t.added
        invariant Running(provider.chat, provider.prompts, messages, t, ask, flags)
        invariant t.bench == old(At(session)) && IsServed(tools.run, t.bench, t.events, At(session))
        invariant old(tools.runs) <= tools.runs && IsGrown(session)
        invariant IsCareful(tools.run, old(At(session))) ==> IsCareful(tools.run, At(session))
        decreases config.maxIterations - iteration
      {
        var verdict, look := Throws, (k: nat) => cancelled(iteration, k);
        ghost var added, news, from := t.added, [], At(session);
        label Before:
        verdict, messages, flags, t, news :=
            TracedPass(session, messages, ask, look, flags, now, t);
        Looked(cancelled, iteration, look);
        Associate(log, added, news);
        iteration := iteration + 1;
        ServedUpTo(tools.run, t.bench, t.events, if verdict.Throws? then from else At(session), verdict.Throws?,
                   At(session));
        match verdict
        case Throws =>
          FailureSpreads(provider.chat, provider.prompts, t.before, messages0, t.events, ask,
                         exists k :: look(k), ToolThrew@Before(), exists i, k :: cancelled(i, k), ToolThrew());
          return;
        case Continues =>
        case Replied(content) =>
          return false, content, flags.messageSent, t;
        case Planned(result) =>
          return false, result, flags.messageSent, t;
      }
      RunsOut(provider.chat, provider.prompts, messages, t, ask, flags, config.maxIterations);
      ServedUpTo(tools.run, t.bench, t.events, At(session), false, At(session));
      return false, "", flags.messageSent, t;
    }

    /** The first list of a turn.  Context messages go right behind the system prompt, the later one first. */
    method StartTurn(session: Session, maxMessages: nat, systemPrompt: string, request: Request, now: string)
      returns (messages: seq<Message>, ghost history: seq<Message>, ghost head: nat)
      requires GoodLog(session.messages, lasting)
      modifies session
      ensures IsHistory(View(old(session.messages)), maxMessages, history)
      ensures messages == FirstList(history, systemPrompt, request, config, PendingIn(old(session.metadata)))
      ensures Headed(messages, head)
      ensures session.messages == old(session.messages) + [Entry(User, request.logged, now)]
      ensures session.metadata == WithoutPending(old(session.metadata)) && session.createdAt == old(session.createdAt)
      ensures session.readFilePaths == old(session.readFilePaths)
    {
      var window := session.GetHistory(maxMessages);
      history := window;
      messages := BuildMessages(window, systemPrompt, request.content, request.images);
      session.AddMessage(User, request.logged, [], map[], now);
      messages := InsertContexts(messages, request, history, systemPrompt);
      var pending := session.TakePendingNotifications();
      messages := messages + Notices(Wrapped(config.notice, pending));
      ghost var strays := HistorySplits(old(session.messages), maxMessages, history);
      head := StartIsHeaded(history, strays, systemPrompt, request, config, pending, messages);
    }

    method InsertContexts(messages0: seq<Message>, request: Request, ghost history: seq<Message>,
                          ghost systemPrompt: string)
      returns (messages: seq<Message>)
      requires messages0 == [Text(System, systemPrompt)] + history + [UserMessage(request.content, request.images)]
      ensures messages == [Text(System, systemPrompt)] + ContextNotices(request, config) + history
              + [UserMessage(request.content, request.images)]
    {
      messages := messages0;
      ghost var system, rest := Text(System, systemPrompt), history + [UserMessage(request.content, request.images)];
      Associate([system], history, [UserMessage(request.content, request.images)]);
      ghost var inserted := [];
      if request.workingDirectory != "" {
        inserted := Notices([config.workingDirectoryContext(request.workingDirectory)]);
        messages := InsertNotice(messages, config.workingDirectoryContext(request.workingDirectory), system, [], rest);
      }
      if request.upstreamMergeRequest != "" {
        messages := InsertNotice(messages, config.mergeRequestContext(request.upstreamMergeRequest), system, inserted,
            rest);
        inserted := Notices([config.mergeRequestContext(request.upstreamMergeRequest)]) + inserted;
      }
      Associate([system] + inserted, history, [UserMessage(request.content, request.images)]);
    }

    ghost function State(): World
      reads this, sessions, provider, tools, memory
    {
      World(sessions.tables, sessions.cache, provider.prompts, tools.runs, memory.entries)
    }

    /** One whole turn on `before`: what it started from, what was sent and how it ended. */
    ghost predicate Turned(before: SessionState, w0: World, w: World, request: Request, maxMessages: nat,
                           systemPrompt: string, now: string, cancels: bool, outcome: Outcome, r: Record) {
      && IsHistory(View(before.messages), maxMessages, r.history)
      && r.first == FirstList(r.history, systemPrompt, request, config, PendingIn(before.metadata))
      && IsRun(provider.chat, w.prompts, w0.prompts, r.first, request, config, r.events, outcome.Failed?, r.content,
               cancels, w.runs != w0.runs && tools.run(w.runs).None?)
      && IsServedUpTo(tools.run, Bench(w0.runs, before.readFilePaths), r.events, outcome.Failed?,
         Bench(w.runs, r.paths))
      && Ended(before, w0.tables, w0.cache, w.tables, w.cache, request, r, outcome, now)
      && IsNoted(outcome, request, r.content, config, memory.fails, w0.entries, w.entries)
    }

    /** What `RequestIsShownIff` says of the turns of the three entry points. */
    lemma TurnShowsRequestIff(before: SessionState, w0: World, w: World, request: Request, maxMessages: nat,
                              systemPrompt: string, now: string, cancels: bool, outcome: Outcome, r: Record, i: nat)
      requires Turned(before, w0, w, request, maxMessages, systemPrompt, now, cancels, outcome, r)
      requires |w0.prompts| <= i < |w.prompts|
      ensures i - |w0.prompts| <= |r.events|
      ensures UserMessage(request.content, request.images) in w.prompts[i] <==>
                InputShown(r.history, r.events[..i - |w0.prompts|])
    {
      hide IsHistory, FirstList, Ended, IsNoted, IsTurn, IsEnd, IsFailure, IsServedUpTo, InputShown;
      RequestIsShownIff(provider.chat, w.prompts, w0.prompts, before.messages, maxMessages, r.history, systemPrompt,
                        request, config, PendingIn(before.metadata), r.events, i);
    }

    /** The end of a turn: the stripped reply is logged and the session is saved. */
    method FinishTurn(session: Session, content: string, request: Request, now: string, ghost before: SessionState,
                      ghost events: seq<Event>)
      returns (reply: string)
      requires Sound() && session.key == request.key
      requires GoodLog(before.messages, lasting) && GoodLog(Logged(events, now), lasting)
      requires session.messages == before.messages + [Entry(User, request.logged, now)] + Logged(events, now)
      requires session.createdAt == before.createdAt && session.metadata == WithoutPending(before.metadata)
      requires WereRead(tools.run, tools.runs, session.readFilePaths)
      modifies session, sessions
      ensures Sound()
      ensures reply == MemoryBlock.StripOf(if content == "" then request.fallback else content)
      ensures IsSaved(before, old(sessions.tables), old(sessions.cache), sessions.tables, sessions.cache, request,
              events, reply, now, old(session.readFilePaths))
    {
      reply := MemoryBlock.StripMemoryBlock(if content == "" then request.fallback else content);
      session.AddMessage(Assistant, reply, [], map[], now);
      sessions.Save(session);
      SavedLogIsGood(before.messages, request.logged, events, reply, now, lasting);
      SaveKeepsStore(old(sessions.tables), old(sessions.cache), session.State(), sessions.dump, lasting);
    }

    /** Writes what a memory block leaves to write. */
    method AppendMemoryEntry(key: string, block: string) returns (failed: bool)
      modifies memory
      ensures block == "" || config.memoryEntry(key, block) == "" ==> memory.entries == old(memory.entries) && !failed
      ensures block != "" && config.memoryEntry(key, block) != "" ==>
                && memory.entries == old(memory.entries) + [config.memoryEntry(key, block)]
                && failed == memory.fails(memory.entries)
    {
      if block == "" {
        return false;
      }
      var entry := config.memoryEntry(key, block);
      if entry == "" {
        return false;
      }
      failed := memory.AppendToday(entry);
    }

    /** The reply is saved, and then its memory block is written. */
    method EndTurn(session: Session, content: string, sent: bool, request: Request, now: string,
                   ghost before: SessionState, ghost r: Record)
      returns (outcome: Outcome)
      requires Sound() && session.key == request.key
      requires GoodLog(before.messages, lasting) && GoodLog(Logged(r.events, now), lasting)
      requires session.messages == before.messages + [Entry(User, request.logged, now)] + Logged(r.events, now)
      requires session.createdAt == before.createdAt && session.metadata == WithoutPending(before.metadata)
      requires WereRead(tools.run, tools.runs, session.readFilePaths)
      requires r.content == content && r.paths == session.readFilePaths && sent == FlagsOf(r.events).messageSent
      modifies session, sessions, memory
      ensures Sound() && !outcome.Failed?
      ensures Ended(before, old(sessions.tables), old(sessions.cache), sessions.tables, sessions.cache, request, r,
              outcome, now)
      ensures IsNoted(outcome, request, content, config, memory.fails, old(memory.entries), memory.entries)
    {
      var memoryBlock := MemoryBlock.ExtractMemoryBlock(if content == "" then request.fallback else content);
      var reply := FinishTurn(session, content, request, now, before, r.events);
      var lost := AppendMemoryEntry(request.key, memoryBlock);
      outcome := if lost then Unremembered(reply, sent) else Done(reply, sent);
    }

    /** The loop of a turn, and what it means for the prompts. */
    method Talk(session: Session, request: Request, messages: seq<Message>, now: string,
                cancelled: (nat, nat) -> bool, ghost head: nat)
      returns (failed: bool, content: string, sent: bool, ghost events: seq<Event>)
      requires PromptsAreSound() && Headed(messages, head)
      modifies session, provider, tools
      ensures IsRun(provider.chat, provider.prompts, old(provider.prompts), messages, request, config, events, failed,
              content, exists i, k :: cancelled(i, k), ToolThrew())
      ensures IsServedUpTo(tools.run, old(At(session)), events, failed, At(session))
      ensures old(tools.runs) <= tools.runs && IsGrown(session)
      ensures IsCareful(tools.run, old(At(session))) ==> IsCareful(tools.run, At(session))
      ensures !failed ==> session.messages == old(session.messages) + Logged(events, now)
      ensures !failed ==> GoodLog(Logged(events, now), lasting) && sent == FlagsOf(events).messageSent
      ensures PromptsAreSound()
    {
      ghost var t;
      failed, content, sent, t := TurnLoop(session, messages, AskOf(request, config), now, cancelled, head);
      events := t.events;
      TurnIsRun(provider.chat, provider.prompts, t, request, config, failed, content, sent,
                exists i, k :: cancelled(i, k), ToolThrew());
    }

    /** A copy of the session a turn is about. */
    method Open(key: string, now: string) returns (session: Session)
      requires Sound() && IsKey(key)
      modifies sessions
      ensures Sound() && fresh(session) && session.key == key && GoodLog(session.messages, lasting)
      ensures WereRead(tools.run, tools.runs, session.readFilePaths)
      ensures session.State() == old(SessionBefore(key, now))
      ensures sessions.tables == old(sessions.tables) && sessions.cache == old(sessions.cache)[key := session.State()]
    {
      hide GoodStore, GoodLog, ReadsAreSound, WereRead, EditsAreGuarded, IdsLast, PairedUnlessEmptyId, Lookup;
      OpenKeepsStore(sessions.tables, sessions.cache, key, now, sessions.dump, lasting);
      LookupMeans(sessions.tables, key, now, sessions.dump);
      OpenKeepsReads(tools.run, tools.runs, sessions.tables, sessions.cache, key, now, sessions.dump);
      var copy := sessions.GetOrCreate(key, now);
      session := copy;
    }

    function SessionBefore(key: string, now: string): SessionState
      reads this, sessions
    {
      SessionIn(sessions.tables, sessions.cache, key, now, sessions.dump)
    }

    /** A turn on a copy of its session: it is saved if it ends. */
    method TurnOn(session: Session, request: Request, maxMessages: nat, systemPrompt: string, now: string,
                  cancelled: (nat, nat) -> bool)
      returns (outcome: Outcome, ghost r: Record)
      requires Sound() && session.key == request.key && GoodLog(session.messages, lasting)
      requires WereRead(tools.run, tools.runs, session.readFilePaths)
      modifies session, sessions, provider, tools, memory
      ensures Sound()
      ensures Turned(old(session.State()), old(State()), State(), request, maxMessages, systemPrompt, now,
              exists i, k :: cancelled(i, k), outcome, r)
    {
      hide IsHistory, FirstList, IsRun, IsServedUpTo, Headed, GoodLog, WereRead, EditsAreGuarded, Logged, IdsLast,
           GoodStore, PairedUnlessEmptyId, WithoutPending, FlagsOf;
      ghost var before := session.State();
      ghost var history, head, events;
      var messages, failed, content, sent;
      messages, history, head := StartTurn(session, maxMessages, systemPrompt, request, now);
      failed, content, sent, events := Talk(session, request, messages, now, cancelled, head);
      r := Record(history, messages, events, content, session.readFilePaths);
      outcome := Failed;
      ReadsStay(tools.run, old(tools.runs), tools.runs, sessions.cache);
      if !failed {
        outcome := EndTurn(session, content, sent, request, now, before, r);
      }
    }

    /** A whole turn. */
    method RunTurn(request: Request, maxMessages: nat, systemPrompt: string, now: string, cancelled: (nat, nat) -> bool)
      returns (outcome: Outcome, ghost r: Record)
      requires Sound() && IsKey(request.key)
      modifies sessions, provider, tools, memory
      ensures Sound()
      ensures var before := old(SessionBefore(request.key, now));
              Turned(before, Opened(old(State()), request.key, before), State(), request, maxMessages,
                     systemPrompt, now, exists i, k :: cancelled(i, k), outcome, r)
    {
      hide IsHistory, FirstList, IsRun, IsServedUpTo, IsNoted, Ended, GoodStore, GoodLog, WereRead, EditsAreGuarded,
           PairedUnlessEmptyId, IdsLast, Lookup;
      var session := Open(request.key, now);
      outcome, r := TurnOn(session, request, maxMessages, systemPrompt, now, cancelled);
    }

    method Reset(key: string)
      requires Sound()
      modifies sessions
      ensures Sound()
      ensures sessions.tables == Erase(old(sessions.tables), key) && sessions.cache == old(sessions.cache) - {key}
    {
      sessions.Delete(key);
      DeleteKeepsStore(old(sessions.tables), old(sessions.cache), key, sessions.dump, lasting);
    }

    /** A chat message; `/new` in front of it starts a new session. */
    method ProcessMessage(key: string, text: string, images: seq<string>, systemPrompt: string, now: string)
      returns (outcome: Outcome, ghost r: Record)
      requires Sound() && IsKey(key)
      modifies sessions, provider, tools, memory
      ensures Sound()
      ensures "/new" <= text && ContentOf(text) == "" ==>
                outcome == Done(config.newSessionReply, false) && State() == Emptied(old(State()), key)
      ensures !("/new" <= text) || ContentOf(text) != "" ==>
                var before := if "/new" <= text then NewSession(key, now) else old(SessionBefore(key, now));
                var w0 := if "/new" <= text then Emptied(old(State()), key) else old(State());
                Turned(before, Opened(w0, key, before), State(),
                       Request(key, ContentOf(text), ContentOf(text), images, "", "",
                               "I've completed processing but have no response to give."),
                       config.maxHistoryMessages, systemPrompt, now, false, outcome, r)
    {
      var asked := ContentOf(text);
      if "/new" <= text {
        Reset(key);
        if asked == "" {
          outcome, r := Done(config.newSessionReply, false), Record([], [], [], "", {});
          return;
        }
        DeletedSessionIsGone(old(sessions.tables), key, now, sessions.dump);
        assert SessionBefore(key, now) == NewSession(key, now);
      }
      outcome, r := RunTurn(ChatRequest(key, asked, images), config.maxHistoryMessages, systemPrompt, now,
                            (i: nat, k: nat) => false);
    }

    method ProcessDirect(key: string, asked: string, workingDirectory: string, upstreamMergeRequest: string,
                         systemPrompt: string, now: string, cancelled: (nat, nat) -> bool)
      returns (outcome: Outcome, ghost r: Record)
      requires Sound() && IsKey(key)
      modifies sessions, provider, tools, memory
      ensures Sound()
      ensures var before := old(SessionBefore(key, now));
              Turned(before, Opened(old(State()), key, before), State(),
                     Request(key, asked, asked, [], workingDirectory, upstreamMergeRequest,
                             "Background task completed."),
                     config.maxHistoryMessages, systemPrompt, now, exists i, k :: cancelled(i, k), outcome, r)
    {
      var request := DirectRequest(key, asked, workingDirectory, upstreamMergeRequest);
      outcome, r := RunTurn(request, config.maxHistoryMessages, systemPrompt, now, cancelled);
    }

    method ProcessSystemMessage(key: string, asked: string, systemPrompt: string, now: string)
      returns (outcome: Outcome, ghost r: Record)
      requires Sound() && IsKey(key)
      modifies sessions, provider, tools, memory
      ensures Sound()
      ensures var before := old(SessionBefore(key, now));
              Turned(before, Opened(old(State()), key, before), State(),
                     Request(key, asked, "[System] " + asked, [], "", "", "Background task completed."), 50,
                     systemPrompt, now, false, outcome, r)
    {
      outcome, r := RunTurn(SystemRequest(key, asked), DEFAULT_HISTORY, systemPrompt, now, (i: nat, k: nat) => false);
    }

    /** One request, whatever it is. */
    method ServeOne(input: Input) returns (outcome: Outcome)
      requires Sound() && IsKey(input.key)
      modifies sessions, provider, tools, memory
      ensures Sound() && sessions.cache.Keys <= old(sessions.cache.Keys) + {input.key}
    {
      hide IsHistory, FirstList, IsRun, IsServedUpTo, IsNoted, GoodStore, WereRead, EditsAreGuarded, Insert, Erase,
          Lookup,
           PairedUnlessEmptyId, IdsLast;
      ghost var r;
      match input {
        case ChatMessage(key, text, images, systemPrompt, now) =>
          outcome, r := ProcessMessage(key, text, images, systemPrompt, now);
        case SystemMessage(key, text, systemPrompt, now) =>
          outcome, r := ProcessSystemMessage(key, text, systemPrompt, now);
        case Direct(key, text, workingDirectory, upstreamMergeRequest, systemPrompt, now, cancelled) =>
          outcome, r := ProcessDirect(key, text, workingDirectory, upstreamMergeRequest, systemPrompt, now, cancelled);
      }
    }

    /** Any run: whatever is asked, in whatever order, each prompt ever sent is well formed exactly if no
        call in it has an empty id. */
    method Serve(inputs: seq<Input>) returns (outcomes: seq<Outcome>)
      requires Sound() && (lasting || OneKeyEach(sessions.cache.Keys + KeysOf(inputs)))
      modifies sessions, provider, tools, memory
      ensures Sound() && |outcomes| == |inputs|
      ensures forall p :: p in provider.prompts ==> ((CallsAnswered(p) && ResultsOwned(p)) <==> "" !in CallIds(p))
      ensures EditsAreGuarded(tools.run, tools.runs)
    {
      outcomes := [];
      for i := 0 to |inputs|
        invariant Sound() && |outcomes| == i
        invariant sessions.cache.Keys <= old(sessions.cache.Keys) + KeysOf(inputs)
      {
        assert inputs[i].key in KeysOf(inputs);
        var outcome := ServeOne(inputs[i]);
        outcomes := outcomes + [outcome];
      }
      forall p | p in provider.prompts
        ensures (CallsAnswered(p) && ResultsOwned(p)) <==> "" !in CallIds(p)
      {
        PairedMeansAnswered(p);
      }
    }
  }

  function KeysOf(inputs: seq<Input>): set<string> {
    set i | 0 <= i < |inputs| :: inputs[i].key
  }

  /** No two of these keys differ only behind a NUL. */
  ghost predicate OneKeyEach(keys: set<string>) {
    forall key :: key in keys ==> NoAlias(keys, key)
  }

  datatype Input =
    | ChatMessage(key: string, text: string, images: seq<string>, systemPrompt: string, now: string)
    | SystemMessage(key: string, text: string, systemPrompt: string, now: string)
    | Direct(key: string, text: string, workingDirectory: string, upstreamMergeRequest: string, systemPrompt: string,
             now: string, cancelled: (nat, nat) -> bool)

  /** `insert` at index 1. */
  method InsertNotice(messages0: seq<Message>, text: string, ghost system: Message, ghost inserted: seq<Message>,
                      ghost rest: seq<Message>)
    returns (messages: seq<Message>)
    requires messages0 == [system] + inserted + rest
    ensures messages == [system] + (Notices([text]) + inserted) + rest
  {
    messages := messages0[..1] + Notices([text]) + messages0[1..];
    assert messages0[..1] == [system] && messages0[1..] == inserted + rest;
  }

  /** A request to the loop: what is asked, what the log keeps of it, what images it brings. */
  datatype Request = Request(key: string, content: string, logged: string, images: seq<string>,
                             workingDirectory: string, upstreamMergeRequest: string, fallback: string)

  const CHAT_FALLBACK := "I've completed processing but have no response to give."
  const BACKGROUND_FALLBACK := "Background task completed."

  function ChatRequest(key: string, content: string, images: seq<string>): Request {
    Request(key, content, content, images, "", "", CHAT_FALLBACK)
  }

  function DirectRequest(key: string, content: string, workingDirectory: string,
                         upstreamMergeRequest: string): Request {
    Request(key, content, content, [], workingDirectory, upstreamMergeRequest, BACKGROUND_FALLBACK)
  }

  function SystemRequest(key: string, content: string): Request {
    Request(key, content, "[System] " + content, [], "", "", BACKGROUND_FALLBACK)
  }

  /** The windows of history: `ProcessSystemMessage` takes the default one. */
  const DEFAULT_HISTORY: nat := 50

  function AskOf(request: Request, config: Config): Ask {
    Ask(config.requiresToolGuardrail(request.content), config.guardrail(request.content), config.postToolReminder)
  }

  function SkipBlanks(s: string): (rest: string)
    ensures |rest| <= |s| && rest == s[|s| - |rest|..]
    ensures forall k :: 0 <= k < |s| - |rest| ==> s[k] == ' ' || s[k] == '\t' || s[k] == '\r' || s[k] == '\n'
    ensures rest != "" ==> rest[0] != ' ' && rest[0] != '\t' && rest[0] != '\r' && rest[0] != '\n'
  {
    if s != [] && s[0] in {' ', '\t', '\r', '\n'} then SkipBlanks(s[1..]) else s
  }

  /** The message itself, or what stands behind the `/new` and the blanks in front of it. */
  function ContentOf(text: string): (asked: string)
    ensures !("/new" <= text) ==> asked == text
    ensures "/new" <= text ==>
              && |asked| <= |text| - 4 && asked == text[|text| - |asked|..]
              && (forall k :: 4 <= k < |text| - |asked| ==>
                    text[k] == ' ' || text[k] == '\t' || text[k] == '\r' || text[k] == '\n')
              && (asked != "" ==> asked[0] != ' ' && asked[0] != '\t' && asked[0] != '\r' && asked[0] != '\n')
  {
    if "/new" <= text then SkipBlanks(text[4..]) else text
  }

  function NewSession(key: string, now: string): SessionState {
    SessionState(key, [], now, now, Obj(map[]), {})
  }

  /** What was sent in a turn, and how it ended. */
  ghost predicate IsRun(chat: Chat, prompts: seq<seq<Message>>, before: seq<seq<Message>>, messages: seq<Message>,
                        request: Request, config: Config, events: seq<Event>, failed: bool, content: string,
                        cancels: bool, threw: bool) {
    && IsTurn(chat, prompts, before, messages, events, AskOf(request, config))
    && if failed then IsFailure(chat, prompts, before, messages, events, AskOf(request, config), cancels, threw)
       else IsEnd(chat, prompts, before, messages, events, AskOf(request, config), config.maxIterations, content)
  }

  /** How the loop ends a turn is how the turn ends. */
  lemma TurnIsRun(chat: Chat, prompts: seq<seq<Message>>, t: Trace, request: Request, config: Config,
                  failed: bool, content: string, sent: bool, cancels: bool, threw: bool)
    requires failed ==>
               IsFailure(chat, prompts, t.before, t.messages0, t.events, AskOf(request, config), cancels, threw)
    requires !failed ==> Finished(chat, prompts, t, AskOf(request, config), config.maxIterations, content, sent)
    requires forall p :: p in t.before ==> PairedUnlessEmptyId(p)
    ensures IsRun(chat, prompts, t.before, t.messages0, request, config, t.events, failed, content, cancels, threw)
    ensures !failed ==>
              t.added == Logged(t.events, t.now) && GoodLog(t.added, t.lasting) && sent == FlagsOf(t.events).messageSent
    ensures forall p :: p in prompts ==> PairedUnlessEmptyId(p)
  {
    TurnPromptsArePaired(chat, prompts, t.before, t.messages0, t.events, AskOf(request, config));
    AllPaired(t.before, prompts);
  }

  /** The tools at the end of a turn: as its passes left them, or further if it broke off in a round. */
  ghost predicate IsServedUpTo(run: Run, b: Bench, events: seq<Event>, failed: bool, to: Bench) {
    && AreAnswers(run, b, AnsweredIn(events)) && AfterCalls(run, b, AnsweredIn(events)).runs <= to.runs
    && (!failed ==> to == AfterCalls(run, b, AnsweredIn(events)))
  }

  /** The session as it is saved at the end of a turn. */
  ghost predicate IsSaved(before: SessionState, tables0: Tables, cache0: map<string, SessionState>, tables: Tables,
                          cache: map<string, SessionState>,
                          request: Request, events: seq<Event>, reply: string, now: string, paths: set<string>) {
    && request.key in cache
    && var s := cache[request.key];
    && s.key == request.key && tables == Insert(tables0, s) && cache == cache0[request.key := s]
    && s.messages == before.messages + [Entry(User, request.logged, now)] + Logged(events, now)
       + [Entry(Assistant, reply, now)]
    && s.createdAt == before.createdAt && s.updatedAt == now && s.metadata == WithoutPending(before.metadata)
    && s.readFilePaths == paths
  }

  /** What the turns change. */
  datatype World = World(tables: Tables, cache: map<string, SessionState>, prompts: seq<seq<Message>>,
                         runs: seq<ToolCall>, entries: seq<string>)

  /** What a turn went through: its window of history, its first list, its passes, what they ended with and what
      files count as read then. */
  datatype Record = Record(history: seq<Message>, first: seq<Message>, events: seq<Event>, content: string,
                           paths: set<string>)

  /** The session is in the cache. */
  function Opened(w: World, key: string, session: SessionState): World {
    w.(cache := w.cache[key := session])
  }

  /** The session is deleted. */
  function Emptied(w: World, key: string): World {
    w.(tables := Erase(w.tables, key), cache := w.cache - {key})
  }

  ghost predicate GoodCache(cache: map<string, SessionState>, lasting: bool) {
    forall k :: k in cache ==> cache[k].key == k && GoodLog(cache[k].messages, lasting)
  }

  /** Every file that a cached session may edit was read, and so was every file that was edited. */
  ghost predicate ReadsAreSound(run: Run, runs: seq<ToolCall>, cache: map<string, SessionState>) {
    EditsAreGuarded(run, runs) && forall k :: k in cache ==> WereRead(run, runs, cache[k].readFilePaths)
  }

  lemma ReadsStay(run: Run, runs: seq<ToolCall>, more: seq<ToolCall>, cache: map<string, SessionState>)
    requires ReadsAreSound(run, runs, cache) && runs <= more && EditsAreGuarded(run, more)
    ensures ReadsAreSound(run, more, cache)
  {
    hide EditsAreGuarded, WereRead;
    forall k | k in cache
      ensures WereRead(run, more, cache[k].readFilePaths)
    {
      ReadBefore(run, runs, more, cache[k].readFilePaths);
    }
  }

  ghost predicate GoodStore(t: Tables, cache: map<string, SessionState>, dump: Json -> string, lasting: bool) {
    GoodTables(t, dump, cache.Keys, lasting) && GoodCache(cache, lasting)
  }

  lemma CacheGrows(cache: map<string, SessionState>, s: SessionState, lasting: bool)
    requires GoodCache(cache, lasting) && GoodLog(s.messages, lasting)
    ensures GoodCache(cache[s.key := s], lasting) && cache[s.key := s].Keys == cache.Keys + {s.key}
  {
  }

  lemma CacheShrinks(cache: map<string, SessionState>, key: string, lasting: bool)
    requires GoodCache(cache, lasting)
    ensures GoodCache(cache - {key}, lasting) && (cache - {key}).Keys == cache.Keys - {key}
  {
  }

  lemma SaveKeepsStore(t: Tables, cache: map<string, SessionState>, s: SessionState, dump: Json -> string,
      lasting: bool)
    requires GoodStore(t, cache, dump, lasting) && GoodLog(s.messages, lasting)
    ensures GoodStore(Insert(t, s), cache[s.key := s], dump, lasting)
  {
    InsertKeepsGood(t, s, dump, cache.Keys, lasting);
    CacheGrows(cache, s, lasting);
  }

  lemma DeleteKeepsStore(t: Tables, cache: map<string, SessionState>, key: string, dump: Json -> string, lasting: bool)
    requires GoodStore(t, cache, dump, lasting)
    ensures GoodStore(Erase(t, key), cache - {key}, dump, lasting)
  {
    EraseKeepsGood(t, key, dump, cache.Keys, lasting);
    CacheShrinks(cache, key, lasting);
  }

  /** What a caller sees under a key: the cached session, or what is loaded, or a new session. */
  function SessionIn(t: Tables, cache: map<string, SessionState>, key: string, now: string,
                     dump: Json -> string): SessionState {
    if key in cache then cache[key] else Lookup(t, key, now, dump).GetOr(NewSession(key, now))
  }

  lemma LoadedIsGood(t: Tables, cache: map<string, SessionState>, key: string, now: string, dump: Json -> string,
                     lasting: bool)
    requires GoodTables(t, dump, cache.Keys, lasting) && GoodCache(cache, lasting)
    requires lasting || NoAlias(cache.Keys, key)
    ensures var s := SessionIn(t, cache, key, now, dump); s.key == key && GoodLog(s.messages, lasting)
  {
    EmptyIsGood(lasting);
    if key !in cache {
      assert LoadsGood(t, key, dump, lasting);
    }
  }

  lemma MoreCached(t: Tables, cached: set<string>, key: string, dump: Json -> string, lasting: bool)
    requires GoodTables(t, dump, cached, lasting)
    ensures GoodTables(t, dump, cached + {key}, lasting) && !LoadThrows(t, key, dump)
  {
    StoreStaysReadable(t, NewSession(key, ""), key, dump);
  }

  /** A session is opened without an exception, and its log is well formed. */
  lemma OpenKeepsStore(t: Tables, cache: map<string, SessionState>, key: string, now: string, dump: Json -> string,
                       lasting: bool)
    requires GoodStore(t, cache, dump, lasting) && (lasting || NoAlias(cache.Keys, key))
    ensures !LoadThrows(t, key, dump)
    ensures var s := SessionIn(t, cache, key, now, dump);
            s.key == key && GoodLog(s.messages, lasting) && GoodStore(t, cache[key := s], dump, lasting)
  {
    LoadedIsGood(t, cache, key, now, dump, lasting);
    MoreCached(t, cache.Keys, key, dump, lasting);
    CacheGrows(cache, SessionIn(t, cache, key, now, dump), lasting);
  }

  /** A session that is loaded may edit nothing, and a cached one what it may. */
  lemma OpenKeepsReads(run: Run, runs: seq<ToolCall>, t: Tables, cache: map<string, SessionState>, key: string,
                       now: string, dump: Json -> string)
    requires ReadsAreSound(run, runs, cache)
    ensures var s := SessionIn(t, cache, key, now, dump);
            WereRead(run, runs, s.readFilePaths) && ReadsAreSound(run, runs, cache[key := s])
  {
    hide EditsAreGuarded, IsRead;
    var s := SessionIn(t, cache, key, now, dump);
    if key !in cache {
      assert s.readFilePaths == {};
    }
  }

  /** How a turn leaves the store: as it found it, or with the session saved. */
  ghost predicate Ended(before: SessionState, tables0: Tables, cache0: map<string, SessionState>, tables: Tables,
                        cache: map<string, SessionState>, request: Request, r: Record, outcome: Outcome, now: string) {
    if outcome.Failed? then tables == tables0 && cache == cache0
    else
      && outcome.reply == MemoryBlock.StripOf(if r.content == "" then request.fallback else r.content)
      && outcome.sent == FlagsOf(r.events).messageSent
      && IsSaved(before, tables0, cache0, tables, cache, request, r.events, outcome.reply, now, r.paths)
  }

  /** The memory block of the reply is written once, behind the save, if it has something to write; only that can
      still fail. */
  ghost predicate IsNoted(outcome: Outcome, request: Request, content: string, config: Config,
                          fails: seq<string> -> bool, entries0: seq<string>, entries: seq<string>) {
    var block := MemoryBlock.ExtractMemoryBlock(if content == "" then request.fallback else content);
    if outcome.Failed? || block == "" || config.memoryEntry(request.key, block) == ""
    then entries == entries0 && !outcome.Unremembered?
    else entries == entries0 + [config.memoryEntry(request.key, block)] && (outcome.Unremembered? <==> fails(entries))
  }

  lemma SavedLogIsGood(before: seq<SessionMessage>, logged: string, events: seq<Event>, reply: string, now: string,
                       lasting: bool)
    requires GoodLog(before, lasting) && GoodLog(Logged(events, now), lasting)
    ensures GoodLog(before + [Entry(User, logged, now)] + Logged(events, now) + [Entry(Assistant, reply, now)], lasting)
  {
    GoodSingle(User, logged, now, lasting);
    GoodSingle(Assistant, reply, now, lasting);
    GoodLogJoin(before, [Entry(User, logged, now)], lasting);
    GoodLogJoin(before + [Entry(User, logged, now)], Logged(events, now), lasting);
    GoodLogJoin(before + [Entry(User, logged, now)] + Logged(events, now), [Entry(Assistant, reply, now)], lasting);
  }

  lemma AllPaired(before: seq<seq<Message>>, prompts: seq<seq<Message>>)
    requires before <= prompts && (forall p :: p in before ==> PairedUnlessEmptyId(p))
             && forall i :: |before| <= i < |prompts| ==> PairedUnlessEmptyId(prompts[i])
    ensures forall p :: p in prompts ==> PairedUnlessEmptyId(p)
  {
    forall i | 0 <= i < |prompts|
      ensures PairedUnlessEmptyId(prompts[i])
    {
      assert i < |before| ==> before[i] in before && before[i] == prompts[i];
    }
  }

  lemma EmptyIsGood(lasting: bool)
    ensures GoodLog([], lasting)
  {
    assert View([]) == [];
  }

  function Wrapped(notice: string -> string, texts: seq<string>): (r: seq<string>)
    ensures |r| == |texts|
  {
    seq(|texts|, i requires 0 <= i < |texts| => notice(texts[i]))
  }

  function ContextNotices(request: Request, config: Config): seq<Message> {
    (if request.upstreamMergeRequest != "" then Notices([config.mergeRequestContext(request.upstreamMergeRequest)])
        else [])
    + (if request.workingDirectory != "" then Notices([config.workingDirectoryContext(request.workingDirectory)])
        else [])
  }

  function FirstList(history: seq<Message>, systemPrompt: string, request: Request, config: Config,
                     pending: seq<string>): seq<Message> {
    [Text(System, systemPrompt)] + ContextNotices(request, config) + history
        + [UserMessage(request.content, request.images)]
    + Notices(Wrapped(config.notice, pending))
  }

  lemma ContextsAreNotices(request: Request, config: Config)
    ensures AreNotices(ContextNotices(request, config))
  {
  }

  lemma StartIsHeaded(history: seq<Message>, strays: nat, systemPrompt: string, request: Request, config: Config,
                        pending: seq<string>,
                        list: seq<Message>) returns (head: nat)
    requires SplitsAt(history, strays) && list == FirstList(history, systemPrompt, request, config, pending)
    ensures Headed(list, head)
  {
    hide Headed, SplitsAt;
    var contexts, notices := ContextNotices(request, config), Notices(Wrapped(config.notice, pending));
    NoticesAreNotices(Wrapped(config.notice, pending));
    ContextsAreNotices(request, config);
    FirstListIsHeaded(history, strays, Text(System, systemPrompt), contexts,
        UserMessage(request.content, request.images), notices, list);
    head := 1 + |contexts| + strays;
  }

  lemma PassesBefore(chat: Chat, prompts: seq<seq<Message>>, before: seq<seq<Message>>, messages: seq<Message>,
                     events: seq<Event>, ask: Ask, i: nat)
    requires IsTurn(chat, prompts, before, messages, events, ask) && |before| <= i < |prompts|
    ensures i - |before| <= |events|
  {
    TurnPromptsArePaired(chat, prompts, before, messages, events, ask);
  }

  lemma ShownAfterIff(history: seq<Message>, systemPrompt: string, request: Request, config: Config,
                      pending: seq<string>, prompt: seq<Message>, passed: seq<Event>)
    requires forall m :: m in history ==> !m.isVirtual
    requires IsPromptAfter(prompt, FirstList(history, systemPrompt, request, config, pending), passed)
    ensures UserMessage(request.content, request.images) in prompt <==> InputShown(history, passed)
  {
    hide IsProjection, InputShown;
    NoticesAreNotices(Wrapped(config.notice, pending));
    InputInPromptIff(systemPrompt, ContextNotices(request, config), history, request.content, request.images,
                     Notices(Wrapped(config.notice, pending)), passed, prompt);
  }

  /** In every prompt of a turn: the model is shown the request exactly under the condition `InputShown`, on the
      window of history and the passes before that prompt. */
  lemma RequestIsShownIff(chat: Chat, prompts: seq<seq<Message>>, before: seq<seq<Message>>, log: seq<SessionMessage>,
                          maxMessages: nat, history: seq<Message>, systemPrompt: string, request: Request,
                          config: Config, pending: seq<string>, events: seq<Event>, i: nat)
    requires IsHistory(View(log), maxMessages, history)
    requires IsTurn(chat, prompts, before, FirstList(history, systemPrompt, request, config, pending), events,
                    AskOf(request, config))
    requires |before| <= i < |prompts|
    ensures i - |before| <= |events|
    ensures UserMessage(request.content, request.images) in prompts[i] <==> InputShown(history, events[..i - |before|])
  {
    var first := FirstList(history, systemPrompt, request, config, pending);
    PassesBefore(chat, prompts, before, first, events, AskOf(request, config), i);
    var passed := events[..i - |before|];
    SentInTurn(chat, prompts, before, first, events, AskOf(request, config), i, prompts[i], passed);
    HistoryIsVisible(log, maxMessages, history);
    ShownAfterIff(history, systemPrompt, request, config, pending, prompts[i], passed);
  }

  lemma HistoryIsVisible(log: seq<SessionMessage>, maxMessages: nat, history: seq<Message>)
    requires IsHistory(View(log), maxMessages, history)
    ensures forall m :: m in history ==> !m.isVirtual
  {
    var start := HistoryIsSuffix(View(log), maxMessages, history);
    ShapeOfView(log);
  }

  /** Without history the first prompt of a turn is the system prompt alone, contexts and notices included. */
  lemma FirstPromptOfTurn(chat: Chat, prompts: seq<seq<Message>>, before: seq<seq<Message>>, systemPrompt: string,
                          request: Request, config: Config, pending: seq<string>, events: seq<Event>)
    requires IsTurn(chat, prompts, before, FirstList([], systemPrompt, request, config, pending), events,
                    AskOf(request, config))
    requires |before| < |prompts|
    ensures prompts[|before|] == [Text(System, systemPrompt)]
  {
    hide IsProjection, IsTurn;
    var first := FirstList([], systemPrompt, request, config, pending);
    var system, user := Text(System, systemPrompt), UserMessage(request.content, request.images);
    SentInTurn(chat, prompts, before, first, events, AskOf(request, config), |before|, prompts[|before|], []);
    assert first + Grown([]) == first;
    NoticesAreNotices(Wrapped(config.notice, pending));
    WithoutNotices(system, ContextNotices(request, config), [], user, Notices(Wrapped(config.notice, pending)), [],
                   prompts[|before|]);
    assert first + [] == first;
    assert [system] + [] + [user] + [] == BuildMessages([], systemPrompt, request.content, request.images);
    ProjectionLaws.FirstPromptIsSystemPrompt(systemPrompt, request.content, request.images, prompts[|before|]);
  }

  lemma NoticesAreNotices(texts: seq<string>)
    ensures AreNotices(Notices(texts))
  {
  }

  /** A turn so far: what was sent before it, its first list, its passes and what they added to the log. */
  datatype Trace = Trace(before: seq<seq<Message>>, messages0: seq<Message>, events: seq<Event>,
                         added: seq<SessionMessage>, head: nat, now: string, lasting: bool, bench: Bench) {
    function Plus(e: Event): Trace {
      this.(events := events + [e], added := added + Logs(e, now))
    }
  }

  /** What holds at the head of the loop. */
  ghost predicate Running(chat: Chat, prompts: seq<seq<Message>>, messages: seq<Message>, t: Trace, ask: Ask,
                          flags: Flags) {
    && Steps(chat, prompts, t.before, t.messages0, t.events, ask) && MayContinue(t.events)
    && messages == t.messages0 + Grown(t.events) && Headed(messages, t.head)
    && IsLogged(t) && flags == FlagsOf(t.events)
  }

  ghost predicate IsLogged(t: Trace) {
    t.added == Logged(t.events, t.now) && GoodLog(t.added, t.lasting)
  }

  /** What holds when the loop is left. */
  ghost predicate Finished(chat: Chat, prompts: seq<seq<Message>>, t: Trace, ask: Ask, maxIterations: int,
                           content: string, messageSent: bool) {
    && IsTurn(chat, prompts, t.before, t.messages0, t.events, ask)
    && IsEnd(chat, prompts, t.before, t.messages0, t.events, ask, maxIterations, content)
    && IsLogged(t) && messageSent == FlagsOf(t.events).messageSent
  }

  lemma ServedSoFar(run: Run, b: Bench)
    ensures IsServed(run, b, [], b)
  {
  }

  lemma ServedUpTo(run: Run, b: Bench, events: seq<Event>, from: Bench, failed: bool, to: Bench)
    requires IsServed(run, b, events, from) && from.runs <= to.runs && (!failed ==> to == from)
    ensures IsServedUpTo(run, b, events, failed, to)
  {
  }

  lemma Looked(cancelled: (nat, nat) -> bool, i: nat, look: nat -> bool)
    requires forall k :: look(k) == cancelled(i, k)
    ensures (exists k :: look(k)) ==> exists i, k :: cancelled(i, k)
  {
    if k :| look(k) {
      assert cancelled(i, k);
    }
  }

  lemma FailureSpreads(chat: Chat, prompts: seq<seq<Message>>, before: seq<seq<Message>>, messages: seq<Message>,
                       events: seq<Event>, ask: Ask, cancels: bool, threw: bool, cancels': bool, threw': bool)
    requires IsFailure(chat, prompts, before, messages, events, ask, cancels, threw)
    requires (cancels ==> cancels') && (threw ==> threw')
    ensures IsFailure(chat, prompts, before, messages, events, ask, cancels', threw')
  {
  }

  lemma RunsOut(chat: Chat, prompts: seq<seq<Message>>, messages: seq<Message>, t: Trace, ask: Ask, flags: Flags,
                maxIterations: int)
    requires Running(chat, prompts, messages, t, ask, flags) && |t.events| == if maxIterations < 0 then 0
             else maxIterations
    ensures Finished(chat, prompts, t, ask, maxIterations, "", flags.messageSent)
  {
  }

  lemma RunningStarts(chat: Chat, t: Trace, ask: Ask, flags: Flags)
    requires Headed(t.messages0, t.head) && t.events == [] && t.added == []
             && flags == Flags(false, false, false, false)
    ensures Running(chat, t.before, t.messages0, t, ask, flags)
  {
    assert View(Logged([], t.now)) == [];
    assert t.messages0 + Grown([]) == t.messages0;
  }

  lemma Asked(chat: Chat, prompts: seq<seq<Message>>, messages: seq<Message>, t: Trace, ask: Ask, flags: Flags,
              prompt: seq<Message>)
    requires Running(chat, prompts, messages, t, ask, flags) && IsProjection(messages, prompt)
    ensures IsAsking(chat, prompts + [prompt], t.before, t.messages0, t.events, ask)
  {
    PromptPairedIff(messages, t.head, prompt);
    AskedOnce(chat, prompts, t.before, t.messages0, t.events, ask, prompt);
  }

  lemma Advanced(chat: Chat, prompts: seq<seq<Message>>, messages: seq<Message>, t: Trace, ask: Ask, e: Event)
    requires IsAsking(chat, prompts, t.before, t.messages0, t.events, ask) && Explains(chat(prompts), t.events, e, ask)
    requires messages == t.messages0 + Grown(t.events) && Headed(messages, t.head) && IsLogged(t)
    requires e.Round? && t.lasting ==> NulFreeIds(e.response.toolCalls)
    ensures Steps(chat, prompts, t.before, t.messages0, t.Plus(e).events, ask) && IsLogged(t.Plus(e))
    ensures messages + Grows(e) == t.messages0 + Grown(t.Plus(e).events) && Headed(messages + Grows(e), t.head)
  {
    StepTaken(chat, prompts, t.before, t.messages0, t.events, ask, e);
    GoodRound(t.events, e, t.now, t.lasting);
    TraceStep(t.events, e, t.now);
    HeadedGrows(messages, t.head, e);
    GrownStep(t.messages0, t.events, e);
  }

  /** What a pass leaves behind. */
  ghost predicate After(chat: Chat, prompts: seq<seq<Message>>, messages: seq<Message>, t: Trace, ask: Ask,
                        flags: Flags, maxIterations: int, verdict: Verdict, cancels: bool, threw: bool) {
    match verdict
    case Throws => IsFailure(chat, prompts, t.before, t.messages0, t.events, ask, cancels, threw)
    case Continues => Running(chat, prompts, messages, t, ask, flags)
    case Planned(result) => Finished(chat, prompts, t, ask, maxIterations, result, flags.messageSent)
    case Replied(content) => Finished(chat, prompts, t, ask, maxIterations, content, flags.messageSent)
  }

  lemma RunningFlags(chat: Chat, prompts: seq<seq<Message>>, messages: seq<Message>, t: Trace, ask: Ask, flags: Flags)
    requires Running(chat, prompts, messages, t, ask, flags)
    ensures flags == FlagsOf(t.events)
  {
  }

  lemma Stays(chat: Chat, asked: seq<seq<Message>>, prompts: seq<seq<Message>>, messages: seq<Message>,
              messages': seq<Message>, t: Trace, ask: Ask, flags: Flags, flags': Flags, prompt: seq<Message>,
              maxIterations: int, verdict: Verdict, cancels: bool, threw: bool)
    requires Running(chat, asked, messages, t, ask, flags)
    requires prompts == asked || (prompts == asked + [prompt] && IsProjection(messages, prompt))
    requires verdict.Throws? || (verdict.Replied? && prompts != asked && Accepts(chat(prompts), t.events, ask)
                                 && verdict.content == chat(prompts).value.content && flags' == flags)
    requires verdict.Throws? ==> if prompts == asked then cancels else IsBreak(chat(prompts), cancels, threw)
    ensures After(chat, prompts, messages', t, ask, flags', maxIterations, verdict, cancels, threw)
  {
    if prompts != asked {
      Asked(chat, asked, messages, t, ask, flags, prompt);
    }
  }

  lemma RoundIdsLast(chat: Chat, prompts: seq<seq<Message>>, events: seq<Event>, e: Event, ask: Ask, lasting: bool)
    requires Explains(chat(prompts), events, e, ask) && (lasting ==> IdsLast(chat))
    ensures e.Round? && lasting ==> NulFreeIds(e.response.toolCalls)
  {
  }

  lemma Advances(chat: Chat, prompts: seq<seq<Message>>, messages: seq<Message>, t: Trace, ask: Ask, flags: Flags,
                 flags': Flags,
                 prompt: seq<Message>, e: Event, maxIterations: int, verdict: Verdict, cancels: bool, threw: bool)
    requires Running(chat, prompts, messages, t, ask, flags) && IsProjection(messages, prompt)
    requires Explains(chat(prompts + [prompt]), t.events, e, ask) && flags' == FlagsOf(t.events + [e])
    requires t.lasting ==> IdsLast(chat)
    requires verdict == if EndsTurn(e) then Planned(PlanResult(e.answered).value) else Continues
    ensures After(chat, prompts + [prompt], messages + Grows(e), t.Plus(e), ask, flags', maxIterations, verdict,
                  cancels, threw)
  {
    hide Steps, IsAsking, IsProjection, IsLogged, Headed, FlagsOf, Grown, Grows, Explains, IdsLast;
    RoundIdsLast(chat, prompts + [prompt], t.events, e, ask, t.lasting);
    Asked(chat, prompts, messages, t, ask, flags, prompt);
    Advanced(chat, prompts + [prompt], messages, t, ask, e);
  }

  lemma GoodRound(events: seq<Event>, e: Event, now: string, lasting: bool)
    requires GoodLog(Logged(events, now), lasting)
    requires e.Round? ==> Calls(e.answered) == e.response.toolCalls && (lasting ==> NulFreeIds(e.response.toolCalls))
    ensures GoodLog(Logged(events + [e], now), lasting)
  {
    TraceStep(events, e, now);
    if e.Round? {
      RoundIsGood(e, now, lasting);
      GoodLogJoin(Logged(events, now), Logs(e, now), lasting);
    } else {
      assert Logged(events, now) + [] == Logged(events, now);
    }
  }

  lemma SendsStep(calls: seq<ToolCall>, i: nat)
    requires i < |calls|
    ensures SendsMessage(calls[..i + 1]) <==> SendsMessage(calls[..i]) || calls[i].name == "send_message"
  {
    assert forall k :: 0 <= k < i ==> calls[..i + 1][k] == calls[..i][k];
    assert calls[..i + 1][i] == calls[i];
  }

  lemma NothingAnswered(run: Run, b: Bench)
    ensures AreAnswers(run, b, []) && AfterCalls(run, b, []) == b && !SendsMessage([]) && PlanResult([]).None?
    ensures ResultsOf([]) == [] && forall now :: ResultEntries([], now) == []
  {
  }

  /** The next call, if it is answered. */
  lemma AnsweredNext(run: Run, b: Bench, answered: seq<Answered>, from: Bench, call: ToolCall)
    requires AreAnswers(run, b, answered) && from == AfterCalls(run, b, answered)
    ensures AnswerTo(run, from, call).Some? ==>
              && AreAnswers(run, b, answered + [Answered(call, AnswerTo(run, from, call).value)])
              && AfterCalls(run, b, answered + [Answered(call, AnswerTo(run, from, call).value)]) ==
                 AfterCall(run, from, call)
    ensures from.runs <= AfterCall(run, from, call).runs
    ensures AnswerTo(run, from, call).None? ==>
              var to := AfterCall(run, from, call); to.runs == from.runs + [call] && run(to.runs).None?
    ensures IsCareful(run, from) ==> IsCareful(run, AfterCall(run, from, call))
  {
    hide IsCareful, IsSuccess;
    if AnswerTo(run, from, call).Some? {
      CallsStep(run, b, answered, Answered(call, AnswerTo(run, from, call).value));
    }
    if IsCareful(run, from) {
      CallIsCareful(run, from, call);
    }
  }

  lemma AnsweredStep(answered: seq<Answered>, a: Answered, now: string)
    ensures ResultsOf(answered + [a]) == ResultsOf(answered) + [Result(a.call.id, a.call.name, a.result)]
    ensures ResultEntries(answered + [a], now) == ResultEntries(answered, now) + [ResultEntry(a, now)]
    ensures PlanResult(answered + [a]) == if a.call.name == "plan_work" then Some(a.result) else PlanResult(answered)
  {
    assert (answered + [a])[..|answered + [a]| - 1] == answered;
  }
}
