/** What a turn does, told from the responses alone (src/agent/agent_loop.cpp): when a reply is sent back with a
    reminder and when it is taken, how a turn ends, what the tools were asked, and what the model is shown. */
module TurnLaws {
  import opened Messages
  import opened Options
  import opened ContextBuilder
  import opened Pairing
  import opened Session
  import opened SessionStore
  import opened Json
  import opened TurnLog
  import opened ToolGuard
  import opened AgentLoop
  import MemoryBlock
  import ProjectionLaws

  // ---------------------------------------------------------------------------------------------
  // The passes
  // ---------------------------------------------------------------------------------------------

  /** The request is to be answered with tool calls, the response has none, and none of the first `i` passes was a
      round or a guardrail. */
  ghost predicate NeedsGuardrail(response: LLMResponse, events: seq<Event>, i: nat, ask: Ask)
    requires i <= |events|
  {
    && response.toolCalls == [] && ask.requiresGuardrail
    && forall k :: 0 <= k < i ==> !events[k].Round? && !events[k].Guardrail?
  }

  /** The response is blank, without calls, and of the first `i` passes one was a round and none a reminder of it. */
  ghost predicate NeedsReminder(response: LLMResponse, events: seq<Event>, i: nat)
    requires i <= |events|
  {
    && response.toolCalls == []
       && (forall k :: 0 <= k < |response.content| ==> MemoryBlock.IsBlank(response.content[k]))
    && (exists k :: 0 <= k < i && events[k].Round?) && forall k :: 0 <= k < i ==> !events[k].PostToolReminder?
  }

  lemma RetryMeans(events: seq<Event>, response: LLMResponse, ask: Ask)
    requires response.toolCalls == []
    ensures NeedsGuardrail(response, events, |events|, ask) ==>
              Retry(FlagsOf(events), response, ask) == Some(Guardrail(ask.guardrail))
    ensures NeedsReminder(response, events, |events|) ==>
              Retry(FlagsOf(events), response, ask) == Some(PostToolReminder(ask.postToolReminder))
    ensures !NeedsGuardrail(response, events, |events|, ask) && !NeedsReminder(response, events, |events|) ==>
              Retry(FlagsOf(events), response, ask).None?
  {
    FlagsMean(events);
    MemoryBlock.TrimIsEmptyIff(response.content);
  }

  /** What a pass makes of a response. */
  ghost predicate IsPassOn(response: LLMResponse, events: seq<Event>, i: nat, ask: Ask)
    requires i < |events|
  {
    && (events[i].Round? <==> response.toolCalls != [])
    && (events[i].Guardrail? <==> NeedsGuardrail(response, events, i, ask))
    && (events[i].PostToolReminder? <==> NeedsReminder(response, events, i))
    && match events[i]
       case Round(r, answered) =>
         && r == response && |answered| == |response.toolCalls|
         && forall k :: 0 <= k < |answered| ==> answered[k].call == response.toolCalls[k]
       case Guardrail(text) => text == ask.guardrail
       case PostToolReminder(text) => text == ask.postToolReminder
  }

  /** ... to its prompt, in a turn before which so many prompts were sent. */
  ghost predicate IsPassBehind(chat: Chat, prompts: seq<seq<Message>>, sent: nat, events: seq<Event>, i: nat, ask: Ask)
    requires i < |events|
  {
    sent + i < |prompts| && chat(prompts[..sent + i + 1]).Some?
    && IsPassOn(chat(prompts[..sent + i + 1]).value, events, i, ask)
  }

  lemma ExplainedIsPass(response: Option<LLMResponse>, front: seq<Event>, e: Event, ask: Ask, events: seq<Event>)
    requires front < events && events[|front|] == e && Explains(response, front, e, ask)
    ensures response.Some? && IsPassOn(response.value, events, |front|, ask)
  {
    assert forall k :: 0 <= k < |front| ==> front[k] == events[k];
    if response.value.toolCalls == [] {
      RetryMeans(front, response.value, ask);
    } else {
      assert forall k :: 0 <= k < |e.answered| ==> Calls(e.answered)[k] == e.answered[k].call;
    }
  }

  lemma {:induction false} PassIsExplained(chat: Chat, prompts: seq<seq<Message>>, before: seq<seq<Message>>,
                                           messages: seq<Message>, events: seq<Event>, ask: Ask, i: nat)
    requires Steps(chat, prompts, before, messages, events, ask) && i < |events|
    ensures |prompts| == |before| + |events|
    ensures Explains(chat(prompts[..|before| + i + 1]), events[..i], events[i], ask) && MayContinue(events[..i])
    decreases |events|
  {
    hide Explains, IsSent;
    StepsCount(chat, prompts, before, messages, events, ask);
    LastStep(chat, prompts, before, messages, events, ask);
    var front, earlier := events[..|events| - 1], prompts[..|prompts| - 1];
    if i < |front| {
      PassIsExplained(chat, earlier, before, messages, front, ask, i);
      assert earlier[..|before| + i + 1] == prompts[..|before| + i + 1] && front[..i] == events[..i];
    } else {
      assert prompts[..|before| + i + 1] == prompts;
    }
  }

  /** Each pass of a turn is what the response to its prompt calls for, and nothing else: a round of tool calls exactly
      if there are calls; otherwise the guardrail or the reminder, exactly under their conditions. */
  lemma PassMeans(chat: Chat, prompts: seq<seq<Message>>, before: seq<seq<Message>>, messages: seq<Message>,
                  events: seq<Event>, ask: Ask, i: nat)
    requires IsTurn(chat, prompts, before, messages, events, ask) && i < |events|
    ensures IsPassBehind(chat, prompts, |before|, events, i, ask)
  {
    hide Explains, IsPassOn, Steps, IsSent;
    var steps := if Steps(chat, prompts, before, messages, events, ask) then prompts else prompts[..|prompts| - 1];
    PassIsExplained(chat, steps, before, messages, events, ask, i);
    assert steps[..|before| + i + 1] == prompts[..|before| + i + 1];
    ExplainedIsPass(chat(prompts[..|before| + i + 1]), events[..i], events[i], ask, events);
  }

  // ---------------------------------------------------------------------------------------------
  // The end of a turn
  // ---------------------------------------------------------------------------------------------

  /** The pass asked for a plan, and this is the last one it got. */
  ghost predicate IsPlanOf(e: Event, result: string) {
    e.Round? && exists k: nat :: IsLastPlan(e.answered, k) && e.answered[k].result == result
  }

  ghost predicate IsLastPlan(answered: seq<Answered>, k: nat) {
    && k < |answered| && answered[k].call.name == "plan_work"
    && forall j :: k < j < |answered| ==> answered[j].call.name != "plan_work"
  }

  ghost predicate HasNoPlan(e: Event) {
    e.Round? ==> forall k :: 0 <= k < |e.answered| ==> e.answered[k].call.name != "plan_work"
  }

  lemma {:induction false} PlanIs(answered: seq<Answered>) returns (k: nat)
    ensures PlanResult(answered).None? ==> forall j :: 0 <= j < |answered| ==> answered[j].call.name != "plan_work"
    ensures PlanResult(answered).Some? ==>
              IsLastPlan(answered, k) && PlanResult(answered) == Some(answered[k].result)
    decreases |answered|
  {
    k := 0;
    if answered != [] {
      if answered[|answered| - 1].call.name == "plan_work" {
        k := |answered| - 1;
      } else {
        k := PlanIs(answered[..|answered| - 1]);
        assert forall j :: 0 <= j < |answered| - 1 ==> answered[j] == answered[..|answered| - 1][j];
      }
    }
  }

  lemma PlanEnds(e: Event)
    ensures EndsTurn(e) <==> !HasNoPlan(e)
    ensures EndsTurn(e) ==> IsPlanOf(e, PlanResult(e.answered).value)
  {
    if e.Round? {
      var k := PlanIs(e.answered);
    }
  }

  /** Only the last of these passes may hold a plan. */
  ghost predicate PlansLast(events: seq<Event>) {
    forall i :: 0 <= i < |events| - 1 ==> HasNoPlan(events[i])
  }

  lemma StepsPlanLast(chat: Chat, prompts: seq<seq<Message>>, before: seq<seq<Message>>, messages: seq<Message>,
                      events: seq<Event>, ask: Ask)
    requires Steps(chat, prompts, before, messages, events, ask)
    ensures PlansLast(events)
    ensures MayContinue(events) <==> events == [] || HasNoPlan(events[|events| - 1])
  {
    hide Steps, HasNoPlan, EndsTurn;
    forall i | 0 <= i < |events| - 1
      ensures HasNoPlan(events[i])
    {
      PassIsExplained(chat, prompts, before, messages, events, ask, i + 1);
      assert events[..i + 1][i] == events[i];
      PlanEnds(events[i]);
    }
    if events != [] {
      PlanEnds(events[|events| - 1]);
    }
  }

  /** The reply is taken. */
  ghost predicate IsTakenAsReply(response: Option<LLMResponse>, events: seq<Event>, ask: Ask) {
    && response.Some? && response.value.toolCalls == []
    && !NeedsGuardrail(response.value, events, |events|, ask) && !NeedsReminder(response.value, events, |events|)
  }

  lemma AcceptedIff(response: Option<LLMResponse>, events: seq<Event>, ask: Ask)
    ensures Accepts(response, events, ask) <==> IsTakenAsReply(response, events, ask)
  {
    if response.Some? && response.value.toolCalls == [] {
      RetryMeans(events, response.value, ask);
    }
  }

  /** How a turn may end behind its passes: the model's reply is taken, the last pass holds a plan, or no pass is left.
      A turn that fails was cancelled, or the model or a tool threw; it never fails on a reply that could be taken. */
  ghost predicate IsEnding(response: Option<LLMResponse>, asked: bool, events: seq<Event>, ask: Ask,
                           maxIterations: int, failed: bool, content: string, cancels: bool, threw: bool) {
    && PlansLast(events)
    && if asked then
         && (events != [] ==> HasNoPlan(events[|events| - 1]))
         && (!failed <==> IsTakenAsReply(response, events, ask))
         && (!failed ==> content == response.value.content)
         && (failed ==> response.None? || (response.value.toolCalls != [] && (cancels || threw)))
       else if failed then (events != [] ==> HasNoPlan(events[|events| - 1])) && cancels
       else if events != [] && !HasNoPlan(events[|events| - 1]) then IsPlanOf(events[|events| - 1], content)
       else content == "" && |events| == if maxIterations < 0 then 0 else maxIterations
  }

  /** A turn ends in one of these ways: with a reply exactly if the response to its last prompt has no calls and needs
      no guardrail or reminder. */
  lemma EndMeans(chat: Chat, prompts: seq<seq<Message>>, before: seq<seq<Message>>, messages: seq<Message>,
                 request: Request, config: Config, events: seq<Event>, failed: bool, content: string, cancels: bool,
                 threw: bool)
    requires IsRun(chat, prompts, before, messages, request, config, events, failed, content, cancels, threw)
    ensures |prompts| == |before| + |events| || |prompts| == |before| + |events| + 1
    ensures IsEnding(chat(prompts), |prompts| == |before| + |events| + 1, events, AskOf(request, config),
                     config.maxIterations, failed, content, cancels, threw)
  {
    hide Steps, HasNoPlan, IsPlanOf, EndsTurn, PlansLast, IsSent, Accepts, NeedsGuardrail, NeedsReminder;
    var ask := AskOf(request, config);
    if Steps(chat, prompts, before, messages, events, ask) {
      StepsCount(chat, prompts, before, messages, events, ask);
      StepsPlanLast(chat, prompts, before, messages, events, ask);
    }
    if IsAsking(chat, prompts, before, messages, events, ask) {
      StepsCount(chat, prompts[..|prompts| - 1], before, messages, events, ask);
      StepsPlanLast(chat, prompts[..|prompts| - 1], before, messages, events, ask);
    }
    if events != [] {
      PlanEnds(events[|events| - 1]);
    }
    AcceptedIff(chat(prompts), events, ask);
  }

  /** The turns of the entry points. */
  lemma TurnMeans(loop: AgentLoop, before: SessionState, w0: World, w: World, request: Request,
                  maxMessages: nat, systemPrompt: string, now: string, cancels: bool, outcome: Outcome, r: Record)
    requires loop.Turned(before, w0, w, request, maxMessages, systemPrompt, now, cancels, outcome, r)
    ensures |w0.prompts| + |r.events| <= |w.prompts| <= |w0.prompts| + |r.events| + 1
    ensures var ask := Ask(loop.config.requiresToolGuardrail(request.content), loop.config.guardrail(request.content),
                           loop.config.postToolReminder);
            && (forall i :: 0 <= i < |r.events| ==>
                  IsPassBehind(loop.provider.chat, w.prompts, |w0.prompts|, r.events, i, ask))
            && IsEnding(loop.provider.chat(w.prompts), |w.prompts| == |w0.prompts| + |r.events| + 1, r.events, ask,
                        loop.config.maxIterations, outcome.Failed?, r.content, cancels,
                        w.runs != w0.runs && loop.tools.run(w.runs).None?)
  {
    hide IsTurn, IsEnd, IsFailure, IsPassBehind, IsEnding, IsHistory, FirstList, IsServedUpTo, Ended, IsNoted;
    EndMeans(loop.provider.chat, w.prompts, w0.prompts, r.first, request, loop.config, r.events, outcome.Failed?,
             r.content, cancels, w.runs != w0.runs && loop.tools.run(w.runs).None?);
    forall i | 0 <= i < |r.events|
      ensures IsPassBehind(loop.provider.chat, w.prompts, |w0.prompts|, r.events, i, AskOf(request, loop.config))
    {
      PassMeans(loop.provider.chat, w.prompts, w0.prompts, r.first, r.events, AskOf(request, loop.config), i);
    }
  }

  /** A turn that ends has sent a message by itself exactly if one of its rounds called for that. */
  lemma SentMeans(loop: AgentLoop, before: SessionState, w0: World, w: World, request: Request, maxMessages: nat,
                  systemPrompt: string, now: string, cancels: bool, outcome: Outcome, r: Record)
    requires loop.Turned(before, w0, w, request, maxMessages, systemPrompt, now, cancels, outcome, r)
    requires !outcome.Failed?
    ensures outcome.sent <==>
            exists i, k :: 0 <= i < |r.events| && r.events[i].Round? && 0 <= k < |r.events[i].response.toolCalls|
                           && r.events[i].response.toolCalls[k].name == "send_message"
  {
    hide IsRun, IsHistory, FirstList, IsServedUpTo, IsNoted, IsSaved, FlagsOf;
    FlagsMean(r.events);
  }

  // ---------------------------------------------------------------------------------------------
  // What a turn leaves behind
  // ---------------------------------------------------------------------------------------------

  /** The log of a session behind a turn: the input, the rounds and the reply. */
  ghost function LogBehind(before: seq<SessionMessage>, request: Request, events: seq<Event>, reply: string,
                           now: string): seq<SessionMessage> {
    before + [SessionMessage(User, request.logged, now, "", "", [], None)] + Logged(events, now)
    + [SessionMessage(Assistant, reply, now, "", "", [], None)]
  }

  /** A turn that ends is in the store: its session loads with the input, the rounds and the reply behind the old log,
      and every other session as before.  The memory block of the reply is noted once.  A turn that fails leaves
      tables, cache and memory as they were. */
  lemma TurnIsSaved(loop: AgentLoop, before: SessionState, w0: World, w: World, request: Request, maxMessages: nat,
                    systemPrompt: string, now: string, cancels: bool, outcome: Outcome, r: Record, other: string,
                    dump: Json -> string)
    requires loop.Turned(before, w0, w, request, maxMessages, systemPrompt, now, cancels, outcome, r)
    ensures outcome.Failed? ==> w.tables == w0.tables && w.cache == w0.cache && w.entries == w0.entries
    ensures !outcome.Failed? ==>
              var log := LogBehind(before.messages, request, r.events, outcome.reply, now);
              && Lookup(w.tables, request.key, now, dump).Some? && !LoadThrows(w.tables, request.key, dump)
              && Lookup(w.tables, request.key, now, dump).value.messages == RereadAll(log)
              && request.key in w.cache && w.cache[request.key].messages == log
    ensures CStr(other) != CStr(request.key) ==>
              && Lookup(w.tables, other, now, dump) == Lookup(w0.tables, other, now, dump)
              && (other in w.cache <==> other in w0.cache)
              && (other in w.cache ==> w.cache[other] == w0.cache[other])
    ensures !outcome.Failed? ==>
              var final := if r.content == "" then request.fallback else r.content;
              var block := MemoryBlock.ExtractMemoryBlock(final);
              && outcome.reply == MemoryBlock.StripOf(final)
              && (block == "" || loop.config.memoryEntry(request.key, block) == "" ==>
                    outcome.Done? && w.entries == w0.entries)
              && (block != "" && loop.config.memoryEntry(request.key, block) != "" ==>
                    && w.entries == w0.entries + [loop.config.memoryEntry(request.key, block)]
                    && (outcome.Unremembered? <==> loop.memory.fails(w.entries)))
  {
    hide IsRun, IsHistory, FirstList, IsServedUpTo, Lookup, Insert, LoadThrows;
    if !outcome.Failed? {
      var s := w.cache[request.key];
      LoadAfterSave(w0.tables, s, request.key, now, dump);
      if CStr(other) != CStr(request.key) {
        OtherSessionsUntouched(w0.tables, s, other, now, dump);
      }
    }
  }

  // ---------------------------------------------------------------------------------------------
  // What the tools are asked in a turn
  // ---------------------------------------------------------------------------------------------

  /** In a turn the answered calls were executed in order, each with the result it was given, unless it edits a file
      that was read neither in the session before nor in the turn before it; such a call was turned down.  Exactly
      the files read successfully count as read when the session is saved. */
  lemma TurnExecutes(loop: AgentLoop, before: SessionState, w0: World, w: World, request: Request,
                     maxMessages: nat, systemPrompt: string, now: string, cancels: bool, outcome: Outcome, r: Record)
    returns (to: Bench, at: seq<nat>)
    requires loop.Turned(before, w0, w, request, maxMessages, systemPrompt, now, cancels, outcome, r)
    ensures var b := Bench(w0.runs, before.readFilePaths);
            AreRead(loop.tools.run, b, to) && AreNumbers(loop.tools.run, b, AnsweredIn(r.events), to.runs, at)
    ensures w0.runs <= to.runs <= w.runs
    ensures !outcome.Failed? ==>
              && to.runs == w.runs && request.key in w.cache && w.cache[request.key].readFilePaths == to.paths
  {
    hide IsHistory, FirstList, IsRun, IsNoted, AreAnswers, AfterCalls, AreNumbers;
    var b := Bench(w0.runs, before.readFilePaths);
    to := AfterCalls(loop.tools.run, b, AnsweredIn(r.events));
    at := CallsAreExecuted(loop.tools.run, b, AnsweredIn(r.events));
  }

  /** The calls of a round are answered behind those of the rounds before it. */
  lemma {:induction false} RoundsInOrder(events: seq<Event>, i: nat)
    requires i < |events|
    ensures AnsweredIn(events[..i + 1]) <= AnsweredIn(events)
    ensures AnsweredIn(events[..i + 1]) ==
            AnsweredIn(events[..i]) + if events[i].Round? then events[i].answered else []
    decreases |events|
  {
    assert events[..i + 1] == events[..i] + [events[i]];
    EventsStep(events[..i], events[i]);
    if i + 1 < |events| {
      var front := events[..|events| - 1];
      RoundsInOrder(front, i);
      assert front[..i + 1] == events[..i + 1];
    } else {
      assert events[..i + 1] == events;
    }
  }

  // ---------------------------------------------------------------------------------------------
  // What the model is shown of the request
  // ---------------------------------------------------------------------------------------------

  /** The message of a request: its images in order, and then its text. */
  ghost predicate HoldsRequest(m: Message, request: Request) {
    && m.role == User && !m.isVirtual && m.content == "" && m.name == "" && m.toolCallId == "" && m.toolCalls == []
    && m.usage == map[]
    && |m.contentParts| == |request.images| + 1
    && m.contentParts[|request.images|] == ContentPart("text", request.content, "")
    && forall k :: 0 <= k < |request.images| ==> m.contentParts[k] == ContentPart("image_url", "", request.images[k])
  }

  /** A message that the model never sees. */
  ghost predicate IsNotice(m: Message, text: string) {
    m == Message(User, text, "", "", [], [], map[], true)
  }

  /** The first list of a turn: the system prompt, the contexts of the request, the history, the request and the
      queued notifications. */
  ghost predicate IsFirstList(list: seq<Message>, history: seq<Message>, systemPrompt: string, request: Request,
                              config: Config, pending: seq<string>) {
    var merge := if request.upstreamMergeRequest != "" then 1 else 0;
    var contexts := merge + if request.workingDirectory != "" then 1 else 0;
    && |list| == 1 + contexts + |history| + 1 + |pending|
    && list[0] == Message(System, systemPrompt, "", "", [], [], map[], false)
    && (request.upstreamMergeRequest != "" ==>
          IsNotice(list[1], config.mergeRequestContext(request.upstreamMergeRequest)))
    && (request.workingDirectory != "" ==>
          IsNotice(list[1 + merge], config.workingDirectoryContext(request.workingDirectory)))
    && (forall k :: 0 <= k < |history| ==> list[1 + contexts + k] == history[k])
    && HoldsRequest(list[1 + contexts + |history|], request)
    && forall k :: 0 <= k < |pending| ==> IsNotice(list[2 + contexts + |history| + k], config.notice(pending[k]))
  }

  lemma UserMessageHolds(request: Request)
    ensures HoldsRequest(UserMessage(request.content, request.images), request)
  {
  }

  lemma FirstListMeans(history: seq<Message>, systemPrompt: string, request: Request, config: Config,
                       pending: seq<string>)
    ensures IsFirstList(FirstList(history, systemPrompt, request, config, pending), history, systemPrompt, request,
                        config, pending)
  {
    hide HoldsRequest, UserMessage;
    UserMessageHolds(request);
  }

  /** Different requests make different messages. */
  lemma RequestsDiffer(m: Message, a: Request, b: Request)
    requires HoldsRequest(m, a) && HoldsRequest(m, b)
    ensures a.content == b.content && a.images == b.images
  {
    forall k | 0 <= k < |a.images|
      ensures a.images[k] == b.images[k]
    {
      assert m.contentParts[k] == ContentPart("image_url", "", a.images[k]);
    }
  }

  /** The model is shown this text as what the user asks. */
  ghost predicate ShowsText(prompt: seq<Message>, text: string) {
    exists m :: m in prompt && IsTextOfUser(m, text)
  }

  ghost predicate IsTextOfUser(m: Message, text: string) {
    m.role == User && !m.isVirtual && ContentPart("text", text, "") in m.contentParts
  }

  lemma {:induction false} VisibleComeFrom(messages: seq<Message>, m: Message)
    requires m in RemoveVirtual(messages)
    ensures m in messages && !m.isVirtual
  {
    if m in RemoveVirtual(messages[..|messages| - 1]) {
      VisibleComeFrom(messages[..|messages| - 1], m);
    }
  }

  /** Every user message of a prompt is one of the list. */
  lemma SentUsersComeFrom(messages: seq<Message>, prompt: seq<Message>, m: Message)
    requires IsProjection(messages, prompt) && m in prompt && m.role == User
    ensures m in messages && !m.isVirtual
  {
    var kept, visible := Kept(messages), RemoveVirtual(messages);
    var ids :| Lists(ids, Missing(kept)) && prompt == Coalesce(kept + Placeholders(ids));
    ProjectionLaws.UsersComeFrom(m, [], kept + Placeholders(ids));
    HeadsAreSystem(visible[..Cut(visible)]);
    assert m in kept;
    assert m in visible;
    VisibleComeFrom(messages, m);
  }

  lemma HistoryHasNoParts(log: seq<SessionMessage>, maxMessages: nat, history: seq<Message>)
    requires IsHistory(View(log), maxMessages, history)
    ensures forall m :: m in history ==> m.contentParts == []
  {
    var start := HistoryIsSuffix(View(log), maxMessages, history);
    assert forall k :: 0 <= k < |log| ==> View(log)[k].contentParts == [];
  }

  /** Of the user messages that the model may see, the request is the only one with parts. */
  lemma OnlyRequestHasParts(history: seq<Message>, systemPrompt: string, request: Request, config: Config,
                            pending: seq<string>, passed: seq<Event>, m: Message)
    requires forall h :: h in history ==> h.contentParts == []
    requires m in FirstList(history, systemPrompt, request, config, pending) + Grown(passed)
    requires m.role == User && !m.isVirtual && m.contentParts != []
    ensures m == UserMessage(request.content, request.images)
  {
    hide UserMessage, Grown;
    GrownAddition(passed);
    NoticesAreNotices(Wrapped(config.notice, pending));
    ContextsAreNotices(request, config);
    assert m !in Notices(Wrapped(config.notice, pending)) && m !in ContextNotices(request, config);
  }

  lemma TextsOfPrompt(history: seq<Message>, systemPrompt: string, request: Request, config: Config,
                      pending: seq<string>, passed: seq<Event>, prompt: seq<Message>, text: string)
    requires forall h :: h in history ==> h.contentParts == []
    requires IsProjection(FirstList(history, systemPrompt, request, config, pending) + Grown(passed), prompt)
    ensures ShowsText(prompt, text) <==>
            UserMessage(request.content, request.images) in prompt && text == request.content
  {
    hide FirstList, Grown, IsProjection, UserMessage;
    var u := UserMessage(request.content, request.images);
    UserMessageHolds(request);
    if ShowsText(prompt, text) {
      var m :| m in prompt && IsTextOfUser(m, text);
      SentUsersComeFrom(FirstList(history, systemPrompt, request, config, pending) + Grown(passed), prompt, m);
      OnlyRequestHasParts(history, systemPrompt, request, config, pending, passed, m);
    }
    if u in prompt {
      assert u.contentParts[|request.images|] == ContentPart("text", request.content, "");
      assert IsTextOfUser(u, request.content);
    }
  }

  /** In every prompt of a turn: the text of the request, and no other, stands in the parts of a user message, and
      exactly under the condition `InputShown`, on the window of history and the passes before that prompt. */
  lemma RequestTextIsShownIff(loop: AgentLoop, before: SessionState, w0: World, w: World, request: Request,
                              maxMessages: nat, systemPrompt: string, now: string, cancels: bool, outcome: Outcome,
                              r: Record, i: nat, text: string)
    requires loop.Turned(before, w0, w, request, maxMessages, systemPrompt, now, cancels, outcome, r)
    requires |w0.prompts| <= i < |w.prompts|
    ensures i - |w0.prompts| <= |r.events|
    ensures ShowsText(w.prompts[i], text) <==>
            text == request.content && InputShown(r.history, r.events[..i - |w0.prompts|])
  {
    hide IsTurn, IsEnd, IsFailure, IsHistory, FirstList, IsServedUpTo, Ended, IsNoted, IsProjection, Grown, ShowsText,
         InputShown, UserMessage;
    loop.TurnShowsRequestIff(before, w0, w, request, maxMessages, systemPrompt, now, cancels, outcome, r, i);
    var passed := r.events[..i - |w0.prompts|];
    SentInTurn(loop.provider.chat, w.prompts, w0.prompts, r.first, r.events, AskOf(request, loop.config), i,
               w.prompts[i], passed);
    HistoryHasNoParts(before.messages, maxMessages, r.history);
    TextsOfPrompt(r.history, systemPrompt, request, loop.config, PendingIn(before.metadata), passed, w.prompts[i],
                  text);
  }
}
