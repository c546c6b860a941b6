/** A conversation log and the window of it that becomes history (src/session/session_manager.cpp). */
module Session {
  import opened Messages
  import opened Json
  import opened Options
  import opened Pairing

  datatype SessionMessage = SessionMessage(
    role: Role,
    content: string,
    timestamp: string,
    name: string,
    toolCallId: string,
    toolCalls: seq<ToolCall>,
    usageJson: Option<Json>)

  datatype SessionState = SessionState(
    key: string,
    messages: seq<SessionMessage>,
    createdAt: string,
    updatedAt: string,
    metadata: Json,
    readFilePaths: set<string>)

  // ---------------------------------------------------------------------------------------------
  // The log as chat messages
  // ---------------------------------------------------------------------------------------------

  /** `nlohmann` object of the usage counters, absent when there are none. */
  function UsageText(usage: map<string, int>): Option<Json> {
    if usage == map[] then None else Some(Obj(map k | k in usage :: Int(usage[k])))
  }

  /** The integer members of the stored usage object. */
  function ParseUsage(text: Option<Json>): map<string, int> {
    if text.Some? && text.value.Obj?
    then map k | k in text.value.fields && text.value.fields[k].Int? :: text.value.fields[k].n
    else map[]
  }

  /** Members that are no integers are no counters. */
  lemma UsageIsParsed(text: Option<Json>)
    ensures text.None? || !text.value.Obj? ==> ParseUsage(text) == map[]
    ensures text.Some? && text.value.Obj? ==>
              && (forall k :: k in ParseUsage(text) <==> k in text.value.fields && text.value.fields[k].Int?)
              && forall k :: k in ParseUsage(text) ==> text.value.fields[k] == Int(ParseUsage(text)[k])
  {
  }

  lemma UsageRoundTrip(usage: map<string, int>)
    ensures ParseUsage(UsageText(usage)) == usage
  {
    if usage != map[] {
      var fields := map k | k in usage :: Int(usage[k]);
      assert fields.Keys == usage.Keys;
      assert ParseUsage(UsageText(usage)).Keys == usage.Keys;
    }
  }

  function ToMessage(entry: SessionMessage): Message {
    Message(entry.role, entry.content, entry.name, entry.toolCallId, entry.toolCalls, [], ParseUsage(entry.usageJson),
        false)
  }

  /** What the model is shown of an entry of the log. */
  lemma EntryIsShown(entry: SessionMessage)
    ensures var m := ToMessage(entry);
            && m.role == entry.role && m.content == entry.content && m.name == entry.name
            && m.toolCallId == entry.toolCallId && m.toolCalls == entry.toolCalls
            && m.contentParts == [] && !m.isVirtual && m.usage == ParseUsage(entry.usageJson)
  {
  }

  function View(log: seq<SessionMessage>): (r: seq<Message>)
    ensures |r| == |log|
  {
    seq(|log|, i requires 0 <= i < |log| => ToMessage(log[i]))
  }

  // ---------------------------------------------------------------------------------------------
  // The history window
  // ---------------------------------------------------------------------------------------------

  function HardStart(log: seq<Message>, maxMessages: nat): (r: nat)
    ensures r <= |log|
  {
    if |log| > maxMessages then |log| - maxMessages else 0
  }

  /** The suffix from `k` starts at a user message and has at most three of them. */
  ghost predicate IsWindow(log: seq<Message>, k: nat) {
    k < |log| && log[k].role == User && CountUsers(log[k..]) <= 3
  }

  ghost predicate WindowHasUser(log: seq<Message>, maxMessages: nat) {
    exists k :: HardStart(log, maxMessages) <= k < |log| && log[k].role == User
  }

  /** `start` gives the longest suffix of at most `maxMessages` messages and three user messages that
      starts at a user message; without a user message in reach, the last `maxMessages` messages. */
  ghost predicate IsHistoryStart(log: seq<Message>, maxMessages: nat, start: nat) {
    var hard := HardStart(log, maxMessages);
    if WindowHasUser(log, maxMessages)
    then hard <= start && IsWindow(log, start) && forall k :: hard <= k < start ==> !IsWindow(log, k)
    else start == hard
  }

  ghost predicate IsHistory(log: seq<Message>, maxMessages: nat, history: seq<Message>) {
    exists start: nat :: start <= |log| && IsHistoryStart(log, maxMessages, start) && history == log[start..]
  }

  lemma HistoryFrom(log: seq<Message>, maxMessages: nat, start: nat, history: seq<Message>)
    requires start <= |log| && IsHistoryStart(log, maxMessages, start) && history == log[start..|log|]
    ensures IsHistory(log, maxMessages, history)
  {
    assert log[start..|log|] == log[start..];
  }

  lemma EmptyHistory(maxMessages: nat)
    ensures IsHistory([], maxMessages, [])
  {
    HistoryFrom([], maxMessages, 0, []);
  }

  lemma EarlierUserCounts(log: seq<Message>, k: nat, i: nat)
    requires k < i <= |log|
    ensures CountUsers(log[k..]) >= CountUsers(log[i..]) + if log[k].role == User then 1 else 0
  {
    assert log[k..] == [log[k]] + log[k + 1..];
    CountUsersJoin([log[k]], log[k + 1..]);
    CountOne(log[k]);
    TailHasFewer(log[k + 1..], i - k - 1);
    assert log[k + 1..][i - k - 1..] == log[i..];
  }

  lemma CountStep(log: seq<Message>, i: nat)
    requires i < |log|
    ensures CountUsers(log[i..]) == CountUsers(log[i + 1..]) + if log[i].role == User then 1 else 0
  {
    assert log[i..] == [log[i]] + log[i + 1..];
    CountUsersJoin([log[i]], log[i + 1..]);
    CountOne(log[i]);
  }

  lemma ThirdUserStarts(log: seq<Message>, maxMessages: nat, i: nat)
    requires HardStart(log, maxMessages) <= i < |log| && log[i].role == User && CountUsers(log[i..]) == 3
    ensures IsHistoryStart(log, maxMessages, i)
  {
    forall k | HardStart(log, maxMessages) <= k < i
      ensures !IsWindow(log, k)
    {
      EarlierUserCounts(log, k, i);
    }
  }

  lemma FirstUserStarts(log: seq<Message>, maxMessages: nat, start: nat)
    requires HardStart(log, maxMessages) <= start < |log| && log[start].role == User
    requires forall k :: HardStart(log, maxMessages) <= k < start ==> log[k].role != User
    requires CountUsers(log[HardStart(log, maxMessages)..]) < 3
    ensures IsHistoryStart(log, maxMessages, start)
  {
    var hard := HardStart(log, maxMessages);
    TailHasFewer(log[hard..], start - hard);
    assert log[hard..][start - hard..] == log[start..];
  }

  /** What a window of history is: it ends where the log ends, and is no longer than asked.  With a user message in
      reach it starts at one, holds at most three and could not be longer; without, it is as long as it may be. */
  lemma HistoryMeans(log: seq<Message>, maxMessages: nat, history: seq<Message>)
    requires IsHistory(log, maxMessages, history)
    ensures |history| <= |log| && |history| <= maxMessages && history == log[|log| - |history|..]
    ensures (exists j :: 0 <= j < |log| && |log| - j <= maxMessages && log[j].role == User) ==>
              && history != [] && history[0].role == User && CountUsers(history) <= 3
              && forall j :: 0 <= j < |log| - |history| && |log| - j <= maxMessages && log[j].role == User ==>
                   CountUsers(log[j..]) > 3
    ensures (forall j :: 0 <= j < |log| && |log| - j <= maxMessages ==> log[j].role != User) ==>
              |history| == maxMessages || (|log| < maxMessages && history == log)
  {
    hide CountUsers;
    var start: nat :| start <= |log| && IsHistoryStart(log, maxMessages, start) && history == log[start..];
    var hard := HardStart(log, maxMessages);
    assert |log| - |history| == start;
    if j :| 0 <= j < |log| && |log| - j <= maxMessages && log[j].role == User {
      assert hard <= j;
      forall k | 0 <= k < |log| - |history| && |log| - k <= maxMessages && log[k].role == User
        ensures CountUsers(log[k..]) > 3
      {
        assert !IsWindow(log, k);
      }
    }
  }

  predicate WindowIsClean(log: seq<Message>, maxMessages: nat) {
    var hard := HardStart(log, maxMessages);
    (exists k :: hard <= k < |log| && log[k].role == User) || hard == |log| || log[hard].role != Tool
  }

  /** A window cut from a paired log is paired, unless it had to start inside a block of results. */
  lemma HistoryPairedIff(log: seq<Message>, maxMessages: nat, history: seq<Message>)
    requires Paired(log) && IsHistory(log, maxMessages, history)
    ensures Paired(history) <==> WindowIsClean(log, maxMessages)
  {
    var start: nat :| start <= |log| && IsHistoryStart(log, maxMessages, start) && history == log[start..];
    assert log == log[..start] + log[start..];
    if start == |log| || log[start].role != Tool {
      PairedCut(log[..start], log[start..]);
    } else {
      assert !BlockComplete(log[start..]);
    }
  }

  class Session {
    const key: string
    var messages: seq<SessionMessage>
    var createdAt: string
    var updatedAt: string
    var metadata: Json
    var readFilePaths: set<string>

    function State(): SessionState
      reads this
    {
      SessionState(key, messages, createdAt, updatedAt, metadata, readFilePaths)
    }

    constructor (key: string, now: string)
      ensures State() == SessionState(key, [], now, now, Obj(map[]), {})
    {
      this.key := key;
      messages, createdAt, updatedAt, metadata, readFilePaths := [], now, now, Obj(map[]), {};
    }

    /** A copy of a stored session: the program hands sessions around by value. */
    constructor Copy(state: SessionState)
      ensures State() == state
    {
      key := state.key;
      messages, createdAt, updatedAt := state.messages, state.createdAt, state.updatedAt;
      metadata, readFilePaths := state.metadata, state.readFilePaths;
    }

    method AddMessage(role: Role, content: string, toolCalls: seq<ToolCall>, usage: map<string, int>, now: string)
      modifies this
      ensures State() == old(State()).(
                messages := old(messages) + [SessionMessage(role, content, now, "", "", toolCalls, UsageText(usage))],
                updatedAt := now)
    {
      messages := messages + [SessionMessage(role, content, now, "", "", toolCalls, UsageText(usage))];
      updatedAt := now;
    }

    method AddToolMessage(toolCallId: string, toolName: string, content: string, now: string)
      modifies this
      ensures State() == old(State()).(
                messages := old(messages) + [SessionMessage(Tool, content, now, toolName, toolCallId, [], None)],
                updatedAt := now)
    {
      messages := messages + [SessionMessage(Tool, content, now, toolName, toolCallId, [], None)];
      updatedAt := now;
    }

    method RecordFileRead(path: string)
      modifies this
      ensures State() == old(State()).(readFilePaths := old(readFilePaths) + {path})
    {
      readFilePaths := readFilePaths + {path};
    }

    predicate HasReadFile(path: string)
      reads this
    {
      path in readFilePaths
    }

    /** The queued notifications, which are removed from the metadata. */
    method TakePendingNotifications() returns (notifications: seq<string>)
      modifies this
      ensures State() == old(State()).(metadata := WithoutPending(old(metadata)))
      ensures notifications == PendingIn(old(metadata))
    {
      notifications := [];
      if metadata.Obj? && "pending_notifications" in metadata.fields && metadata.fields["pending_notifications"].Arr? {
        var items := metadata.fields["pending_notifications"].items;
        for i := 0 to |items|
          invariant notifications == Texts(items[..i])
        {
          assert items[..i + 1][..i] == items[..i];
          if items[i].Str? {
            notifications := notifications + [items[i].s];
          }
        }
        assert items[..|items|] == items;
        metadata := Obj(metadata.fields - {"pending_notifications"});
      }
    }

    method FindStart(maxMessages: nat) returns (start: nat)
      ensures start <= |messages| && IsHistoryStart(View(messages), maxMessages, start)
    {
      ghost var view := View(messages);
      var hardStart := if |messages| > maxMessages then |messages| - maxMessages else 0;
      start := hardStart;
      var userSeen := 0;
      var i := |messages|;
      while i > hardStart
        invariant hardStart <= i <= |messages| && start == hardStart
        invariant userSeen == CountUsers(view[i..]) && userSeen < 3
      {
        i := i - 1;
        CountStep(view, i);
        if messages[i].role == User {
          userSeen := userSeen + 1;
          if userSeen >= 3 {
            start := i;
            ThirdUserStarts(view, maxMessages, i);
            return;
          }
        }
      }
      while start < |messages| && messages[start].role != User
        invariant hardStart <= start <= |messages|
        invariant forall k :: hardStart <= k < start ==> view[k].role != User
      {
        start := start + 1;
      }
      if start >= |messages| {
        start := hardStart;
      } else {
        FirstUserStarts(view, maxMessages, start);
      }
    }

    method GetHistory(maxMessages: nat) returns (history: seq<Message>)
      ensures IsHistory(View(messages), maxMessages, history)
    {
      history := [];
      ghost var view := View(messages);
      if messages == [] {
        EmptyHistory(maxMessages);
        return;
      }
      var start := FindStart(maxMessages);
      for i := start to |messages|
        invariant history == view[start..i]
      {
        history := history + [ToMessage(messages[i])];
      }
      HistoryFrom(view, maxMessages, start, history);
    }
  }

  ghost function Texts(items: seq<Json>): (texts: seq<string>)
    ensures ListsTexts(texts, items)
  {
    if items == [] then []
    else
      var front, last := items[..|items| - 1], items[|items| - 1];
      TextsStep(items, |items| - 1);
      assert items[..|items|] == items;
      assert forall k :: 0 <= k < |front| ==> front[..k] == items[..k];
      Texts(front) + if last.Str? then [last.s] else []
  }

  ghost predicate HasPending(metadata: Json) {
    metadata.Obj? && "pending_notifications" in metadata.fields && metadata.fields["pending_notifications"].Arr?
  }

  /** The queued notifications: the text entries of the list, in order. */
  ghost function PendingIn(metadata: Json): (texts: seq<string>)
    ensures metadata.Obj? && "pending_notifications" in metadata.fields
            && metadata.fields["pending_notifications"].Arr? ==>
              ListsTexts(texts, metadata.fields["pending_notifications"].items)
  {
    if HasPending(metadata) then Texts(metadata.fields["pending_notifications"].items) else []
  }

  /** What is left when they are taken: all other members. */
  ghost function WithoutPending(metadata: Json): (rest: Json)
    ensures !HasPending(metadata) ==> rest == metadata
    ensures HasPending(metadata) ==> rest == Obj(metadata.fields - {"pending_notifications"})
    ensures PendingIn(rest) == []
  {
    if HasPending(metadata) then Obj(metadata.fields - {"pending_notifications"}) else metadata
  }
}
