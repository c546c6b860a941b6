/** The prompt projection (src/agent/context_builder.cpp): the closed form it computes, and the
    in-place stages that compute it. */
module ContextBuilder {
  import opened Messages

  const TOOL_RESULT_MAX_CHARS: nat := 12000
  const REMINDER := "<system-reminder>"

  // ---------------------------------------------------------------------------------------------
  // The closed form
  // ---------------------------------------------------------------------------------------------

  function RemoveVirtual(messages: seq<Message>): seq<Message> {
    if messages == [] then []
    else if messages[|messages| - 1].isVirtual then RemoveVirtual(messages[..|messages| - 1])
    else RemoveVirtual(messages[..|messages| - 1]) + [messages[|messages| - 1]]
  }

  /** The index of the `k`-th user message counted from the end. */
  function UserFromEnd(messages: seq<Message>, k: nat): (r: nat)
    requires 1 <= k <= CountUsers(messages)
    ensures r < |messages| && messages[r].role == User
  {
    var front := messages[..|messages| - 1];
    if messages[|messages| - 1].role != User then UserFromEnd(front, k)
    else if k == 1 then |messages| - 1
    else UserFromEnd(front, k - 1)
  }

  /** The index of the last assistant message, or `none` if there is none. */
  function LastAssistant(messages: seq<Message>, none: nat): (r: nat)
    ensures r == none || (r < |messages| && messages[r].role == Assistant)
  {
    if messages == [] then none
    else if messages[|messages| - 1].role == Assistant then |messages| - 1
    else LastAssistant(messages[..|messages| - 1], none)
  }

  /** Where the protected tail starts. */
  function Cut(messages: seq<Message>): (r: nat)
    ensures r <= |messages|
    ensures r < |messages| ==> messages[r].role in {User, Assistant}
  {
    if CountUsers(messages) >= 3 then UserFromEnd(messages, 3) else LastAssistant(messages, |messages|)
  }

  function StripPart(part: ContentPart): ContentPart {
    if part.kind == "image_url" then ContentPart("text", "[image]", "") else part
  }

  function StripImages(message: Message): Message {
    message.(contentParts :=
        seq(|message.contentParts|, i requires 0 <= i < |message.contentParts| => StripPart(message.contentParts[i])))
  }

  /** The system messages, without images. */
  function Heads(messages: seq<Message>): seq<Message> {
    if messages == [] then []
    else
      var last := messages[|messages| - 1];
      Heads(messages[..|messages| - 1]) + if last.role == System then [StripImages(last)] else []
  }

  /** Stages 1 to 4: no virtual messages, system messages of the head, all of the tail. */
  function Kept(messages: seq<Message>): seq<Message> {
    var visible := RemoveVirtual(messages);
    Heads(visible[..Cut(visible)]) + visible[Cut(visible)..]
  }

  function Missing(messages: seq<Message>): set<string> {
    CallIds(messages) - ResultIds(messages)
  }

  function Placeholder(id: string): Message {
    Result(id, "unknown", "[Tool result missing due to internal error]")
  }

  function Placeholders(ids: seq<string>): (r: seq<Message>)
    ensures |r| == |ids|
  {
    seq(|ids|, i requires 0 <= i < |ids| => Placeholder(ids[i]))
  }

  /** `ids` lists the set once each, in some order. */
  ghost predicate Lists(ids: seq<string>, all: set<string>) {
    && (forall id :: id in ids <==> id in all)
    && (forall i, j :: 0 <= i < j < |ids| ==> ids[i] != ids[j])
  }

  predicate IsReminder(message: Message) {
    message.role == User && message.content != "" && REMINDER <= message.content
  }

  function Fold(result: Message, reminder: Message): Message {
    result.(content := reminder.content + "\n" + result.content)
  }

  predicate Folds(merged: seq<Message>, message: Message) {
    merged != [] && IsReminder(message) && merged[|merged| - 1].role == Tool
  }

  /** One message of stage 6. */
  function Append(merged: seq<Message>, message: Message): seq<Message> {
    if Folds(merged, message)
    then merged[..|merged| - 1] + [Fold(merged[|merged| - 1], message)]
    else merged + [message]
  }

  function CoalesceOnto(merged: seq<Message>, messages: seq<Message>): seq<Message>
    decreases |messages|
  {
    if messages == [] then merged else CoalesceOnto(Append(merged, messages[0]), messages[1..])
  }

  function Coalesce(messages: seq<Message>): seq<Message> {
    CoalesceOnto([], messages)
  }

  /** `out` is what `ProjectMessages` may return: the order of the placeholders is that of a hash set. */
  ghost predicate IsProjection(messages: seq<Message>, out: seq<Message>) {
    exists ids: seq<string> ::
      Lists(ids, Missing(Kept(messages))) && out == Coalesce(Kept(messages) + Placeholders(ids))
  }

  // ---------------------------------------------------------------------------------------------
  // The stages
  // ---------------------------------------------------------------------------------------------

  function Decimal(n: nat): string {
    (if n < 10 then [] else Decimal(n / 10)) + [['0', '1', '2', '3', '4', '5', '6', '7', '8', '9'][n % 10]]
  }

  function TruncateContent(value: string, maxLen: nat): (r: string)
    ensures |value| <= maxLen ==> r == value
    ensures |value| > maxLen ==> value[..maxLen] < r
  {
    if |value| <= maxLen then value
    else value[..maxLen] + "\n...[truncated, original size=" + Decimal(|value|) + " chars]..."
  }

  /** Stage 1. */
  method DropVirtual(messages: seq<Message>) returns (visible: seq<Message>)
    ensures visible == RemoveVirtual(messages)
  {
    visible := [];
    for i := 0 to |messages|
      invariant visible == RemoveVirtual(messages[..i])
    {
      assert messages[..i + 1][..i] == messages[..i];
      if !messages[i].isVirtual {
        visible := visible + [messages[i]];
      }
    }
    assert messages[..|messages|] == messages;
  }

  method FindThirdUser(messages: seq<Message>) returns (found: bool, index: nat)
    ensures found <==> CountUsers(messages) >= 3
    ensures found ==> index == UserFromEnd(messages, 3)
  {
    var usersSeen := 0;
    var i := |messages|;
    assert messages[..i] == messages;
    while i > 0
      invariant 0 <= i <= |messages| && 0 <= usersSeen < 3
      invariant usersSeen + CountUsers(messages[..i]) == CountUsers(messages)
      invariant CountUsers(messages) >= 3 ==> UserFromEnd(messages, 3) == UserFromEnd(messages[..i], 3 - usersSeen)
    {
      i := i - 1;
      assert messages[..i + 1][..i] == messages[..i];
      if messages[i].role == User {
        usersSeen := usersSeen + 1;
        if usersSeen >= 3 {
          return true, i;
        }
      }
    }
    return false, 0;
  }

  method FindLastAssistant(messages: seq<Message>) returns (index: nat)
    ensures index == LastAssistant(messages, |messages|)
  {
    index := |messages|;
    var i := |messages|;
    assert messages[..i] == messages;
    while i > 0
      invariant 0 <= i <= |messages| && index == |messages|
      invariant LastAssistant(messages, |messages|) == LastAssistant(messages[..i], |messages|)
    {
      i := i - 1;
      assert messages[..i + 1][..i] == messages[..i];
      if messages[i].role == Assistant {
        return i;
      }
    }
  }

  /** Stage 2. */
  method FindCut(messages: seq<Message>) returns (protectedStart: nat)
    ensures protectedStart == Cut(messages)
  {
    var found;
    found, protectedStart := FindThirdUser(messages);
    if !found {
      protectedStart := FindLastAssistant(messages);
    }
  }

  /** What stage 3 leaves of one message before the cut. */
  function Shrunk(message: Message): Message {
    StripImages(if message.role == Tool then
        message.(content := TruncateContent(message.content, TOOL_RESULT_MAX_CHARS)) else message)
  }

  method StripMedia(message: Message) returns (stripped: Message)
    ensures stripped == StripImages(message)
  {
    stripped := message;
    var hasMedia := false;
    for i := 0 to |message.contentParts|
      invariant !hasMedia ==> forall k :: 0 <= k < i ==> message.contentParts[k].kind != "image_url"
    {
      if message.contentParts[i].kind == "image_url" {
        hasMedia := true;
        break;
      }
    }
    if hasMedia {
      var parts: seq<ContentPart> := [];
      for i := 0 to |message.contentParts|
        invariant |parts| == i && forall k :: 0 <= k < i ==> parts[k] == StripPart(message.contentParts[k])
      {
        parts := parts + [StripPart(message.contentParts[i])];
      }
      stripped := message.(contentParts := parts);
      assert parts == StripImages(message).contentParts;
    } else {
      assert message.contentParts == StripImages(message).contentParts;
    }
  }

  /** Stage 3. */
  method ShrinkHead(messages: seq<Message>, protectedStart: nat) returns (shrunk: seq<Message>)
    requires protectedStart <= |messages|
    ensures |shrunk| == |messages|
    ensures forall k :: 0 <= k < |messages| ==> shrunk[k] == if k < protectedStart then Shrunk(messages[k])
            else messages[k]
  {
    shrunk := messages;
    var idx := 0;
    while idx < |shrunk| && idx < protectedStart
      invariant 0 <= idx <= protectedStart && |shrunk| == |messages|
      invariant forall k :: 0 <= k < |messages| ==> shrunk[k] == if k < idx then Shrunk(messages[k]) else messages[k]
    {
      var message := shrunk[idx];
      if message.role == Tool && |message.content| > TOOL_RESULT_MAX_CHARS {
        message := message.(content := TruncateContent(message.content, TOOL_RESULT_MAX_CHARS));
      }
      message := StripMedia(message);
      shrunk := shrunk[idx := message];
      idx := idx + 1;
    }
  }

  /** The part of the closed form that the first `idx` messages make up. */
  function SnippedTo(visible: seq<Message>, cut: nat, idx: nat): seq<Message>
    requires cut <= |visible| && idx <= |visible|
  {
    if idx <= cut then Heads(visible[..idx]) else Heads(visible[..cut]) + visible[cut..idx]
  }

  lemma SnipOne(visible: seq<Message>, cut: nat, idx: nat)
    requires cut <= |visible| && idx < |visible|
    ensures SnippedTo(visible, cut, idx + 1) == SnippedTo(visible, cut, idx) +
              if idx >= cut then [visible[idx]] else if visible[idx].role == System then [StripImages(visible[idx])]
                  else []
  {
    if idx < cut {
      assert visible[..idx + 1][..idx] == visible[..idx];
    } else if idx == cut {
      assert visible[cut..idx + 1] == [visible[idx]];
    } else {
      assert visible[cut..idx + 1] == visible[cut..idx] + [visible[idx]];
    }
  }

  /** Stage 4: with stage 3 before it, the head becomes its system messages without images. */
  method Snip(shrunk: seq<Message>, protectedStart: nat, ghost visible: seq<Message>) returns (snipped: seq<Message>)
    requires protectedStart <= |visible| == |shrunk|
    requires forall k :: 0 <= k < |visible| ==> shrunk[k] == if k < protectedStart then Shrunk(visible[k])
             else visible[k]
    ensures snipped == Heads(visible[..protectedStart]) + visible[protectedStart..]
  {
    snipped := [];
    for idx := 0 to |shrunk|
      invariant snipped == SnippedTo(visible, protectedStart, idx)
    {
      SnipOne(visible, protectedStart, idx);
      if shrunk[idx].role == System || idx >= protectedStart {
        snipped := snipped + [shrunk[idx]];
      }
    }
    assert visible[protectedStart..|visible|] == visible[protectedStart..];
    assert visible[..|visible|] == visible;
  }

  method CollectIds(messages: seq<Message>) returns (pending: set<string>, seen: set<string>)
    ensures pending == CallIds(messages) && seen == ResultIds(messages)
  {
    pending, seen := {}, {};
    for i := 0 to |messages|
      invariant pending == CallIds(messages[..i]) && seen == ResultIds(messages[..i])
    {
      var message := messages[i];
      var before, upTo := messages[..i], messages[..i + 1];
      assert upTo == before + [message];
      if message.role == Assistant {
        for k := 0 to |message.toolCalls|
          invariant pending == CallIds(before) + set j | 0 <= j < k :: message.toolCalls[j].id
        {
          pending := pending + {message.toolCalls[k].id};
        }
      }
      if message.role == Tool && message.toolCallId != "" {
        seen := seen + {message.toolCallId};
      }
      assert CallIds(upTo) == CallIds(before) + CallIds([message]);
      assert CallIds([message]) == if message.role == Assistant then set j | 0 <= j < |message.toolCalls| ::
             message.toolCalls[j].id else {};
      assert ResultIds(upTo) == ResultIds(before) + ResultIds([message]);
    }
    assert messages[..|messages|] == messages;
  }

  /** Stage 5, visiting the pending ids in an arbitrary order. */
  method PairResults(messages: seq<Message>) returns (paired: seq<Message>)
    ensures exists ids :: Lists(ids, Missing(messages)) && paired == messages + Placeholders(ids)
  {
    var pending, seen := CollectIds(messages);
    paired := messages;
    ghost var ids: seq<string> := [];
    while pending != {}
      invariant pending <= CallIds(messages)
      invariant Lists(ids, Missing(messages) - pending)
      invariant paired == messages + Placeholders(ids)
      decreases pending
    {
      var id :| id in pending;
      pending := pending - {id};
      if id !in seen {
        paired := paired + [Placeholder(id)];
        assert Placeholders(ids + [id]) == Placeholders(ids) + [Placeholder(id)];
        ids := ids + [id];
      }
    }
    assert Lists(ids, Missing(messages));
  }

  lemma {:induction false} CoalesceSplit(merged: seq<Message>, first: seq<Message>, second: seq<Message>)
    ensures CoalesceOnto(merged, first + second) == CoalesceOnto(CoalesceOnto(merged, first), second)
    decreases |first|
  {
    if first == [] {
      assert first + second == second;
    } else {
      assert (first + second)[0] == first[0] && (first + second)[1..] == first[1..] + second;
      CoalesceSplit(Append(merged, first[0]), first[1..], second);
    }
  }

  lemma CoalesceSingle(merged: seq<Message>, message: Message)
    ensures CoalesceOnto(merged, [message]) == Append(merged, message)
  {
    assert [message][1..] == [];
  }

  lemma CoalesceOne(messages: seq<Message>, i: nat)
    requires i < |messages|
    ensures Coalesce(messages[..i + 1]) == Append(Coalesce(messages[..i]), messages[i])
  {
    CoalesceSplit([], messages[..i], [messages[i]]);
    assert messages[..i + 1] == messages[..i] + [messages[i]];
    CoalesceSingle(Coalesce(messages[..i]), messages[i]);
  }

  /** Stage 6. */
  method CoalesceReminders(messages: seq<Message>) returns (merged: seq<Message>)
    ensures merged == Coalesce(messages)
  {
    merged := [];
    for i := 0 to |messages|
      invariant merged == Coalesce(messages[..i])
    {
      CoalesceOne(messages, i);
      var message := messages[i];
      if merged != [] && message.role == User && message.content != "" && REMINDER <= message.content
          && merged[|merged| - 1].role == Tool {
        merged := merged[|merged| - 1 := Fold(merged[|merged| - 1], message)];
      } else {
        merged := merged + [message];
      }
    }
    assert messages[..|messages|] == messages;
  }

  method ProjectMessages(messages: seq<Message>) returns (merged: seq<Message>)
    ensures IsProjection(messages, merged)
  {
    var visible := DropVirtual(messages);
    var protectedStart := FindCut(visible);
    var shrunk := ShrinkHead(visible, protectedStart);
    var snipped := Snip(shrunk, protectedStart, visible);
    snipped := PairResults(snipped);
    merged := CoalesceReminders(snipped);
  }

  // ---------------------------------------------------------------------------------------------
  // Building the list
  // ---------------------------------------------------------------------------------------------

  /** The images that could be read, as data URLs, and then the text. */
  function BuildUserContent(text: string, images: seq<string>): (parts: seq<ContentPart>)
    ensures |parts| == |images| + 1
  {
    seq(|images|, i requires 0 <= i < |images| => ContentPart("image_url", "", images[i]))
        + [ContentPart("text", text, "")]
  }

  function UserMessage(current: string, images: seq<string>): Message {
    var parts := BuildUserContent(current, images);
    Text(User, if parts == [] then current else "").(contentParts := parts)
  }

  function BuildMessages(history: seq<Message>, systemPrompt: string, current: string,
                         images: seq<string>): seq<Message> {
    [Text(System, systemPrompt)] + history + [UserMessage(current, images)]
  }

  function AddToolResult(messages: seq<Message>, call: ToolCall, result: string): seq<Message> {
    messages + [Result(call.id, call.name, result)]
  }

  function AddAssistantMessage(messages: seq<Message>, content: string, toolCalls: seq<ToolCall>,
                               usage: map<string, int>): seq<Message> {
    messages + [Text(Assistant, content).(toolCalls := toolCalls, usage := usage)]
  }
}
