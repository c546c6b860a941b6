/** Laws of the prompt projection that hold for every list of messages. */
module ProjectionLaws {
  import opened Messages
  import opened ContextBuilder
  import opened Pairing

  // ---------------------------------------------------------------------------------------------
  // Counting and prefixes
  // ---------------------------------------------------------------------------------------------

  lemma {:induction false} UserFromEndCounts(a: seq<Message>, k: nat)
    requires 1 <= k <= CountUsers(a)
    ensures CountUsers(a[UserFromEnd(a, k)..]) == k
    decreases |a|
  {
    var front := a[..|a| - 1];
    var r := UserFromEnd(a, k);
    if r == |a| - 1 {
      assert a[r..][..0] == [];
    } else {
      UserFromEndCounts(front, if a[|a| - 1].role == User then k - 1 else k);
      assert a[r..][..|a[r..]| - 1] == front[r..];
    }
  }

  /** The cut is where the third user message from the end stands. */
  lemma {:induction false} UserFromEndUnique(a: seq<Message>, k: nat, r: nat)
    requires 1 <= k <= CountUsers(a) && r < |a| && a[r].role == User && CountUsers(a[r..]) == k
    ensures UserFromEnd(a, k) == r
    decreases |a|
  {
    if r < |a| - 1 {
      var front := a[..|a| - 1];
      CountBehindLast(a, r);
      UserFromEndUnique(front, if a[|a| - 1].role == User then k - 1 else k, r);
    } else {
      assert a[r..] == [a[r]];
      CountOne(a[r]);
    }
  }

  lemma CountBehindLast(a: seq<Message>, r: nat)
    requires r < |a| - 1 && a[r].role == User
    ensures var front := a[..|a| - 1];
            && CountUsers(a[r..]) == CountUsers(front[r..]) + (if a[|a| - 1].role == User then 1 else 0)
            && 1 <= CountUsers(front[r..]) <= CountUsers(front)
  {
    var front := a[..|a| - 1];
    assert a[r..][..|a[r..]| - 1] == front[r..];
    TailHasFewer(front, r);
    SomeUser(front[r..]);
  }

  lemma {:induction false} LastAssistantUnique(a: seq<Message>, none: nat, r: nat)
    requires r < |a| && a[r].role == Assistant && forall k :: r < k < |a| ==> a[k].role != Assistant
    ensures LastAssistant(a, none) == r
    decreases |a|
  {
    if r < |a| - 1 {
      LastAssistantUnique(a[..|a| - 1], none, r);
    }
  }

  lemma {:induction false} LastAssistantIsLast(a: seq<Message>, none: nat)
    ensures forall k :: 0 <= k < |a| && a[k].role == Assistant ==>
            LastAssistant(a, none) < |a| && k <= LastAssistant(a, none)
    decreases |a|
  {
    if a != [] {
      LastAssistantIsLast(a[..|a| - 1], none);
    }
  }

  lemma {:induction false} HeadsOfHeads(a: seq<Message>)
    ensures Heads(Heads(a)) == Heads(a)
    decreases |a|
  {
    if a != [] {
      var front, last := a[..|a| - 1], a[|a| - 1];
      HeadsOfHeads(front);
      assert Heads(a) == if last.role == System then Heads(front) + [StripImages(last)] else Heads(front);
      if last.role == System {
        StripTwice(last);
        HeadsOne(Heads(front), StripImages(last));
      }
    }
  }

  lemma StripTwice(m: Message)
    ensures StripImages(StripImages(m)) == StripImages(m)
  {
    assert StripImages(StripImages(m)).contentParts == StripImages(m).contentParts;
  }

  lemma HeadsOne(front: seq<Message>, last: Message)
    requires last.role == System
    ensures Heads(front + [last]) == Heads(front) + [StripImages(last)]
  {
    assert (front + [last])[..|front + [last]| - 1] == front;
  }

  lemma {:induction false} HeadsVisible(a: seq<Message>)
    requires forall m :: m in a ==> !m.isVirtual
    ensures forall m :: m in Heads(a) ==> !m.isVirtual
    decreases |a|
  {
    if a != [] {
      HeadsVisible(a[..|a| - 1]);
    }
  }

  lemma {:induction false} VisibleOnly(a: seq<Message>)
    ensures forall m :: m in RemoveVirtual(a) ==> !m.isVirtual && m in a
    decreases |a|
  {
    if a != [] {
      VisibleOnly(a[..|a| - 1]);
    }
  }

  lemma KeptVisible(messages: seq<Message>)
    ensures forall m :: m in Kept(messages) ==> !m.isVirtual
  {
    var visible := RemoveVirtual(messages);
    VisibleOnly(messages);
    HeadsVisible(visible[..Cut(visible)]);
  }

  // ---------------------------------------------------------------------------------------------
  // Stage 6
  // ---------------------------------------------------------------------------------------------

  /** A reminder stands right behind a tool message. */
  ghost predicate HasFold(messages: seq<Message>) {
    exists i: nat :: FoldAt(messages, i)
  }

  predicate FoldAt(messages: seq<Message>, i: nat) {
    i + 1 < |messages| && messages[i].role == Tool && IsReminder(messages[i + 1])
  }

  /** Only the last merged message matters for what follows. */
  lemma {:induction false} CoalescePrefix(before: seq<Message>, last: Message, messages: seq<Message>)
    ensures CoalesceOnto(before + [last], messages) == before + CoalesceOnto([last], messages)
    decreases |messages|
  {
    if messages != [] {
      var m := messages[0];
      var rest := messages[1..];
      if Folds([last], m) {
        CoalescePrefix(before, Fold(last, m), rest);
        assert [last][..0] + [Fold(last, m)] == [Fold(last, m)];
        assert Append(before + [last], m) == before + [Fold(last, m)];
      } else {
        CoalescePrefix(before + [last], m, rest);
        CoalescePrefix([last], m, rest);
        assert before + [last] + [m] == before + ([last] + [m]);
      }
    }
  }

  lemma AppendNoFold(merged: seq<Message>, m: Message)
    requires !HasFold(merged)
    ensures !HasFold(Append(merged, m))
  {
    var out := Append(merged, m);
    forall i: nat
      ensures !FoldAt(out, i)
    {
      assert !FoldAt(merged, i);
    }
  }

  lemma {:induction false} CoalescedHasNoFold(merged: seq<Message>, messages: seq<Message>)
    requires !HasFold(merged)
    ensures !HasFold(CoalesceOnto(merged, messages))
    decreases |messages|
  {
    if messages != [] {
      AppendNoFold(merged, messages[0]);
      CoalescedHasNoFold(Append(merged, messages[0]), messages[1..]);
    }
  }

  lemma {:induction false} CoalesceWithoutFold(merged: seq<Message>, messages: seq<Message>)
    requires !HasFold(merged + messages)
    ensures CoalesceOnto(merged, messages) == merged + messages
    decreases |messages|
  {
    if messages != [] {
      if Folds(merged, messages[0]) {
        assert FoldAt(merged + messages, |merged| - 1);
      }
      assert merged + [messages[0]] + messages[1..] == merged + messages;
      CoalesceWithoutFold(merged + [messages[0]], messages[1..]);
    } else {
      assert merged + messages == merged;
    }
  }

  lemma AppendUsers(merged: seq<Message>, m: Message)
    ensures CountUsers(Append(merged, m)) == CountUsers(merged) + if Folds(merged, m) || m.role != User then 0 else 1
  {
    if Folds(merged, m) {
      var last := |merged| - 1;
      assert merged == merged[..last] + [merged[last]];
      CountUsersJoin(merged[..last], [merged[last]]);
      CountUsersJoin(merged[..last], [Fold(merged[last], m)]);
      CountOne(merged[last]);
      CountOne(Fold(merged[last], m));
    } else {
      CountUsersJoin(merged, [m]);
      CountOne(m);
    }
  }

  lemma OneAppended(merged: seq<Message>, messages: seq<Message>)
    requires messages != []
    ensures var next := Append(merged, messages[0]) + messages[1..];
            && CountUsers(merged + messages) == CountUsers(next) + (if Folds(merged, messages[0]) then 1 else 0)
            && (!Folds(merged, messages[0]) ==> next == merged + messages)
  {
    var m, rest := messages[0], messages[1..];
    assert messages == [m] + rest;
    AppendUsers(merged, m);
    CountUsersJoin(merged, messages);
    CountUsersJoin([m], rest);
    CountOne(m);
    CountUsersJoin(Append(merged, m), rest);
  }

  /** Folding loses user messages: at least one if anything folds. */
  lemma {:induction false} CoalesceUsers(merged: seq<Message>, messages: seq<Message>)
    requires !HasFold(merged)
    ensures CountUsers(CoalesceOnto(merged, messages)) <= CountUsers(merged + messages)
    ensures HasFold(merged + messages) ==> CountUsers(CoalesceOnto(merged, messages)) < CountUsers(merged + messages)
    decreases |messages|
  {
    if messages == [] {
      assert merged + messages == merged;
    } else {
      hide HasFold, CountUsers;
      AppendNoFold(merged, messages[0]);
      CoalesceUsers(Append(merged, messages[0]), messages[1..]);
      OneAppended(merged, messages);
    }
  }

  lemma {:induction false} CoalesceMembers(merged: seq<Message>, messages: seq<Message>)
    requires forall m :: m in merged + messages ==> !m.isVirtual
    ensures forall m :: m in CoalesceOnto(merged, messages) ==> !m.isVirtual
    decreases |messages|
  {
    if messages != [] {
      var merged' := Append(merged, messages[0]);
      forall m | m in merged' + messages[1..]
        ensures !m.isVirtual
      {
        assert forall x :: x in merged ==> x in merged + messages;
        assert forall x :: x in messages ==> x in merged + messages;
      }
      CoalesceMembers(merged', messages[1..]);
    }
  }

  lemma IdsOfFold(last: Message, m: Message)
    requires last.role == Tool && m.role == User
    ensures CallIds([last, m]) == CallIds([Fold(last, m)]) == {}
    ensures ToolIds([last, m]) == ToolIds([Fold(last, m)]) == {last.toolCallId}
    ensures ResultIds([last, m]) == ResultIds([Fold(last, m)])
  {
    assert forall x :: x in [last, m] <==> x == last || x == m;
    assert forall x :: x in [Fold(last, m)] <==> x == Fold(last, m);
  }

  lemma AppendIds(merged: seq<Message>, messages: seq<Message>)
    requires messages != []
    ensures CallIds(Append(merged, messages[0]) + messages[1..]) == CallIds(merged + messages)
    ensures ResultIds(Append(merged, messages[0]) + messages[1..]) == ResultIds(merged + messages)
    ensures ToolIds(Append(merged, messages[0]) + messages[1..]) == ToolIds(merged + messages)
  {
    var m, rest := messages[0], messages[1..];
    if Folds(merged, m) {
      var last := merged[|merged| - 1];
      var before := merged[..|merged| - 1];
      assert merged + messages == before + [last, m] + rest;
      assert Append(merged, m) + rest == before + [Fold(last, m)] + rest;
      IdsOfParts(before, [last, m], rest);
      IdsOfParts(before, [Fold(last, m)], rest);
      IdsOfFold(last, m);
    } else {
      assert merged + [m] + rest == merged + messages;
    }
  }

  /** The ids of all tool messages, the empty one included. */
  function ToolIds(messages: seq<Message>): set<string> {
    set m | m in messages && m.role == Tool :: m.toolCallId
  }

  lemma IdsOfParts(a: seq<Message>, b: seq<Message>, c: seq<Message>)
    ensures CallIds(a + b + c) == CallIds(a) + CallIds(b) + CallIds(c)
    ensures ResultIds(a + b + c) == ResultIds(a) + ResultIds(b) + ResultIds(c)
    ensures ToolIds(a + b + c) == ToolIds(a) + ToolIds(b) + ToolIds(c)
  {
  }

  lemma {:induction false} CoalesceIds(merged: seq<Message>, messages: seq<Message>)
    ensures CallIds(CoalesceOnto(merged, messages)) == CallIds(merged + messages)
    ensures ResultIds(CoalesceOnto(merged, messages)) == ResultIds(merged + messages)
    ensures ToolIds(CoalesceOnto(merged, messages)) == ToolIds(merged + messages)
    decreases |messages|
  {
    if messages == [] {
      assert merged + messages == merged;
    } else {
      AppendIds(merged, messages);
      CoalesceIds(Append(merged, messages[0]), messages[1..]);
    }
  }

  // ---------------------------------------------------------------------------------------------
  // Every call has a result
  // ---------------------------------------------------------------------------------------------

  lemma PlaceholderIds(kept: seq<Message>, ids: seq<string>)
    ensures CallIds(kept + Placeholders(ids)) == CallIds(kept)
    ensures ToolIds(kept + Placeholders(ids)) == ToolIds(kept) + set id | id in ids
    ensures ResultIds(kept + Placeholders(ids)) == ResultIds(kept) + set id | id in ids && id != ""
  {
    var holders := Placeholders(ids);
    assert forall m :: m in holders ==> m.role == Tool && m.toolCallId in ids;
    forall id | id in ids
      ensures Placeholder(id) in holders
    {
      var i :| 0 <= i < |ids| && ids[i] == id;
      assert holders[i] == Placeholder(id);
    }
    assert forall m :: m in kept + holders <==> m in kept || m in holders;
    assert forall id :: id in ids ==> Placeholder(id) in kept + holders && Placeholder(id).toolCallId == id;
  }

  /** Whatever the history, each call id in the prompt has a tool message with that id. */
  lemma EveryCallHasAResult(messages: seq<Message>, out: seq<Message>)
    requires IsProjection(messages, out)
    ensures CallIds(out) <= ToolIds(out)
  {
    var kept := Kept(messages);
    var ids :| Lists(ids, Missing(kept)) && out == Coalesce(kept + Placeholders(ids));
    assert [] + (kept + Placeholders(ids)) == kept + Placeholders(ids);
    CoalesceIds([], kept + Placeholders(ids));
    PlaceholderIds(kept, ids);
    assert ResultIds(kept) <= ToolIds(kept);
  }

  // ---------------------------------------------------------------------------------------------
  // The current input
  // ---------------------------------------------------------------------------------------------

  /** Something is protected exactly if there are three user messages or an assistant message. */
  lemma TailIsEmptyIff(visible: seq<Message>)
    ensures Cut(visible) == |visible| <==> CountUsers(visible) < 3 && forall m :: m in visible ==> m.role != Assistant
  {
    LastAssistantIsLast(visible, |visible|);
    if CountUsers(visible) < 3 && Cut(visible) < |visible| {
      assert visible[Cut(visible)] in visible;
    }
  }

  /** After stage 4 the user message at the end of a list is still there exactly if something is protected. */
  lemma InputIsKeptIff(visible: seq<Message>)
    requires visible != [] && visible[|visible| - 1].role == User
    requires forall m :: m in visible ==> !m.isVirtual
    ensures visible[|visible| - 1] in Kept(visible) <==>
            CountUsers(visible) >= 3 || exists m :: m in visible && m.role == Assistant
    ensures visible[|visible| - 1] in Kept(visible) ==> Kept(visible)[|Kept(visible)| - 1] == visible[|visible| - 1]
    ensures visible[|visible| - 1] !in Kept(visible) ==> forall m :: m in Kept(visible) ==> m.role == System
  {
    NothingVirtual(visible);
    TailIsEmptyIff(visible);
    HeadsAreSystem(visible[..Cut(visible)]);
    if Cut(visible) < |visible| {
      assert visible[Cut(visible)..][|visible| - 1 - Cut(visible)] == visible[|visible| - 1];
    }
  }

  /** A message is in the prompt, or it is a reminder that opens a tool message of the prompt. */
  ghost predicate Reaches(m: Message, prompt: seq<Message>) {
    m in prompt || (IsReminder(m) && exists t :: t in prompt && OpensWith(t, m))
  }

  predicate OpensWith(t: Message, reminder: Message) {
    t.role == Tool && reminder.content + "\n" <= t.content
  }

  lemma {:induction false} CoalesceTools(merged: seq<Message>, tools: seq<Message>)
    requires forall m :: m in tools ==> m.role == Tool
    ensures CoalesceOnto(merged, tools) == merged + tools
    decreases |tools|
  {
    if tools != [] {
      CoalesceTools(merged + [tools[0]], tools[1..]);
      assert merged + [tools[0]] + tools[1..] == merged + tools;
    } else {
      assert merged + tools == merged;
    }
  }

  lemma LastReaches(kept: seq<Message>, holders: seq<Message>)
    requires kept != [] && forall m :: m in holders ==> m.role == Tool
    ensures Reaches(kept[|kept| - 1], Coalesce(kept + holders))
  {
    var n := |kept| - 1;
    var m := kept[n];
    CoalesceSplit([], kept, holders);
    CoalesceTools(Coalesce(kept), holders);
    CoalesceOne(kept, n);
    assert kept[..n + 1] == kept;
    var merged := Coalesce(kept[..n]);
    var appended := Append(merged, m);
    assert Coalesce(kept + holders) == appended + holders;
    if Folds(merged, m) {
      var t := Fold(merged[|merged| - 1], m);
      assert appended[|merged| - 1] == t && t in appended + holders;
      assert t.content == m.content + "\n" + merged[|merged| - 1].content;
      assert OpensWith(t, m);
    } else {
      assert m in appended;
    }
  }

  /** The user message at the end of a list reaches the provider exactly if something is protected. */
  lemma InputSurvivesIff(visible: seq<Message>, out: seq<Message>)
    requires visible != [] && visible[|visible| - 1].role == User
    requires (forall m :: m in visible ==> !m.isVirtual) && IsProjection(visible, out)
    ensures Reaches(visible[|visible| - 1], out) <==>
            CountUsers(visible) >= 3 || exists m :: m in visible && m.role == Assistant
  {
    var kept := Kept(visible);
    InputIsKeptIff(visible);
    var ids :| Lists(ids, Missing(kept)) && out == Coalesce(kept + Placeholders(ids));
    if visible[|visible| - 1] in kept {
      HoldersAreTools(ids);
      LastReaches(kept, Placeholders(ids));
    } else {
      SystemOnly(kept, ids);
    }
  }

  lemma SystemOnly(kept: seq<Message>, ids: seq<string>)
    requires (forall m :: m in kept ==> m.role == System) && Lists(ids, Missing(kept))
    ensures Coalesce(kept + Placeholders(ids)) == kept
  {
    assert Missing(kept) == {};
    ListsNothing(ids);
    assert kept + Placeholders(ids) == kept && [] + kept == kept;
    SystemHasNoFold(kept);
    CoalesceWithoutFold([], kept);
  }

  /** The input as the loop builds it is never a reminder: the first prompt of a turn holds it, or nothing of it. */
  lemma CurrentInputSurvivesIff(history: seq<Message>, systemPrompt: string, current: string, images: seq<string>,
      out: seq<Message>)
    requires forall m :: m in history ==> !m.isVirtual
    requires IsProjection(BuildMessages(history, systemPrompt, current, images), out)
    ensures UserMessage(current, images) in out <==>
            CountUsers(history) >= 2 || exists m :: m in history && m.role == Assistant
  {
    var messages := BuildMessages(history, systemPrompt, current, images);
    UsersOfMessages(history, Text(System, systemPrompt), UserMessage(current, images), messages);
    InputSurvivesIff(messages, out);
  }

  lemma UsersOfMessages(history: seq<Message>, system: Message, input: Message, messages: seq<Message>)
    requires system.role == System && input.role == User && messages == [system] + history + [input]
    ensures CountUsers(messages) == CountUsers(history) + 1
    ensures (exists m :: m in messages && m.role == Assistant) <==> exists m :: m in history && m.role == Assistant
  {
    CountUsersJoin([system] + history, [input]);
    CountUsersJoin([system], history);
    CountOne(system);
    CountOne(input);
    assert forall m :: m in messages <==> m == system || m in history || m == input;
  }

  // ---------------------------------------------------------------------------------------------
  // The current input in a later prompt
  // ---------------------------------------------------------------------------------------------

  /** Stage 6 neither drops nor makes a user message that is not a reminder. */
  lemma {:induction false} UserStays(u: Message, merged: seq<Message>, messages: seq<Message>)
    requires u.role == User && !IsReminder(u)
    ensures u in CoalesceOnto(merged, messages) <==> u in merged || u in messages
    decreases |messages|
  {
    if messages != [] {
      var m, rest := messages[0], messages[1..];
      UserStays(u, Append(merged, m), rest);
      assert u in messages <==> u == m || u in rest;
      UserIsAppended(u, merged, m);
    }
  }

  lemma UserIsAppended(u: Message, merged: seq<Message>, m: Message)
    requires u.role == User && !IsReminder(u)
    ensures u in Append(merged, m) <==> u in merged || u == m
  {
    if Folds(merged, m) {
      assert merged == merged[..|merged| - 1] + [merged[|merged| - 1]];
    }
  }

  /** Nor any other message that is neither a reminder nor a result. */
  lemma {:induction false} OtherStays(u: Message, merged: seq<Message>, messages: seq<Message>)
    requires u.role != Tool && !IsReminder(u) && (u in merged || u in messages)
    ensures u in CoalesceOnto(merged, messages)
    decreases |messages|
  {
    if messages != [] {
      var m, rest := messages[0], messages[1..];
      assert u in messages ==> u == m || u in rest;
      assert u in merged || u == m ==> u in Append(merged, m) by {
        if Folds(merged, m) {
          assert merged == merged[..|merged| - 1] + [merged[|merged| - 1]];
        }
      }
      OtherStays(u, Append(merged, m), rest);
    }
  }

  /** No user message comes from nowhere. */
  lemma {:induction false} UsersComeFrom(u: Message, merged: seq<Message>, messages: seq<Message>)
    requires u.role == User && u in CoalesceOnto(merged, messages)
    ensures u in merged || u in messages
    decreases |messages|
  {
    if messages != [] {
      UsersComeFrom(u, Append(merged, messages[0]), messages[1..]);
      assert u in messages[1..] ==> u in messages;
    }
  }

  lemma SliceBehind(front: seq<Message>, rest: seq<Message>, cut: nat)
    requires |front| <= cut <= |front + rest|
    ensures (front + rest)[cut..] == rest[cut - |front|..]
  {
  }

  /** With three user messages the cut is not behind a message that at most two of them follow ... */
  lemma CutOfThree(front: seq<Message>, input: Message, rest: seq<Message>)
    requires CountUsers(rest) <= 2 && CountUsers(front + [input] + rest) >= 3
    ensures Cut(front + [input] + rest) <= |front|
  {
    var visible := front + [input] + rest;
    var cut := Cut(visible);
    UserFromEndCounts(visible, 3);
    if cut > |front| {
      SliceBehind(front + [input], rest, cut);
      TailHasFewer(rest, cut - |front| - 1);
    }
  }

  /** ... and with fewer it is not exactly if the last assistant message stands before it. */
  lemma CutOfFewer(front: seq<Message>, input: Message, rest: seq<Message>)
    requires CountUsers(front + [input] + rest) < 3 && input.role == User
    ensures Cut(front + [input] + rest) <= |front| <==>
            (exists m :: m in front && m.role == Assistant) && forall m :: m in rest ==> m.role != Assistant
  {
    var visible := front + [input] + rest;
    var cut := Cut(visible);
    LastAssistantIsLast(visible, |visible|);
    forall m | m in rest && m.role == Assistant
      ensures cut > |front|
    {
      var k :| 0 <= k < |rest| && rest[k] == m;
      assert visible[|front| + 1 + k] == m;
    }
    forall m | m in front && m.role == Assistant
      ensures cut < |visible|
    {
      var k :| 0 <= k < |front| && front[k] == m;
      assert visible[k] == m;
    }
    if cut <= |front| {
      assert visible[cut] == if cut < |front| then front[cut] else input;
    } else if cut < |visible| {
      assert visible[cut] == rest[cut - |front| - 1];
    }
  }

  lemma UsersAround(front: seq<Message>, input: Message, rest: seq<Message>)
    requires input.role == User
    ensures CountUsers(front + [input] + rest) == CountUsers(front) + 1 + CountUsers(rest)
  {
    CountUsersJoin(front + [input], rest);
    CountUsersJoin(front, [input]);
    CountOne(input);
  }

  lemma BehindTheCut(front: seq<Message>, input: Message, rest: seq<Message>, cut: nat)
    requires input !in rest && cut <= |front + [input] + rest|
    ensures input in (front + [input] + rest)[cut..] <==> cut <= |front|
  {
    var visible := front + [input] + rest;
    if cut <= |front| {
      assert visible[cut..][|front| - cut] == input;
    } else {
      SliceBehind(front + [input], rest, cut);
    }
  }

  /** A user message that at most two others follow is in the prompt exactly if there are three in all, or the
      last assistant message stands before it. */
  lemma InputStaysIff(front: seq<Message>, input: Message, rest: seq<Message>, out: seq<Message>)
    requires input.role == User && !IsReminder(input) && input !in rest && CountUsers(rest) <= 2
    requires forall m :: m in front + [input] + rest ==> !m.isVirtual
    requires IsProjection(front + [input] + rest, out)
    ensures input in out <==>
            || CountUsers(front) + CountUsers(rest) >= 2
            || ((exists m :: m in front && m.role == Assistant) && forall m :: m in rest ==> m.role != Assistant)
  {
    var visible := front + [input] + rest;
    var kept, cut := Kept(visible), Cut(visible);
    NothingVirtual(visible);
    var ids :| Lists(ids, Missing(kept)) && out == Coalesce(kept + Placeholders(ids));
    UserStays(input, [], kept + Placeholders(ids));
    HoldersAreTools(ids);
    HeadsAreSystem(visible[..cut]);
    BehindTheCut(front, input, rest, cut);
    UsersAround(front, input, rest);
    if CountUsers(visible) >= 3 {
      CutOfThree(front, input, rest);
    } else {
      CutOfFewer(front, input, rest);
    }
  }

  // ---------------------------------------------------------------------------------------------
  // What is sent of each message
  // ---------------------------------------------------------------------------------------------

  /** `m` without its images: where one was stands the text `[image]`. */
  ghost predicate IsWithoutImages(m': Message, m: Message) {
    && m' == m.(contentParts := m'.contentParts) && |m'.contentParts| == |m.contentParts|
    && forall i :: 0 <= i < |m.contentParts| ==>
         && (m.contentParts[i].kind != "image_url" ==> m'.contentParts[i] == m.contentParts[i])
         && (m.contentParts[i].kind == "image_url" ==>
               && m'.contentParts[i].kind == "text" && m'.contentParts[i].text == "[image]"
               && m'.contentParts[i].imageUrl == "")
  }

  lemma {:induction false} HeadsHold(messages: seq<Message>, k: nat)
    requires k < |messages| && messages[k].role == System
    ensures exists m :: m in Heads(messages) && IsWithoutImages(m, messages[k])
  {
    if k == |messages| - 1 {
      assert StripImages(messages[k]) in Heads(messages);
    } else {
      HeadsHold(messages[..|messages| - 1], k);
    }
  }

  /** A system message before the cut is sent without its images. */
  lemma HeadIsSent(messages: seq<Message>, out: seq<Message>, k: nat)
    requires IsProjection(messages, out)
    requires var visible := RemoveVirtual(messages); k < Cut(visible) && visible[k].role == System
    ensures exists m :: m in out && IsWithoutImages(m, RemoveVirtual(messages)[k])
  {
    var visible := RemoveVirtual(messages);
    var kept := Kept(messages);
    var ids :| Lists(ids, Missing(kept)) && out == Coalesce(kept + Placeholders(ids));
    HeadsHold(visible[..Cut(visible)], k);
    var m :| m in Heads(visible[..Cut(visible)]) && IsWithoutImages(m, visible[k]);
    OtherStays(m, [], kept + Placeholders(ids));
  }

  /** Behind the cut every message but results and reminders is sent as it is. */
  lemma TailIsSent(messages: seq<Message>, out: seq<Message>, k: nat)
    requires IsProjection(messages, out)
    requires var visible := RemoveVirtual(messages);
             Cut(visible) <= k < |visible| && visible[k].role != Tool && !IsReminder(visible[k])
    ensures RemoveVirtual(messages)[k] in out
  {
    var visible := RemoveVirtual(messages);
    var kept := Kept(messages);
    var ids :| Lists(ids, Missing(kept)) && out == Coalesce(kept + Placeholders(ids));
    assert visible[Cut(visible)..][k - Cut(visible)] == visible[k];
    OtherStays(visible[k], [], kept + Placeholders(ids));
  }

  /** `t` is the result `m`, perhaps with reminders in front of its content. */
  predicate IsResultOf(t: Message, m: Message) {
    && t == m.(content := t.content)
    && |m.content| <= |t.content| && t.content[|t.content| - |m.content|..] == m.content
  }

  lemma FoldKeepsResult(t: Message, m: Message, reminder: Message)
    requires IsResultOf(t, m)
    ensures IsResultOf(Fold(t, reminder), m)
  {
    var content := reminder.content + "\n" + t.content;
    assert content[|content| - |m.content|..] == t.content[|t.content| - |m.content|..];
  }

  /** A result is sent with its content, behind the reminders that are folded into it. */
  lemma {:induction false} ResultsStay(m: Message, merged: seq<Message>, messages: seq<Message>)
    requires m.role == Tool && ((exists t :: t in merged && IsResultOf(t, m)) || m in messages)
    ensures exists t :: t in CoalesceOnto(merged, messages) && IsResultOf(t, m)
    decreases |messages|
  {
    if messages != [] {
      var next, merged' := messages[0], Append(merged, messages[0]);
      if t :| t in merged && IsResultOf(t, m) {
        ResultIsAppended(m, merged, next, t);
      } else if m == next {
        assert m in merged' && IsResultOf(m, m);
      } else {
        assert m in messages[1..];
      }
      ResultsStay(m, merged', messages[1..]);
    }
  }

  lemma ResultIsAppended(m: Message, merged: seq<Message>, next: Message, t: Message)
    requires m.role == Tool && t in merged && IsResultOf(t, m)
    ensures exists t' :: t' in Append(merged, next) && IsResultOf(t', m)
  {
    if Folds(merged, next) && t == merged[|merged| - 1] {
      FoldKeepsResult(t, m, next);
      assert Fold(t, next) in Append(merged, next);
    } else {
      assert t in Append(merged, next);
    }
  }

  /** Behind the cut every result is sent with its content. */
  lemma ResultIsSent(messages: seq<Message>, out: seq<Message>, k: nat)
    requires IsProjection(messages, out)
    requires var visible := RemoveVirtual(messages); Cut(visible) <= k < |visible| && visible[k].role == Tool
    ensures exists t :: t in out && IsResultOf(t, RemoveVirtual(messages)[k])
  {
    var visible := RemoveVirtual(messages);
    var kept := Kept(messages);
    var ids :| Lists(ids, Missing(kept)) && out == Coalesce(kept + Placeholders(ids));
    assert visible[Cut(visible)..][k - Cut(visible)] == visible[k];
    ResultsStay(visible[k], [], kept + Placeholders(ids));
  }

  /** For a call whose result is missing the model is told so. */
  lemma MissingResultIsNamed(messages: seq<Message>, out: seq<Message>, id: string)
    requires IsProjection(messages, out) && id in CallIds(Kept(messages)) && id !in ResultIds(Kept(messages))
    ensures exists t :: t in out && t.role == Tool && t.toolCallId == id && t.name == "unknown"
                        && t.content == "[Tool result missing due to internal error]"
  {
    var kept := Kept(messages);
    var ids :| Lists(ids, Missing(kept)) && out == Coalesce(kept + Placeholders(ids));
    CoalesceSplit([], kept, Placeholders(ids));
    HoldersAreTools(ids);
    CoalesceTools(Coalesce(kept), Placeholders(ids));
    assert id in Missing(kept) && id in ids;
    var i :| 0 <= i < |ids| && ids[i] == id;
    assert Placeholders(ids)[i] in out;
  }

  /** A reminder is a user message that opens with this tag. */
  lemma ReminderIs(m: Message)
    ensures IsReminder(m) <==> m.role == User && "<system-reminder>" <= m.content
  {
  }

  /** Without history the first prompt is the system prompt alone. */
  lemma FirstPromptIsSystemPrompt(systemPrompt: string, current: string, images: seq<string>, out: seq<Message>)
    requires IsProjection(BuildMessages([], systemPrompt, current, images), out)
    ensures out == [Text(System, systemPrompt)]
  {
    var system := Text(System, systemPrompt);
    var messages := BuildMessages([], systemPrompt, current, images);
    var user := UserMessage(current, images);
    assert messages == [system, user] == [system] + [user];
    NothingVirtual(messages);
    CountUsersJoin([system], [user]);
    CountOne(system);
    CountOne(user);
    TailIsEmptyIff(messages);
    assert messages[..2] == messages && messages[..1] == [system] && [system][..0] == [];
    assert StripImages(system) == system;
    assert Heads([system]) == [system];
    assert Kept(messages) == [system];
    var ids :| Lists(ids, Missing([system])) && out == Coalesce([system] + Placeholders(ids));
    SystemOnly([system], ids);
  }

  // ---------------------------------------------------------------------------------------------
  // Idempotence
  // ---------------------------------------------------------------------------------------------

  /** A second projection changes nothing exactly if this holds of the window. */
  ghost predicate ProjectsOnce(messages: seq<Message>) {
    && "" !in CallIds(Kept(messages))
    && (CountUsers(RemoveVirtual(messages)) < 3 || !HasFold(Kept(messages)))
  }

  /** What any projection looks like: system messages, then the coalesced tail. */
  lemma Shape(messages: seq<Message>, out: seq<Message>) returns (ids: seq<string>)
    requires IsProjection(messages, out)
    ensures Lists(ids, Missing(Kept(messages))) && out == Coalesce(Kept(messages) + Placeholders(ids))
    ensures var visible := RemoveVirtual(messages);
            var heads, tail := Heads(visible[..Cut(visible)]), visible[Cut(visible)..] + Placeholders(ids);
            out == CoalesceOnto([], heads + tail) == CoalesceOnto(heads, tail)
  {
    var visible := RemoveVirtual(messages);
    var heads, rest := Heads(visible[..Cut(visible)]), visible[Cut(visible)..];
    ids :| Lists(ids, Missing(Kept(messages))) && out == Coalesce(Kept(messages) + Placeholders(ids));
    hide Lists;
    assert (heads + rest) + Placeholders(ids) == heads + (rest + Placeholders(ids));
    HeadsAreSystem(visible[..Cut(visible)]);
    SystemStaysInFront(heads, rest + Placeholders(ids));
  }

  lemma SystemStaysInFront(heads: seq<Message>, tail: seq<Message>)
    requires forall m :: m in heads ==> m.role == System
    ensures CoalesceOnto([], heads + tail) == CoalesceOnto(heads, tail)
  {
    CoalesceSplit([], heads, tail);
    SystemHasNoFold(heads);
    assert [] + heads == heads;
    CoalesceWithoutFold([], heads);
  }

  lemma SystemHasNoFold(heads: seq<Message>)
    requires forall m :: m in heads ==> m.role == System
    ensures !HasFold(heads)
  {
    assert forall i :: 0 <= i < |heads| ==> heads[i] in heads;
  }

  /** Behind system messages, a tail that starts with something else is coalesced on its own. */
  lemma CoalesceBehindHeads(heads: seq<Message>, tail: seq<Message>)
    requires forall m :: m in heads ==> m.role == System
    requires tail != [] && tail[0].role in {User, Assistant}
    ensures CoalesceOnto(heads, tail) == heads + CoalesceOnto([tail[0]], tail[1..])
  {
    assert heads != [] ==> heads[|heads| - 1] in heads;
    CoalescePrefix(heads, tail[0], tail[1..]);
  }

  lemma {:induction false} FirstStays(first: Message, messages: seq<Message>)
    requires first.role in {User, Assistant}
    ensures CoalesceOnto([first], messages) != [] && CoalesceOnto([first], messages)[0] == first
  {
    if messages != [] {
      CoalescePrefix([first], messages[0], messages[1..]);
    }
  }

  lemma {:induction false} NoNewAssistants(merged: seq<Message>, messages: seq<Message>)
    requires forall m :: m in messages ==> m.role != Assistant
    requires forall k :: 1 <= k < |merged| ==> merged[k].role != Assistant
    requires merged != []
    ensures forall k :: 1 <= k < |CoalesceOnto(merged, messages)| ==>
            CoalesceOnto(merged, messages)[k].role != Assistant
    decreases |messages|
  {
    if messages != [] {
      NoNewAssistants(Append(merged, messages[0]), messages[1..]);
    }
  }

  lemma HoldersAreTools(ids: seq<string>)
    ensures forall m :: m in Placeholders(ids) ==> m.role == Tool
  {
  }

  /** With an empty tail the output is the system messages, and so is the next one. */
  lemma KeptStableEmpty(messages: seq<Message>, out: seq<Message>)
    requires IsProjection(messages, out)
    requires Cut(RemoveVirtual(messages)) == |RemoveVirtual(messages)|
    ensures Kept(out) == out
  {
    var ids := Shape(messages, out);
    var visible := RemoveVirtual(messages);
    var heads := Heads(visible[..Cut(visible)]);
    HeadsAreSystem(visible[..Cut(visible)]);
    HeadsOfHeads(visible[..Cut(visible)]);
    NoCallsInHeads(messages, ids);
    assert visible[Cut(visible)..] + Placeholders(ids) == [];
    assert out == heads;
    OutputVisible(messages, out);
    NoUsers(heads);
    TailIsEmptyIff(heads);
    assert heads[..|heads|] == heads;
  }

  /** Otherwise the output is the system messages, the first message of the tail, and what follows. */
  lemma Parts(messages: seq<Message>, out: seq<Message>) returns (ids: seq<string>, heads: seq<Message>,
              body: seq<Message>)
    requires IsProjection(messages, out)
    requires Cut(RemoveVirtual(messages)) < |RemoveVirtual(messages)|
    ensures Lists(ids, Missing(Kept(messages))) && out == Coalesce(Kept(messages) + Placeholders(ids))
    ensures out == heads + body && Heads(heads) == heads && forall m :: m in heads ==> m.role == System
    ensures var visible := RemoveVirtual(messages);
            && body != [] && body[0] == visible[Cut(visible)]
            && body == CoalesceOnto([visible[Cut(visible)]], visible[Cut(visible) + 1..] + Placeholders(ids))
  {
    ids := Shape(messages, out);
    var visible := RemoveVirtual(messages);
    var cut := Cut(visible);
    heads := Heads(visible[..cut]);
    var tail := visible[cut..] + Placeholders(ids);
    HeadsAreSystem(visible[..cut]);
    HeadsOfHeads(visible[..cut]);
    TailParts(visible, cut, Placeholders(ids));
    CoalesceBehindHeads(heads, tail);
    FirstStays(tail[0], tail[1..]);
    body := CoalesceOnto([tail[0]], tail[1..]);
  }

  lemma TailParts(visible: seq<Message>, cut: nat, holders: seq<Message>)
    requires cut < |visible|
    ensures var tail := visible[cut..] + holders;
            tail[0] == visible[cut] && tail[1..] == visible[cut + 1..] + holders
  {
  }

  /** Fewer than three user messages: the output keeps its own cut at the same assistant message. */
  lemma KeptStableFew(messages: seq<Message>, out: seq<Message>)
    requires IsProjection(messages, out) && CountUsers(RemoveVirtual(messages)) < 3
    requires Cut(RemoveVirtual(messages)) < |RemoveVirtual(messages)|
    ensures Kept(out) == out
  {
    var ids, heads, body := Parts(messages, out);
    var visible := RemoveVirtual(messages);
    OutputVisible(messages, out);
    UsersOfOutput(messages, out, ids);
    AssistantBehindNone(visible, Cut(visible), ids);
    CutAtBody(heads, body);
  }

  lemma CutAtBody(heads: seq<Message>, body: seq<Message>)
    requires Heads(heads) == heads && RemoveVirtual(heads + body) == heads + body && CountUsers(heads + body) < 3
    requires body != [] && body[0].role == Assistant && forall k :: 1 <= k < |body| ==> body[k].role != Assistant
    ensures Kept(heads + body) == heads + body
  {
    var out := heads + body;
    assert forall k :: |heads| < k < |out| ==> out[k] == body[k - |heads|];
    LastAssistantUnique(out, |out|, |heads|);
    assert out[..|heads|] == heads && out[|heads|..] == body;
  }

  lemma AssistantBehindNone(visible: seq<Message>, cut: nat, ids: seq<string>)
    requires CountUsers(visible) < 3 && cut == Cut(visible) < |visible|
    ensures var body := CoalesceOnto([visible[cut]], visible[cut + 1..] + Placeholders(ids));
            forall k :: 1 <= k < |body| ==> body[k].role != Assistant
  {
    LastAssistantIsLast(visible, |visible|);
    HoldersAreTools(ids);
    NoNewAssistants([visible[cut]], visible[cut + 1..] + Placeholders(ids));
  }

  lemma OutputVisible(messages: seq<Message>, out: seq<Message>)
    requires IsProjection(messages, out)
    ensures RemoveVirtual(out) == out
  {
    var kept := Kept(messages);
    var ids :| Lists(ids, Missing(kept)) && out == Coalesce(kept + Placeholders(ids));
    KeptVisible(messages);
    assert forall m :: m in Placeholders(ids) ==> !m.isVirtual;
    CoalesceMembers([], kept + Placeholders(ids));
    NothingVirtual(out);
  }

  /** Nothing protected means no call is left to answer. */
  lemma NoCallsInHeads(messages: seq<Message>, ids: seq<string>)
    requires Lists(ids, Missing(Kept(messages))) && Cut(RemoveVirtual(messages)) == |RemoveVirtual(messages)|
    ensures ids == []
  {
    var visible := RemoveVirtual(messages);
    HeadsAreSystem(visible[..Cut(visible)]);
    assert Missing(Kept(messages)) == {};
    ListsNothing(ids);
  }

  lemma UsersOfTail(visible: seq<Message>)
    ensures CountUsers(visible[Cut(visible)..]) <= CountUsers(visible)
    ensures CountUsers(visible) >= 3 ==> CountUsers(visible[Cut(visible)..]) == 3
  {
    TailHasFewer(visible, Cut(visible));
    if CountUsers(visible) >= 3 {
      UserFromEndCounts(visible, 3);
    }
  }

  /** The window has the user messages of the tail. */
  lemma UsersOfWindow(messages: seq<Message>, ids: seq<string>)
    ensures var visible, all := RemoveVirtual(messages), Kept(messages) + Placeholders(ids);
            && CountUsers(all) <= CountUsers(visible)
            && (CountUsers(visible) >= 3 ==> CountUsers(all) == 3)
  {
    var visible := RemoveVirtual(messages);
    var heads := Heads(visible[..Cut(visible)]);
    UsersOfTail(visible);
    HeadsAreSystem(visible[..Cut(visible)]);
    NoUsers(heads);
    HoldersAreTools(ids);
    NoUsers(Placeholders(ids));
    CountUsersJoin(heads, visible[Cut(visible)..]);
    CountUsersJoin(Kept(messages), Placeholders(ids));
  }

  lemma UsersOfOutput(messages: seq<Message>, out: seq<Message>, ids: seq<string>)
    requires out == Coalesce(Kept(messages) + Placeholders(ids))
    ensures CountUsers(out) <= CountUsers(RemoveVirtual(messages))
    ensures CountUsers(RemoveVirtual(messages)) >= 3 && HasFold(Kept(messages)) ==> CountUsers(out) < 3
  {
    var all := Kept(messages) + Placeholders(ids);
    UsersOfWindow(messages, ids);
    assert [] + all == all;
    SystemHasNoFold([]);
    CoalesceUsers([], all);
    if HasFold(Kept(messages)) {
      FoldInFront(Kept(messages), Placeholders(ids));
    }
  }

  lemma FoldInFront(a: seq<Message>, b: seq<Message>)
    requires HasFold(a)
    ensures HasFold(a + b)
  {
    var i: nat :| FoldAt(a, i);
    assert FoldAt(a + b, i);
  }

  lemma NoFoldWithHolders(kept: seq<Message>, ids: seq<string>)
    requires !HasFold(kept)
    ensures !HasFold(kept + Placeholders(ids))
  {
    var all := kept + Placeholders(ids);
    forall i: nat
      ensures !FoldAt(all, i)
    {
      assert !FoldAt(kept, i);
    }
  }

  /** Three user messages and nothing to fold: the output keeps its cut at the same user message. */
  lemma KeptStableMany(messages: seq<Message>, out: seq<Message>)
    requires IsProjection(messages, out) && CountUsers(RemoveVirtual(messages)) >= 3 && !HasFold(Kept(messages))
    ensures Kept(out) == out
  {
    var ids, heads, body := Parts(messages, out);
    OutputVisible(messages, out);
    UnfoldedUsers(messages, out, ids);
    assert out[|heads|..] == body && out[..|heads|] == heads;
    NoUsers(heads);
    CountUsersJoin(heads, body);
    UserFromEndUnique(out, 3, |heads|);
  }

  lemma UnfoldedUsers(messages: seq<Message>, out: seq<Message>, ids: seq<string>)
    requires out == Coalesce(Kept(messages) + Placeholders(ids))
    requires CountUsers(RemoveVirtual(messages)) >= 3 && !HasFold(Kept(messages))
    ensures CountUsers(out) == 3
  {
    var all := Kept(messages) + Placeholders(ids);
    NoFoldWithHolders(Kept(messages), ids);
    assert [] + all == all;
    CoalesceWithoutFold([], all);
    UsersOfWindow(messages, ids);
  }

  /** Three user messages, one of which folds: the second projection finds fewer and cuts elsewhere. */
  lemma FoldMovesTheCut(messages: seq<Message>, out: seq<Message>, again: seq<Message>)
    requires IsProjection(messages, out) && IsProjection(out, again)
    requires CountUsers(RemoveVirtual(messages)) >= 3 && HasFold(Kept(messages))
    ensures again != out
  {
    var ids, heads, body := Parts(messages, out);
    UsersOfOutput(messages, out, ids);
    OutputVisible(messages, out);
    FirstAfterSystem(out, again);
    assert out[|heads|] == body[0];
    assert forall k :: 0 <= k < |heads| ==> out[k] in heads;
    assert !UserNotFirst(out);
  }

  /** The first message of `list` that is not a system message, if any, is no user message. */
  ghost predicate UserNotFirst(list: seq<Message>) {
    forall k :: 0 <= k < |list| && list[k].role == User ==> exists j :: 0 <= j < k && list[j].role != System
  }

  lemma FirstAfterSystem(out: seq<Message>, again: seq<Message>)
    requires IsProjection(out, again) && CountUsers(RemoveVirtual(out)) < 3
    ensures UserNotFirst(again)
  {
    var ids := Shape(out, again);
    var visible := RemoveVirtual(out);
    var cut := Cut(visible);
    var heads, tail := Heads(visible[..cut]), visible[cut..] + Placeholders(ids);
    HeadsAreSystem(visible[..cut]);
    if cut == |visible| {
      NoCallsInHeads(out, ids);
      assert again == heads;
      assert forall k :: 0 <= k < |heads| ==> heads[k] in heads;
    } else {
      CoalesceBehindHeads(heads, tail);
      FirstStays(tail[0], tail[1..]);
      assert again[|heads|] == tail[0];
      assert forall k :: 0 <= k < |heads| ==> again[k] in heads;
    }
  }

  /** `ProjectMessages` applied to its own output gives that output back, if and only if no call in the
      window has an empty id and no reminder was folded out of a three-user window. */
  lemma ProjectTwiceIff(messages: seq<Message>, out: seq<Message>, again: seq<Message>)
    requires IsProjection(messages, out) && IsProjection(out, again)
    ensures again == out <==> ProjectsOnce(messages)
  {
    if CountUsers(RemoveVirtual(messages)) >= 3 && HasFold(Kept(messages)) {
      FoldMovesTheCut(messages, out, again);
    } else {
      if Cut(RemoveVirtual(messages)) == |RemoveVirtual(messages)| {
        KeptStableEmpty(messages, out);
      } else if CountUsers(RemoveVirtual(messages)) < 3 {
        KeptStableFew(messages, out);
      } else {
        KeptStableMany(messages, out);
      }
      SecondPass(messages, out, again);
    }
  }

  lemma MissingOfOutput(messages: seq<Message>, out: seq<Message>)
    requires IsProjection(messages, out)
    ensures Missing(out) == if "" in CallIds(Kept(messages)) then {""} else {}
  {
    var kept := Kept(messages);
    var ids :| Lists(ids, Missing(kept)) && out == Coalesce(kept + Placeholders(ids));
    assert [] + (kept + Placeholders(ids)) == kept + Placeholders(ids);
    CoalesceIds([], kept + Placeholders(ids));
    PlaceholderIds(kept, ids);
    assert forall id :: id in ids <==> id in Missing(kept);
  }

  lemma OutputHasNoFold(messages: seq<Message>, out: seq<Message>)
    requires IsProjection(messages, out)
    ensures !HasFold(out)
  {
    var ids :| Lists(ids, Missing(Kept(messages))) && out == Coalesce(Kept(messages) + Placeholders(ids));
    SystemHasNoFold([]);
    CoalescedHasNoFold([], Kept(messages) + Placeholders(ids));
  }

  /** If a list is its own window and nothing folds, projecting it only appends placeholders. */
  lemma OnlyPlaceholders(out: seq<Message>, again: seq<Message>) returns (ids: seq<string>)
    requires IsProjection(out, again) && Kept(out) == out && !HasFold(out)
    ensures Lists(ids, Missing(out)) && again == out + Placeholders(ids)
  {
    ids :| Lists(ids, Missing(Kept(out))) && again == Coalesce(Kept(out) + Placeholders(ids));
    NoFoldWithHolders(out, ids);
    assert [] + (out + Placeholders(ids)) == out + Placeholders(ids);
    CoalesceWithoutFold([], out + Placeholders(ids));
  }

  lemma SecondPass(messages: seq<Message>, out: seq<Message>, again: seq<Message>)
    requires IsProjection(messages, out) && IsProjection(out, again) && Kept(out) == out
    ensures again == out <==> "" !in CallIds(Kept(messages))
  {
    MissingOfOutput(messages, out);
    OutputHasNoFold(messages, out);
    var ids := OnlyPlaceholders(out, again);
    if "" in CallIds(Kept(messages)) {
      ListsOne(ids, "");
    } else {
      ListsNothing(ids);
    }
  }

  // ---------------------------------------------------------------------------------------------
  // Lists that a second projection changes
  // ---------------------------------------------------------------------------------------------

  lemma SomeListing(all: set<string>) returns (ids: seq<string>)
    ensures Lists(ids, all)
    decreases all
  {
    if all == {} {
      ids := [];
    } else {
      var id :| id in all;
      ids := SomeListing(all - {id});
      ids := ids + [id];
    }
  }

  lemma ProjectionExists(messages: seq<Message>) returns (out: seq<Message>)
    ensures IsProjection(messages, out)
  {
    var ids := SomeListing(Missing(Kept(messages)));
    out := Coalesce(Kept(messages) + Placeholders(ids));
  }

  /** A window of three users in which a reminder follows a tool result. */
  lemma ReminderIsProjectedTwice() returns (messages: seq<Message>, out: seq<Message>, again: seq<Message>)
    ensures "" !in CallIds(messages) && IsProjection(messages, out) && IsProjection(out, again) && again != out
  {
    var a := Text(Assistant, "").(toolCalls := [ToolCall("1", "read_file", map[])]);
    var u1, t, u2, u3 := Text(User, "a"), Result("1", "read_file", "c"), Text(User, REMINDER), Text(User, "b");
    messages := [u1, a, t, u2, u3];
    WindowOfThree(u1, a, t, u2, u3, messages);
    out := ProjectionExists(messages);
    again := ProjectionExists(out);
    ProjectTwiceIff(messages, out, again);
  }

  lemma WindowOfThree(u1: Message, a: Message, t: Message, u2: Message, u3: Message, messages: seq<Message>)
    requires messages == [u1, a, t, u2, u3] && forall m :: m in messages ==> !m.isVirtual
    requires u1.role == User && a.role == Assistant && t.role == Tool && IsReminder(u2) && u3.role == User
    requires forall c :: c in a.toolCalls ==> c.id != ""
    ensures CountUsers(RemoveVirtual(messages)) == 3 && Kept(messages) == messages && HasFold(messages)
    ensures "" !in CallIds(messages)
  {
    NothingVirtual(messages);
    CountFive(u1, a, t, u2, u3);
    CutAtFirst(messages);
    assert FoldAt(messages, 2);
    assert forall m :: m in messages && m.role == Assistant ==> m == a;
  }

  lemma CutAtFirst(messages: seq<Message>)
    requires messages != [] && messages[0].role == User && CountUsers(messages) == 3
    requires RemoveVirtual(messages) == messages
    ensures Kept(messages) == messages
  {
    assert messages[0..] == messages && messages[..0] == [];
    UserFromEndUnique(messages, 3, 0);
  }

  lemma CountFive(a: Message, b: Message, c: Message, d: Message, e: Message)
    requires a.role == User && b.role == Assistant && c.role == Tool && d.role == User && e.role == User
    ensures CountUsers([a, b, c, d, e]) == 3
  {
    var s := [a, b, c, d, e];
    assert s == [a] + [b] + [c] + [d] + [e];
    CountUsersJoin([a] + [b] + [c] + [d], [e]);
    CountUsersJoin([a] + [b] + [c], [d]);
    CountUsersJoin([a] + [b], [c]);
    CountUsersJoin([a], [b]);
    CountOne(a);
    CountOne(b);
    CountOne(c);
    CountOne(d);
    CountOne(e);
  }

  /** A call without an id gets another placeholder each time. */
  lemma EmptyIdIsProjectedTwice() returns (messages: seq<Message>, out: seq<Message>, again: seq<Message>)
    ensures !HasFold(messages) && IsProjection(messages, out) && IsProjection(out, again) && again != out
  {
    var call := ToolCall("", "read_file", map[]);
    var a := Text(Assistant, "").(toolCalls := [call]);
    messages := [a];
    LoneCall(a, call, messages);
    out := ProjectionExists(messages);
    again := ProjectionExists(out);
    ProjectTwiceIff(messages, out, again);
  }

  lemma LoneCall(a: Message, call: ToolCall, messages: seq<Message>)
    requires messages == [a] && a.role == Assistant && !a.isVirtual && call in a.toolCalls && call.id == ""
    ensures Kept(messages) == messages && "" in CallIds(messages) && !HasFold(messages)
  {
    NothingVirtual(messages);
    CountOne(a);
    assert messages[0..] == messages && messages[..0] == [];
    LastAssistantUnique(messages, |messages|, 0);
    assert a in messages;
  }
}
