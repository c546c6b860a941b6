/** Tool calls and tool results in a list of messages: when every call is answered at once and no
    result stands alone, and what the prompt projection does to that. */
module Pairing {
  import opened Messages
  import opened ContextBuilder

  /** `messages` starts with one result per call, in order. */
  predicate Answers(calls: seq<ToolCall>, messages: seq<Message>) {
    && |calls| <= |messages|
    && forall k :: 0 <= k < |calls| ==> messages[k].role == Tool && messages[k].toolCallId == calls[k].id
  }

  /** The length of the first block. */
  function BlockLength(messages: seq<Message>): (n: nat)
    requires messages != []
    ensures n > 0
  {
    if messages[0].role == Assistant then 1 + |messages[0].toolCalls| else 1
  }

  predicate BlockComplete(messages: seq<Message>) {
    && messages != [] && messages[0].role != Tool && BlockLength(messages) <= |messages|
    && (messages[0].role == Assistant ==> Answers(messages[0].toolCalls, messages[1..]))
  }

  /** The list is a sequence of blocks: an assistant message with its results, or one other message. */
  predicate Paired(messages: seq<Message>)
    decreases |messages|
  {
    messages == [] || (BlockComplete(messages) && Paired(messages[BlockLength(messages)..]))
  }

  // ---------------------------------------------------------------------------------------------
  // What it means position by position
  // ---------------------------------------------------------------------------------------------

  /** The message that must answer call `k` of message `i` does. */
  ghost predicate AnsweredAt(messages: seq<Message>, i: nat, k: nat)
    requires i < |messages| && k < |messages[i].toolCalls|
  {
    && i + 1 + k < |messages|
    && messages[i + 1 + k].role == Tool
    && messages[i + 1 + k].toolCallId == messages[i].toolCalls[k].id
  }

  /** Every assistant message is followed at once by its results, in order. */
  ghost predicate CallsAnswered(messages: seq<Message>) {
    forall i: nat, k: nat :: i < |messages| && messages[i].role == Assistant && k < |messages[i].toolCalls| ==>
      AnsweredAt(messages, i, k)
  }

  ghost predicate Owns(messages: seq<Message>, i: nat, j: nat) {
    i < j < |messages| && messages[i].role == Assistant && j - i <= |messages[i].toolCalls|
  }

  ghost predicate Owned(messages: seq<Message>, j: nat) {
    exists i: nat :: Owns(messages, i, j)
  }

  /** Every tool message belongs to a call. */
  ghost predicate ResultsOwned(messages: seq<Message>) {
    forall j: nat :: j < |messages| && messages[j].role == Tool ==> Owned(messages, j)
  }

  lemma {:induction false} PairedMeansAnswered(messages: seq<Message>)
    ensures Paired(messages) <==> CallsAnswered(messages) && ResultsOwned(messages)
    decreases |messages|
  {
    if messages != [] {
      if messages[0].role == Tool {
        assert !Owned(messages, 0);
      } else if !BlockComplete(messages) {
        IncompleteBlock(messages);
      } else {
        PairedMeansAnswered(messages[BlockLength(messages)..]);
        FromRest(messages);
        ToRest(messages);
      }
    }
  }

  lemma IncompleteBlock(messages: seq<Message>)
    requires messages != [] && messages[0].role == Assistant && !Answers(messages[0].toolCalls, messages[1..])
    ensures !CallsAnswered(messages)
  {
    var calls := messages[0].toolCalls;
    if |messages[1..]| < |calls| {
      assert !AnsweredAt(messages, 0, |calls| - 1);
    } else {
      var k :| 0 <= k < |calls| && !(messages[1..][k].role == Tool && messages[1..][k].toolCallId == calls[k].id);
      assert !AnsweredAt(messages, 0, k);
    }
  }

  /** What holds after the first block holds of the whole list. */
  lemma FromRest(messages: seq<Message>)
    requires BlockComplete(messages)
    ensures var rest := messages[BlockLength(messages)..];
            CallsAnswered(rest) && ResultsOwned(rest) ==> CallsAnswered(messages) && ResultsOwned(messages)
  {
    var n := BlockLength(messages);
    var rest := messages[n..];
    if CallsAnswered(rest) && ResultsOwned(rest) {
      assert forall j :: 1 <= j < n ==> messages[j] == messages[1..][j - 1];
      forall i: nat, k: nat | i < |messages| && messages[i].role == Assistant && k < |messages[i].toolCalls|
        ensures AnsweredAt(messages, i, k)
      {
        if i >= n {
          assert rest[i - n] == messages[i];
          assert AnsweredAt(rest, i - n, k);
        } else {
          assert i == 0 && messages[1 + k] == messages[1..][k];
        }
      }
      forall j: nat | j < |messages| && messages[j].role == Tool
        ensures Owned(messages, j)
      {
        if j >= n {
          assert rest[j - n] == messages[j] && Owned(rest, j - n);
          var i: nat :| Owns(rest, i, j - n);
          assert Owns(messages, i + n, j);
        } else {
          assert Owns(messages, 0, j);
        }
      }
    }
  }

  lemma ToRest(messages: seq<Message>)
    requires BlockComplete(messages)
    ensures var rest := messages[BlockLength(messages)..];
            CallsAnswered(messages) && ResultsOwned(messages) ==> CallsAnswered(rest) && ResultsOwned(rest)
  {
    var n := BlockLength(messages);
    var rest := messages[n..];
    if CallsAnswered(messages) && ResultsOwned(messages) {
      forall i: nat, k: nat | i < |rest| && rest[i].role == Assistant && k < |rest[i].toolCalls|
        ensures AnsweredAt(rest, i, k)
      {
        assert messages[i + n] == rest[i] && AnsweredAt(messages, i + n, k);
      }
      forall j: nat | j < |rest| && rest[j].role == Tool
        ensures Owned(rest, j)
      {
        assert messages[j + n] == rest[j] && Owned(messages, j + n);
        var i: nat :| Owns(messages, i, j + n);
        assert forall l :: 1 <= l < n ==> messages[l] == messages[1..][l - 1] && messages[l].role == Tool;
        assert i >= n;
        assert Owns(rest, i - n, j);
      }
    }
  }

  // ---------------------------------------------------------------------------------------------
  // Joining and cutting
  // ---------------------------------------------------------------------------------------------

  lemma BlockOfJoin(a: seq<Message>, b: seq<Message>)
    requires BlockComplete(a)
    ensures BlockComplete(a + b) && BlockLength(a + b) == BlockLength(a)
    ensures (a + b)[BlockLength(a)..] == a[BlockLength(a)..] + b
  {
    assert (a + b)[0] == a[0] && (a + b)[1..] == a[1..] + b;
  }

  lemma {:induction false} PairedJoin(a: seq<Message>, b: seq<Message>)
    requires Paired(a) && Paired(b)
    ensures Paired(a + b)
    decreases |a|
  {
    if a == [] {
      assert a + b == b;
    } else {
      PairedJoin(a[BlockLength(a)..], b);
      BlockOfJoin(a, b);
    }
  }

  lemma AnswersPrefix(calls: seq<ToolCall>, a: seq<Message>, b: seq<Message>)
    requires Answers(calls, a + b) && (b == [] || b[0].role != Tool)
    ensures Answers(calls, a)
  {
    assert b != [] ==> (a + b)[|a|] == b[0];
    assert forall k :: 0 <= k < |a| ==> (a + b)[k] == a[k];
  }

  /** The first block of a list lies on one side of such a cut. */
  lemma CutAfterBlock(a: seq<Message>, b: seq<Message>)
    requires a != [] && BlockComplete(a + b) && (b == [] || b[0].role != Tool)
    ensures BlockComplete(a)
  {
    assert (a + b)[0] == a[0] && (a + b)[1..] == a[1..] + b;
    if a[0].role == Assistant {
      AnswersPrefix(a[0].toolCalls, a[1..], b);
    }
  }

  /** A list can be cut in front of any message that is not a tool result. */
  lemma {:induction false} PairedCut(a: seq<Message>, b: seq<Message>)
    requires Paired(a + b) && (b == [] || b[0].role != Tool)
    ensures Paired(a) && Paired(b)
    decreases |a|
  {
    if a == [] {
      assert a + b == b;
    } else {
      CutAfterBlock(a, b);
      BlockOfJoin(a, b);
      PairedCut(a[BlockLength(a)..], b);
    }
  }

  lemma {:induction false} NoStrayResult(a: seq<Message>, stray: Message)
    requires Paired(a) && stray.role == Tool
    ensures !Paired(a + [stray])
    decreases |a|
  {
    if a != [] {
      var n := BlockLength(a);
      assert (a + [stray])[n..] == a[n..] + [stray];
      NoStrayResult(a[n..], stray);
    }
  }

  ghost predicate SameShape(a: seq<Message>, b: seq<Message>) {
    && |a| == |b|
    && forall k :: 0 <= k < |a| ==>
         a[k].role == b[k].role && a[k].toolCallId == b[k].toolCallId && a[k].toolCalls == b[k].toolCalls
  }

  lemma {:induction false} PairedByShape(a: seq<Message>, b: seq<Message>)
    requires SameShape(a, b) && Paired(a)
    ensures Paired(b)
    decreases |a|
  {
    if a != [] {
      var n := BlockLength(a);
      assert SameShape(a[n..], b[n..]);
      PairedByShape(a[n..], b[n..]);
      assert forall k :: 0 <= k < n - 1 ==> a[1..][k] == a[k + 1] && b[1..][k] == b[k + 1];
    }
  }

  // ---------------------------------------------------------------------------------------------
  // The stages of the projection
  // ---------------------------------------------------------------------------------------------

  /** Virtual messages are neither calls nor results. */
  predicate VirtualIsNeutral(messages: seq<Message>) {
    forall m :: m in messages && m.isVirtual ==> m.role != Assistant && m.role != Tool
  }

  lemma {:induction false} RemoveVirtualJoin(a: seq<Message>, b: seq<Message>)
    ensures RemoveVirtual(a + b) == RemoveVirtual(a) + RemoveVirtual(b)
    decreases |b|
  {
    if b == [] {
      assert a + b == a;
    } else {
      assert (a + b)[..|a + b| - 1] == a + b[..|b| - 1];
      RemoveVirtualJoin(a, b[..|b| - 1]);
    }
  }

  lemma {:induction false} NothingVirtual(a: seq<Message>)
    requires forall m :: m in a ==> !m.isVirtual
    ensures RemoveVirtual(a) == a
    decreases |a|
  {
    if a != [] {
      NothingVirtual(a[..|a| - 1]);
      assert a == a[..|a| - 1] + [a[|a| - 1]];
    }
  }

  lemma {:induction false} RemoveVirtualPaired(messages: seq<Message>)
    requires Paired(messages) && VirtualIsNeutral(messages)
    ensures Paired(RemoveVirtual(messages))
    decreases |messages|
  {
    if messages != [] {
      var n := BlockLength(messages);
      var block, rest := messages[..n], messages[n..];
      assert messages == block + rest;
      RemoveVirtualPaired(rest);
      RemoveVirtualJoin(block, rest);
      if messages[0].isVirtual {
        assert block[..|block| - 1] == [];
        assert RemoveVirtual(block) == [];
        assert RemoveVirtual(messages) == RemoveVirtual(rest);
      } else {
        forall m | m in block
          ensures !m.isVirtual
        {
          assert forall k :: 1 <= k < n ==> messages[k] == messages[1..][k - 1];
        }
        NothingVirtual(block);
        BlockIsPaired(messages, n);
        PairedJoin(block, RemoveVirtual(rest));
      }
    }
  }

  lemma BlockIsPaired(messages: seq<Message>, n: nat)
    requires messages != [] && Paired(messages)
    requires n == BlockLength(messages)
    ensures n <= |messages| && Paired(messages[..n])
  {
    var block := messages[..n];
    if messages[0].role == Assistant {
      assert block[1..] == messages[1..][..n - 1];
    }
    assert block[n..] == [];
  }

  lemma {:induction false} HeadsAreSystem(messages: seq<Message>)
    ensures forall m :: m in Heads(messages) ==> m.role == System
  {
    if messages != [] {
      HeadsAreSystem(messages[..|messages| - 1]);
    }
  }

  lemma {:induction false} SystemIsPaired(messages: seq<Message>)
    requires forall m :: m in messages ==> m.role == System
    ensures Paired(messages)
  {
    if messages != [] {
      SystemIsPaired(messages[1..]);
    }
  }

  /** The window is cut between blocks, so stages 1 to 4 keep the pairing. */
  lemma KeptIsPaired(messages: seq<Message>)
    requires Paired(messages) && VirtualIsNeutral(messages)
    ensures Paired(Kept(messages))
  {
    var visible := RemoveVirtual(messages);
    RemoveVirtualPaired(messages);
    var head, tail := visible[..Cut(visible)], visible[Cut(visible)..];
    assert visible == head + tail;
    PairedCut(head, tail);
    HeadsAreSystem(head);
    SystemIsPaired(Heads(head));
    PairedJoin(Heads(head), tail);
  }

  /** In a paired list the only call id without a result is the empty one. */
  lemma MissingIsEmptyId(messages: seq<Message>)
    requires Paired(messages)
    ensures Missing(messages) == if "" in CallIds(messages) then {""} else {}
  {
    PairedMeansAnswered(messages);
    forall id | id in CallIds(messages) && id != ""
      ensures id in ResultIds(messages)
    {
      var m, c :| m in messages && m.role == Assistant && c in m.toolCalls && c.id == id;
      var i :| 0 <= i < |messages| && messages[i] == m;
      var k :| 0 <= k < |m.toolCalls| && m.toolCalls[k] == c;
      assert AnsweredAt(messages, i, k);
      assert messages[i + 1 + k] in messages;
    }
  }

  lemma FoldKeepsShape(merged: seq<Message>, m: Message)
    requires Folds(merged, m)
    ensures SameShape(merged, Append(merged, m))
  {
  }

  lemma AppendPaired(merged: seq<Message>, messages: seq<Message>)
    requires messages != [] && Paired(merged + messages)
    ensures Paired(Append(merged, messages[0]) + messages[1..])
  {
    var m := messages[0];
    if Folds(merged, m) {
      PairedCut(merged, messages);
      assert BlockLength(messages) == 1;
      FoldKeepsShape(merged, m);
      PairedByShape(merged, Append(merged, m));
      PairedJoin(Append(merged, m), messages[1..]);
    } else {
      assert merged + messages == merged + [m] + messages[1..];
    }
  }

  lemma {:induction false} CoalescePaired(merged: seq<Message>, messages: seq<Message>)
    requires Paired(merged + messages)
    ensures Paired(CoalesceOnto(merged, messages))
    decreases |messages|
  {
    if messages == [] {
      assert merged + messages == merged;
    } else {
      AppendPaired(merged, messages);
      CoalescePaired(Append(merged, messages[0]), messages[1..]);
    }
  }

  lemma FirstIsListed(ids: seq<string>)
    requires ids != []
    ensures ids[0] in ids
  {
  }

  lemma ListsNothing(ids: seq<string>)
    requires Lists(ids, {})
    ensures ids == []
  {
    if ids != [] {
      FirstIsListed(ids);
    }
  }

  lemma SecondDiffers(ids: seq<string>)
    requires |ids| > 1 && forall i, j :: 0 <= i < j < |ids| ==> ids[i] != ids[j]
    ensures ids[0] != ids[1]
  {
  }

  lemma ListsOne(ids: seq<string>, id: string)
    requires Lists(ids, {id})
    ensures ids == [id]
  {
    assert id in ids;
    forall i | 0 <= i < |ids|
      ensures ids[i] == id
    {
      assert ids[i] in ids;
    }
    if |ids| > 1 {
      SecondDiffers(ids);
    }
  }

  /** A result for the empty id, appended at the end, belongs to no call. */
  lemma StrayPlaceholder(kept: seq<Message>, stray: Message)
    requires Paired(kept) && stray.role == Tool
    ensures !Paired(Coalesce(kept + [stray]))
  {
    CoalesceOne(kept + [stray], |kept|);
    assert (kept + [stray])[..|kept|] == kept && (kept + [stray])[..|kept| + 1] == kept + [stray];
    assert [] + kept == kept;
    CoalescePaired([], kept);
    NoStrayResult(Coalesce(kept), stray);
  }

  /** If stages 1 to 4 leave a paired list, what the provider is sent is paired exactly if no call in it
      has an empty id. */
  lemma KeptProjectsPaired(messages: seq<Message>, out: seq<Message>)
    requires Paired(Kept(messages)) && IsProjection(messages, out)
    ensures Paired(out) <==> "" !in CallIds(Kept(messages))
  {
    var kept := Kept(messages);
    MissingIsEmptyId(kept);
    var ids :| Lists(ids, Missing(kept)) && out == Coalesce(kept + Placeholders(ids));
    if "" in CallIds(kept) {
      ListsOne(ids, "");
      assert Placeholders(ids) == [Placeholder("")];
      StrayPlaceholder(kept, Placeholder(""));
    } else {
      ListsNothing(ids);
      assert kept + Placeholders(ids) == kept;
      assert [] + kept == kept;
      CoalescePaired([], kept);
    }
  }

  /** So the projection of a paired list is paired, if and only if no call in the window has an empty id. */
  lemma ProjectionIsPaired(messages: seq<Message>, out: seq<Message>)
    requires Paired(messages) && VirtualIsNeutral(messages) && IsProjection(messages, out)
    ensures Paired(out) <==> "" !in CallIds(Kept(messages))
  {
    KeptIsPaired(messages);
    KeptProjectsPaired(messages, out);
  }
}
