/** The session tables and the cache in front of them (src/session/session_manager.cpp).

    SQL statements succeed.  A text column holds what `sqlite3_bind_text` stores when it is given a C
    string and the length -1: everything up to the first NUL.
  */
module SessionStore {
  import opened Messages
  import opened Json
  import opened Options
  import opened Session

  // ---------------------------------------------------------------------------------------------
  // Tool calls as JSON
  // ---------------------------------------------------------------------------------------------

  function SerializeCall(call: ToolCall): Json {
    Obj(map["id" := Str(call.id), "name" := Str(call.name),
            "arguments" := Obj(map k | k in call.arguments :: Str(call.arguments[k]))])
  }

  function SerializeCalls(calls: seq<ToolCall>): (r: seq<Json>)
    ensures |r| == |calls|
  {
    seq(|calls|, i requires 0 <= i < |calls| => SerializeCall(calls[i]))
  }

  /** The text of the column, `None` for NULL. */
  function SerializeToolCalls(calls: seq<ToolCall>): Option<Json> {
    if calls == [] then None else Some(Arr(SerializeCalls(calls)))
  }

  /** `entry.value(key, "")`, which throws (`None`) on a value that is not text. */
  function Member(entry: Json, key: string): Option<string> {
    if !entry.Obj? then None
    else if key !in entry.fields then Some("")
    else if entry.fields[key].Str? then Some(entry.fields[key].s)
    else None
  }

  function ParseCall(entry: Json, dump: Json -> string): Option<ToolCall> {
    var id, name := Member(entry, "id"), Member(entry, "name");
    if id.None? || name.None? then None
    else if "arguments" in entry.fields && entry.fields["arguments"].Obj? then
      var args := entry.fields["arguments"].fields;
      Some(ToolCall(id.value, name.value, map k | k in args :: if args[k].Str? then args[k].s else dump(args[k])))
    else Some(ToolCall(id.value, name.value, map[]))
  }

  function ParseCalls(entries: seq<Json>, dump: Json -> string): Option<seq<ToolCall>> {
    if entries == [] then Some([])
    else
      var first, rest := ParseCall(entries[0], dump), ParseCalls(entries[1..], dump);
      if first.None? || rest.None? then None else Some([first.value] + rest.value)
  }

  function ParseToolCalls(text: Option<Json>, dump: Json -> string): Option<seq<ToolCall>> {
    if text.None? || !text.value.Arr? then Some([]) else ParseCalls(text.value.items, dump)
  }

  /** A member that is asked for as text: missing, or text, or an exception. */
  ghost predicate IsTextOrMissing(entry: Json, key: string) {
    entry.Obj? && (key in entry.fields ==> entry.fields[key].Str?)
  }

  /** A call that any other program wrote: members that are missing are empty, arguments that are no text are
      printed, and an `id` or `name` that is no text is an exception. */
  ghost predicate IsParsed(entry: Json, dump: Json -> string, call: ToolCall) {
    && IsTextOrMissing(entry, "id") && IsTextOrMissing(entry, "name")
    && call.id == (if "id" in entry.fields then entry.fields["id"].s else "")
    && call.name == (if "name" in entry.fields then entry.fields["name"].s else "")
    && (if "arguments" in entry.fields && entry.fields["arguments"].Obj?
        then && call.arguments.Keys == entry.fields["arguments"].fields.Keys
             && forall k :: k in call.arguments ==>
                  var value := entry.fields["arguments"].fields[k];
                  call.arguments[k] == if value.Str? then value.s else dump(value)
        else call.arguments == map[])
  }

  lemma CallIsParsed(entry: Json, dump: Json -> string)
    ensures ParseCall(entry, dump).Some? <==> IsTextOrMissing(entry, "id") && IsTextOrMissing(entry, "name")
    ensures ParseCall(entry, dump).Some? ==> IsParsed(entry, dump, ParseCall(entry, dump).value)
  {
  }

  lemma {:induction false} CallsAreParsed(entries: seq<Json>, dump: Json -> string)
    ensures ParseCalls(entries, dump).None? <==>
            exists i :: 0 <= i < |entries|
                        && !(IsTextOrMissing(entries[i], "id") && IsTextOrMissing(entries[i], "name"))
    ensures ParseCalls(entries, dump).Some? ==>
              && |ParseCalls(entries, dump).value| == |entries|
              && forall i :: 0 <= i < |entries| ==> IsParsed(entries[i], dump, ParseCalls(entries, dump).value[i])
  {
    hide ParseCall, IsParsed, IsTextOrMissing;
    if entries != [] {
      CallIsParsed(entries[0], dump);
      CallsAreParsed(entries[1..], dump);
      assert forall i :: 1 <= i < |entries| ==> entries[i] == entries[1..][i - 1];
    }
  }

  /** What the `tool_calls` column reads as, whatever it holds: a column that is no array holds no calls. */
  lemma ToolCallsAreParsed(text: Option<Json>, dump: Json -> string)
    ensures text.None? || !text.value.Arr? ==> ParseToolCalls(text, dump) == Some([])
    ensures text.Some? && text.value.Arr? ==>
              var items, calls := text.value.items, ParseToolCalls(text, dump);
              && (calls.Some? <==>
                  forall i :: 0 <= i < |items| ==> IsTextOrMissing(items[i], "id") && IsTextOrMissing(items[i], "name"))
              && (calls.Some? ==>
                    && |calls.value| == |items|
                    && forall i :: 0 <= i < |items| ==> IsParsed(items[i], dump, calls.value[i]))
  {
    hide IsParsed, IsTextOrMissing;
    if text.Some? && text.value.Arr? {
      CallsAreParsed(text.value.items, dump);
    }
  }

  lemma CallRoundTrip(call: ToolCall, dump: Json -> string)
    ensures ParseCall(SerializeCall(call), dump) == Some(call)
  {
    var args := map k | k in call.arguments :: Str(call.arguments[k]);
    assert args.Keys == call.arguments.Keys;
    assert ParseCall(SerializeCall(call), dump).value.arguments == call.arguments;
  }

  lemma {:induction false} CallsRoundTrip(calls: seq<ToolCall>, dump: Json -> string)
    ensures ParseCalls(SerializeCalls(calls), dump) == Some(calls)
    decreases |calls|
  {
    if calls != [] {
      CallRoundTrip(calls[0], dump);
      CallsRoundTrip(calls[1..], dump);
      assert SerializeCalls(calls)[1..] == SerializeCalls(calls[1..]);
      assert calls == [calls[0]] + calls[1..];
    }
  }

  /** What is written to the `tool_calls` column reads back as the same calls. */
  lemma ToolCallsRoundTrip(calls: seq<ToolCall>, dump: Json -> string)
    ensures ParseToolCalls(SerializeToolCalls(calls), dump) == Some(calls)
  {
    CallsRoundTrip(calls, dump);
  }

  // ---------------------------------------------------------------------------------------------
  // Text columns
  // ---------------------------------------------------------------------------------------------

  /** What is left of a string that is passed as a C string. */
  function CStr(s: string): string {
    if s == [] || s[0] == '\0' then [] else [s[0]] + CStr(s[1..])
  }

  predicate NulFree(s: string) {
    '\0' !in s
  }

  lemma {:induction false} CStrKeepsIff(s: string)
    ensures CStr(s) == s <==> NulFree(s)
    ensures NulFree(CStr(s)) && CStr(CStr(s)) == CStr(s)
  {
    if s != [] && s[0] != '\0' {
      CStrKeepsIff(s[1..]);
      assert s == [s[0]] + s[1..];
      assert CStr(s)[1..] == CStr(s[1..]);
    }
  }

  /** It is the longest front of the string without a NUL. */
  lemma {:induction false} CStrIsFront(s: string)
    ensures CStr(s) <= s && NulFree(CStr(s)) && (|CStr(s)| < |s| ==> s[|CStr(s)|] == '\0')
  {
    if s != [] && s[0] != '\0' {
      CStrIsFront(s[1..]);
      assert s == [s[0]] + s[1..];
    }
  }

  function RoleText(role: Role): string {
    match role
    case System => "system"
    case User => "user"
    case Assistant => "assistant"
    case Tool => "tool"
    case Other(name) => name
  }

  function RoleOf(text: string): Role {
    if text == "system" then System
    else if text == "user" then User
    else if text == "assistant" then Assistant
    else if text == "tool" then Tool
    else Other(text)
  }

  /** A role comes back from its text, unless it is another role of the name of a known one. */
  lemma RoleComesBackIff(role: Role)
    ensures RoleOf(RoleText(role)) == role <==> !role.Other? || role.name !in {"system", "user", "assistant", "tool"}
  {
    assert "tool"[0] == 't' && "system"[0] == 's' && "user"[0] == 'u' && "assistant"[0] == 'a';
  }

  // ---------------------------------------------------------------------------------------------
  // The tables
  // ---------------------------------------------------------------------------------------------

  datatype Row = Row(
    id: nat,
    sessionKey: string,
    role: string,
    content: string,
    timestamp: string,
    name: string,
    toolCallId: string,
    toolCalls: Option<Json>,
    usageJson: Option<Json>)

  datatype SessionRow = SessionRow(createdAt: string, updatedAt: string, metadata: Json)

  datatype Tables = Tables(sessions: map<string, SessionRow>, rows: seq<Row>, nextId: nat)

  function RowFor(id: nat, key: string, m: SessionMessage): Row {
    Row(id, CStr(key), CStr(RoleText(m.role)), CStr(m.content), CStr(m.timestamp), CStr(m.name), CStr(m.toolCallId),
        SerializeToolCalls(m.toolCalls), m.usageJson)
  }

  function RowsFor(id: nat, key: string, messages: seq<SessionMessage>): (r: seq<Row>)
    ensures |r| == |messages|
  {
    seq(|messages|, i requires 0 <= i < |messages| => RowFor(id + i, key, messages[i]))
  }

  /** The rows that `WHERE session_key = key` selects, or the others. */
  function Select(rows: seq<Row>, key: string, matching: bool): seq<Row> {
    if rows == [] then []
    else
      var last := rows[|rows| - 1];
      Select(rows[..|rows| - 1], key, matching) + if (last.sessionKey == CStr(key)) == matching then [last] else []
  }

  function Insert(t: Tables, s: SessionState): Tables {
    Tables(t.sessions[CStr(s.key) := SessionRow(CStr(s.createdAt), CStr(s.updatedAt), s.metadata)],
           Select(t.rows, s.key, false) + RowsFor(t.nextId, s.key, s.messages),
           t.nextId + |s.messages|)
  }

  function Erase(t: Tables, key: string): Tables {
    t.(rows := Select(t.rows, key, false), sessions := t.sessions - {CStr(key)})
  }

  /** The `tool_calls` column of the row can be read: `ParseToolCalls` does not throw on it. */
  predicate IsReadable(row: Row, dump: Json -> string) {
    ParseToolCalls(row.toolCalls, dump).Some?
  }

  predicate AllReadable(rows: seq<Row>, dump: Json -> string) {
    forall i :: 0 <= i < |rows| ==> IsReadable(rows[i], dump)
  }

  /** A load of `key` ends with an exception. */
  predicate LoadThrows(t: Tables, key: string, dump: Json -> string) {
    CStr(key) in t.sessions && !AllReadable(Select(t.rows, key, true), dump)
  }

  /** The message of a readable row. */
  function RowMessage(row: Row, dump: Json -> string): SessionMessage {
    SessionMessage(RoleOf(row.role), row.content, row.timestamp, row.name, row.toolCallId,
                   ParseToolCalls(row.toolCalls, dump).GetOr([]), row.usageJson)
  }

  function RowMessages(rows: seq<Row>, dump: Json -> string): (r: seq<SessionMessage>)
    ensures |r| == |rows|
  {
    seq(|rows|, i requires 0 <= i < |rows| => RowMessage(rows[i], dump))
  }

  /** What a load of `key` yields unless it throws. */
  function Lookup(t: Tables, key: string, now: string, dump: Json -> string): Option<SessionState> {
    if CStr(key) !in t.sessions then None
    else
      var row := t.sessions[CStr(key)];
      var createdAt := if row.createdAt == "" then now else row.createdAt;
      Some(SessionState(key, RowMessages(Select(t.rows, key, true), dump), createdAt,
                        if row.updatedAt == "" then createdAt else row.updatedAt,
                        if row.metadata.Obj? then row.metadata else Obj(map[]), {}))
  }

  /** What a load yields, apart from the messages: a session without a date is dated now, one without a time of update
      has that of its creation, metadata that are no object are empty, and no file counts as read. */
  lemma LookupMeans(t: Tables, key: string, now: string, dump: Json -> string)
    ensures Lookup(t, key, now, dump).Some? <==> CStr(key) in t.sessions
    ensures CStr(key) in t.sessions ==>
              var row, s := t.sessions[CStr(key)], Lookup(t, key, now, dump).value;
              && s.key == key && s.readFilePaths == {}
              && s.createdAt == (if row.createdAt == "" then now else row.createdAt)
              && (row.updatedAt != "" ==> s.updatedAt == row.updatedAt)
              && (row.updatedAt == "" ==> s.updatedAt == s.createdAt)
              && s.metadata == (if row.metadata.Obj? then row.metadata else Obj(map[]))
              && s.messages == RowMessages(Select(t.rows, key, true), dump)
  {
  }

  // ---------------------------------------------------------------------------------------------
  // Selecting
  // ---------------------------------------------------------------------------------------------

  lemma {:induction false} SelectJoin(a: seq<Row>, b: seq<Row>, key: string, matching: bool)
    ensures Select(a + b, key, matching) == Select(a, key, matching) + Select(b, key, matching)
    decreases |b|
  {
    if b == [] {
      assert a + b == a;
    } else {
      assert (a + b)[..|a + b| - 1] == a + b[..|b| - 1];
      SelectJoin(a, b[..|b| - 1], key, matching);
    }
  }

  lemma {:induction false} SelectAll(rows: seq<Row>, key: string, matching: bool)
    requires forall i :: 0 <= i < |rows| ==> (rows[i].sessionKey == CStr(key)) == matching
    ensures Select(rows, key, matching) == rows
    ensures Select(rows, key, !matching) == []
    decreases |rows|
  {
    if rows != [] {
      SelectAll(rows[..|rows| - 1], key, matching);
      assert rows == rows[..|rows| - 1] + [rows[|rows| - 1]];
    }
  }

  lemma SelectOne(row: Row, key: string, matching: bool)
    ensures Select([row], key, matching) == if (row.sessionKey == CStr(key)) == matching then [row] else []
  {
    assert [row][..0] == [];
  }

  /** Deleting one key's rows leaves those of any other key as they were. */
  lemma {:induction false} SelectOther(rows: seq<Row>, key: string, other: string)
    requires CStr(key) != CStr(other)
    ensures Select(Select(rows, key, false), other, true) == Select(rows, other, true)
    decreases |rows|
  {
    if rows != [] {
      var front, last := rows[..|rows| - 1], rows[|rows| - 1];
      SelectOther(front, key, other);
      assert Select(rows, key, false) == if last.sessionKey != CStr(key) then Select(front, key, false) + [last]
             else Select(front, key, false);
      assert Select(rows, other, true) == if last.sessionKey == CStr(other) then Select(front, other, true) + [last]
             else Select(front, other, true);
      if last.sessionKey != CStr(key) {
        SelectJoin(Select(front, key, false), [last], other, true);
        SelectOne(last, other, true);
      }
    }
  }

  lemma {:induction false} SelectSame(rows: seq<Row>, key: string, same: string)
    requires CStr(key) == CStr(same)
    ensures Select(Select(rows, key, false), same, true) == []
    decreases |rows|
  {
    if rows != [] {
      var front, last := rows[..|rows| - 1], rows[|rows| - 1];
      SelectSame(front, key, same);
      assert Select(rows, key, false) == if last.sessionKey != CStr(key) then Select(front, key, false) + [last]
             else Select(front, key, false);
      assert Select(rows, same, true) == if last.sessionKey == CStr(same) then Select(front, same, true) + [last]
             else Select(front, same, true);
      if last.sessionKey != CStr(key) {
        SelectJoin(Select(front, key, false), [last], same, true);
        SelectOne(last, same, true);
      }
    }
  }

  // ---------------------------------------------------------------------------------------------
  // The store is a map
  // ---------------------------------------------------------------------------------------------

  /** What a saved message reads as when it is loaded again. */
  function Reread(m: SessionMessage): SessionMessage {
    SessionMessage(RoleOf(CStr(RoleText(m.role))), CStr(m.content), CStr(m.timestamp), CStr(m.name), CStr(m.toolCallId),
                   m.toolCalls, m.usageJson)
  }

  function RereadAll(messages: seq<SessionMessage>): (r: seq<SessionMessage>)
    ensures |r| == |messages|
  {
    seq(|messages|, i requires 0 <= i < |messages| => Reread(messages[i]))
  }

  /** No text is cut short, and the role is the one its text names. */
  predicate CleanMessage(m: SessionMessage) {
    && NulFree(RoleText(m.role)) && RoleOf(RoleText(m.role)) == m.role
    && NulFree(m.content) && NulFree(m.timestamp) && NulFree(m.name) && NulFree(m.toolCallId)
  }

  lemma RereadIff(m: SessionMessage)
    requires RoleOf(RoleText(m.role)) == m.role
    ensures Reread(m) == m <==> CleanMessage(m)
  {
    CStrKeepsIff(RoleText(m.role));
    CStrKeepsIff(m.content);
    CStrKeepsIff(m.timestamp);
    CStrKeepsIff(m.name);
    CStrKeepsIff(m.toolCallId);
    assert RoleText(RoleOf(CStr(RoleText(m.role)))) == CStr(RoleText(m.role));
  }

  /** After a save, the key (and any key that differs only behind a NUL) yields the saved messages,
      each as it reads after the round trip, in order. */
  lemma LoadAfterSave(t: Tables, s: SessionState, key: string, now: string, dump: Json -> string)
    requires CStr(key) == CStr(s.key)
    ensures Lookup(Insert(t, s), key, now, dump).Some?
    ensures Lookup(Insert(t, s), key, now, dump).value.messages == RereadAll(s.messages)
    ensures !LoadThrows(Insert(t, s), key, dump)
  {
    InsertedRows(t, s, key);
    RowsReread(t.nextId, s.key, s.messages, dump);
    RowsAreReadable(t.nextId, s.key, s.messages, dump);
  }

  lemma RowsAreReadable(id: nat, key: string, messages: seq<SessionMessage>, dump: Json -> string)
    ensures AllReadable(RowsFor(id, key, messages), dump)
  {
    forall i | 0 <= i < |messages|
      ensures IsReadable(RowsFor(id, key, messages)[i], dump)
    {
      ToolCallsRoundTrip(messages[i].toolCalls, dump);
    }
  }

  lemma {:induction false} SelectReadable(rows: seq<Row>, key: string, matching: bool, dump: Json -> string)
    requires AllReadable(rows, dump)
    ensures AllReadable(Select(rows, key, matching), dump)
    decreases |rows|
  {
    if rows != [] {
      SelectReadable(rows[..|rows| - 1], key, matching, dump);
      assert IsReadable(rows[|rows| - 1], dump);
    }
  }

  /** Tables that hold only what was saved never make a load throw. */
  lemma StoreStaysReadable(t: Tables, s: SessionState, key: string, dump: Json -> string)
    requires AllReadable(t.rows, dump)
    ensures AllReadable(Insert(t, s).rows, dump) && AllReadable(Erase(t, key).rows, dump)
    ensures !LoadThrows(t, key, dump)
  {
    RowsAreReadable(t.nextId, s.key, s.messages, dump);
    SelectReadable(t.rows, s.key, false, dump);
    SelectReadable(t.rows, key, false, dump);
    SelectReadable(t.rows, key, true, dump);
  }

  lemma RowsAreFor(id: nat, key: string, messages: seq<SessionMessage>)
    ensures forall i :: 0 <= i < |messages| ==> RowsFor(id, key, messages)[i].sessionKey == CStr(key)
  {
  }

  lemma InsertedRows(t: Tables, s: SessionState, key: string)
    requires CStr(key) == CStr(s.key)
    ensures Select(Insert(t, s).rows, key, true) == RowsFor(t.nextId, s.key, s.messages)
  {
    RowsAreFor(t.nextId, s.key, s.messages);
    SelectSame(t.rows, s.key, key);
    SelectBehind(Select(t.rows, s.key, false), RowsFor(t.nextId, s.key, s.messages), key);
  }

  lemma SelectBehind(kept: seq<Row>, inserted: seq<Row>, key: string)
    requires forall i :: 0 <= i < |inserted| ==> inserted[i].sessionKey == CStr(key)
    ensures Select(kept + inserted, key, true) == Select(kept, key, true) + inserted
  {
    SelectJoin(kept, inserted, key, true);
    SelectAll(inserted, key, true);
  }

  lemma RowsReread(id: nat, key: string, messages: seq<SessionMessage>, dump: Json -> string)
    ensures RowMessages(RowsFor(id, key, messages), dump) == RereadAll(messages)
  {
    var rows := RowsFor(id, key, messages);
    forall i | 0 <= i < |messages|
      ensures RowMessages(rows, dump)[i] == RereadAll(messages)[i]
    {
      ToolCallsRoundTrip(messages[i].toolCalls, dump);
    }
  }

  // ---------------------------------------------------------------------------------------------
  // The order of the rows
  // ---------------------------------------------------------------------------------------------

  /** The rows stand in the order of their ids, which are all below this. */
  ghost predicate IdsIncrease(rows: seq<Row>, bound: nat) {
    && (forall i, j :: 0 <= i < j < |rows| ==> rows[i].id < rows[j].id)
    && forall i :: 0 <= i < |rows| ==> rows[i].id < bound
  }

  lemma {:induction false} SelectKeepsOrder(rows: seq<Row>, key: string, matching: bool, bound: nat)
    requires IdsIncrease(rows, bound)
    ensures IdsIncrease(Select(rows, key, matching), bound)
    decreases |rows|
  {
    if rows != [] {
      var front, last := rows[..|rows| - 1], rows[|rows| - 1];
      SelectKeepsOrder(front, key, matching, last.id);
    }
  }

  lemma InsertKeepsOrder(rows: seq<Row>, id: nat, key: string, messages: seq<SessionMessage>)
    requires IdsIncrease(rows, id)
    ensures IdsIncrease(rows + RowsFor(id, key, messages), id + |messages|)
  {
    var inserted := RowsFor(id, key, messages);
    assert forall i :: 0 <= i < |inserted| ==> inserted[i].id == id + i;
  }

  /** Saving and deleting keep the rows in the order of their ids, so that order is the order of the rows in which a
      session is loaded. */
  lemma StoreStaysOrdered(t: Tables, s: SessionState, key: string)
    requires IdsIncrease(t.rows, t.nextId)
    ensures IdsIncrease(Insert(t, s).rows, Insert(t, s).nextId) && IdsIncrease(Erase(t, key).rows, Erase(t, key).nextId)
    ensures IdsIncrease(Select(t.rows, key, true), t.nextId)
  {
    hide IdsIncrease, Select, RowsFor;
    SelectKeepsOrder(t.rows, s.key, false, t.nextId);
    InsertKeepsOrder(Select(t.rows, s.key, false), t.nextId, s.key, s.messages);
    SelectKeepsOrder(t.rows, key, false, t.nextId);
    SelectKeepsOrder(t.rows, key, true, t.nextId);
  }

  /** The messages come back unchanged exactly if none of their texts holds a NUL. */
  lemma SavedMessagesComeBackIff(t: Tables, s: SessionState, now: string, dump: Json -> string)
    requires forall m :: m in s.messages ==> RoleOf(RoleText(m.role)) == m.role
    ensures Lookup(Insert(t, s), s.key, now, dump).Some?
    ensures Lookup(Insert(t, s), s.key, now, dump).value.messages == s.messages <==>
            forall m :: m in s.messages ==> CleanMessage(m)
  {
    LoadAfterSave(t, s, s.key, now, dump);
    forall m | m in s.messages
      ensures Reread(m) == m <==> CleanMessage(m)
    {
      RereadIff(m);
    }
    var back := RereadAll(s.messages);
    if back == s.messages {
      forall m | m in s.messages
        ensures CleanMessage(m)
      {
        var i :| 0 <= i < |s.messages| && s.messages[i] == m;
        assert back[i] == m;
      }
    } else {
      var i :| 0 <= i < |back| && back[i] != s.messages[i];
      assert s.messages[i] in s.messages;
    }
  }

  /** Saving or deleting one session leaves every other as it was. */
  lemma OtherSessionsUntouched(t: Tables, s: SessionState, other: string, now: string, dump: Json -> string)
    requires CStr(other) != CStr(s.key)
    ensures Lookup(Insert(t, s), other, now, dump) == Lookup(t, other, now, dump)
    ensures Lookup(Erase(t, s.key), other, now, dump) == Lookup(t, other, now, dump)
    ensures LoadThrows(Insert(t, s), other, dump) == LoadThrows(Erase(t, s.key), other, dump) ==
            LoadThrows(t, other, dump)
  {
    SelectOther(t.rows, s.key, other);
    OtherRows(t, s, other);
  }

  lemma OtherRows(t: Tables, s: SessionState, other: string)
    requires CStr(other) != CStr(s.key)
    ensures Select(Insert(t, s).rows, other, true) == Select(t.rows, other, true)
  {
    RowsAreFor(t.nextId, s.key, s.messages);
    SelectOther(t.rows, s.key, other);
    NoneBehind(Select(t.rows, s.key, false), RowsFor(t.nextId, s.key, s.messages), other);
  }

  lemma NoneBehind(kept: seq<Row>, inserted: seq<Row>, other: string)
    requires forall i :: 0 <= i < |inserted| ==> inserted[i].sessionKey != CStr(other)
    ensures Select(kept + inserted, other, true) == Select(kept, other, true)
  {
    SelectJoin(kept, inserted, other, true);
    NoneSelected(inserted, other);
  }

  lemma NoneSelected(rows: seq<Row>, key: string)
    requires forall i :: 0 <= i < |rows| ==> rows[i].sessionKey != CStr(key)
    ensures Select(rows, key, true) == []
  {
    SelectAll(rows, key, false);
  }

  lemma DeletedSessionIsGone(t: Tables, key: string, now: string, dump: Json -> string)
    ensures Lookup(Erase(t, key), key, now, dump) == None
  {
  }

  /** Nothing of the session is lost on the way through the tables but the set of read files. */
  predicate Clean(s: SessionState) {
    && NulFree(s.key) && NulFree(s.createdAt) && NulFree(s.updatedAt) && s.createdAt != "" && s.updatedAt != ""
    && s.metadata.Obj?
    && forall i :: 0 <= i < |s.messages| ==> CleanMessage(s.messages[i])
  }

  lemma CleanSessionComesBack(t: Tables, s: SessionState, now: string, dump: Json -> string)
    requires Clean(s)
    ensures Lookup(Insert(t, s), s.key, now, dump) == Some(s.(readFilePaths := {}))
  {
    LoadAfterSave(t, s, s.key, now, dump);
    CStrKeepsIff(s.createdAt);
    CStrKeepsIff(s.updatedAt);
    forall i | 0 <= i < |s.messages|
      ensures Reread(s.messages[i]) == s.messages[i]
    {
      RereadIff(s.messages[i]);
    }
    assert RereadAll(s.messages) == s.messages;
  }

  // ---------------------------------------------------------------------------------------------
  // The manager
  // ---------------------------------------------------------------------------------------------

  /** Each cached session that has a dated row in the tables is what they hold, read files apart. */
  ghost predicate CoherentWith(cache: map<string, SessionState>, t: Tables, dump: Json -> string) {
    forall k, now :: k in cache && Clean(cache[k]) && CStr(k) in t.sessions && t.sessions[CStr(k)].createdAt != "" ==>
      Lookup(t, k, now, dump) == Some(cache[k].(readFilePaths := {}))
  }

  class SessionManager {
    const dump: Json -> string
    var cache: map<string, SessionState>
    var tables: Tables

    constructor (tables: Tables, dump: Json -> string)
      ensures this.tables == tables && cache == map[] && this.dump == dump
    {
      this.tables, this.dump, cache := tables, dump, map[];
    }

    ghost predicate Coherent()
      reads this
    {
      CoherentWith(cache, tables, dump)
    }

    ghost predicate KeysMatch()
      reads this
    {
      forall k :: k in cache ==> cache[k].key == k
    }

    /** The rows are read one after the other; the first that cannot be read ends the load. */
    method Load(key: string, now: string) returns (threw: bool, loaded: Option<SessionState>)
      ensures threw <==> LoadThrows(tables, key, dump)
      ensures !threw ==> loaded == Lookup(tables, key, now, dump)
    {
      if CStr(key) !in tables.sessions {
        return false, None;
      }
      var row := tables.sessions[CStr(key)];
      var messages: seq<SessionMessage> := [];
      for i := 0 to |tables.rows|
        invariant messages == RowMessages(Select(tables.rows[..i], key, true), dump)
        invariant AllReadable(Select(tables.rows[..i], key, true), dump)
      {
        assert tables.rows[..i + 1][..i] == tables.rows[..i];
        if tables.rows[i].sessionKey == CStr(key) {
          if ParseToolCalls(tables.rows[i].toolCalls, dump).None? {
            UnreadableIsSelected(tables.rows, key, i, dump);
            return true, None;
          }
          messages := messages + [RowMessage(tables.rows[i], dump)];
        }
      }
      assert tables.rows[..|tables.rows|] == tables.rows;
      var createdAt := if row.createdAt == "" then now else row.createdAt;
      var updatedAt := if row.updatedAt == "" then createdAt else row.updatedAt;
      var metadata := if row.metadata.Obj? then row.metadata else Obj(map[]);
      return false, Some(SessionState(key, messages, createdAt, updatedAt, metadata, {}));
    }

    method GetOrCreate(key: string, now: string) returns (session: Session?)
      modifies this`cache
      ensures session == null <==> key !in old(cache) && LoadThrows(tables, key, dump)
      ensures session == null ==> cache == old(cache)
      ensures session != null ==> fresh(session) && cache == old(cache)[key := session.State()]
      ensures session != null && key in old(cache) ==> session.State() == old(cache)[key]
      ensures session != null && key !in old(cache) && CStr(key) in tables.sessions ==>
                Some(session.State()) == Lookup(tables, key, now, dump)
      ensures session != null && key !in old(cache) && CStr(key) !in tables.sessions ==>
                session.State() == SessionState(key, [], now, now, Obj(map[]), {})
      ensures old(KeysMatch()) ==> KeysMatch()
      ensures old(Coherent()) ==> Coherent()
    {
      if key in cache {
        session := new Session.Copy(cache[key]);
        return;
      }
      var threw, loaded := Load(key, now);
      if threw {
        return null;
      }
      if loaded.Some? {
        cache := cache[key := loaded.value];
        session := new Session.Copy(loaded.value);
        LookupStable(tables, key, now, dump);
        return;
      }
      session := new Session(key, now);
      cache := cache[key := session.State()];
    }

    method Get(key: string, now: string) returns (threw: bool, session: Option<SessionState>)
      modifies this`cache
      ensures threw <==> key !in old(cache) && LoadThrows(tables, key, dump)
      ensures key in old(cache) ==> !threw && session == Some(old(cache)[key])
      ensures key !in old(cache) && !threw ==> session == Lookup(tables, key, now, dump)
      ensures cache == if !threw && session.Some? then old(cache)[key := session.value] else old(cache)
      ensures old(KeysMatch()) ==> KeysMatch()
      ensures old(Coherent()) ==> Coherent()
    {
      if key in cache {
        return false, Some(cache[key]);
      }
      threw, session := Load(key, now);
      if !threw && session.Some? {
        cache := cache[key := session.value];
        LookupStable(tables, key, now, dump);
      }
    }

    /** Deletes the rows of the session and inserts one per message, in order. */
    method Save(session: Session)
      modifies this`cache, this`tables
      ensures tables == Insert(old(tables), session.State())
      ensures cache == old(cache)[session.key := session.State()]
      ensures old(KeysMatch()) ==> KeysMatch()
      ensures old(Coherent()) && NulFree(session.key) && (forall k :: k in old(cache) ==> NulFree(k)) ==> Coherent()
    {
      ghost var before := tables;
      var s := session.State();
      var sessions := tables.sessions[CStr(s.key) := SessionRow(CStr(s.createdAt), CStr(s.updatedAt), s.metadata)];
      var rows := DeleteRows(tables.rows, s.key);
      var nextId;
      rows, nextId := InsertRows(rows, tables.nextId, s.key, s.messages);
      tables := Tables(sessions, rows, nextId);
      cache := cache[s.key := s];
      if old(Coherent()) && NulFree(s.key) && (forall k :: k in old(cache) ==> NulFree(k)) {
        SaveKeepsCoherence(old(cache), before, s, dump);
      }
    }

    method Delete(key: string)
      modifies this`cache, this`tables
      ensures tables == Erase(old(tables), key)
      ensures cache == old(cache) - {key}
      ensures old(KeysMatch()) ==> KeysMatch()
      ensures old(Coherent()) && NulFree(key) && (forall k :: k in old(cache) ==> NulFree(k)) ==> Coherent()
    {
      ghost var before := tables;
      cache := cache - {key};
      var rows := DeleteRows(tables.rows, key);
      tables := tables.(rows := rows, sessions := tables.sessions - {CStr(key)});
      if old(Coherent()) && NulFree(key) && (forall k :: k in old(cache) ==> NulFree(k)) {
        DeleteKeepsCoherence(old(cache), before, key, dump);
      }
    }
  }

  lemma {:induction false} UnreadableIsSelected(rows: seq<Row>, key: string, i: nat, dump: Json -> string)
    requires i < |rows| && rows[i].sessionKey == CStr(key) && !IsReadable(rows[i], dump)
    ensures !AllReadable(Select(rows, key, true), dump)
    decreases |rows|
  {
    var front, last := rows[..|rows| - 1], rows[|rows| - 1];
    var selected := Select(front, key, true) + if last.sessionKey == CStr(key) then [last] else [];
    if i < |front| {
      UnreadableIsSelected(front, key, i, dump);
      var k :| 0 <= k < |Select(front, key, true)| && !IsReadable(Select(front, key, true)[k], dump);
      assert !IsReadable(selected[k], dump);
    } else {
      assert !IsReadable(selected[|selected| - 1], dump);
    }
  }

  /** `DELETE FROM messages WHERE session_key = ?`. */
  method DeleteRows(rows: seq<Row>, key: string) returns (kept: seq<Row>)
    ensures kept == Select(rows, key, false)
  {
    kept := [];
    for i := 0 to |rows|
      invariant kept == Select(rows[..i], key, false)
    {
      assert rows[..i + 1][..i] == rows[..i];
      if rows[i].sessionKey != CStr(key) {
        kept := kept + [rows[i]];
      }
    }
    assert rows[..|rows|] == rows;
  }

  /** One `INSERT` per message, with increasing ids. */
  method InsertRows(rows0: seq<Row>, nextId0: nat, key: string, messages: seq<SessionMessage>) returns (rows: seq<Row>,
                    nextId: nat)
    ensures rows == rows0 + RowsFor(nextId0, key, messages) && nextId == nextId0 + |messages|
  {
    rows, nextId := rows0, nextId0;
    for i := 0 to |messages|
      invariant nextId == nextId0 + i
      invariant rows == rows0 + RowsFor(nextId0, key, messages)[..i]
    {
      rows := rows + [RowFor(nextId, key, messages[i])];
      nextId := nextId + 1;
    }
  }

  /** The clock matters only for a row without a creation time. */
  lemma LookupStable(t: Tables, key: string, now: string, dump: Json -> string)
    requires Lookup(t, key, now, dump).Some?
    ensures forall now' :: t.sessions[CStr(key)].createdAt != "" ==>
            Lookup(t, key, now', dump) == Lookup(t, key, now, dump)
  {
  }

  lemma SaveKeepsCoherence(cache: map<string, SessionState>, t: Tables, s: SessionState, dump: Json -> string)
    requires NulFree(s.key) && (forall k :: k in cache ==> NulFree(k)) && CoherentWith(cache, t, dump)
    ensures CoherentWith(cache[s.key := s], Insert(t, s), dump)
  {
    var cache', t' := cache[s.key := s], Insert(t, s);
    forall k, now | k in cache' && Clean(cache'[k]) && CStr(k) in t'.sessions && t'.sessions[CStr(k)].createdAt != ""
      ensures Lookup(t', k, now, dump) == Some(cache'[k].(readFilePaths := {}))
    {
      if k == s.key {
        CleanSessionComesBack(t, s, now, dump);
      } else {
        CStrKeepsIff(k);
        CStrKeepsIff(s.key);
        OtherSessionsUntouched(t, s, k, now, dump);
      }
    }
  }

  lemma DeleteKeepsCoherence(cache: map<string, SessionState>, t: Tables, key: string, dump: Json -> string)
    requires NulFree(key) && (forall k :: k in cache ==> NulFree(k)) && CoherentWith(cache, t, dump)
    ensures CoherentWith(cache - {key}, Erase(t, key), dump)
  {
    forall k, now | k in cache && k != key
      ensures Lookup(Erase(t, key), k, now, dump) == Lookup(t, k, now, dump)
    {
      CStrKeepsIff(k);
      CStrKeepsIff(key);
      OtherSessionsUntouched(t, SessionState(key, [], "", "", Null, {}), k, now, dump);
    }
  }
}
