/** Chat messages (src/providers/llm_provider.hpp).  The role strings the program compares with are
    constructors; any other role text is kept. */
module Messages {

  datatype Role = System | User | Assistant | Tool | Other(name: string)

  datatype ToolCall = ToolCall(id: string, name: string, arguments: map<string, string>)

  datatype ContentPart = ContentPart(kind: string, text: string, imageUrl: string)

  datatype Message = Message(
    role: Role,
    content: string,
    name: string,
    toolCallId: string,
    toolCalls: seq<ToolCall>,
    contentParts: seq<ContentPart>,
    usage: map<string, int>,
    isVirtual: bool)

  function Text(role: Role, content: string): Message {
    Message(role, content, "", "", [], [], map[], false)
  }

  function Result(id: string, name: string, content: string): Message {
    Text(Tool, content).(toolCallId := id, name := name)
  }

  /** The ids that assistant messages ask results for. */
  function CallIds(messages: seq<Message>): set<string> {
    set m, c | m in messages && m.role == Assistant && c in m.toolCalls :: c.id
  }

  /** The non-empty ids that tool messages carry. */
  function ResultIds(messages: seq<Message>): set<string> {
    set m | m in messages && m.role == Tool && m.toolCallId != "" :: m.toolCallId
  }

  function CountUsers(messages: seq<Message>): nat {
    if messages == [] then 0
    else CountUsers(messages[..|messages| - 1]) + if messages[|messages| - 1].role == User then 1 else 0
  }

  lemma {:induction false} CountUsersJoin(a: seq<Message>, b: seq<Message>)
    ensures CountUsers(a + b) == CountUsers(a) + CountUsers(b)
    decreases |b|
  {
    if b == [] {
      assert a + b == a;
    } else {
      assert (a + b)[..|a + b| - 1] == a + b[..|b| - 1];
      CountUsersJoin(a, b[..|b| - 1]);
    }
  }

  lemma {:induction false} NoUsers(a: seq<Message>)
    requires forall m :: m in a ==> m.role != User
    ensures CountUsers(a) == 0
    decreases |a|
  {
    if a != [] {
      NoUsers(a[..|a| - 1]);
    }
  }

  lemma CountOne(m: Message)
    ensures CountUsers([m]) == if m.role == User then 1 else 0
  {
    assert [m][..0] == [];
  }

  lemma SomeUser(a: seq<Message>)
    requires a != [] && a[0].role == User
    ensures CountUsers(a) >= 1
  {
    assert a == [a[0]] + a[1..];
    CountUsersJoin([a[0]], a[1..]);
    CountOne(a[0]);
  }

  lemma TailHasFewer(a: seq<Message>, r: nat)
    requires r <= |a|
    ensures CountUsers(a[r..]) <= CountUsers(a)
  {
    assert a == a[..r] + a[r..];
    CountUsersJoin(a[..r], a[r..]);
  }
}
