/** Assembly of the message list sent to the chat model: the system prompt,
    the prior conversation, and the last message augmented with context. */
module Conversation {
  import opened Wrappers

  datatype Role = System | User | Assistant

  datatype Message = Message(role: Role, content: string)

  /** The fixed instruction text sent first in every request. Its wording is
      configuration data; the model holds it as an unspecified constant. */
  const SystemPrompt: string

  const SystemMessage: Message := Message(System, SystemPrompt)

  /** The outbound message list for a non-empty conversation `data` and a
      rendered context string. */
  function Outbound(data: seq<Message>, context: string): (r: seq<Message>)
    requires |data| > 0
    ensures |r| == |data| + 1
    ensures r[0] == SystemMessage
    ensures forall i :: 0 <= i < |data| - 1 ==> r[i + 1] == data[i]
    ensures r[|data|].role == User
    ensures r[|data|].content == data[|data| - 1].content + context
  {
    var last := data[|data| - 1];
    [SystemMessage] + data[..|data| - 1] + [Message(User, last.content + context)]
  }

  /** Undoes the assembly: drops the system message, strips `context` from
      the end of the last message and gives it back the role `lastRole`.
      None when `r` is not an outbound list for that context. */
  function Recover(r: seq<Message>, context: string, lastRole: Role): (d: Option<seq<Message>>)
    ensures d.Some? ==> |d.value| == |r| - 1 && |d.value| > 0 && d.value[|d.value| - 1].role == lastRole
  {
    if |r| < 2 || r[0] != SystemMessage then None
    else
      var last := r[|r| - 1];
      var n := |last.content|;
      if last.role != User || n < |context| || last.content[n - |context|..] != context then None
      else Some(r[1..|r| - 1] + [Message(lastRole, last.content[..n - |context|])])
  }

  /** Round trip: the assembly loses nothing but the role of the last
      message, so the conversation is recovered from the outbound list. */
  lemma RecoverOutbound(data: seq<Message>, context: string)
    requires |data| > 0
    ensures Recover(Outbound(data, context), context, data[|data| - 1].role) == Some(data)
  {
    var r := Outbound(data, context);
    var last := data[|data| - 1];
    var c := r[|r| - 1].content;
    assert c == last.content + context;
    assert c[..|last.content|] == last.content;
    assert c[|last.content|..] == context;
    assert r[1..|r| - 1] == data[..|data| - 1];
    assert data[..|data| - 1] + [last] == data;
  }

  /** Two conversations whose last messages have the same role lead to the
      same outbound list for a context only if they are equal. */
  lemma OutboundInjective(d1: seq<Message>, d2: seq<Message>, context: string)
    requires |d1| > 0 && |d2| > 0
    requires d1[|d1| - 1].role == d2[|d2| - 1].role
    requires Outbound(d1, context) == Outbound(d2, context)
    ensures d1 == d2
  {
    RecoverOutbound(d1, context);
    RecoverOutbound(d2, context);
  }

  /** Prefix preservation across turns: after one more message is added to
      the conversation, the outbound list still starts with the system
      message followed by the whole earlier conversation, unchanged. */
  lemma OutboundExtends(data: seq<Message>, m: Message, context: string)
    ensures Outbound(data + [m], context)[..|data| + 1] == [SystemMessage] + data
  {
  }

  /** The content of the conversation's last message is a prefix of the
      content of the outbound list's last message, and the rest of that
      content is exactly the context. */
  lemma AugmentedPrefix(data: seq<Message>, context: string)
    requires |data| > 0
    ensures var c := Outbound(data, context)[|data|].content;
      var q := data[|data| - 1].content;
      |q| <= |c| && c[..|q|] == q && c[|q|..] == context
  {
  }
}
