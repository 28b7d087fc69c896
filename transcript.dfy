/** Transcript entries and their translation into the typed messages the
    completion client takes (app.py, `update_chat` and the conversion loop at
    the top of `get_chatgpt_response`). */
module Transcript {
  import opened Wrappers

  /** One transcript entry, the dictionary `{"role": role, "content": content}`.
      Roles are plain strings, as in the script. */
  datatype Message = Message(role: string, content: string)

  const System: string := "system"
  const User: string := "user"
  const Assistant: string := "assistant"

  /** The typed messages of the chat client, one constructor per known role. */
  datatype ChatMessage =
    | SystemMessage(content: string)
    | HumanMessage(content: string)
    | AIMessage(content: string)

  predicate KnownRole(role: string) {
    role == System || role == User || role == Assistant
  }

  /** The typed message one entry becomes; an entry with any other role has none. */
  function Typed(m: Message): Option<ChatMessage> {
    if m.role == System then Some(SystemMessage(m.content))
    else if m.role == User then Some(HumanMessage(m.content))
    else if m.role == Assistant then Some(AIMessage(m.content))
    else None
  }

  /** The entry a typed message stands for: the inverse of `Typed`. */
  function Untyped(c: ChatMessage): Message {
    match c
    case SystemMessage(s) => Message(System, s)
    case HumanMessage(s) => Message(User, s)
    case AIMessage(s) => Message(Assistant, s)
  }

  /** `Typed` and `Untyped` are inverse: an entry gets a typed message exactly
      when its role is known, and the typed message keeps role and content. */
  lemma TypedRoundTrip(m: Message, c: ChatMessage)
    ensures Typed(m).Some? <==> KnownRole(m.role)
    ensures KnownRole(m.role) ==> Untyped(Typed(m).value) == m
    ensures Typed(Untyped(c)) == Some(c)
  {
  }

  /** The translation of a whole transcript: the typed messages of its
      known-role entries, in transcript order. */
  function Translate(ms: seq<Message>): seq<ChatMessage> {
    if ms == [] then []
    else
      match Typed(ms[0])
      case Some(c) => [c] + Translate(ms[1..])
      case None => Translate(ms[1..])
  }

  /** The entries with a known role, in transcript order. */
  function KnownOnly(ms: seq<Message>): seq<Message> {
    if ms == [] then []
    else if KnownRole(ms[0].role) then [ms[0]] + KnownOnly(ms[1..])
    else KnownOnly(ms[1..])
  }

  function UntypedAll(cs: seq<ChatMessage>): (ms: seq<Message>)
    ensures |ms| == |cs|
  {
    seq(|cs|, i requires 0 <= i < |cs| => Untyped(cs[i]))
  }

  lemma {:induction false} TranslateAppend(a: seq<Message>, b: seq<Message>)
    ensures Translate(a + b) == Translate(a) + Translate(b)
  {
    if a != [] {
      assert (a + b)[0] == a[0];
      assert (a + b)[1..] == a[1..] + b;
      TranslateAppend(a[1..], b);
    } else {
      assert a + b == b;
    }
  }

  /** Translation keeps every known-role entry, in order, and only those:
      undoing it gives back exactly the known-role entries. */
  lemma {:induction false} TranslateRoundTrip(ms: seq<Message>)
    ensures UntypedAll(Translate(ms)) == KnownOnly(ms)
  {
    if ms != [] {
      TranslateRoundTrip(ms[1..]);
      var c := Typed(ms[0]);
      if c.Some? {
        assert UntypedAll([c.value] + Translate(ms[1..]))
            == [Untyped(c.value)] + UntypedAll(Translate(ms[1..]));
      }
    }
  }

  /** On a transcript whose roles are all known, translation maps entry `i`
      to the typed message of entry `i`. */
  lemma {:induction false} TranslateAllKnown(ms: seq<Message>)
    requires forall k :: 0 <= k < |ms| ==> KnownRole(ms[k].role)
    ensures |Translate(ms)| == |ms|
    ensures forall i :: 0 <= i < |ms| ==> Some(Translate(ms)[i]) == Typed(ms[i])
  {
    if ms != [] {
      TranslateAllKnown(ms[1..]);
      assert Translate(ms) == [Typed(ms[0]).value] + Translate(ms[1..]);
      forall i | 1 <= i < |ms| ensures Some(Translate(ms)[i]) == Typed(ms[i]) {
        assert ms[1..][i - 1] == ms[i];
      }
    }
  }

  /** The conversion loop: builds the typed list by appending one typed
      message per known-role entry. */
  method ToChatMessages(messages: seq<Message>) returns (newMessages: seq<ChatMessage>)
    ensures newMessages == Translate(messages)
  {
    newMessages := [];
    var i := 0;
    while i < |messages|
      invariant 0 <= i <= |messages|
      invariant newMessages == Translate(messages[..i])
    {
      var m := messages[i];
      TranslateAppend(messages[..i], [m]);
      assert messages[..i + 1] == messages[..i] + [m];
      if m.role == System {
        newMessages := newMessages + [SystemMessage(m.content)];
      } else if m.role == User {
        newMessages := newMessages + [HumanMessage(m.content)];
      } else if m.role == Assistant {
        newMessages := newMessages + [AIMessage(m.content)];
      }
      i := i + 1;
    }
    assert messages[..i] == messages;
  }
}
