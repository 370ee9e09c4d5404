/**
 * The value types of the chat front end: users, configuration, the two kinds of
 * message, the chat history and the content of a message being composed
 * (packages/jupyter-chat/src/types.ts).
 */
module Types {
  import opened Wrappers

  /** A participant. Only `id` is required; every other field may be absent. */
  datatype User = User(
    id: string,
    username: Option<string>,
    name: Option<string>,
    display_name: Option<string>,
    initials: Option<string>,
    color: Option<string>,
    avatar_url: Option<string>)

  /**
   * The chat panel settings. Both keys are optional, so the empty configuration
   * is a configuration. `lastRead` is a JavaScript number used as a timestamp.
   */
  datatype Config = Config(sendWithShiftEnter: Option<bool>, lastRead: Option<int>)

  const EmptyConfig := Config(None, None)

  /** The keys of a configuration, and the values they can hold. */
  datatype ConfigKey = SendWithShiftEnterKey | LastReadKey

  datatype ConfigValue = BoolValue(b: bool) | NumberValue(n: int)

  /** The value stored under key `k` of `c`, or None when the key is absent. */
  function Lookup(c: Config, k: ConfigKey): Option<ConfigValue>
  {
    match k
    case SendWithShiftEnterKey =>
      if c.sendWithShiftEnter.Some? then Some(BoolValue(c.sendWithShiftEnter.value)) else None
    case LastReadKey =>
      if c.lastRead.Some? then Some(NumberValue(c.lastRead.value)) else None
  }

  /** Two configurations that agree on every key are the same configuration. */
  lemma ConfigExtensionality(a: Config, b: Config)
    requires forall k :: Lookup(a, k) == Lookup(b, k)
    ensures a == b
  {
    assert Lookup(a, SendWithShiftEnterKey) == Lookup(b, SendWithShiftEnterKey);
    assert Lookup(a, LastReadKey) == Lookup(b, LastReadKey);
  }

  /** A message written by a user: it always has a body, an id, a time and a sender. */
  datatype ChatMessage = ChatMessage(body: string, id: string, time: int, sender: User)

  /**
   * A message delivered to the chat: either a chat message (tag 'msg') or a
   * request to clear the displayed history (tag 'clear'), which carries nothing else.
   */
  datatype Message = Msg(chat: ChatMessage) | Clear
  {
    /** The discriminant `type` field of the message. */
    function Type(): (t: string)
      ensures t == "msg" <==> Msg?
      ensures t == "clear" <==> Clear?
    {
      match this
      case Msg(_) => "msg"
      case Clear => "clear"
    }
  }

  /** Two clear messages cannot differ: the tag is their whole content. */
  lemma ClearCarriesNoPayload(a: Message, b: Message)
    requires a.Type() == "clear" && b.Type() == "clear"
    ensures a == b
  {
  }

  /** The backlog of a chat: chat messages only, oldest first. */
  datatype ChatHistory = ChatHistory(messages: seq<ChatMessage>)
  {
    /** The history seen as a list of messages: every entry is a chat message. */
    function AsMessages(): (ms: seq<Message>)
      ensures |ms| == |messages|
      ensures forall i | 0 <= i < |ms| :: ms[i].Type() == "msg" && ms[i].chat == messages[i]
    {
      seq(|messages|, i requires 0 <= i < |messages| => Msg(messages[i]))
    }
  }

  /** The content of a message being composed: a body and an optional client id. */
  datatype NewMessage = NewMessage(body: string, id: Option<string>)
}
