/**
 * The chat model (packages/jupyter-chat/src/model.ts): an identifier, a
 * configuration updated by shallow merge, a one-way disposed flag, and the
 * `incomingMessage` signal, kept here as the log of every message it emitted.
 */
module Model {
  import opened Wrappers
  import opened Types

  /** The constructor's options: an optional initial configuration. */
  datatype Options = Options(config: Option<Config>)

  /** What a send operation reports: sent, not sent, or nothing at all (`void`). */
  datatype SendOutcome = Sent | NotSent | NoOutcome

  /** The operations a chat model may or may not provide. */
  datatype Capability = UpdateMessage | DeleteMessage | GetHistory

  /**
   * The configuration setter's shallow merge `{ ...base, ...update }`: every key
   * present in `update` takes its value from there, every other key keeps its old value.
   */
  function Merge(base: Config, update: Config): (r: Config)
    ensures forall k :: Lookup(update, k).Some? ==> Lookup(r, k) == Lookup(update, k)
    ensures forall k :: Lookup(update, k).None? ==> Lookup(r, k) == Lookup(base, k)
  {
    Config(
      if update.sendWithShiftEnter.Some? then update.sendWithShiftEnter else base.sendWithShiftEnter,
      if update.lastRead.Some? then update.lastRead else base.lastRead)
  }

  /** Merging the empty configuration, on either side, changes nothing. */
  lemma MergeEmpty(c: Config)
    ensures Merge(c, EmptyConfig) == c
    ensures Merge(EmptyConfig, c) == c
  {
  }

  /** Applying the same update twice is the same as applying it once. */
  lemma MergeIdempotent(c: Config, u: Config)
    ensures Merge(Merge(c, u), u) == Merge(c, u)
  {
  }

  /** Two successive updates act as one update that merges them, later keys winning. */
  lemma MergeSequential(c: Config, u: Config, v: Config)
    ensures Merge(Merge(c, u), v) == Merge(c, Merge(u, v))
  {
  }

  /** Setting `lastRead` on a model configured to send with Shift+Enter keeps that setting. */
  lemma MergeKeepsSendWithShiftEnter()
    ensures Merge(Config(Some(true), None), Config(None, Some(1000))) == Config(Some(true), Some(1000))
  {
  }

  /** The default `formatChatMessage`: it returns the message it is given. */
  function DefaultFormat(m: ChatMessage): ChatMessage
  {
    m
  }

  class ChatModel {
    var id: string
    var config: Config
    var isDisposed: bool
    /** Every message emitted on the `incomingMessage` signal, oldest first. */
    var incoming: seq<Message>
    /** The `formatChatMessage` hook applied to chat messages before they are emitted. */
    const formatChatMessage: ChatMessage -> ChatMessage
    /** The optional operations this model implements. */
    const capabilities: set<Capability>

    /** `new ChatModel(options)`: the base model, whose hook is the identity. */
    constructor (options: Options)
      ensures config == (if options.config.Some? then options.config.value else EmptyConfig)
      ensures id == "" && !isDisposed && incoming == []
      ensures forall m :: formatChatMessage(m) == m
      ensures capabilities == {}
    {
      config := if options.config.Some? then options.config.value else EmptyConfig;
      id := "";
      isDisposed := false;
      incoming := [];
      formatChatMessage := DefaultFormat;
      capabilities := {};
    }

    /** A model whose subclass overrides `formatChatMessage` with `format`. */
    constructor WithFormat(options: Options, format: ChatMessage -> ChatMessage)
      ensures config == (if options.config.Some? then options.config.value else EmptyConfig)
      ensures id == "" && !isDisposed && incoming == []
      ensures formatChatMessage == format
      ensures capabilities == {}
    {
      config := if options.config.Some? then options.config.value else EmptyConfig;
      id := "";
      isDisposed := false;
      incoming := [];
      formatChatMessage := format;
      capabilities := {};
    }

    /** The `id` setter: the next read of `id` returns `value`; nothing else changes. */
    method SetId(value: string)
      modifies this
      ensures id == value
      ensures config == old(config) && isDisposed == old(isDisposed) && incoming == old(incoming)
    {
      id := value;
    }

    /** The `config` setter: a shallow merge of a partial configuration into the current one. */
    method SetConfig(value: Config)
      modifies this
      ensures config == Merge(old(config), value)
      ensures forall k :: Lookup(value, k).Some? ==> Lookup(config, k) == Lookup(value, k)
      ensures forall k :: Lookup(value, k).None? ==> Lookup(config, k) == old(Lookup(config, k))
      ensures id == old(id) && isDisposed == old(isDisposed) && incoming == old(incoming)
    {
      config := Merge(config, value);
    }

    /** The base `addMessage`: sends nothing, emits nothing, and returns nothing. */
    method AddMessage(message: NewMessage) returns (outcome: SendOutcome)
      ensures outcome == NoOutcome
    {
      outcome := NoOutcome;
    }

    /** `dispose`: sets the flag once; on a disposed model it returns at once. */
    method Dispose()
      modifies this
      ensures isDisposed
      ensures old(isDisposed) ==> unchanged(this)
      ensures id == old(id) && config == old(config) && incoming == old(incoming)
    {
      if isDisposed {
        return;
      }
      isDisposed := true;
    }

    /**
     * `onMessage`: emits exactly one message. A chat message is passed through
     * `formatChatMessage` first; a clear message is emitted as it is. There is
     * no guard on the disposed flag.
     */
    method OnMessage(message: Message)
      modifies this
      ensures message.Msg? ==> incoming == old(incoming) + [Msg(formatChatMessage(message.chat))]
      ensures message.Clear? ==> incoming == old(incoming) + [message]
      ensures id == old(id) && config == old(config) && isDisposed == old(isDisposed)
    {
      var emitted := message;
      if message.Type() == "msg" {
        emitted := Msg(formatChatMessage(message.chat));
      }
      incoming := incoming + [emitted];
    }
  }
}
