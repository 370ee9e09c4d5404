# jupyter-chat: chat model, input rules and collaborative document

A Dafny model of the sequential logic of the jupyter-chat repository:

- `types.dfy` (module `Types`): the message and configuration types of the chat
  front end. A message is either a chat message (tag `msg`, with body, id, time
  and sender) or a clear message (tag `clear`, nothing else); a user needs only
  an id; both configuration keys are optional; a chat history holds chat
  messages only; a new message has a body and an optional id. Optional fields
  are `Option`s (`wrappers.dfy`).
- `model.dfy` (module `Model`): the `ChatModel` class. Its private state
  (`_id`, `_config`, `_isDisposed`) becomes the fields `id`, `config` and
  `isDisposed`; the `incomingMessage` signal becomes the append-only log
  `incoming` of emitted messages, so "exactly one emission, with this payload"
  is a postcondition. The configuration setter's shallow merge is the function
  `Merge`, stated key by key through `Lookup`. The protected
  `formatChatMessage` hook is a constant of the object: the identity for
  `new ChatModel(options)`, or a given pure, total function for a model built
  `WithFormat`, which stands for a subclass that overrides the hook without
  touching the model's state.
- `chat_input.dfy` (module `ChatInput`): the three decisions of the input box:
  whether a key press sends (and which event effects fire), whether the send
  button is disabled (`trim` modelled with ECMAScript's whitespace and line
  terminator characters), and which helper text shows (`length` counted in
  UTF-16 code units, as JavaScript does).
- `ychat.dfy` (module `YChatDoc`): the server-side `YChat` document with its
  two maps `users` and `messages`. `Set` takes the already decoded JSON input
  (None when the text is not JSON) and merges it with two loops that write one
  entry at a time, proved equal to the specification `ApplySet`; `Get`,
  `GetUsers` and `GetMessages` read the maps. The document version is the
  constant `Version`, `"1.0.0"`.

The base model does not define `updateMessage`, `deleteMessage` or
`getHistory`, so its `capabilities` set is empty; `id` may be written any
number of times.

## Model

| member | source | states |
|---|---|---|
| `Types.ConfigExtensionality` | packages/jupyter-chat/src/types.ts:22-25 | a configuration is determined by what its two optional keys hold |
| `Types.Message.Type` | packages/jupyter-chat/src/types.ts:30-42 | every message is exactly one of a chat message (tag "msg") or a clear message (tag "clear") |
| `Types.ClearCarriesNoPayload` | packages/jupyter-chat/src/types.ts:38-40 | a clear message carries nothing but its tag: any two are equal |
| `Types.ChatHistory.AsMessages` | packages/jupyter-chat/src/types.ts:47-49 | a history read as messages has one entry per chat message, each a chat message and never a clear message |
| `Model.Merge` | packages/jupyter-chat/src/model.ts:121-123 | the shallow merge overwrites every key present in the update and keeps every key absent from it |
| `Model.MergeEmpty` | packages/jupyter-chat/src/model.ts:121-123 | merging the empty configuration on either side changes nothing |
| `Model.MergeIdempotent` | packages/jupyter-chat/src/model.ts:121-123 | setting the same partial configuration twice equals setting it once |
| `Model.MergeSequential` | packages/jupyter-chat/src/model.ts:121-123 | two successive config writes equal one write of their merge |
| `Model.MergeKeepsSendWithShiftEnter` | packages/jupyter-chat/src/model.ts:121-123 | `{sendWithShiftEnter: true}` updated with `{lastRead: 1000}` is `{sendWithShiftEnter: true, lastRead: 1000}` |
| `Model.ChatModel.constructor` | packages/jupyter-chat/src/model.ts:101-103 | a new model has the given config or the empty one, id "", is not disposed, has emitted nothing, formats with the identity, and offers no optional capability |
| `Model.ChatModel.WithFormat` | packages/jupyter-chat/src/model.ts:174-176 | a model whose formatting hook is overridden starts like the base model but applies the given hook |
| `Model.ChatModel.SetId` | packages/jupyter-chat/src/model.ts:108-113 | after writing the id, reading it gives the written value; config, disposed flag and emissions are unchanged |
| `Model.ChatModel.SetConfig` | packages/jupyter-chat/src/model.ts:121-123 | the new config is the old one merged with the update, key by key; nothing else changes |
| `Model.ChatModel.AddMessage` | packages/jupyter-chat/src/model.ts:140 | the base `addMessage` returns nothing and changes no state, so emits nothing |
| `Model.ChatModel.Dispose` | packages/jupyter-chat/src/model.ts:156-161 | afterwards the model is disposed; on a disposed model the call changes nothing; id, config and emissions are kept |
| `Model.ChatModel.OnMessage` | packages/jupyter-chat/src/model.ts:183-189 | exactly one emission: the formatted message for a chat message, the message itself for a clear message; id, config and disposed flag unchanged, disposed or not |
| `ChatInput.Utf16Length` | packages/jupyter-chat/src/components/chat-input.tsx:71 | JavaScript's length lies between the number of characters and twice that, and is zero only for the empty string |
| `ChatInput.TrimStart` | packages/jupyter-chat/src/components/chat-input.tsx:60 | the result is a suffix of the input, everything dropped is whitespace, and it does not start with whitespace |
| `ChatInput.TrimEnd` | packages/jupyter-chat/src/components/chat-input.tsx:60 | the result is a prefix of the input, everything dropped is whitespace, and it does not end with whitespace |
| `ChatInput.Trim` | packages/jupyter-chat/src/components/chat-input.tsx:60 | the result is a slice `s[i..j]` of the input whose removed prefix and suffix are all whitespace, and it is empty or starts and ends with a non-whitespace character |
| `ChatInput.TrimEmptyIffBlank` | packages/jupyter-chat/src/components/chat-input.tsx:60 | trimming leaves nothing if and only if every character is whitespace |
| `ChatInput.SendDisabled` | packages/jupyter-chat/src/components/chat-input.tsx:60 | the send button is disabled if and only if the value is all whitespace |
| `ChatInput.HandleKeyDown` | packages/jupyter-chat/src/components/chat-input.tsx:19-29 | a press sends if and only if it is Enter with Shift held exactly when `sendWithShiftEnter`; then onSend, stopPropagation and preventDefault fire in that order, otherwise none does |
| `ChatInput.OnlyEnterSends` | packages/jupyter-chat/src/components/chat-input.tsx:20-21 | a key other than Enter never sends, whatever Shift and the setting |
| `ChatInput.SettingFlipsEnter` | packages/jupyter-chat/src/components/chat-input.tsx:22-23 | for a fixed Enter press, flipping `sendWithShiftEnter` flips whether it sends |
| `ChatInput.ShiftEnterHint` | packages/jupyter-chat/src/components/chat-input.tsx:32-40 | the hint is "Press Shift+Enter to send message" exactly when Shift+Enter sends, "Press Shift+Enter to add a new line" otherwise, and never the blank text |
| `ChatInput.HelperText` | packages/jupyter-chat/src/components/chat-input.tsx:71 | the hint shows exactly when the value is longer than two UTF-16 code units, and a single space otherwise |
| `ChatInput.HelperTextByCharacters` | packages/jupyter-chat/src/components/chat-input.tsx:71 | counted in characters, the hint shows for every value of three or more and for none of fewer than two |
| `ChatInput.HelperTextCountsCodeUnits` | packages/jupyter-chat/src/components/chat-input.tsx:71 | "ab" shows no hint, while "a" followed by an emoji (three code units) shows it |
| `YChatDoc.Overwrite` | packages/jupyterlab-collaborative-chat/jupyterlab_collaborative_chat/ychat.py:81-82 | updated keys take the new values, other keys keep theirs, no key is removed |
| `YChatDoc.MergeEntry` | packages/jupyterlab-collaborative-chat/jupyterlab_collaborative_chat/ychat.py:79-87 | an absent entry leaves the map as it is; an object entry overwrites the map with its entries; any other entry raises (None); a merged map keeps every old key |
| `YChatDoc.ApplySet` | packages/jupyterlab-collaborative-chat/jupyterlab_collaborative_chat/ychat.py:69-87 | undecodable input leaves the document unchanged and completes; no call removes a key from either map |
| `YChatDoc.SetMergesUsers` | packages/jupyterlab-collaborative-chat/jupyterlab_collaborative_chat/ychat.py:79-82 | the users map becomes the old one overwritten by the input's "users" object |
| `YChatDoc.SetMergesMessages` | packages/jupyterlab-collaborative-chat/jupyterlab_collaborative_chat/ychat.py:84-87 | when "users" is absent or an object, the messages map becomes the old one overwritten by the input's "messages" object and the call completes |
| `YChatDoc.SetMapsIndependent` | packages/jupyterlab-collaborative-chat/jupyterlab_collaborative_chat/ychat.py:79-84 | an absent "users" or "messages" key leaves that map unchanged |
| `YChatDoc.YChat.constructor` | packages/jupyterlab-collaborative-chat/jupyterlab_collaborative_chat/ychat.py:15-18 | a new document has two empty maps |
| `YChatDoc.YChat.GetUsers` | packages/jupyterlab-collaborative-chat/jupyterlab_collaborative_chat/ychat.py:33-41 | the users map wrapped under the single key "users" |
| `YChatDoc.YChat.GetMessages` | packages/jupyterlab-collaborative-chat/jupyterlab_collaborative_chat/ychat.py:47-55 | the messages map wrapped under the single key "messages" |
| `YChatDoc.YChat.Get` | packages/jupyterlab-collaborative-chat/jupyterlab_collaborative_chat/ychat.py:57-67 | an object with exactly the keys "messages" and "users", holding the current maps |
| `YChatDoc.YChat.Set` | packages/jupyterlab-collaborative-chat/jupyterlab_collaborative_chat/ychat.py:69-87 | the entry-by-entry loops, in any iteration order, leave the document and outcome given by `ApplySet` |
| `YChatDoc.SetOfGetIsIdentity` | packages/jupyterlab-collaborative-chat/jupyterlab_collaborative_chat/ychat.py:57-87 | setting the document that `get` produced changes neither map and completes normally |

## Left out

- Listeners of the `incomingMessage` signal and their synchronous delivery are library behaviour; the model records what is emitted, not who receives it. The signal's sender (always the model itself) is not recorded.
- The Promise in the return type of `addMessage` is not modelled; the base method returns synchronously.
- `updateMessage`, `deleteMessage` and `getHistory` are declared but not defined on the base model; they appear only as the empty `capabilities` set.
- The `user` property of the chat model interface is not defined by `ChatModel` and is not modelled; nor is the empty `ISettings` interface.
- `Model.Merge`: a partial configuration holding a key explicitly set to `undefined` erases that key under JavaScript's spread; `Option` cannot tell such a key from an absent one, so the model keeps the old value. Keys outside the two declared ones are not modelled.
- JavaScript numbers (`time`, `lastRead`) are modelled as unbounded integers, not as floating point; JSON numbers are kept as their literal text.
- JavaScript strings that hold unpaired UTF-16 surrogates cannot be written as Dafny strings and are not modelled.
- The React and MUI rendering of the input box, its `onChange` pass-through, the send button's `onClick` and the styling are not modelled; the helper text is its text content, without the bold markup.
- `YChat`'s `observe`/`unobserve` subscriptions, pycrdt transactions and CRDT synchronisation, and the `YBaseDoc` plumbing are not modelled; nor are JSON encoding and decoding themselves: `Set` takes the decoded value and `Get` returns it.
- A Python exception in `set` (input that is not a JSON object, or a "users"/"messages" entry that is not an object) is modelled as the outcome `Raised`, with whatever merge happened before it; nothing of the exception itself is modelled.
- src/widgets/chat-sidebar.tsx only builds a widget (id, icon, caption) and has no logic; src/__tests__/widgets.spec.ts tests a widget class that is not part of this model.
- `Model.ChatModel.WithFormat`: the hook is a pure, total function of the message. An overriding `formatChatMessage` in TypeScript is a method that may read or write the model's fields or throw; if it throws, `onMessage` emits nothing. `OnMessage`'s "exactly one emission, id and config unchanged" holds only for hooks without such effects.
- The constructor keeps `options.config` by reference and the `config` getter returns the internal object, so a caller that mutates that object changes the model's configuration without the merge; the model's `config` is a value and does not capture this aliasing.
- `ChatInput.HandleKeyDown`: if `onSend` throws, `stopPropagation` and `preventDefault` do not run; the model assumes `onSend` returns and always reports all three effects when the press sends.
