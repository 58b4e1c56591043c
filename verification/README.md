# Chat client state, modelled and verified in Dafny

This project models the state logic of a small browser chat client. The
client keeps a list of conversations with one active conversation. It streams
replies from a remote chat model, can read a message aloud, and has a text
field that a speech recognizer can fill. The model covers:

- `types.dfy` (module `Types`): the records `Message`, `Conversation` and
  `Background` as datatypes.
- `text.dfy` (module `Text`): JavaScript's `String.prototype.trim`, with the
  ECMAScript whitespace and line-terminator sets. The guards and the history
  filter use it through "is blank".
- `conversations.dfy` (module `Conversations`): the pure part of `App.tsx`.
  - creating a conversation;
  - the updaters passed to `setConversations`: adding a turn with its title
    rule, adding a message, and rewriting the streamed reply;
  - the deletion filter, and `find`;
  - the history replayed into a new chat session;
  - choosing the active conversation at start-up;
  - the write-or-remove persistence rule over an abstract key-value store.
- `pcm.dfy` (module `Pcm`): the integer half of the speech-output decoder.
  - `decode` turns a binary string into bytes, one per character.
  - `decodeAudioData` reads the bytes as little-endian signed 16-bit mono
    samples. Its `for channel` loop has one pass, since `numChannels` is 1.
- `app.dfy` (module `ChatApp`): the `App` component as a class.
  - Its fields are the component's state.
  - Each handler is a method taken as one atomic step.
  - `handleSendMessage` is split into the guard and user turn
    (`HandleSendMessage`), its `try`/`catch` (`ReceiveReply`) and its
    `for await` loop (`StreamReply`).
  - `handleToggleSpeak` is split at its `await` into `BeginToggleSpeak` and
    `FinishToggleSpeak`.
- `message_input.dfy` (module `VoiceInput`): the voice-input field as a
  class over `input` and `isListening`. Calls made on the recognizer and on
  `onSendMessage` are kept as a log of effects.

Remote services are inputs to the model:

- A chat stream is a `StreamOutcome`: it either fails to open, or delivers a
  sequence of chunks and then ends or throws.
- A speech request is a `TtsOutcome`: it either fails, or answers with the
  binary string that `atob` makes of its payload.
- Every `Date.now()` id is a parameter. No freshness is assumed, so the
  lemmas state which ids must differ.
- The confirmation dialog's answer is a boolean parameter.

Strings are sequences of Unicode scalar values. For text inside the Basic
Multilingual Plane, which includes all Hindi text, `|s|` is JavaScript's
`s.length`. A chunk may lack its text. JavaScript's `modelResponse +=
chunk.text` then appends the word `undefined`, and the model does the same.

## Model

| member | source | states |
|---|---|---|
| `Types.TextMessage` | App.tsx:234-238 | A message the client builds has exactly one part, and that part holds the given text. |
| `Text.TrimStart` | App.tsx:230 | The result is a suffix of the input. Every character dropped is JavaScript whitespace, and the result does not start with whitespace. |
| `Text.TrimEnd` | App.tsx:230 | The result is a prefix of the input. Every character dropped is JavaScript whitespace, and the result does not end with whitespace. |
| `Text.Trim` | App.tsx:230 | `trim()` returns the slice of the input left after removing all leading and all trailing whitespace, and nothing else. The slice neither starts nor ends with whitespace. |
| `Text.BlankIffAllWhitespace` | components/MessageInput.tsx:66 | A string is blank exactly when every character in it is whitespace. |
| `Text.BlankIffTrimmedEmpty` | App.tsx:230 | A string is blank exactly when `trim()` leaves the empty (falsy) string. This is the test `!s.trim()` makes. |
| `Conversations.NewConversation` | App.tsx:60-64 | A new conversation has the given id, no messages and the fixed Hindi placeholder title. |
| `Conversations.TitleFor` | App.tsx:248 | Text of at most 40 characters is the title unchanged. Longer text becomes its first 40 characters followed by `...`. The title is never longer than 43 characters. |
| `Conversations.ReplaceText` | App.tsx:268-270 | Every message with the reply's id now holds exactly the new text as its one part. Every other message is unchanged. Ids, roles, length and order are kept. |
| `Conversations.ApplyEdit` | App.tsx:246-250 | An updater never changes the conversation's id. |
| `Conversations.EditActive` | App.tsx:240-244 | `updateConversations` applies the updater to each conversation that carries the active id and leaves all others equal. The list keeps its length, order and set of ids. Messages stay readable when the updater adds a readable message. |
| `Conversations.SetTextOverwrites` | App.tsx:264-271 | Two streaming rewrites in a row equal the last one alone. |
| `Conversations.Remove` | App.tsx:324 | The filter keeps exactly the conversations whose id differs from the deleted one. The set of ids loses just that id. |
| `Conversations.RemoveAppend` | App.tsx:324 | The filter splits over concatenation, so the survivors keep their relative order. |
| `Conversations.RemoveAbsent` | App.tsx:324 | Deleting an id that no conversation carries leaves the list unchanged. |
| `Conversations.Find` | App.tsx:119 | `find` gives nothing exactly when no conversation carries the id. Otherwise it gives the first conversation that does. |
| `Conversations.Kept` | App.tsx:123 | The filter's test: the first part's text is not blank. `KeptIffTrimmedNonEmpty` ties it to `trim() !== ''`. |
| `Conversations.KeptIffTrimmedNonEmpty` | App.tsx:123 | A message is kept exactly when `trim()` of its first part's text is not the empty string. |
| `Conversations.Entry` | App.tsx:124-127 | The `{ role, parts }` a kept message is replayed as, with role and parts copied. `ReplayKeepsKept` and `ReplayOnlyKept` state its use. |
| `Conversations.ReplayHistory` | App.tsx:122-127 | The replayed history is never longer than the conversation. |
| `Conversations.ReplayKeepsKept` | App.tsx:122-127 | Every message whose first part is not blank is replayed as `{ role, parts }`. |
| `Conversations.ReplayOnlyKept` | App.tsx:122-127 | Each replayed entry comes from a message whose first part is not blank. |
| `Conversations.ReplayAppend` | App.tsx:122-127 | Replay splits over concatenation, so the history keeps the messages' order. |
| `Conversations.ReplaySkipsPlaceholder` | App.tsx:122-127 | An empty streaming placeholder at the end of a conversation is not replayed. |
| `Conversations.InitialLoad` | App.tsx:76-91 | A saved non-empty list is taken as it is, and its first conversation becomes active. A missing or empty one is replaced by one new conversation, which becomes active. Either way the list is non-empty and its active id is listed. |
| `Conversations.PrependNew` | App.tsx:290-293 | The new conversation goes in front of the unchanged list and becomes active. |
| `Conversations.Delete` | App.tsx:321-341 | The list is never left empty. If no conversation survives, one fresh conversation replaces the list and becomes active. Otherwise the survivors remain, and deleting the active conversation activates the first survivor. Deleting any other conversation keeps the active id. |
| `Conversations.Persist` | App.tsx:106-113 | A non-empty list is written under `chatHistory`, and an empty one removes that key. Every other key is untouched. |
| `Conversations.Load` | App.tsx:76 | Reading gives a list exactly when the key is present. |
| `Conversations.ReloadRestoresList` | App.tsx:76-81 | Saving a valid list and starting again restores it, with its first conversation active. |
| `Conversations.ReloadAfterEmptyList` | App.tsx:87-91 | After the key was removed, start-up creates one new conversation and makes it active. |
| `Pcm.Int16` | App.tsx:29 | Two bytes read little-endian as a signed 16-bit sample lie in [-32768, 32767]. |
| `Pcm.Int16OfBytes` | App.tsx:29 | Every 16-bit sample is read back from its two bytes. |
| `Pcm.BytesOfInt16` | App.tsx:29 | A sample determines the two bytes it was read from. |
| `Pcm.Samples` | App.tsx:29-38 | A payload yields half as many samples as it has bytes. Sample `i` is bytes `2i` and `2i+1`, in order. |
| `Pcm.DecodeAudioData` | App.tsx:22-41 | Decoding fails exactly when the byte length is odd or zero: `Int16Array` and `createBuffer` throw there. Otherwise the frames are the payload's samples in order. |
| `Pcm.DecodeBinaryString` | App.tsx:11-19 | `decode` makes one byte per character of the binary string, in order. |
| `Pcm.BinaryString` | App.tsx:12 | The binary string of a payload has one character per byte, each below 256. |
| `Pcm.DecodeRecoversBytes` | App.tsx:11-19 | Decoding the binary string of a payload gives back the payload's bytes. |
| `Pcm.ExtremeSamples` | App.tsx:29-38 | The bytes FF 7F 00 80 are the samples 32767 and -32768. |
| `ChatApp.ChunkText` | App.tsx:265 | What `+= chunk.text` appends: the chunk's text, or the word `undefined` when it has none. |
| `ChatApp.Reply` | App.tsx:256-265 | `modelResponse` after the given chunks, accumulated left to right from `''`. `ReplyAppend` and `ReplyIsConcatenation` state its meaning. |
| `ChatApp.Concat` | App.tsx:265 | The reference concatenation c1+…+cn, first string first, that `ReplyIsConcatenation` proves `Reply` equal to. |
| `ChatApp.Texts` | App.tsx:265 | When every chunk has text, this lists the chunks' texts in order. |
| `ChatApp.ReplyAppend` | App.tsx:264-265 | The running reply of a split stream is the reply of the first part followed by that of the second. |
| `ChatApp.ReplyIsConcatenation` | App.tsx:256-272 | When every chunk carries text, the reply is exactly c1+…+cn in arrival order. |
| `ChatApp.ReplyOfAbc` | App.tsx:264-265 | The chunks "a", "b", "c" build the reply "abc". |
| `ChatApp.TurnMessages` | App.tsx:234-280 | A turn adds two or three messages: first the user's text. For an opened stream, the reply (the accumulated chunks) comes next. When the stream fails, the last message is the apology. A third message appears exactly when an opened stream throws. |
| `ChatApp.ReplyConversations` | App.tsx:254-280 | The `try`/`catch` updaters keep the list's length, order and ids, and leave every conversation not carrying the active id unchanged. |
| `ChatApp.SentPointwise` | App.tsx:240-283 | A send keeps the list's length and ids. It edits each conversation carrying the active id by the turn's updaters and leaves every other conversation equal. |
| `ChatApp.SendShape` | App.tsx:246-250 | After a send, other conversations are unchanged. The active conversation keeps its id, and takes the title rule's title only when it had no messages. It grows by the turn's messages and keeps its earlier messages, except one carrying the reply's id. |
| `ChatApp.TurnAppends` | App.tsx:246-283 | With distinct user and reply ids, the conversation becomes its old messages, then the user's text, then the reply and/or the apology. |
| `ChatApp.SendAppendsTurn` | App.tsx:240-283 | In list form: the active conversation ends as its old messages followed by exactly the turn's messages. |
| `ChatApp.ToggleSelection` | App.tsx:286-288 | Selecting the selected message clears the selection. Selecting any other message selects it. |
| `ChatApp.Playable` | App.tsx:203-205 | Audio gets through `decode` and `decodeAudioData` exactly when the binary string is non-empty and has an even length. `DecodeAudioData` states the throws this reflects. |
| `ChatApp.App.ActiveConversation` | App.tsx:139 | The shown conversation is listed and carries the active id. |
| `ChatApp.App.constructor` | App.tsx:44-91 | Mounting starts from the initial state and the start-up load. A client that cannot be built sets the API-key error. |
| `ChatApp.App.RebindChatSession` | App.tsx:116-137 | With a client and an active id, the session is rebuilt from the active conversation's replayed history. Otherwise the session stays. |
| `ChatApp.App.HandleNewChat` | App.tsx:290-304 | A new conversation is prepended and made active. The error, loading flag and selection are cleared. A playing utterance is stopped and its markers cleared. |
| `ChatApp.App.HandleSelectConversation` | App.tsx:306-317 | The given conversation becomes active. Switching clears the selection and stops a playing utterance along with its markers. Re-selecting changes nothing. |
| `ChatApp.App.HandleDeleteConversation` | App.tsx:321-341 | Once confirmed, the list and active id become `Delete`'s result. If not confirmed, nothing changes. The list stays valid either way. |
| `ChatApp.App.CanSend` | App.tsx:230 | A send proceeds exactly when `trim()` of the input is non-empty, nothing is loading, a session exists and the active id is a non-empty string. |
| `ChatApp.App.HandleSendMessage` | App.tsx:229-284 | Blank input, loading, a missing session or a missing active id change nothing. Otherwise the selection is cleared and the list becomes the result of the turn's updaters. Loading ends false, and the error is the apology exactly when the stream failed. |
| `ChatApp.App.ReceiveReply` | App.tsx:254-283 | A stream that fails to open gets the apology appended. An opened stream gets a placeholder, filled by the loop and followed by the apology if the stream throws. The error is set exactly on failure. |
| `ChatApp.App.StreamReply` | App.tsx:264-272 | After the loop, the reply message holds the concatenation of all chunk texts in order. |
| `ChatApp.App.HandleSelectMessage` | App.tsx:286-288 | The selection becomes the toggle of the previous one. |
| `ChatApp.App.BeginToggleSpeak` | App.tsx:168-185 | Without a client nothing changes. Otherwise playback stops. Toggling the speaking message clears both markers and requests nothing. Any other message sets both markers to its id and starts a request. |
| `ChatApp.App.FinishToggleSpeak` | App.tsx:186-226 | Loading always ends. Decodable audio plays with the message still speaking. Missing audio clears the speaking marker quietly. A failed request or undecodable audio clears both markers and sets the audio error. |
| `ChatApp.App.HandleToggleSpeak` | App.tsx:168-227 | In one step. Without a client nothing changes. Toggling the speaking message stops everything and leaves the error alone. Any other message ends playing exactly when its audio is playable, with the speaking marker set exactly while it plays. The error becomes the audio error exactly when the request fails or the audio does not decode; otherwise it is unchanged. |
| `VoiceInput.Visited` | components/MessageInput.tsx:34 | The loop visits the results from `resultIndex` to the end, and none when `resultIndex` is past the end. |
| `VoiceInput.Pieces` | components/MessageInput.tsx:34-40 | One accumulator of the loop: the transcripts of the results with the given flag, in index order. `PiecesAppend` and `PiecesOfFlagged` state its meaning. |
| `VoiceInput.Transcript` | components/MessageInput.tsx:41 | The field's new text: the final pieces, then the interim pieces. `TranscriptOfOrderedResults` and `TranscriptRearrangesPieces` state its meaning. |
| `VoiceInput.PiecesAppend` | components/MessageInput.tsx:34-40 | Each group, final or interim, keeps index order across any split of the results. |
| `VoiceInput.PiecesOfFlagged` | components/MessageInput.tsx:35-39 | Results that all carry one flag go entirely to that group, in order, and the other group is empty. |
| `VoiceInput.TranscriptOfOrderedResults` | components/MessageInput.tsx:31-41 | If the finals come before the interims, the field receives every transcript in index order. |
| `VoiceInput.JoinedAppend` | components/MessageInput.tsx:34-40 | The concatenation of all transcripts splits over concatenation of the results. |
| `VoiceInput.TranscriptRearrangesPieces` | components/MessageInput.tsx:31-41 | Whatever the flags, the field receives every visited transcript's characters exactly once, as a rearrangement of their concatenation. |
| `VoiceInput.InterimMovesAfterFinal` | components/MessageInput.tsx:41 | An interim "a" followed by a final "b" fills the field with "ba". |
| `VoiceInput.TranscriptIgnoresEarlierResults` | components/MessageInput.tsx:34 | Results before `resultIndex` never reach the field. |
| `VoiceInput.AssembleTranscript` | components/MessageInput.tsx:30-41 | The loop yields all final transcripts from `resultIndex` on, then all interim ones, each group in index order. |
| `VoiceInput.SubmitSends` | components/MessageInput.tsx:66 | Submitting sends exactly when `trim()` of the input is non-empty and no reply is loading. |
| `VoiceInput.MessageInput.constructor` | components/MessageInput.tsx:15-16 | The field starts empty and not listening. |
| `VoiceInput.MessageInput.OnResult` | components/MessageInput.tsx:30-42 | The field is replaced by the event's transcript, whatever it held before. |
| `VoiceInput.MessageInput.OnEnd` | components/MessageInput.tsx:44-46 | The recognizer's end clears `isListening`. |
| `VoiceInput.MessageInput.OnError` | components/MessageInput.tsx:48-51 | A recognizer error clears `isListening`. |
| `VoiceInput.MessageInput.OnChange` | components/MessageInput.tsx:91 | Typing replaces the field's text. |
| `VoiceInput.MessageInput.HandleSubmit` | components/MessageInput.tsx:60-70 | Listening is stopped first, with one stop request. Then non-blank input sends the text and clears the field unless a reply is loading. Otherwise the field is unchanged and nothing is sent. |
| `VoiceInput.MessageInput.ToggleListen` | components/MessageInput.tsx:72-82 | Without recognition support nothing happens. While listening, only a stop is requested and the flag stays set until `onend`. Otherwise the field is cleared, recognition starts and the flag is set. |

## Left out

- Rendering, styling, the background choice and its storage, the scroll
  effect, the sidebar's open flag, and the display components. None of
  these holds state logic.
- The chat SDK, Web Audio, the speech recognizer object and `window.confirm`.
  They are foreign code: their results are the inputs `StreamOutcome`,
  `TtsOutcome` and `confirmed`, and a recognizer is assumed to exist exactly
  when the browser supports one.
- The playback source's `onended` callback and the stale `speakingMessageId`
  it captures. It runs after playback ends, outside any handler, and
  `FinishToggleSpeak` leaves the message marked speaking while it plays.
- `atob` and base64: the model starts from the binary string. An invalid
  payload makes `atob` throw, which is the `RequestFailed` outcome.
- The division by 32768.0 that turns samples into floats, and the sample rate
  and channel count given to `createBuffer`. These are floating point and
  audio plumbing.
- JSON serialisation: the store maps the key to the list itself. A corrupt
  stored value, on which `JSON.parse` throws, is not modelled.
- React's batching and the interleaving of asynchronous handlers: each
  handler is one atomic step. In particular, the closure of
  `handleSendMessage` sees the state of the render that created it.
- Id uniqueness: ids come from `Date.now()` and can collide. Lemmas that need
  distinct ids require them.
- The `audioContextRef` guard of `handleToggleSpeak`: the context is created
  when the component mounts and is treated as always present.
- Speech results beyond the first alternative of each result.
- `Conversations.TitleFor`: strings are Unicode scalar values, so a
  character outside the Basic Multilingual Plane (an emoji, say) counts once
  here but as two UTF-16 code units in JavaScript. Text containing such
  characters is therefore cut later than `substring(0, 40)` cuts it, and the
  model never splits a surrogate pair as JavaScript can.
- The delete button is shown only for conversations that are not active
  (components/Sidebar.tsx:71). From the interface, `Delete`'s branches for
  "the active conversation was deleted" and "the list became empty" are
  therefore not reached. The model still covers them, as the handler does.
- `ChatApp.App.HandleToggleSpeak`: `playing` stands for the held audio
  source, so the contract states only whether audio was started, not the
  buffer handed to Web Audio.
- `Conversations.ReplayHistory`: its own contract gives only a length bound.
  The filter's meaning is stated by `ReplayKeepsKept`, `ReplayOnlyKept` and
  `ReplayAppend`.
