# SykoLLM chat client: session and transcript core in Dafny

This project models the core of the SykoLLM browser chat client. The core is the
bookkeeping that keeps the list of saved chat sessions and the active transcript
in step while a model reply streams in. It also covers the request shaping and
chunk accumulation around the text-generation call.

- `types.dfy` (module `Types`): the records of `types.ts`. These are `Message`,
  `ChatSession`, `Theme` and the message `Role`. `Truthy` gives JavaScript
  truthiness for a `string | null` value, where both `null` and `""` are falsy.
- `text.dfy` (module `Text`): ECMAScript `trim`, used by the submit guard, and
  the title derived from a session's first message.
- `registry.dfy` (module `Registry`): the session-list transforms the handlers
  apply, as functions:
  - `Save` is `saveCurrentSession`;
  - `WithSaved` is its bound-case `map`;
  - `WithMessages` is the auto-sync `map`;
  - `Without` is the delete `filter`.
  Lemmas state what each one keeps and changes.
- `transcript.dfy` (module `Transcript`): `AppendToId`, the per-chunk rewrite of
  the transcript keyed by the placeholder's id, with its composition lemmas.
- `service.dfy` (module `SykoService`): `streamResponse` and its helpers. These
  are the model-name table with its fallback, the split of the history into
  prior turns and the live message, the `for await` loop as a method with loop
  invariants, and the lazily filled client slot behind `getClient`. The network
  stream is an input: the list of chunk texts (`None` for a chunk without text)
  and how the stream ended (`Completed` or `Failed`).
- `app.dfy` (module `App`): the `App` component as a class `ChatApp`. Its fields
  are the component's state: `theme`, `input`, `currentModel`, `sessions`,
  `currentSessionId`, `messages` and `isTyping`. There is one method per
  handler. The auto-sync effect is `SyncEffect`. A streamed reply is split into
  the events `BeginReply`, `ApplyChunk`, `FailReply` and `EndReply`.
  `HandleSubmit` runs a whole submission, with the effect after the placeholder
  and after every later change (the user message and the placeholder are one
  batched update),
  and states the end state in terms of the starting state and the stream.

Fresh ids and every `Date.now()` reading are method parameters. So is the
environment's API key. Each `setState` is a sequential assignment.
`saveCurrentSession` takes the binding its closure captured as a parameter,
`captured`. `Submit` passes the binding as it was at submit time.

## Model

| member | source | states |
|---|---|---|
| Types.ThemeName | types.ts:23-26 | the theme's stored value is "dark" exactly for the dark theme and "light" exactly for the light theme |
| Text.Trim | App.tsx:119-124 | the trimmed input is the part of the input after its leading whitespace; everything cut off on either side is whitespace; a non-empty result neither starts nor ends with whitespace; it is empty exactly when the input is all whitespace, which is when submit does nothing |
| Text.TrimIdempotent | App.tsx:124 | trimming the trimmed content again changes nothing |
| Text.DeriveTitle | App.tsx:82 | the title keeps the first 30 characters of the first message; "..." follows exactly when the content is longer than 30, so the title is at most 33 characters; content of 30 characters or fewer is its own title; the title is empty only for empty content |
| Text.DeriveTitleIdempotent | App.tsx:82 | deriving a title from a derived title gives the same title |
| Registry.Save | App.tsx:79-101 | an empty transcript leaves the registry alone; an unbound one puts exactly one new session in front (new id, derived title, the transcript, creation time), keeps the old sessions behind it in order, and asks for the new id to be bound; a bound one is saved by `WithSaved` with the same ids in the same order and creates nothing |
| Registry.WithSaved | App.tsx:95-99 | saving while bound keeps the registry's length and id order; sessions with the bound id take the transcript and keep their creation time; they keep their title unless it is "New Chat", in which case they take the derived title; every other session is unchanged |
| Registry.WithMessages | App.tsx:195-197 | the auto-sync gives exactly the sessions with the bound id the transcript, keeping their id, title and creation time; every other session, the length and the order are unchanged |
| Registry.WithMessagesOverwrite | App.tsx:193-199 | of two successive syncs of one session, the later transcript wins and the earlier leaves no trace |
| Registry.SyncAfterSave | App.tsx:94-99 | the auto-sync that follows a bound save of the same transcript changes nothing |
| Registry.SaveCreatesAtMostOnce | App.tsx:84-93 | after a save has created a session with a non-empty id and bound to it, the next save creates no session and keeps the registry's length; one save adds at most one session |
| Registry.SaveKeepsUnique | App.tsx:84-99 | a save keeps session ids unique when the id for a new session is not already in use |
| Registry.PrependKeepsUnique | App.tsx:92 | putting a session with an unused id in front keeps the ids unique |
| Registry.Without | App.tsx:111 | the delete filter keeps a session exactly when it was in the registry and has another id |
| Registry.WithoutConcat | App.tsx:111 | the filter keeps order: filtering a concatenation filters each part |
| Registry.WithoutAbsent | App.tsx:111 | deleting an id no session has leaves the registry as it was |
| Registry.WithoutUnique | App.tsx:109-115 | with unique ids, deleting the id at position k removes exactly that session and keeps the others in order; the registry shrinks by one |
| Registry.WithoutKeepsUnique | App.tsx:111 | deleting keeps session ids unique |
| Transcript.AppendToId | App.tsx:150-154 | a chunk is appended to the content of the messages with the placeholder's id, which keep their id, role, timestamp and error flag; the length, order and ids of the transcript and all other messages are unchanged |
| Transcript.AppendEmpty | App.tsx:150-154 | an empty chunk changes nothing |
| Transcript.AppendCompose | App.tsx:149-155 | appending chunk a and then chunk b is appending a + b: chunks are not reordered or merged |
| Transcript.AppendAbsent | App.tsx:150-154 | a chunk for an id no message has leaves the transcript unchanged |
| Transcript.AppendToPlaceholder | App.tsx:139-154 | if the placeholder is last and no earlier message shares its id, appending text to that id changes only the placeholder's content |
| SykoService.RealModelName | services/sykoService.ts:37 | 'syko-v1-alpha' maps to 'gemini-3-flash-preview', 'syko-v1-pro' to 'gemini-3-pro-preview', and every other id to 'gemini-3-flash-preview'; the name is never empty |
| SykoService.PriorHistory | services/sykoService.ts:42-45 | the context is every message except the last, in order, with role and content kept; an empty history gives none |
| SykoService.PriorThenLive | services/sykoService.ts:42-47 | the prior turns followed by the last message are the whole history, so nothing is lost or reordered |
| SykoService.PriorOfAppended | services/sykoService.ts:40-47 | after a message is appended, the context is exactly the transcript from before it |
| SykoService.Forwarded | services/sykoService.ts:63-68 | the texts passed to `onChunk` are never empty and there are no more of them than chunks |
| SykoService.ForwardedAppend | services/sykoService.ts:63-68 | texts are forwarded in receipt order: those of a later batch of chunks follow those of an earlier one |
| SykoService.ConcatAppend | services/sykoService.ts:66 | accumulating text in two batches is concatenating the two accumulated texts |
| SykoService.ForwardedLosesNothing | services/sykoService.ts:62-70 | skipping chunks with absent or empty text loses no text: the forwarded texts join to the text of the whole stream |
| SykoService.ForwardChunks | services/sykoService.ts:62-70 | the loop calls `onChunk` with exactly the forwarded texts, in order, and returns their in-order concatenation |
| SykoService.ClientCache.constructor | services/sykoService.ts:19 | the client slot starts empty |
| SykoService.ClientCache.GetClient | services/sykoService.ts:21-29 | a cached client is returned unchanged; without one, a missing or empty API key is an error that leaves the slot empty; a present key makes a client and caches it |
| SykoService.StreamResponse | services/sykoService.ts:31-76 | a missing API key fails before any request and forwards nothing; an empty history fails before any request; otherwise the request carries the mapped model, the system instruction, the prior turns and the last message's content; it forwards exactly the chunks with text, in order; it returns their concatenation on completion and the error on failure; an empty client slot is filled exactly when the key is present, and a filled one is kept |
| App.Toggled | App.tsx:66 | the new theme differs from the old one |
| App.ToggledTwice | App.tsx:66 | toggling twice restores the theme |
| App.ChatApp.constructor | App.tsx:16-22 | the client starts dark, with the first model, no sessions, an empty unbound transcript, empty input and no reply in progress |
| App.ChatApp.ToggleTheme | App.tsx:65-70 | dark and light swap and nothing else changes |
| App.ChatApp.SetInput | App.tsx:364 | the pending input becomes the typed text |
| App.ChatApp.SelectModel | App.tsx:304 | the selected model becomes the chosen id |
| App.ChatApp.CreateNewSession | App.tsx:72-77 | the transcript becomes empty and unbound; the registry is untouched and no session is created |
| App.ChatApp.SaveCurrentSession | App.tsx:79-101 | the registry becomes `Registry.Save` of the captured binding; the binding moves to a created session and otherwise stays |
| App.ChatApp.LoadSession | App.tsx:103-107 | the transcript becomes the session's messages and is bound to its id; the registry is untouched |
| App.ChatApp.DeleteSession | App.tsx:109-115 | exactly the sessions with the id leave the registry; if the id was bound, the transcript becomes empty and unbound; otherwise the transcript and binding are untouched |
| App.ChatApp.SyncEffect | App.tsx:193-199 | when bound and non-empty, the sessions with the bound id take the transcript and no other session changes; otherwise the registry is untouched; afterwards the bound session holds the transcript |
| App.ChatApp.Submit | App.tsx:117-135 | nothing happens when the trimmed input is empty or a reply is in progress; otherwise exactly one user message holding the trimmed input is appended, the input is emptied, `isTyping` becomes true, and the transcript is saved with the binding as at submit time |
| App.ChatApp.BeginReply | App.tsx:138-147 | one empty model message with the placeholder id is appended |
| App.ChatApp.ApplyChunk | App.tsx:149-155 | the chunk is appended to the placeholder's content as `Transcript.AppendToId` says |
| App.ChatApp.FailReply | App.tsx:168-175 | exactly one model message with the error flag and the fixed failure text is appended; the placeholder and its partial text stay |
| App.ChatApp.EndReply | App.tsx:176-177 | `isTyping` is false after every outcome |
| App.ChatApp.ApplyChunks | App.tsx:149-155 | after forwarded chunks c1..cn, each followed by the auto-sync, the placeholder's content has c1+...+cn appended and the registry stays synced |
| App.ChatApp.Reply | App.tsx:137-189 | the placeholder is appended and receives the forwarded chunks; a failure adds one error message after it; the registry is synced and `isTyping` ends false |
| App.ChatApp.ResyncEffect | App.tsx:193-199 | the auto-sync after a change of a non-empty transcript leaves the registry synced from the same saved registry |
| App.ChatApp.SyncedFromIsSynced | App.tsx:193-199 | a registry synced from a saved registry holds the transcript in the bound session |
| App.ChatApp.HandleSubmit | App.tsx:117-190 | for an accepted submit: the request's live turn is the trimmed input and its context is the old transcript; the transcript is the old one, the user message and the placeholder carrying every forwarded chunk in order; one error message follows exactly when the key is missing or the stream fails; input is empty and `isTyping` false; the binding is the old one or the new session's; the registry is the saved one with the final transcript synced in; the client slot is filled on an accepted submit with a key and an empty slot; a refused submit changes nothing, the client slot included |

## Left out

- Rendering, the presentation components, scrolling, textarea resizing, focus and the sidebar (App.tsx:53-63, 75-76, 106, 208-386) have no stated behaviour beyond the DOM. The `document.documentElement` class is left out for the same reason.
- `localStorage` and JSON (App.tsx:29-50, 69) are a foreign store and serializer. The start-up load, the persist effect and the stored theme are not modelled.
- The `GoogleGenAI` client, `chats.create`, `sendMessageStream` and `process.env` are not modelled. The API key is a parameter. The backend's stream is an input list of chunk texts and an end marker.
- `console.error` before rethrowing (services/sykoService.ts:73) is logging only.
- The two `setSessions` calls that return the registry unchanged (App.tsx:158-166, 183-188) are identity updates.
- Async timing, React batching and effect scheduling are not modelled. `HandleSubmit` runs the auto-sync after the placeholder is added and after every later change of the transcript. The synchronous part of `handleSubmit` (App.tsx:128-147) is one batched render, so no sync runs between the user message and the placeholder. It applies the forwarded chunks after `StreamResponse` returns. No other event is modelled as arriving in between, and with none in between the end state is the same.
- Events during a streaming reply (new chat, load or delete) are not modelled inside `HandleSubmit`. The single-event methods cover them. For example, after `CreateNewSession`, `ApplyChunk` finds no placeholder and leaves the transcript unchanged, as `Transcript.AppendAbsent` states.
- Text is Dafny `char`, that is Unicode scalar values. JavaScript's `slice(0, 30)` and `length` count UTF-16 code units, so titles of text outside the Basic Multilingual Plane are not modelled exactly.
- `isError?` is a `bool`, and `false` stands for the absent flag.
- The message `parts` array of the backend's history entries has one text part per turn. It is modelled as the turn's `text`.
- SykoService.RealModelName: the lookup is on the map's own keys only. In the source, `MODEL_MAPPING` is a plain object, so ids such as `toString` would find inherited `Object.prototype` members. The model selector only offers the two listed ids.
- SykoService.StreamResponse: every stream error is one `StreamFailed` value. The source rethrows the backend's own error object.
