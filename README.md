# GhostText for VS Code: the synchronisation session, in Dafny

This project models the core of the VS Code GhostText extension. A browser
peer connects over a WebSocket. Through that connection, a browser text
field and an editor document are kept in step. The model covers two parts:

- **The connection wrapper** (`GhostTextConnection`). It holds a nullable
  `socket`. `close()` clears the field and then closes the socket, and does
  nothing once the field is cleared. `send(text)` transmits a fixed message
  shape while the socket is held. Each socket message becomes one `data`
  event. A socket close becomes `close()` followed by one `close` event.
  Two decisions taken by `listen` are modelled as pure functions: the
  discovery handshake response and the server error filter.
- **The per-connection session** that `activate` creates. It keeps three
  pieces of state:
  - a document, created by the first inbound message;
  - the echo guard `enterLocalEdit`, raised around every remote-driven
    update so that the editor's change notification is not sent back to
    the peer;
  - the listener disposables, released by a `cleanup` that either side's
    close can trigger.

The model has five modules, one file each:

- `protocol.dfy` (`Protocol`): the wire records.
- `server.dfy` (`Server`): the socket, the connection class and its value
  model `ConnState`, plus the handshake and the error filter.
- `editor.dfy` (`Editor`): the document as the editor holds it, and the
  extension's `updateDocument` and `closeDocument`.
- `sync.dfy` (`Sync`): the session as a state machine over values.
  - `Bind`, `HandleData`, `HandleChange`, `HandleClose`,
    `HandleConnectionClose` and `Cleanup` are the listeners' effects.
  - `Step` adds the transport and the editor delivering one event. Each
    listener is called only while it is registered.
  - `Run` folds `Step` over a run of events.
  - `Valid` is the session invariant. The lemmas state what holds over
    any run.
- `extension.dfy` (`Extension`): the session as a class.
  - The closure's captured variables are fields, and its listeners are
    methods.
  - Each method is proved to change the object exactly as the matching
    `Sync` function says.
  - `Deliver` plays the transport and the editor for one event. It is
    proved to match `Sync.Step`, so the `Sync` lemmas about runs hold of
    the object.

Assumptions about the editor, which is not code here:

- An edit that is applied replaces the whole text with exactly the text
  sent, line ends included (the editor's conversion of inserted line ends
  to the document's own style is not modelled).
- `positionAt` moves an offset to the nearest offset in `[0, |text|]`.
- The editor reports a text change made by `updateDocument` to the change
  listener while the update is still in progress, so the echo guard is
  still raised.
- `workbench.action.closeActiveEditor` closes the session's document,
  which `updateDocument` has just shown.

Each call to `updateDocument` has one of three outcomes:

- the edit is applied;
- the edit promise resolves `false`: nothing is replaced, but the
  selections are still set;
- showing the document or editing it throws.

Five behaviours of the code worth knowing:

- `send` transmits `selections: []` whatever the session passes. The
  change listener computes the editor's selections, but they never reach
  the wire.
- An update that throws does not tear the session down. The guard is
  lowered and the listener's promise rejects.
- A message that reaches a torn-down session is not refused explicitly.
  It has no effect because the closed document ignores updates
  (`Sync.TornDownIgnoresInbound`).
- A peer close before any message runs no session cleanup. The `close`
  listener is registered only on the first message.
- When the user closes the document first, `cleanup` runs a second time
  when the socket's `close` event arrives. Every disposable is disposed
  twice; the second `conn.close()` and `closeDocument` do nothing. The
  model counts the `dispose()` calls (`Sync.TeardownEitherOrder`) and
  relies on the editor's `dispose` being idempotent.

## Model

| member | source | states |
|---|---|---|
| `Protocol.OutgoingMessage` | src/server.ts:37-42 | The outbound message carries the given text, an empty title and syntax, and an empty selection list. |
| `Protocol.SelectionsOf` | src/extension.ts:100 | A missing selection list reads as the empty list. A present one is used as it is. |
| `Server.HandshakeResponse` | src/server.ts:75-87 | The status is 500 with the error record exactly when the address is a pipe. Otherwise it is 200, advertising protocol version 1 and the bound port, always as JSON. |
| `Server.OnServerError` | src/server.ts:90-96 | An error is logged (its message) exactly when its code is `EADDRINUSE` and its syscall is `listen`. Any other error is rethrown unchanged. |
| `Server.GhostTextConnection.constructor` | src/server.ts:11-24 | The new connection holds the socket and has emitted nothing. |
| `Server.GhostTextConnection.Close` | src/server.ts:26-33 | The new state is `AfterClose` of the old: the socket field is cleared, and the socket is closed only if it was still held. |
| `Server.GhostTextConnection.Send` | src/server.ts:35-44 | The new state is `AfterSend` of the old: one outbound message is transmitted while the socket is held, and nothing otherwise. |
| `Server.GhostTextConnection.OnSocketMessage` | src/server.ts:14-16 | A socket message appends exactly one `data` event carrying it. |
| `Server.GhostTextConnection.OnSocketClose` | src/server.ts:18-21 | A socket close runs `close()` and then appends one `close` event. |
| `Server.CloseIdempotent` | src/server.ts:26-33 | A second `close()` changes nothing. After `close()` no socket is held, exactly one library close was added if the socket was held and none otherwise, and nothing else changed. |
| `Server.SendAfterCloseIsNoOp` | src/server.ts:35-36 | `send` after `close()` transmits nothing and leaves the state as it was. |
| `Server.SendTransmitsOnce` | src/server.ts:35-44 | While the socket is held, `send(text)` appends exactly the fixed-shape message with that text and changes nothing else about the socket. |
| `Server.SocketClosedOnce` | src/server.ts:18-33 | A socket close drops the socket and emits exactly one more `close` event. The library `close()` runs at most once, however often this path runs. |
| `Server.MessagesInOrder` | src/server.ts:14-16 | A run of socket messages emits exactly one `data` event per message, in arrival order. The socket and what was transmitted are untouched. |
| `Editor.Open` | src/extension.ts:52-55 | A newly opened document holds the message text, is open, and has no selections yet. |
| `Editor.Clamp` | src/extension.ts:23-24 | The assumed `positionAt`: the result lies in `[0, length]` and is the offset there nearest to the given one. |
| `Editor.ClampAll` | src/extension.ts:20-26 | One selection per input selection. Both ends lie inside the text: ends already inside are kept, an end past the text lands at its end, and a negative end lands at 0. |
| `Editor.Update` | src/extension.ts:5-29 | A closed document is unchanged. On an open one, an applied edit makes the text exactly the new text, and otherwise the text is kept. The selections are replaced, clamped into the resulting text, only when the list is non-empty and nothing threw. |
| `Editor.CloseDoc` | src/extension.ts:31-36 | The result is closed. A closed document is unchanged. An open one is emptied to `""` first. |
| `Editor.UpdateDocument` | src/extension.ts:5-29 | The document becomes `Update` of its old value. The call raises exactly when the document was open and the editor threw. |
| `Editor.CloseDocument` | src/extension.ts:31-36 | The document becomes `CloseDoc` of its old value. |
| `Editor.UpdateReplacesText` | src/extension.ts:12-18 | Two applied updates in a row leave only the last text, the same as that update alone. |
| `Editor.FarSelectionClampsToEnd` | src/extension.ts:20-26 | A selection at offset 1000000 on a 5-character text becomes the empty selection at 5. |
| `Editor.CloseDocIdempotent` | src/extension.ts:31-36 | Closing twice gives the same document as closing once. |
| `Sync.Bind` | src/extension.ts:51-96 | A bound session is unchanged. An unbound one opens one document with the message text, registers the connection `close` listener, and pushes and registers both editor listeners. The guard and the connection are untouched. |
| `Sync.HandleChange` | src/extension.ts:79-95 | Only the connection can change. Nothing is sent for another document or while the guard is raised. Otherwise the document's whole text is sent. |
| `Sync.Cleanup` | src/extension.ts:57-63 | Every disposable is released and the connection is closed. The document, if any, becomes `CloseDoc` of itself. Everything else is kept. |
| `Sync.HandleClose` | src/extension.ts:70-77 | Cleanup runs exactly when the notified document is the session's and it is closed. Otherwise nothing changes. |
| `Sync.HandleData` | src/extension.ts:48-104 | The guard ends where it started and the connection is untouched, so nothing is echoed. Afterwards a document exists: the existing one updated with the message, or a new one opened with the message text and then updated. |
| `Sync.InitValid` | src/extension.ts:44-46 | A new session (no document, no disposables, guard 0) satisfies the session invariant. |
| `Sync.StepPreservesValid` | src/extension.ts:48-104 | Every event keeps the invariant. The guard is at rest, at most one document is open, and the listeners are all live or all disposed, all disposed once the document is closed. |
| `Sync.RunPreservesValid` | src/extension.ts:98-103 | After any run of events the invariant holds. The echo guard is back at 0 and at most one document was ever opened. |
| `Sync.RunBinding` | src/extension.ts:51-56 | After any run, a document exists exactly when one existed before or some event was an inbound message. Exactly one was opened when it exists, and none otherwise. |
| `Sync.FirstMessageBinds` | src/extension.ts:51-96 | The first inbound message, whatever the editor does with the update, leaves one open document holding the message text, with both editor listeners and the `close` listener registered. |
| `Sync.InboundReplacesText` | src/extension.ts:98-103 | An applied inbound message on an open document makes its text exactly the message text. It reuses the document and opens no other. |
| `Sync.InboundKeepsSelectionsWhenEmpty` | src/extension.ts:19-27 | With an empty or missing selection list, the document's selections stay as they were. |
| `Sync.InboundSetsSelections` | src/extension.ts:19-27 | A non-empty selection list, on the first message or on an open document, becomes the document's selections, clamped into the new text. |
| `Sync.InboundNeverEchoes` | src/extension.ts:80-103 | An inbound message sends nothing, keeps the socket state and the guard, and leaves the listeners of a bound session alone, even when the update throws. |
| `Sync.RaisedGuardSuppressesEcho` | src/extension.ts:80-82 | While the guard is above 0, a change of the session's own document changes nothing. |
| `Sync.LocalEditSendsOnce` | src/extension.ts:80-92 | A user edit of a live session's document, with the guard at 0, sends exactly one message with the document's whole new text. |
| `Sync.LocalEditAfterTeardownIsSilent` | src/extension.ts:57-58 | Once the listeners are disposed, user edits send nothing. |
| `Sync.OtherDocumentsIgnored` | src/extension.ts:71-72 | Change and close notifications for other documents leave the session unchanged. |
| `Sync.CleanupIdempotent` | src/extension.ts:57-63 | Running the cleanup twice gives the same state as running it once, except that every disposable is disposed once more. |
| `Sync.CleanupReleasesEverything` | src/extension.ts:57-63 | After the cleanup of a valid session, no listener is registered and no socket is held. A bound session's document is closed. |
| `Sync.LocalCloseTearsDown` | src/extension.ts:70-77 | The user closing a live session's document tears the session down, closes the connection, and keeps the document's text. |
| `Sync.EarlyPeerCloseSkipsCleanup` | src/extension.ts:51-68 | A peer close before any message only drops the socket. The session state is otherwise that of a new session. |
| `Sync.TeardownEitherOrder` | src/extension.ts:57-77 | The user close and the peer close, in either order, release the listeners, close the document, call the socket's `close()` exactly once and transmit nothing. Only the peer-first order empties the document. The user-first order disposes each of the two listeners twice (four `dispose()` calls), the peer-first order once each (two). |
| `Sync.TornDownIgnoresInbound` | src/extension.ts:98-103 | A message reaching a torn-down session changes nothing but the connection's event log. |
| `Sync.HelloWorldScenario` | src/extension.ts:48-104 | "hello" then "hello world" with the cursor at 11 leaves that text and cursor, with nothing sent. A user edit to "hello world!" then sends exactly that text, with no selections. |
| `Extension.Session.constructor` | src/extension.ts:41-46 | A new session's state is `Sync.Init` of its connection. |
| `Extension.Session.OnData` | src/extension.ts:48-104 | The data listener changes the object exactly as `Sync.HandleData`. It reports the update's failure as `Sync.DataRaises`, keeps an existing document object, and creates a fresh one on the first message. |
| `Extension.Session.OnDidChangeTextDocument` | src/extension.ts:79-95 | The change listener changes the object exactly as `Sync.HandleChange`, with the document compared by identity. |
| `Extension.Session.Cleanup` | src/extension.ts:57-63 | The loop over the disposables, the connection close and the document close change the object exactly as `Sync.Cleanup`. |
| `Extension.Session.OnDidCloseTextDocument` | src/extension.ts:70-77 | The close listener changes the object exactly as `Sync.HandleClose`, with the document compared by identity. |
| `Extension.Session.OnConnectionClose` | src/extension.ts:65-68 | The connection's `close` listener runs the cleanup. |
| `Extension.Deliver` | src/extension.ts:48-95 | Delivering an event through the transport and the editor changes the session exactly as `Sync.Step`. |

## Left out

- JSON parsing and serialisation (src/server.ts:15, 37). Messages are already-parsed records, so a malformed payload is not modelled.
- Creating the HTTP and WebSocket servers, binding port 4001, and the `listening` and `connection` wiring (src/server.ts:67-98). This is library plumbing; only the response and error decisions are kept.
- The module-level `close` and `deactivate` (src/server.ts:60-65, src/extension.ts:108-110), which tear down global server state.
- src/file.ts and the `addConnection`/`removeConnection` calls (src/extension.ts:42, 66), which only write a counter file.
- Async interleavings, such as a second message arriving while the first one's `openTextDocument` is pending. In the source that second message would find `document` still null, open a second document and register a second set of listeners. The model runs each listener atomically, in arrival order, so "at most one document" in `Sync.RunPreservesValid` and `Sync.RunBinding` holds only under that scheduling.
- A failing `openTextDocument`, and its `language: "markdown"` option. The model assumes opening succeeds.
- A failing edit inside `closeDocument`. Cleanup does not await it, and the model assumes it applies.
- The `offsetAt` conversion of the editor's selections in the change listener (src/extension.ts:87-90). `send` drops them, so they never affect the state.
- Console logging.
- Showing the document in the change listener (src/extension.ts:84-86). The model assumes it succeeds, so a local change with the guard at 0 always reaches `send`; a rejection there, which would skip the send, is not modelled.
- Text length and offsets: the model counts characters as Unicode scalar values, while the editor's offsets count UTF-16 code units, so offsets and clamping bounds differ from the editor's for text outside the Basic Multilingual Plane.
- The editor's mapping of selections through an edit: after an applied edit with an empty selection list the model keeps the old selection offsets as they were, even past the new end of the text, where the editor would move them. A newly opened document likewise has no selections in the model, while a shown editor always has at least a cursor.
- The `title`, `url` and `syntax` fields of inbound messages. They are carried but not read.
- Sync.Cleanup: does not call the editor listeners for the changes it makes to the document. This matches the source only because it first disposes every listener, which holds in every state satisfying `Sync.Valid`.
