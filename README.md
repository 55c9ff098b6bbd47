# Group-chat client session logic in Dafny

A model of the React Native group-chat client's session logic:

- the chat screen's handlers for the socket events `connect`, `disconnect`,
  `connect_error`, `messages`, `message`, `users`, `userTyping` and `error`,
  the two user intents `sendMessage` and `handleTyping`, the typing
  timeout, the unmount cleanup, and the typing-indicator label
  (`ChatScreen`, with the list updates in `ChatLogic`);
- the socket service object with its `connect`, `disconnect`, event
  handlers and guarded emit helpers (`Services`);
- the display-name check of the name-entry screen (`NameInput`);
- the JavaScript string primitives these rely on: `trim`, `length` in
  UTF-16 code units, and the decimal rendering of a count (`Text`).

The chat session is a class `ChatSession` whose fields are the screen's
state variables (`isConnected`, `isLoading`, `messages`, `users`,
`typingUsers`, `isTyping`, `newMessage`), the `typingTimeoutRef` slot, the
set of timeouts still pending, a log of every `socket.emit` call and a log
of alerts. Each handler is a method whose contract gives the whole new
state as an update of the old one (`View() == old(View()).(...)`) and keeps
the invariant `Valid()`: connected only with a socket, no duplicate in
`typingUsers`, at most one typing timeout pending (the one the ref holds),
and local Typing never without a pending timeout. The socket service is a
class `SocketService` holding the socket (numbered in creation order), the
connection flag and an emit log; its invariant says the held socket is the
only one not yet closed, so connected implies a socket is held.

In several places the code does less than a chat client is usually expected
to do; the model follows the code:

- a `message` event appends without checking the message id, so a message
  delivered twice is listed twice (`DuplicateDeliveryScenario`);
- `sendMessage` does not check the 500-character limit, which only the
  input field's `maxLength` enforces;
- a `userTyping` event about the user's own name is not ignored;
- the unmount cleanup does not clear the typing timeout, which can still
  fire and emit `typing = false` (`TimeoutAfterTeardownScenario`);
- sending does not clear the typing timeout, so `typing = false` is emitted
  by the send and again when the timeout fires (`SendThenTimeoutScenario`);
- `handleTyping` emits `typing = true` whenever a socket exists, connected
  or not.

The name check's alert for an over-long name reads "less than 50
characters" while a name of exactly 50 passes; the model keeps both.

## Model

| member | source | states |
|---|---|---|
| `Text.Trim` | src/screens/ChatScreen.js:102-104 | The trimmed text is empty, so a send is refused, exactly when the input is all whitespace. |
| `Text.TrimShape` | src/screens/NameInputScreen.js:20 | The trimmed string is the slice of the input between its leading and trailing whitespace, and neither starts nor ends with whitespace. |
| `Text.TrimOfTrimmed` | src/screens/NameInputScreen.js:20 | A string with no whitespace at either end is its own trim. |
| `Text.TrimIdempotent` | src/screens/NameInputScreen.js:20 | Trimming twice is trimming once. |
| `Text.TrimPadStart` | src/screens/ChatScreen.js:102 | Whitespace added in front of a text does not change its trim. |
| `Text.TrimPadEnd` | src/screens/ChatScreen.js:102 | Whitespace added after a text does not change its trim. |
| `Text.Utf16Length` | src/screens/NameInputScreen.js:27-35 | A string's JavaScript length lies between its character count and twice it, and equals the character count exactly when no character lies outside the Basic Multilingual Plane. |
| `Text.NatToDecimal` | src/screens/ChatScreen.js:173 | The rendering of a count is a non-empty string of decimal digits with no leading zero. |
| `Text.DecimalRoundTrip` | src/screens/ChatScreen.js:173 | Reading the rendered digits back gives the count. |
| `NameInput.ValidateName` | src/screens/NameInputScreen.js:19-49 | The checks apply to the trimmed input in order: empty, JavaScript length below 2, above 50, a character outside letters, whitespace, `-` and `'`; each error is reported exactly when its check is the first to fail, and the trimmed name is accepted exactly when all pass. |
| `NameInput.SubmitAlert` | src/screens/NameInputScreen.js:19-42 | No alert exactly when the name is accepted; otherwise the alert is the text of the first failing check: "Please enter your full name" exactly when the trimmed input is empty, the minimum-length text exactly when it is 1 code unit long, the maximum-length text exactly when it is over 50. |
| `NameInput.AcceptedNameShape` | src/screens/NameInputScreen.js:27-42 | Every accepted name has 2 to 50 characters, all allowed, and no whitespace at either end. |
| `NameInput.AcceptedNameRevalidates` | src/screens/NameInputScreen.js:20-49 | The name passed on to the chat screen is accepted again unchanged. |
| `NameInput.ValidateIgnoresPadding` | src/screens/NameInputScreen.js:20 | Whitespace typed before or after a name never changes the verdict. |
| `ChatLogic.Without` | src/screens/ChatScreen.js:83 | A stop-typing update removes every occurrence of the user and keeps every other entry with its multiplicity. |
| `ChatLogic.WithoutConcat` | src/screens/ChatScreen.js:83 | Removal distributes over concatenation, so the remaining entries keep their relative order. |
| `ChatLogic.WithoutAbsent` | src/screens/ChatScreen.js:83 | A stop from a user not listed leaves the list unchanged. |
| `ChatLogic.WithoutNoDup` | src/screens/ChatScreen.js:83 | A duplicate-free typing list stays duplicate-free after a stop. |
| `ChatLogic.MarkTyping` | src/screens/ChatScreen.js:81 | After a start-typing update the user is present exactly once, as the last element, and every other user keeps its multiplicity. |
| `ChatLogic.MarkTypingKeepsOthersInOrder` | src/screens/ChatScreen.js:81 | A start-typing update leaves the other entries in their old relative order. |
| `ChatLogic.MarkTypingNoDup` | src/screens/ChatScreen.js:81 | A duplicate-free typing list stays duplicate-free after a start. |
| `ChatLogic.MarkTypingIdempotent` | src/screens/ChatScreen.js:81 | A repeated start from the same user changes nothing. |
| `ChatLogic.StartThenStop` | src/screens/ChatScreen.js:79-85 | A start followed by a stop from the same user leaves the list as a stop alone would, without that user. |
| `ChatLogic.TypingLabel` | src/screens/ChatScreen.js:168-169 | No label is shown exactly when nobody is typing. |
| `ChatLogic.TypingLabelMeaning` | src/screens/ChatScreen.js:171-173 | One typist: the label is that name followed by " is typing..."; several: the label is decimal digits denoting their number followed by " people are typing...". |
| `ChatScreen.ChatSession.constructor` | src/screens/ChatScreen.js:21-32 | The first render: no socket, not connected, loading, empty lists and input, Idle, no timeout, nothing emitted. |
| `ChatScreen.ChatSession.Mount` | src/screens/ChatScreen.js:34-91 | The mount effect creates the socket and stores it; nothing else changes. |
| `ChatScreen.ChatSession.OnConnect` | src/screens/ChatScreen.js:41-48 | Connected, loading cleared, `join` with the display name emitted; nothing else changes. |
| `ChatScreen.ChatSession.OnDisconnect` | src/screens/ChatScreen.js:50-53 | Only the connection flag is cleared. |
| `ChatScreen.ChatSession.OnConnectError` | src/screens/ChatScreen.js:55-65 | Loading cleared and the connection-error alert shown; the connection flag is not set. |
| `ChatScreen.ChatSession.OnMessages` | src/screens/ChatScreen.js:67-69 | The message list becomes exactly the received snapshot, prior content discarded. |
| `ChatScreen.ChatSession.OnMessage` | src/screens/ChatScreen.js:71-73 | Exactly one message appended at the end, earlier messages and their order unchanged, no id check. |
| `ChatScreen.ChatSession.OnUsers` | src/screens/ChatScreen.js:75-77 | The roster becomes exactly the received list, not merged. |
| `ChatScreen.ChatSession.OnUserTyping` | src/screens/ChatScreen.js:79-85 | The typing list becomes the start or stop update of the old one and stays duplicate-free. |
| `ChatScreen.ChatSession.OnError` | src/screens/ChatScreen.js:87-89 | The server's error message is shown; nothing else changes. |
| `ChatScreen.ChatSession.SendMessage` | src/screens/ChatScreen.js:101-114 | No change at all when the trimmed input is empty, there is no socket or it is not connected; otherwise the trimmed text then `typing = false` are emitted, the input cleared and the intent set Idle, the pending timeout left alone. |
| `ChatScreen.ChatSession.HandleTyping` | src/screens/ChatScreen.js:116-134 | The input takes the text; `typing = true` is emitted only on the Idle to Typing transition; the old timeout is cleared and a fresh one is the only pending one. |
| `ChatScreen.ChatSession.FireTypingTimeout` | src/screens/ChatScreen.js:130-133 | Only the timeout whose handle the ref holds can fire; it sets Idle, emits `typing = false` when a socket exists, and leaves no timeout pending. |
| `ChatScreen.ChatSession.Teardown` | src/screens/ChatScreen.js:94-98 | The cleanup closes the socket and changes nothing else, the pending timeout included. |
| `ChatScreen.SnapshotThenPushScenario` | src/screens/ChatScreen.js:67-73 | A snapshot of two messages then one push gives the three in snapshot-then-push order, after a single `join`. |
| `ChatScreen.DuplicateDeliveryScenario` | src/screens/ChatScreen.js:71-73 | The same message delivered twice is listed twice. |
| `ChatScreen.SendWhileDisconnectedScenario` | src/screens/ChatScreen.js:101-106 | Sending after a disconnect emits nothing and keeps the typed text. |
| `ChatScreen.TypingBurstScenario` | src/screens/ChatScreen.js:116-134 | Two keystrokes then silence emit one `typing = true` and one `typing = false`; the first keystroke's timeout is cleared. |
| `ChatScreen.SendThenTimeoutScenario` | src/screens/ChatScreen.js:101-134 | A keystroke, a send and the timeout emit the message and `typing = false` twice. |
| `ChatScreen.TimeoutAfterTeardownScenario` | src/screens/ChatScreen.js:94-133 | A timeout pending at the cleanup still fires and emits `typing = false`. |
| `Services.SocketService.constructor` | src/services/socketService.js:4-8 | A fresh service holds no socket and is not connected. |
| `Services.SocketService.Connect` | src/services/socketService.js:10-31 | With a socket held, returns it and creates none; otherwise creates exactly one new socket and holds it; the connection flag is unchanged. |
| `Services.SocketService.Disconnect` | src/services/socketService.js:33-39 | Closes the held socket, then holds none and is not connected; with no socket nothing changes. |
| `Services.SocketService.OnConnect` | src/services/socketService.js:20-23 | The `connect` event of a live socket sets the flag and keeps the invariant that connected implies a socket is held. |
| `Services.SocketService.OnDisconnect` | src/services/socketService.js:25-28 | The `disconnect` event clears the flag. |
| `Services.SocketService.GetSocket` | src/services/socketService.js:41-43 | Returns the socket held. |
| `Services.SocketService.IsSocketConnected` | src/services/socketService.js:45-47 | Returns the flag; when true a socket is held. |
| `Services.SocketService.JoinChat` | src/services/socketService.js:50-54 | Emits `join` on the held socket whenever one is held, connected or not. |
| `Services.SocketService.SendMessage` | src/services/socketService.js:56-60 | Emits the message only when a socket is held and connected. |
| `Services.SocketService.SendTypingIndicator` | src/services/socketService.js:62-66 | Emits the typing flag only when a socket is held and connected. |
| `Services.ConnectTwiceScenario` | src/services/socketService.js:10-13 | Two calls to `connect` create one socket and return it both times. |
| `Services.GuardedEmitScenario` | src/services/socketService.js:33-66 | Before the `connect` event only `join` goes out; after it messages and typing do; after `disconnect` nothing does, and a new `connect` creates a second socket. |

## Left out

- socket.io itself: transport selection, the 20000 ms connect timeout, the server address and wire framing. A socket is an abstract event source; an emit is an entry in a log of `emit` calls, whether or not the socket would transmit it.
- Real time: the 1000 ms typing timeout is an explicit `FireTypingTimeout` event, and the 500 ms delay before navigating away from the name screen is not modelled; an accepted name is what would be passed on.
- Rendering, styles, list scrolling, the loading spinner, timestamps formatted by `toLocaleTimeString`, and `console.log` output.
- Alerts are entries in a log of notices; the connection-error alert's button that navigates back, and all other navigation, are not modelled.
- React hook semantics: state updates are applied at once and in sequence; stale closures over `isTyping` and `socket`, update batching and updates after unmount are not modelled.
- Events after the cleanup: the handlers require a live socket, since a disconnected socket.io socket delivers no further events; only the typing timeout can still fire.
- `ChatScreen.ChatSession.HandleTyping` and `ChatScreen.ChatSession.SendMessage` may be called in any state with the screen still mounted, including while loading or disconnected; on screen the input is not rendered while loading and is not editable while disconnected (`editable={isConnected}`), so the model admits keystrokes and sends a user cannot make there.
- `Services.SocketService.OnConnect` and `Services.SocketService.OnDisconnect` accept only events from a socket the service has not closed. `connect` hands its socket to callers, and a caller that reopened a socket after `disconnect` would have its handlers still set `isConnected`; the model does not capture that.
- The module-level singleton of the socket service; the model constructs an instance.
- The navigation configuration in App.js, which holds no logic.
