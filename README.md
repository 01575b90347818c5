# Private chat screen: a verified model of its session state machine

`src/Chat.jsx` is a React screen for a two-party chat over a socket. Under its
markup is a small state machine. It has five state fields: `myEmail`,
`otherEmail`, `joined`, the draft `message` and the timeline `messages`. It
has two user actions. `joinChat` emits `joinPrivateChat` and marks the screen
joined. `sendMessage` emits `createChat` and clears the draft. It also has two
inbound socket handlers. `chatHistory` replaces the timeline and `newMessage`
appends to it. Both handlers are registered when the screen mounts and removed
when it unmounts. When the timeline is rendered, a bubble counts as "mine" when
its `senderEmail` equals `myEmail`.

The model has four files:

- `whitespace.dfy` (module `Whitespace`) models JavaScript's
  `String.prototype.trim`, which the send guard uses. It strips the ECMAScript
  WhiteSpace and LineTerminator code points, which are listed one by one.
- `chat_state.dfy` (module `ChatState`) describes the screen as a value
  `State`. The value holds the five fields, whether the handlers are registered
  (`subscribed`) and the outbound socket log `sent`. `Step` applies one
  `Input` and `Run` applies a sequence of them. An input is a mount, an
  unmount, an inbound event or a user event. User events go only to the
  widgets the current screen renders (`Interact`). Before joining, those are
  the two email inputs and "Start Chat". After joining, they are the message
  input (Enter sends) and "Send". `Sides` is the attribution test applied to
  the whole timeline.
- `chat_properties.dfy` (module `ChatProperties`) holds the lemmas about
  `Run`. They cover how history and live messages build the timeline, what
  unmounting stops, and what the socket log holds in every reachable state.
  They also cover how bubbles are attributed, and one whole session as a
  worked example.
- `chat_component.dfy` (module `ChatComponent`) is the component itself: the
  class `Chat`. Its fields are updated in place by `JoinChat`, `SendMessage`,
  the two handlers, the subscribe/unsubscribe pair and the input setters.
  Each method states its new fields. `Subscribe`, `Unsubscribe`,
  `OnChatHistory`, `OnNewMessage` and `HandleUiEvent` are each proved to
  perform one `ChatState.Step` (`Snapshot() == Step(old(Snapshot()), …)`).
  So every lemma about `Run` holds of any sequence of calls to those five
  methods. `JoinChat`, `SendMessage` and the setters are proved equal to
  `ChatState.JoinChat`, `ChatState.SendMessage` and a field update. Called
  directly, they do what the code allows but the rendered screen never
  routes: a send before joining, a second join, or an email edited after
  joining. Such calls can leave the state outside the invariant `Consistent`.

The code reports no errors; every guard returns silently:

- `joinChat` returns without effect when either email is the empty string.
  There is no trim, so a blank email is accepted. A second call emits again;
  once joined, the "Start Chat" button is no longer rendered, so the screen
  never makes that call.
- `sendMessage` returns without effect on a blank draft and does not look at
  `joined`. `Chat.SendMessage` therefore has no `requires joined`; through the
  rendered screen it is reached only after joining, which `Interact` /
  `Chat.HandleUiEvent` model.
- `sendMessage` emits the draft untrimmed, and it never appends to the
  timeline. The sender's own message appears only when the server echoes it
  back as a `newMessage`.
- Registering the handlers is not made idempotent by the code. React runs the
  mount effect once per mount, after any earlier cleanup, and
  `Chat.Subscribe` states that as `requires !subscribed`.

## Model

| member | source | states |
|---|---|---|
| Whitespace.TrimStart | src/Chat.jsx:42 | The result is the suffix of the input left after dropping a prefix that is all whitespace; if it is not empty, it does not start with whitespace. |
| Whitespace.TrimEnd | src/Chat.jsx:42 | The result is the prefix of the input left before a suffix that is all whitespace; if it is not empty, it does not end with whitespace. |
| Whitespace.Trim | src/Chat.jsx:42 | `message.trim()`: the result is no longer than the input and is a prefix of what is left after the leading whitespace (`TrimStart`); `TrimEnd` then removes the trailing whitespace. |
| Whitespace.TrimEmptyIffBlank | src/Chat.jsx:42 | `message.trim()` is empty exactly when every character of the draft is whitespace (both directions); otherwise the trimmed text starts and ends with a non-whitespace character and is no longer than the draft. |
| Whitespace.TrimIdempotent | src/Chat.jsx:42 | Trimming a trimmed string changes nothing. |
| ChatState.JoinChat | src/Chat.jsx:31-39 | The log grows exactly when both emails are non-empty, and then by one join request from `myEmail` to `otherEmail`, with `joined` set. Otherwise the state is unchanged. The timeline, draft, emails and registration never change. |
| ChatState.SendMessage | src/Chat.jsx:41-51 | A blank draft leaves the state unchanged. Otherwise one chat request with the untrimmed draft is appended and the draft is cleared. The timeline, `joined`, emails and registration never change. |
| ChatState.Receive | src/Chat.jsx:15-20 | Without registered handlers nothing changes. With them, history makes the timeline exactly the batch and a new message is appended at the end. Only the timeline can change. |
| ChatState.Interact | src/Chat.jsx:57-123 | A user event never changes the timeline or the registration. Once joined, the screen stays joined and the emails stay fixed. Before joining, the draft stays fixed. At most one event is appended to the log, and nothing already in it changes. |
| ChatState.Step | src/Chat.jsx:14-51 | One input appends at most one event to the outbound log and keeps what was already there. An input that is not a user event changes only the timeline and the registration. |
| ChatState.Run | src/Chat.jsx:14-51 | The outbound log is append-only: the old log is a prefix of the new one, which has grown by at most one event per input. |
| ChatState.Sides | src/Chat.jsx:86-102 | The rendered timeline has one bubble per message, in order, and bubble k is on the "mine" side exactly when message k's `senderEmail` equals `myEmail`. |
| ChatProperties.StepExtendsTimeline | src/Chat.jsx:15-20 | While the handlers are registered, any input other than a history delivery or an unmount keeps them registered and extends the timeline by exactly the live message it delivers, if any. |
| ChatProperties.LiveAppendsInOrder | src/Chat.jsx:19-20 | While the handlers stay registered and no history arrives, the timeline becomes the old timeline followed by every live message in arrival order. Any user actions in between (sends, joins, typing) do not change this. |
| ChatProperties.HistoryThenLive | src/Chat.jsx:15-20 | A history batch H followed by live messages m1..mk (user actions anywhere between) leaves the timeline equal to H + [m1..mk]. |
| ChatProperties.LaterHistoryWins | src/Chat.jsx:15-16 | A second history delivery discards the first batch and every live message appended after it; the timeline is exactly the second batch. |
| ChatProperties.UserActionKeepsTimeline | src/Chat.jsx:41-51 | No user action changes the timeline or the handler registration; in particular sending never appends the sender's own message. |
| ChatProperties.DeafWhileUnsubscribed | src/Chat.jsx:23-26 | With the handlers removed and not registered again, no sequence of inputs changes the timeline, and the handlers stay removed. |
| ChatProperties.TeardownStopsDelivery | src/Chat.jsx:14-27 | After the effect cleanup, later history and new-message events (with no new mount) leave the timeline as it was. |
| ChatProperties.UnmountIdempotent | src/Chat.jsx:23-26 | Removing the handlers twice gives the same state as removing them once. |
| ChatProperties.IdentitiesFrozen | src/Chat.jsx:57-78 | Once joined, the screen stays joined, and `myEmail` and `otherEmail` never change again, because their inputs are no longer rendered. |
| ChatProperties.StepKeepsConsistent | src/Chat.jsx:31-51 | Any single input preserves the session invariant: joined exactly when something was emitted, non-empty emails once joined, and a log made of one join request followed only by that pair's non-blank chat requests. |
| ChatProperties.RunKeepsConsistent | src/Chat.jsx:31-51 | Every sequence of inputs preserves that invariant. |
| ChatProperties.ReachableStatesAreConsistent | src/Chat.jsx:5-51 | Starting from the first render, the socket log holds at most one `joinPrivateChat` event, which comes first. After it come only `createChat` events from `myEmail` to `otherEmail` with non-blank text. |
| ChatProperties.SidesAppend | src/Chat.jsx:86-102 | Attribution works message by message: the bubbles of a concatenated timeline are the bubbles of its two parts, concatenated. |
| ChatProperties.AttributionStable | src/Chat.jsx:86-102 | Once joined and subscribed, new live messages only add bubbles at the end, and no existing bubble ever moves to the other side. |
| ChatProperties.EchoScenario | src/Chat.jsx:14-51 | One full session: join a@x.com with b@x.com, receive one message of history, then send "hello". Exactly one join and one chat request are emitted, and the timeline is unchanged until the echo arrives. The echo is rendered as mine. |
| ChatComponent.Chat.constructor | src/Chat.jsx:5-10 | The first render has empty emails, no draft and an empty timeline. The screen is not joined, no handler is registered and nothing has been emitted. |
| ChatComponent.Chat.Subscribe | src/Chat.jsx:14-21 | Registers both inbound handlers and changes nothing else. |
| ChatComponent.Chat.Unsubscribe | src/Chat.jsx:23-26 | Removes both inbound handlers (also when already removed) and changes nothing else. |
| ChatComponent.Chat.OnChatHistory | src/Chat.jsx:15-17 | When registered, the timeline becomes exactly the delivered history; otherwise nothing changes. No other field changes. |
| ChatComponent.Chat.OnNewMessage | src/Chat.jsx:19-21 | When registered, the timeline becomes the old timeline plus the message at the end; otherwise nothing changes. No other field changes. |
| ChatComponent.Chat.JoinChat | src/Chat.jsx:31-39 | An empty email leaves the log and `joined` unchanged. Otherwise exactly one `joinPrivateChat` event from `myEmail` to `otherEmail` is appended and `joined` becomes true. The timeline, draft and emails never change. |
| ChatComponent.Chat.SendMessage | src/Chat.jsx:41-51 | A blank draft leaves the log and the draft unchanged. Otherwise exactly one `createChat` event is appended, carrying `myEmail`, `otherEmail` and the untrimmed draft, and the draft becomes empty. The timeline never changes. |
| ChatComponent.Chat.SetMyEmail | src/Chat.jsx:65 | Typing in "Your email" sets `myEmail` to the input's value and nothing else. |
| ChatComponent.Chat.SetOtherEmail | src/Chat.jsx:72 | Typing in "Other person's email" sets `otherEmail` and nothing else. |
| ChatComponent.Chat.SetMessage | src/Chat.jsx:117 | Typing in the message input sets the draft and nothing else. |
| ChatComponent.Chat.HandleUiEvent | src/Chat.jsx:57-123 | A user event reaches only the widgets of the current screen. Before joining, the email inputs and "Start Chat" respond, and the draft cannot change. After joining, the message input, Enter and "Send" respond; the screen stays joined and the emails stay frozen. |
| ChatComponent.Chat.OnJoinScreen | src/Chat.jsx:58-78 | On the join screen, typing sets an email, "Start Chat" runs `joinChat`, and any other event does nothing. |
| ChatComponent.Chat.OnChatScreen | src/Chat.jsx:80-123 | On the chat screen, typing sets the draft, Enter or "Send" runs `sendMessage`, another key changes nothing, and the email inputs are absent. |

## Left out

- Rendering and the `styles` object (src/Chat.jsx:55-127, 131-209) are
  presentation. Only the side of each bubble (`Sides`) is kept: "mine" is
  right-aligned white and the other side is left-aligned black.
- The `socket` module (`./socket`) is not part of this model. Outbound
  emissions are a log of event name and payload. Inbound events are calls to
  `OnChatHistory` / `OnNewMessage`, or `Deliver` inputs. Connection, delivery
  failure and reconnection are not represented.
- Registering the handlers twice without a cleanup is not represented.
  `Chat.Subscribe` requires the handlers to be unregistered, and `Step` treats
  a second `Mount` as keeping the single registration. A real socket would
  then hold two listeners and apply every event twice. React's mount/cleanup
  order rules this out.
- React's hook mechanics are not modelled: re-render scheduling, batching,
  closures that capture state from an earlier render, the `setMessages`
  updater function, and Strict Mode's double effect run. Each setter is a
  direct field assignment, and every user event sees the latest state.
- React also discards the component's state on unmount. The model keeps the
  state after `Unsubscribe`, so that "nothing changes after teardown" can be
  stated.
- Message payloads from the server have only `senderEmail` and `message`.
  Any other fields the server sends are not represented, and history is
  assumed to be a list of such records.
- Strings are sequences of Unicode code points, not UTF-16 code units. Every
  character `trim` strips lies in the Basic Multilingual Plane, so the guard
  behaves the same either way.
- The only keys modelled are Enter (send) and any other key (no effect on the
  draft by itself); typed text reaches the draft through `MessageChanged` /
  `SetMessage`.
