/** The private chat screen as a state machine over values: its five state
    fields, whether its two socket listeners are registered, and the log of
    events it has emitted on the socket. Every user action, inbound socket
    event and mount/unmount of the screen is one `Input`; `Step` applies one
    and `Run` applies a sequence of them in order. */
module ChatState {
  import opened Whitespace

  /** Names of the outbound socket events. */
  const JOIN_EVENT := "joinPrivateChat"
  const CREATE_EVENT := "createChat"

  /** A message as the server delivers it, in history and live. */
  datatype ChatMessage = ChatMessage(senderEmail: string, message: string)

  /** The record an outbound event carries. */
  datatype Payload =
    | JoinPayload(senderEmail: string, receiverEmail: string)
    | CreatePayload(senderEmail: string, receiverEmail: string, message: string)

  /** One `socket.emit(event, payload)`. */
  datatype Emission = Emission(event: string, payload: Payload)

  /** The two inbound socket events the screen listens to. */
  datatype Inbound =
    | ChatHistory(history: seq<ChatMessage>)
    | NewMessage(msg: ChatMessage)

  /** What the user can do on the widgets the screen renders. */
  datatype UiEvent =
    | MyEmailChanged(value: string)     // "Your email" input, join screen
    | OtherEmailChanged(value: string)  // "Other person's email" input, join screen
    | StartChatClicked                  // "Start Chat" button, join screen
    | MessageChanged(value: string)     // message input, chat screen
    | MessageKeyDown(key: string)       // key pressed in the message input, chat screen
    | SendClicked                       // "Send" button, chat screen

  datatype Input =
    | Mount                   // the listener effect runs
    | Unmount                 // the effect's cleanup runs
    | Deliver(inbound: Inbound)
    | User(ui: UiEvent)

  /** The component state, whether the listeners are registered, and the
      outbound socket log `sent`, oldest first. */
  datatype State = State(
    myEmail: string,
    otherEmail: string,
    joined: bool,
    message: string,
    messages: seq<ChatMessage>,
    subscribed: bool,
    sent: seq<Emission>)

  /** Every field at its `useState` default, no listener, nothing emitted. */
  const INITIAL := State("", "", false, "", [], false, [])

  function JoinRequest(myEmail: string, otherEmail: string): Emission {
    Emission(JOIN_EVENT, JoinPayload(myEmail, otherEmail))
  }

  function CreateRequest(myEmail: string, otherEmail: string, message: string): Emission {
    Emission(CREATE_EVENT, CreatePayload(myEmail, otherEmail, message))
  }

  /** `joinChat`: both emails must be non-empty (no trim); emits the join
      request and marks the screen joined. A second call re-emits. */
  function JoinChat(s: State): (r: State)
    ensures (r.sent != s.sent) <==> s.myEmail != "" && s.otherEmail != ""
    ensures r.sent != s.sent ==> r.sent == s.sent + [JoinRequest(s.myEmail, s.otherEmail)] && r.joined
    ensures r.sent == s.sent ==> r == s
    ensures r.messages == s.messages && r.message == s.message && r.subscribed == s.subscribed
    ensures r.myEmail == s.myEmail && r.otherEmail == s.otherEmail
  {
    if s.myEmail == "" || s.otherEmail == "" then s
    else s.(sent := s.sent + [JoinRequest(s.myEmail, s.otherEmail)], joined := true)
  }

  /** `sendMessage`: the trimmed draft must be non-empty; emits the untrimmed
      draft and clears it. It does not look at `joined` and does not touch
      the timeline. */
  function SendMessage(s: State): (r: State)
    ensures IsBlank(s.message) ==> r == s
    ensures !IsBlank(s.message) ==>
      r.sent == s.sent + [CreateRequest(s.myEmail, s.otherEmail, s.message)] && r.message == ""
    ensures r.messages == s.messages && r.joined == s.joined && r.subscribed == s.subscribed
    ensures r.myEmail == s.myEmail && r.otherEmail == s.otherEmail
  {
    TrimEmptyIffBlank(s.message);
    if Trim(s.message) == "" then s
    else s.(sent := s.sent + [CreateRequest(s.myEmail, s.otherEmail, s.message)], message := "")
  }

  /** An inbound event reaches the screen only while its listener is
      registered: history replaces the timeline, a new message is appended. */
  function Receive(s: State, e: Inbound): (r: State)
    ensures !s.subscribed ==> r == s
    ensures s.subscribed && e.ChatHistory? ==> r.messages == e.history
    ensures s.subscribed && e.NewMessage? ==> r.messages == s.messages + [e.msg]
    ensures r.(messages := s.messages) == s
  {
    if !s.subscribed then s
    else match e
      case ChatHistory(h) => s.(messages := h)
      case NewMessage(m) => s.(messages := s.messages + [m])
  }

  /** A user event on the screen currently rendered: before joining only the
      two email inputs and "Start Chat" exist, afterwards only the message
      input and "Send". Enter in the message input sends. */
  function Interact(s: State, e: UiEvent): (r: State)
    ensures r.messages == s.messages && r.subscribed == s.subscribed
    ensures s.joined ==> r.joined && r.myEmail == s.myEmail && r.otherEmail == s.otherEmail
    ensures !s.joined ==> r.message == s.message
    ensures s.sent <= r.sent && |r.sent| <= |s.sent| + 1
  {
    if !s.joined then
      match e
      case MyEmailChanged(v) => s.(myEmail := v)
      case OtherEmailChanged(v) => s.(otherEmail := v)
      case StartChatClicked => JoinChat(s)
      case _ => s
    else
      match e
      case MessageChanged(v) => s.(message := v)
      case MessageKeyDown(key) => if key == "Enter" then SendMessage(s) else s
      case SendClicked => SendMessage(s)
      case _ => s
  }

  function Step(s: State, i: Input): (r: State)
    ensures s.sent <= r.sent && |r.sent| <= |s.sent| + 1
    ensures !i.User? ==> r.(messages := s.messages, subscribed := s.subscribed) == s
  {
    match i
    case Mount => s.(subscribed := true)
    case Unmount => s.(subscribed := false)
    case Deliver(e) => Receive(s, e)
    case User(e) => Interact(s, e)
  }

  function Run(s: State, inputs: seq<Input>): (r: State)
    ensures s.sent <= r.sent && |r.sent| <= |s.sent| + |inputs|
    decreases |inputs|
  {
    if inputs == [] then s else Run(Step(s, inputs[0]), inputs[1..])
  }

  /** The live message an input delivers, if it delivers one. */
  function LiveMessage(i: Input): seq<ChatMessage> {
    if i.Deliver? && i.inbound.NewMessage? then [i.inbound.msg] else []
  }

  /** The live messages among `inputs`, in delivery order. */
  function LiveMessages(inputs: seq<Input>): seq<ChatMessage>
    decreases |inputs|
  {
    if inputs == [] then [] else LiveMessage(inputs[0]) + LiveMessages(inputs[1..])
  }

  /** Inputs after which later live messages no longer simply extend the
      timeline: a history delivery (it replaces) and unmounting (it stops
      delivery). */
  predicate Interrupts(i: Input) {
    i.Unmount? || (i.Deliver? && i.inbound.ChatHistory?)
  }

  predicate Uninterrupted(inputs: seq<Input>) {
    forall k :: 0 <= k < |inputs| ==> !Interrupts(inputs[k])
  }

  /** Which side a rendered bubble sits on. */
  datatype Side = Mine | Theirs

  /** The attribution test `msg.senderEmail === myEmail`. */
  function SideOf(m: ChatMessage, myEmail: string): Side {
    if m.senderEmail == myEmail then Mine else Theirs
  }

  /** The side of every bubble the timeline renders, in order. */
  function Sides(messages: seq<ChatMessage>, myEmail: string): (r: seq<Side>)
    ensures |r| == |messages|
    ensures forall k :: 0 <= k < |messages| ==> (r[k] == Mine <==> messages[k].senderEmail == myEmail)
    decreases |messages|
  {
    if messages == [] then []
    else [SideOf(messages[0], myEmail)] + Sides(messages[1..], myEmail)
  }
}
