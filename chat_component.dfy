/** The `Chat` component itself: its state fields updated in place by its
    actions and socket handlers. The socket is an outbound log `sent` that the
    actions append to, and inbound events are handed to the handler methods;
    `subscribed` says whether those handlers are registered.
    `Subscribe`, `Unsubscribe`, `OnChatHistory`, `OnNewMessage` and
    `HandleUiEvent` are each proved to perform one `ChatState.Step`, so the
    properties proved about `Run` hold of any sequence of calls to them.
    `JoinChat`, `SendMessage` and the setters, called directly, do what the
    code allows but the rendered screen never routes (a send before joining,
    a second join, an email edited after joining); such calls can leave the
    state outside `ChatProperties.Consistent`. */
module ChatComponent {
  import opened Whitespace
  import opened ChatState

  class Chat {
    var myEmail: string
    var otherEmail: string
    var joined: bool
    var message: string               // the draft in the message input
    var messages: seq<ChatMessage>    // the timeline
    var subscribed: bool              // "chatHistory" and "newMessage" handlers registered
    var sent: seq<Emission>           // what the screen emitted on the socket, oldest first

    /** The component as a value of the state machine. */
    function Snapshot(): State
      reads this
    {
      State(myEmail, otherEmail, joined, message, messages, subscribed, sent)
    }

    /** First render: every `useState` default, before the effect has run. */
    constructor ()
      ensures Snapshot() == INITIAL
    {
      myEmail, otherEmail, joined := "", "", false;
      message, messages := "", [];
      subscribed, sent := false, [];
    }

    /** The effect body: registers both inbound handlers. React runs an effect
        with an empty dependency list once per mount, after the cleanup of any
        earlier run, so the handlers are never already registered. */
    method Subscribe()
      requires !subscribed
      modifies this`subscribed
      ensures subscribed
      ensures Snapshot() == Step(old(Snapshot()), Mount)
    {
      subscribed := true;
    }

    /** The effect cleanup: `socket.off` for both events; harmless when they
        are already removed. */
    method Unsubscribe()
      modifies this`subscribed
      ensures !subscribed
      ensures Snapshot() == Step(old(Snapshot()), Unmount)
    {
      subscribed := false;
    }

    /** A "chatHistory" event: replaces the whole timeline, if the handler is
        registered. */
    method OnChatHistory(history: seq<ChatMessage>)
      modifies this`messages
      ensures messages == if subscribed then history else old(messages)
      ensures Snapshot() == Step(old(Snapshot()), Deliver(ChatHistory(history)))
    {
      if subscribed {
        messages := history;
      }
    }

    /** A "newMessage" event: appends one message at the end of the timeline,
        if the handler is registered. */
    method OnNewMessage(msg: ChatMessage)
      modifies this`messages
      ensures messages == if subscribed then old(messages) + [msg] else old(messages)
      ensures Snapshot() == Step(old(Snapshot()), Deliver(NewMessage(msg)))
    {
      if subscribed {
        messages := messages + [msg];
      }
    }

    /** `joinChat`: rejects an empty email (only the empty string: a blank one
        passes); otherwise emits one join request from `myEmail` to
        `otherEmail` and marks the screen joined. Nothing else changes. */
    method JoinChat()
      modifies this`sent, this`joined
      ensures myEmail == "" || otherEmail == "" ==> sent == old(sent) && joined == old(joined)
      ensures myEmail != "" && otherEmail != "" ==>
        sent == old(sent) + [JoinRequest(myEmail, otherEmail)] && joined
      ensures Snapshot() == ChatState.JoinChat(old(Snapshot()))
    {
      if myEmail == "" || otherEmail == "" {
        return;
      }
      sent := sent + [JoinRequest(myEmail, otherEmail)];
      joined := true;
    }

    /** `sendMessage`: rejects a blank draft; otherwise emits one chat request
        carrying the draft as typed, untrimmed, and clears the draft. The
        timeline is never touched. */
    method SendMessage()
      modifies this`sent, this`message
      ensures Trim(old(message)) == "" ==> sent == old(sent) && message == old(message)
      ensures Trim(old(message)) != "" ==>
        sent == old(sent) + [CreateRequest(myEmail, otherEmail, old(message))] && message == ""
      ensures Snapshot() == ChatState.SendMessage(old(Snapshot()))
    {
      if Trim(message) == "" {
        return;
      }
      sent := sent + [CreateRequest(myEmail, otherEmail, message)];
      message := "";
    }

    method SetMyEmail(value: string)
      modifies this`myEmail
      ensures myEmail == value
      ensures Snapshot() == old(Snapshot()).(myEmail := value)
    {
      myEmail := value;
    }

    method SetOtherEmail(value: string)
      modifies this`otherEmail
      ensures otherEmail == value
      ensures Snapshot() == old(Snapshot()).(otherEmail := value)
    {
      otherEmail := value;
    }

    method SetMessage(value: string)
      modifies this`message
      ensures message == value
      ensures Snapshot() == old(Snapshot()).(message := value)
    {
      message := value;
    }

    /** A user event, routed to the widgets the current screen renders: the
        two email inputs and "Start Chat" before joining, the message input
        (Enter sends) and "Send" afterwards; events on widgets not shown are
        ignored. */
    method HandleUiEvent(e: UiEvent)
      modifies this`myEmail, this`otherEmail, this`joined, this`message, this`sent
      ensures old(joined) ==> joined && myEmail == old(myEmail) && otherEmail == old(otherEmail)
      ensures !old(joined) ==> message == old(message)
      ensures Snapshot() == Interact(old(Snapshot()), e)
    {
      if !joined {
        OnJoinScreen(e);
      } else {
        OnChatScreen(e);
      }
    }

    /** The join screen: the two email inputs and "Start Chat". */
    method OnJoinScreen(e: UiEvent)
      requires !joined
      modifies this`myEmail, this`otherEmail, this`joined, this`sent
      ensures Snapshot() == Interact(old(Snapshot()), e)
    {
      ghost var before := Snapshot();
      assert !before.joined;
      match e {
        case MyEmailChanged(v) => SetMyEmail(v);
        case OtherEmailChanged(v) => SetOtherEmail(v);
        case StartChatClicked =>
          assert Interact(before, e) == ChatState.JoinChat(before);
          JoinChat();
        case _ =>
      }
    }

    /** The chat screen: the message input, where Enter sends, and "Send". */
    method OnChatScreen(e: UiEvent)
      requires joined
      modifies this`message, this`sent
      ensures Snapshot() == Interact(old(Snapshot()), e)
    {
      ghost var before := Snapshot();
      assert before.joined;
      match e {
        case MessageChanged(v) => SetMessage(v);
        case MessageKeyDown(key) =>
          if key == "Enter" {
            assert Interact(before, e) == ChatState.SendMessage(before);
            SendMessage();
          }
        case SendClicked =>
          assert Interact(before, e) == ChatState.SendMessage(before);
          SendMessage();
        case _ =>
      }
    }
  }
}
