/** What the chat screen guarantees across sequences of inputs: how the
    timeline is built from history and live messages, what unmounting stops,
    what the socket log holds in every reachable state, and how bubbles are
    attributed. */
module ChatProperties {
  import opened Whitespace
  import opened ChatState

  /** Running two batches of inputs is running their concatenation. */
  lemma {:induction false} RunAppend(s: State, a: seq<Input>, b: seq<Input>)
    ensures Run(s, a + b) == Run(Run(s, a), b)
    decreases |a|
  {
    if a == [] {
      assert a + b == b;
    } else {
      assert (a + b)[0] == a[0];
      assert (a + b)[1..] == a[1..] + b;
      RunAppend(Step(s, a[0]), a[1..], b);
    }
  }

  /** One input that is neither a history delivery nor an unmount keeps the
      listeners and extends the timeline by the live message it delivers. */
  lemma StepExtendsTimeline(s: State, i: Input)
    requires s.subscribed
    requires !Interrupts(i)
    ensures Step(s, i).subscribed
    ensures Step(s, i).messages == s.messages + LiveMessage(i)
  {
    if i.User? {
      UserActionKeepsTimeline(s, i.ui);
    }
  }

  /** While the listeners stay registered and no history arrives, the
      timeline is the old one followed by every live message in arrival
      order, whatever the user does in between (sending included). */
  lemma {:induction false} LiveAppendsInOrder(s: State, inputs: seq<Input>)
    requires s.subscribed
    requires Uninterrupted(inputs)
    ensures Run(s, inputs).subscribed
    ensures Run(s, inputs).messages == s.messages + LiveMessages(inputs)
    decreases |inputs|
  {
    if inputs == [] {
      assert s.messages + [] == s.messages;
    } else {
      StepExtendsTimeline(s, inputs[0]);
      var next := Step(s, inputs[0]);
      assert Uninterrupted(inputs[1..]) by {
        forall k | 0 <= k < |inputs[1..]| ensures !Interrupts(inputs[1..][k]) {
          assert inputs[1..][k] == inputs[k + 1];
        }
      }
      LiveAppendsInOrder(next, inputs[1..]);
      assert Run(s, inputs) == Run(next, inputs[1..]);
      assert LiveMessages(inputs) == LiveMessage(inputs[0]) + LiveMessages(inputs[1..]);
      assert next.messages + LiveMessages(inputs[1..])
          == s.messages + (LiveMessage(inputs[0]) + LiveMessages(inputs[1..]));
    }
  }

  /** A history delivery followed by live messages yields exactly the history
      followed by those messages: nothing from before survives. */
  lemma HistoryThenLive(s: State, history: seq<ChatMessage>, inputs: seq<Input>)
    requires s.subscribed
    requires Uninterrupted(inputs)
    ensures Run(s, [Deliver(ChatHistory(history))] + inputs).messages == history + LiveMessages(inputs)
  {
    var all := [Deliver(ChatHistory(history))] + inputs;
    assert all[0] == Deliver(ChatHistory(history)) && all[1..] == inputs;
    LiveAppendsInOrder(Step(s, all[0]), inputs);
  }

  /** A second history delivery discards the first batch and every live
      message appended after it: the later batch wins entirely. */
  lemma LaterHistoryWins(s: State, first: seq<ChatMessage>, inputs: seq<Input>, second: seq<ChatMessage>)
    requires s.subscribed
    requires Uninterrupted(inputs)
    ensures Run(s, [Deliver(ChatHistory(first))] + inputs + [Deliver(ChatHistory(second))]).messages == second
  {
    var prefix := [Deliver(ChatHistory(first))] + inputs;
    RunAppend(s, prefix, [Deliver(ChatHistory(second))]);
    assert Uninterrupted(prefix[1..]) by { assert prefix[1..] == inputs; }
    assert prefix[0] == Deliver(ChatHistory(first));
    LiveAppendsInOrder(Step(s, prefix[0]), prefix[1..]);
  }

  /** No user action, sending included, touches the timeline or the
      listeners: the sender's own message shows up only when the server
      echoes it back as a live message. */
  lemma UserActionKeepsTimeline(s: State, e: UiEvent)
    ensures Step(s, User(e)).messages == s.messages
    ensures Step(s, User(e)).subscribed == s.subscribed
  {
  }

  /** With the listeners removed and not registered again, no later input
      changes the timeline. */
  lemma {:induction false} DeafWhileUnsubscribed(s: State, inputs: seq<Input>)
    requires !s.subscribed
    requires forall k :: 0 <= k < |inputs| ==> !inputs[k].Mount?
    ensures !Run(s, inputs).subscribed
    ensures Run(s, inputs).messages == s.messages
    decreases |inputs|
  {
    if inputs != [] {
      if inputs[0].User? {
        UserActionKeepsTimeline(s, inputs[0].ui);
      }
      DeafWhileUnsubscribed(Step(s, inputs[0]), inputs[1..]);
    }
  }

  /** Unmounting stops delivery: after the cleanup, history and new messages
      are no longer applied. */
  lemma TeardownStopsDelivery(s: State, inputs: seq<Input>)
    requires forall k :: 0 <= k < |inputs| ==> !inputs[k].Mount?
    ensures Run(s, [Unmount] + inputs).messages == s.messages
  {
    var all := [Unmount] + inputs;
    assert all[0] == Unmount && all[1..] == inputs;
    DeafWhileUnsubscribed(Step(s, Unmount), inputs);
  }

  /** Unmounting twice is unmounting once. */
  lemma UnmountIdempotent(s: State)
    ensures Step(Step(s, Unmount), Unmount) == Step(s, Unmount)
  {
  }

  /** Once joined the screen stays joined and its identities never change:
      their inputs are no longer rendered. */
  lemma {:induction false} IdentitiesFrozen(s: State, inputs: seq<Input>)
    requires s.joined
    ensures Run(s, inputs).joined
    ensures Run(s, inputs).myEmail == s.myEmail && Run(s, inputs).otherEmail == s.otherEmail
    decreases |inputs|
  {
    if inputs != [] {
      IdentitiesFrozen(Step(s, inputs[0]), inputs[1..]);
    }
  }

  /** What the k-th outbound event of a session is: first the join request,
      then chat messages, all from `myEmail` to `otherEmail`, none blank. */
  predicate SessionEmission(myEmail: string, otherEmail: string, e: Emission, first: bool) {
    if first then e == JoinRequest(myEmail, otherEmail)
    else
      e.event == CREATE_EVENT && e.payload.CreatePayload?
      && e.payload.senderEmail == myEmail && e.payload.receiverEmail == otherEmail
      && Trim(e.payload.message) != ""
  }

  /** The invariant of every state the screen can reach from its initial one. */
  predicate Consistent(s: State) {
    (s.joined <==> s.sent != [])
    && (s.joined ==> s.myEmail != "" && s.otherEmail != "")
    && forall k :: 0 <= k < |s.sent| ==> SessionEmission(s.myEmail, s.otherEmail, s.sent[k], k == 0)
  }

  lemma StepKeepsConsistent(s: State, i: Input)
    requires Consistent(s)
    ensures Consistent(Step(s, i))
  {
    if i.User? {
      if s.joined {
        ChatScreenKeepsConsistent(s, i.ui);
      } else {
        JoinScreenKeepsConsistent(s, i.ui);
      }
    }
  }

  /** On the join screen nothing has been emitted yet; "Start Chat" emits
      the join request, first, and only with both emails present. */
  lemma JoinScreenKeepsConsistent(s: State, e: UiEvent)
    requires Consistent(s) && !s.joined
    ensures Consistent(Interact(s, e))
  {
    assert s.sent == [];
    var t := Interact(s, e);
    if t.joined {
      assert t.sent == [JoinRequest(s.myEmail, s.otherEmail)];
    }
  }

  /** On the chat screen the identities are fixed and a send appends one
      non-blank chat request of the joined pair. */
  lemma ChatScreenKeepsConsistent(s: State, e: UiEvent)
    requires Consistent(s) && s.joined
    ensures Consistent(Interact(s, e))
  {
    var t := Interact(s, e);
    assert t.joined && t.myEmail == s.myEmail && t.otherEmail == s.otherEmail;
    if t.sent != s.sent {
      assert t.sent == s.sent + [CreateRequest(s.myEmail, s.otherEmail, s.message)];
      assert Trim(s.message) != "";
      forall k | 0 <= k < |t.sent|
        ensures SessionEmission(t.myEmail, t.otherEmail, t.sent[k], k == 0)
      {
        if k < |s.sent| {
          assert t.sent[k] == s.sent[k];
        }
      }
    }
  }

  lemma {:induction false} RunKeepsConsistent(s: State, inputs: seq<Input>)
    requires Consistent(s)
    ensures Consistent(Run(s, inputs))
    decreases |inputs|
  {
    if inputs != [] {
      StepKeepsConsistent(s, inputs[0]);
      RunKeepsConsistent(Step(s, inputs[0]), inputs[1..]);
    }
  }

  /** Whatever the user, the server and the lifecycle do, the socket log of
      the screen holds exactly one join request, first, then only chat
      messages of the joined pair with non-blank text. */
  lemma ReachableStatesAreConsistent(inputs: seq<Input>)
    ensures Consistent(Run(INITIAL, inputs))
  {
    RunKeepsConsistent(INITIAL, inputs);
  }

  lemma {:induction false} SidesAppend(a: seq<ChatMessage>, b: seq<ChatMessage>, myEmail: string)
    ensures Sides(a + b, myEmail) == Sides(a, myEmail) + Sides(b, myEmail)
    decreases |a|
  {
    if a != [] {
      assert (a + b)[0] == a[0];
      assert (a + b)[1..] == a[1..] + b;
      SidesAppend(a[1..], b, myEmail);
    }
  }

  /** Once joined, new live messages add bubbles at the end and never move an
      existing bubble to the other side. */
  lemma AttributionStable(s: State, inputs: seq<Input>)
    requires s.joined && s.subscribed
    requires Uninterrupted(inputs)
    ensures Sides(Run(s, inputs).messages, Run(s, inputs).myEmail)
         == Sides(s.messages, s.myEmail) + Sides(LiveMessages(inputs), s.myEmail)
  {
    LiveAppendsInOrder(s, inputs);
    IdentitiesFrozen(s, inputs);
    SidesAppend(s.messages, LiveMessages(inputs), s.myEmail);
  }

  /** A whole session: join as a@x.com with b@x.com, receive one message of
      history, send "hello" (nothing is appended), then receive its echo,
      which renders as mine. */
  lemma EchoScenario()
    ensures
      var hi := ChatMessage("b@x.com", "hi");
      var hello := ChatMessage("a@x.com", "hello");
      var t := Run(INITIAL, [Mount]
        + [User(MyEmailChanged("a@x.com"))]
        + [User(OtherEmailChanged("b@x.com"))]
        + [User(StartChatClicked)]
        + [Deliver(ChatHistory([hi]))]
        + [User(MessageChanged("hello"))]
        + [User(SendClicked)]
        + [Deliver(NewMessage(hello))]);
      && t.messages == [hi, hello]
      && t.message == ""
      && t.sent == [JoinRequest("a@x.com", "b@x.com"), CreateRequest("a@x.com", "b@x.com", "hello")]
      && Sides(t.messages, t.myEmail) == [Theirs, Mine]
  {
    var hi := ChatMessage("b@x.com", "hi");
    var hello := ChatMessage("a@x.com", "hello");
    var join := JoinRequest("a@x.com", "b@x.com");
    var create := CreateRequest("a@x.com", "b@x.com", "hello");
    var s0 := INITIAL.(subscribed := true);
    var s1 := s0.(myEmail := "a@x.com");
    var s2 := s1.(otherEmail := "b@x.com");
    var s3 := s2.(joined := true, sent := [join]);
    var s4 := s3.(messages := [hi]);
    var s5 := s4.(message := "hello");
    var s6 := s5.(message := "", sent := [join, create]);
    var s7 := s6.(messages := [hi, hello]);
    assert Step(s2, User(StartChatClicked)) == s3 by {
      assert s2.myEmail != "" && s2.otherEmail != "";
    }
    assert Step(s5, User(SendClicked)) == s6 by {
      SendHelloStep(s5);
      assert [join] + [create] == [join, create];
    }
    assert Step(s6, Deliver(NewMessage(hello))) == s7 by {
      assert [hi] + [hello] == [hi, hello];
    }
    var p0 := [Mount];
    var p1 := p0 + [User(MyEmailChanged("a@x.com"))];
    var p2 := p1 + [User(OtherEmailChanged("b@x.com"))];
    var p3 := p2 + [User(StartChatClicked)];
    var p4 := p3 + [Deliver(ChatHistory([hi]))];
    var p5 := p4 + [User(MessageChanged("hello"))];
    var p6 := p5 + [User(SendClicked)];
    var p7 := p6 + [Deliver(NewMessage(hello))];
    assert Run(INITIAL, p0) == s0;
    RunSnoc(INITIAL, p0, User(MyEmailChanged("a@x.com")));
    RunSnoc(INITIAL, p1, User(OtherEmailChanged("b@x.com")));
    RunSnoc(INITIAL, p2, User(StartChatClicked));
    RunSnoc(INITIAL, p3, Deliver(ChatHistory([hi])));
    RunSnoc(INITIAL, p4, User(MessageChanged("hello")));
    RunSnoc(INITIAL, p5, User(SendClicked));
    RunSnoc(INITIAL, p6, Deliver(NewMessage(hello)));
    assert Run(INITIAL, p7) == s7;
    assert Sides(s7.messages, s7.myEmail)[0] == Theirs;
  }

  /** Clicking "Send" on the chat screen with the draft "hello" emits it
      and clears the draft. */
  lemma SendHelloStep(s: State)
    requires s.joined && s.message == "hello"
    ensures Step(s, User(SendClicked))
         == s.(message := "", sent := s.sent + [CreateRequest(s.myEmail, s.otherEmail, "hello")])
  {
    assert !IsWhitespace(s.message[0]) && !IsWhitespace(s.message[|s.message| - 1]);
    assert TrimStart(s.message) == s.message;
    assert TrimEnd(s.message) == s.message;
    assert Trim(s.message) != "";
    assert Step(s, User(SendClicked)) == SendMessage(s);
  }

  /** Running one more input after a batch is one more step. */
  lemma RunSnoc(s: State, inputs: seq<Input>, i: Input)
    ensures Run(s, inputs + [i]) == Step(Run(s, inputs), i)
  {
    RunAppend(s, inputs, [i]);
  }
}
