// Short event sequences run against `Home`, each proved from the handlers'
// contracts alone. They state what the handlers do with the component's
// state; which controls the page renders at each point is not modelled.

module Scenarios {
  import opened ChatTypes
  import opened Presence
  import opened Session

  /** Fill in the join form, join, then press Leave: the session is back to
      its initial state except that the name is kept, and the socket saw
      exactly `join_room` then `leave_room` for the same code. */
  method JoinThenLeave(name: string, code: string) returns (h: Home)
    requires name != "" && code != ""
    ensures fresh(h) && h.Valid()
    ensures !h.joined && h.messages == [] && h.room == ""
    ensures h.State() == HomeState(true, "", false, name, "", [], false, [], 0,
                                   [JoinRoom(code), LeaveRoom(code)])
  {
    h := new Home(true);
    h.SetUsername(name);
    h.SetRoom(code);
    h.Join();
    h.Leave();
  }

  /** Join, receive a message, type and send one, receive another: `shown`,
      the log just before leaving, holds the three in arrival order, the
      local one stamped with the sender's name and room; leaving then clears
      the log. */
  method ChatInOrder(name: string, code: string, text: string, time: string,
                     m1: Message, m2: Message) returns (h: Home, shown: seq<Message>)
    requires name != "" && code != "" && text != ""
    ensures fresh(h) && h.Valid()
    ensures shown == [m1, Message(name, text, time, code), m2]
    ensures h.messages == [] && !h.joined
    ensures h.outbox == [JoinRoom(code), Typing(name, code),
                         SendMessage(Message(name, text, time, code)), LeaveRoom(code)]
  {
    h := new Home(true);
    h.SetUsername(name);
    h.SetRoom(code);
    h.Join();
    h.Receive(m1);
    h.Change(Some(text));
    h.Send(time);
    h.Receive(m2);
    shown := h.messages;
    h.Leave();
  }

  /** Two peers type, and the first types again before the window runs out:
      `indicator`, the text just before the timeout fires, is "a, b" and the
      suffix, with exactly one decay scheduled; when it fires both names go
      at once. */
  method SharedDecayWindow(a: string, b: string)
    returns (h: Home, indicator: Option<string>, scheduled: nat)
    requires a != "" && b != "" && a != b
    ensures fresh(h) && h.Valid()
    ensures indicator == Some(a + ", " + b + TypingSuffix)
    ensures scheduled == 1
    ensures !h.isTyping && h.typingAuthor == [] && h.pendingDecays == 0
  {
    h := new Home(true);
    h.HearTyping(a, true);
    h.HearTyping(b, true);
    h.HearTyping(a, true);
    SummaryAfterNotice([a], b);
    indicator := Summary(h.isTyping, h.typingAuthor);
    scheduled := h.pendingDecays;
    h.Decay();
  }

  /** The guard of `handleSendMessage` with no room code: Send logs and emits
      nothing (only the typing notice of the input change went out). */
  method SendWithoutRoom(name: string, text: string, time: string) returns (h: Home)
    ensures fresh(h) && h.Valid()
    ensures h.messages == [] && h.outbox == [Typing(name, "")] && h.draft == text
  {
    h := new Home(true);
    h.SetUsername(name);
    h.Change(Some(text));
    h.Send(time);
  }

  /** The guard of `handleSendMessage` tests the room code, not `joined`: the
      handler run with a room code set but not joined logs and emits the
      message. (The page renders the message form only while joined.) */
  method SendBeforeJoin(name: string, code: string, text: string, time: string) returns (h: Home)
    requires code != "" && text != ""
    ensures fresh(h) && h.Valid() && !h.joined
    ensures h.messages == [Message(name, text, time, code)]
    ensures h.outbox == [Typing(name, code), SendMessage(Message(name, text, time, code))]
  {
    h := new Home(true);
    h.SetUsername(name);
    h.SetRoom(code);
    h.Change(Some(text));
    h.Send(time);
  }
}
