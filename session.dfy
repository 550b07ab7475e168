// The `Home` component of the chat page: its state variables and one method
// per event handler. Each handler runs to completion before the next event
// is dispatched, so a handler is a method that updates the fields in place.

module Session {
  import opened ChatTypes
  import opened Presence

  /** A snapshot of every field of `Home`, used to state each handler's whole
      new state in terms of the old one. */
  datatype HomeState = HomeState(
    connected: bool,
    room: string,
    joined: bool,
    username: string,
    draft: string,
    messages: seq<Message>,
    isTyping: bool,
    typingAuthor: seq<string>,
    pendingDecays: nat,
    outbox: seq<Event>)

  class Home {
    /** A socket exists (`socket != null`). */
    var connected: bool
    var room: string
    var joined: bool
    var username: string
    /** The message input (`message` in the component). */
    var draft: string
    var messages: seq<Message>
    var isTyping: bool
    var typingAuthor: seq<string>
    /** How many decay timeouts are scheduled and not cancelled. */
    var pendingDecays: nat
    /** Every event emitted on the socket, oldest first. */
    ghost var outbox: seq<Event>

    ghost function State(): HomeState
      reads this
    {
      HomeState(connected, room, joined, username, draft, messages,
                isTyping, typingAuthor, pendingDecays, outbox)
    }

    /** Joined only through a successful join: connected, with a room code
        and a name. Every typing name occurs once unless empty; a non-empty
        author list has exactly one decay scheduled that will clear it (never
        more than one), and the indicator is on only while one is scheduled. */
    ghost predicate Valid()
      reads this
    {
      (joined ==> connected && room != "" && username != "") &&
      DistinctNames(typingAuthor) &&
      pendingDecays <= 1 &&
      (pendingDecays == 1 <==> typingAuthor != []) &&
      (isTyping ==> pendingDecays == 1)
    }

    /** The component's initial state; `connected` is whether the socket has
        been created. */
    constructor (connected: bool)
      ensures Valid()
      ensures State() == HomeState(connected, "", false, "", "", [], false, [], 0, [])
    {
      this.connected := connected;
      room, joined, username, draft, messages := "", false, "", "", [];
      isTyping, typingAuthor, pendingDecays := false, [], 0;
      outbox := [];
    }

    /** The name input of the join form (shown only while not joined). */
    method SetUsername(name: string)
      requires Valid() && !joined
      modifies this
      ensures Valid()
      ensures State() == old(State()).(username := name)
    {
      username := name;
    }

    /** The room-code input of the join form (shown only while not joined). */
    method SetRoom(code: string)
      requires Valid() && !joined
      modifies this
      ensures Valid()
      ensures State() == old(State()).(room := code)
    {
      room := code;
    }

    /** `handleJoinRoom`: with a room code, a name and a socket, emit
        `join_room` and become joined; otherwise nothing happens. It does not
        look at `joined` and keeps the message log. */
    method Join()
      requires Valid()
      modifies this
      ensures Valid()
      ensures old(room != "" && username != "" && connected) ==>
        State() == old(State()).(joined := true, outbox := old(outbox) + [JoinRoom(old(room))])
      ensures !old(room != "" && username != "" && connected) ==>
        State() == old(State())
    {
      if room != "" && username != "" && connected {
        outbox := outbox + [JoinRoom(room)];
        joined := true;
      }
    }

    /** `handleSendMessage`: with a non-empty draft, a socket and a room code
        (not `joined`), emit the message stamped with the current name, room
        and `time`, append that same message to the log and clear the draft;
        otherwise nothing happens. */
    method Send(time: string)
      requires Valid()
      modifies this
      ensures Valid()
      ensures old(draft != "" && connected && room != "") ==>
        var m := Message(old(username), old(draft), time, old(room));
        State() == old(State()).(messages := old(messages) + [m], draft := "",
                                 outbox := old(outbox) + [SendMessage(m)])
      ensures !old(draft != "" && connected && room != "") ==>
        State() == old(State())
    {
      if draft != "" && connected && room != "" {
        var m := Message(username, draft, time, room);
        outbox := outbox + [SendMessage(m)];
        messages := AppendMessage(messages, m);
        draft := "";
      }
    }

    /** `handleChange`: the draft becomes the input's value (or "" when the
        input is missing), and with a socket a `typing` notice carrying the
        current name and room is emitted. Presence and the log are untouched. */
    method Change(input: Option<string>)
      requires Valid()
      modifies this
      ensures Valid()
      ensures var d := if input.Some? then input.value else "";
        State() == old(State()).(
          draft := d,
          outbox := if old(connected) then old(outbox) + [Typing(old(username), old(room))] else old(outbox))
    {
      draft := if input.Some? then input.value else "";
      if connected {
        outbox := outbox + [Typing(username, room)];
      }
    }

    /** The Leave button: emit `leave_room` when there is a socket and a room
        code, then in every case leave, clear the log and the room code. The
        name, the draft, the typing state and a scheduled decay are kept. */
    method Leave()
      requires Valid()
      modifies this
      ensures Valid()
      ensures State() == old(State()).(
        joined := false, messages := [], room := "",
        outbox := if old(connected && room != "") then old(outbox) + [LeaveRoom(old(room))] else old(outbox))
    {
      if connected && room != "" {
        outbox := outbox + [LeaveRoom(room)];
      }
      joined := false;
      messages := [];
      room := "";
    }

    /** The `receive_message` listener: the payload goes at the end of the
        log, whatever its room and whether or not this client is joined. */
    method Receive(m: Message)
      requires Valid()
      modifies this
      ensures Valid()
      ensures State() == old(State()).(messages := old(messages) + [m])
    {
      messages := AppendMessage(messages, m);
    }

    /** The `hear_typing` listener: cancel the scheduled decay if there is
        one, take the payload's flag, add the author unless it is a known
        non-empty name, and schedule one fresh decay. */
    method HearTyping(author: string, isTyped: bool)
      requires Valid()
      modifies this
      ensures Valid()
      ensures State() == old(State()).(
        isTyping := isTyped,
        typingAuthor := AddAuthor(old(typingAuthor), author),
        pendingDecays := 1)
    {
      AddAuthorKeepsDistinct(typingAuthor, author);
      if pendingDecays > 0 {
        pendingDecays := pendingDecays - 1;  // clearTimeout
      }
      isTyping := isTyped;
      typingAuthor := AddAuthor(typingAuthor, author);
      pendingDecays := pendingDecays + 1;    // setTimeout
    }

    /** The scheduled timeout fires: the indicator goes off and the author
        list is emptied. Only a scheduled, not cancelled timeout can fire. */
    method Decay()
      requires Valid() && pendingDecays > 0
      modifies this
      ensures Valid()
      ensures State() == old(State()).(isTyping := false, typingAuthor := [], pendingDecays := 0)
      ensures Summary(isTyping, typingAuthor) == None
    {
      isTyping := false;
      typingAuthor := [];
      pendingDecays := pendingDecays - 1;
    }
  }
}
