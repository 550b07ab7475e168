// Values exchanged by the chat client: the message record, the events it
// emits on the socket, and the message-log updater that both the local send
// and the `receive_message` listener hand to the state setter.

module ChatTypes {

  datatype Option<T> = None | Some(value: T)

  /** A chat message as it travels on the wire and sits in the log.
      `time` is the sender's locale time-of-day string, taken as opaque. */
  datatype Message = Message(author: string, message: string, time: string, room: string)

  /** One `socket.emit` of the client, by event name. */
  datatype Event =
    | JoinRoom(room: string)             // "join_room"
    | LeaveRoom(room: string)            // "leave_room"
    | SendMessage(msg: Message)          // "send_message"
    | Typing(author: string, room: string) // "typing"

  /** The updater `prev => [...prev, m]`: the earlier log is kept as a prefix
      and the new message becomes the last entry. */
  function AppendMessage(log: seq<Message>, m: Message): (r: seq<Message>)
    ensures |r| == |log| + 1
    ensures r[..|log|] == log
    ensures r[|log|] == m
  {
    log + [m]
  }

  /** The log after the queued updaters for `batch` have run one after the
      other (each one a received or a locally sent message): delivery order is
      display order, nothing is dropped, reordered or merged. */
  function Delivered(log: seq<Message>, batch: seq<Message>): (r: seq<Message>)
    ensures r == log + batch
    decreases |batch|
  {
    if batch == [] then log
    else
      var next := AppendMessage(log, batch[0]);
      assert log + batch == next + batch[1..];
      Delivered(next, batch[1..])
  }
}
