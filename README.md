# dierchat chat client: session and presence state machine

This project models the `Home` component of the dierchat chat page. The model covers the state behind the page and the socket events it emits.

- The session side: the join form (name and room code), joining, sending, receiving and leaving, and the message log.
- The presence side: the list of peers currently typing, the single shared decay timeout that clears it, and the "… Sedang Mengetik . . ." indicator text.

Files:

- `chat_types.dfy` (module `ChatTypes`): the `Message` record, the emitted `Event`s (`join_room`, `leave_room`, `send_message`, `typing`), and the log updater `prev => [...prev, m]`.
- `presence.dfy` (module `Presence`): the pure parts of presence. These are `find` with JavaScript truthiness, the deduplicating append of a typing author, `Array.join`, and the indicator text.
- `session.dfy` (module `Session`): class `Home`, whose fields are the component's state variables and whose methods are its event handlers. Each handler states the whole new state as an update of `old(State())`. Each handler also preserves `Valid()`:
  - `joined` implies a socket, a room code and a name;
  - no non-empty typing name appears twice;
  - at most one decay is scheduled, and one is scheduled exactly when the author list is non-empty;
  - the indicator is on only while a decay is scheduled.
- `scenarios.dfy` (module `Scenarios`): short handler sequences (join then leave, a chat in order, two typists sharing one window, the send guard with and without a room code), each proved from the handlers' contracts. They are about the handlers' effect on state, not about which controls the page shows.

Modelling choices:

- The socket becomes the `connected` flag plus a ghost `outbox` that records every `emit`.
- The timeout handle becomes `pendingDecays`, the number of scheduled, uncancelled timeouts of the listener. `HearTyping` cancels the scheduled one if there is one (`clearTimeout`) and then schedules a fresh one (`setTimeout`). `Valid()` proves that at most one is ever pending; without the cancel a second notice would leave two. `Decay` is the timeout firing. It can only happen while one is scheduled.
- The wall-clock time of a sent message is a parameter of `Send`.

Behaviours of the code that the model keeps:

- Leaving does not clear the typing list, the indicator flag or a scheduled decay (app/page.tsx:167-174). That state survives until the decay fires.
- The indicator flag is set to the payload's `isTyped`, not to `true` (app/page.tsx:61). So the flag and a non-empty author list are not kept in lockstep. Only "flag on implies a decay is scheduled, hence a non-empty list" holds.
- Send is guarded by the room code, not by being joined (app/page.tsx:90). See `Scenarios.SendBeforeJoin`.
- Join does not check `joined` and does not clear the log (app/page.tsx:82-85).
- Received messages are appended with no room filter and no joined check (app/page.tsx:42-44). So "the log is empty when not joined" is not an invariant of this code.
- Deduplication tests the truthiness of `find`'s result. So an empty-string author is appended again on every notice (`Presence.EmptyAuthorRepeats`).
- The name can be edited only while not joined. It is kept across a leave.

## Model

| member | source | states |
|---|---|---|
| ChatTypes.AppendMessage | app/page.tsx:42-44 | the log updater keeps the old log as a prefix and puts the new message last |
| ChatTypes.Delivered | app/page.tsx:98 | running the queued append updaters for a batch (received or sent messages) yields the old log followed by the batch in delivery order |
| Presence.Find | app/page.tsx:64 | `find` yields a value exactly when the author is in the list, and that value is the author |
| Presence.AddAuthor | app/page.tsx:63-69 | a non-empty author already present leaves the list unchanged; any other author is appended at the end |
| Presence.AddAuthorKeepsDistinct | app/page.tsx:63-69 | the updater keeps "no duplicate non-empty names", keeps the old list as a prefix, and never yields an empty list |
| Presence.AddAuthorIdempotent | app/page.tsx:63-69 | a second notice from the same non-empty author changes nothing |
| Presence.NonEmptyAuthorOnce | app/page.tsx:63-69 | any number of notices from one non-empty author add it at most once |
| Presence.EmptyAuthorRepeats | app/page.tsx:64-66 | n notices from the empty-string author append n empty names |
| Presence.JoinWith | app/page.tsx:182 | `join` of no parts is empty, of one part is that part, and otherwise starts with the first part (with `JoinWithSnoc` this fixes the whole result) |
| Presence.JoinWithNamesEach | app/page.tsx:182 | every part occurs in the joined text at its computed offset |
| Presence.JoinWithSnoc | app/page.tsx:182 | joining one more part appends the separator and that part |
| Presence.Summary | app/page.tsx:180-187 | there is indicator text exactly when typing; the text is exactly the authors joined by ", " followed by " Sedang Mengetik . . ." (prefix, suffix and total length) |
| Presence.SummaryNamesEachAuthor | app/page.tsx:180-184 | the indicator text names every typing author |
| Presence.SummaryAfterNotice | app/page.tsx:63-69 | after a notice, the first author's text is that name and the suffix; a known non-empty author leaves the text unchanged; any other author adds ", author" before the suffix |
| Session.Home.constructor | app/page.tsx:17-24 | the initial state: no room, not joined, empty name, draft, log, typing list and outbox, no decay scheduled |
| Session.Home.SetUsername | app/page.tsx:132-139 | while not joined, the name input sets only `username` |
| Session.Home.SetRoom | app/page.tsx:140-147 | while not joined, the room input sets only `room` |
| Session.Home.Join | app/page.tsx:80-86 | with room, name and socket: emits exactly `join_room(room)` and sets `joined`, everything else unchanged; otherwise no change at all |
| Session.Home.Send | app/page.tsx:88-101 | with draft, socket and room: the log grows by exactly the message {name, draft, time, room}, the same message is emitted, the draft is cleared; otherwise no change at all |
| Session.Home.Change | app/page.tsx:105-117 | the draft becomes the input value or ""; with a socket `typing(name, room)` is emitted; log and presence untouched |
| Session.Home.Leave | app/page.tsx:167-174 | emits `leave_room(room)` exactly when there is a socket and a room; then always not joined, empty log, empty room; name, draft and presence kept |
| Session.Home.Receive | app/page.tsx:42-44 | the payload is appended at the end of the log, with no filter; nothing else changes |
| Session.Home.HearTyping | app/page.tsx:57-75 | the flag becomes `isTyped`; the author list goes through the deduplicating updater; the scheduled decay is cancelled and one fresh one scheduled, so exactly one is pending; distinct names preserved |
| Session.Home.Decay | app/page.tsx:71-74 | the scheduled timeout clears the flag and the author list, leaving no decay pending and no indicator text |
| Scenarios.JoinThenLeave | app/page.tsx:167-174 | join then leave from the initial state gives not joined, empty log, empty room, the name kept, and outbox `join_room`, `leave_room` |
| Scenarios.ChatInOrder | app/page.tsx:88-101 | the log before leaving holds received and sent messages in arrival order, the sent one stamped with name and room; leave empties the log |
| Scenarios.SharedDecayWindow | app/page.tsx:57-75 | after two typists (the first one twice) the indicator reads "a, b" and the suffix with exactly one decay scheduled; that one decay clears both together |
| Scenarios.SendWithoutRoom | app/page.tsx:90 | the send handler with no room code logs and emits nothing |
| Scenarios.SendBeforeJoin | app/page.tsx:90 | the send handler's guard tests the room code, not `joined`: with a code set and not joined it logs and emits the message |

## Left out

- Socket creation and disconnection (app/page.tsx:29-38) are reduced to the `connected` flag fixed at construction. The socket.io client is foreign code, and no handler can clear the socket.
- Listener registration and removal (app/page.tsx:40-49, 55-76) is left out; the two listeners are the methods `Receive` and `HearTyping`. The `hear_typing` listener is re-registered on every render without removal, and each copy has its own timeout handle. The model has one listener. For a non-empty author the extra copies' list updates are idempotent, and their timeouts are rescheduled together. For the empty-string author each copy would append another empty name; this is not modelled.
- Wall-clock time (app/page.tsx:94) is left out: `Send` takes the time string as a parameter. The 5000 ms window (app/page.tsx:74) is left out: the decay is the explicit `Decay` event, and the model has no clock to say when it fires.
- Scroll-into-view (app/page.tsx:51-53) and the `console.log` (app/page.tsx:111) are left out as UI and I/O.
- The development and loading screens (app/page.tsx:78, 119-124) are left out as presentation.
- JSX layout, CSS and own-message alignment (app/page.tsx:126-250) are left out as presentation. Which controls the page renders is not modelled either, except that the join inputs require not joined.
- Session.Home.Change, Session.Home.Send, Session.Home.Leave, Session.Home.Receive, Session.Home.HearTyping: their render and socket gates are not modelled. The message form and the Leave button exist only while joined (app/page.tsx:155-242), and the two listeners exist only once there is a socket (app/page.tsx:41, 56). The methods model each handler's own guard, so they can also be called in states the page never reaches.
- Session.Home.Receive: the payload is taken as a well-formed `Message`. The source does not validate the inbound shape, and a malformed payload cannot be expressed in the model.
