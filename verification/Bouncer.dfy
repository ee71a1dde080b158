/**
  The server's bouncer as a state machine (src/server.rs): the durable log and membership cursors,
  the in-memory client and channel index, and the lines enqueued to sessions. Every whole command is one step.

  `sent` is the list of all lines that some session's channel accepted, in the order they were accepted;
  a session's outbound queue is the part of it addressed to that session.
  `told` holds the sessions whose shutdown channel was sent a notice.
  `epochs` is a history variable: for every membership row, the cursor it was created with and where `sent` stood then.
 */
module Bouncer {
  import opened Prelude
  import opened History
  import opened Memberships

  const REGISTRATION_REPLAY_LIMIT := 200

  /** `running` while the connection's task still reads commands; `open` while its outbound channel has a receiver. */
  datatype Session = Session(principal: Option<string>, running: bool, open: bool)

  datatype Origin = Live | AutoReplay | Requested

  datatype Line =
    | Chat(owner: string, message: StoredMessage, origin: Origin)
    | Hello
    | Welcome(principal: string)
    | JoinedLine(principal: string, channel: string)
    | PartedLine(principal: string, channel: string)
    | ReplayNotice(channels: nat)
    | NotOnChannel(channel: string)
    | NotRegistered
    | PasswordIncorrect
    | SessionReplaced
    | ReplacedByNewer

  datatype Enqueued = Enqueued(session: string, line: Line)

  datatype Epoch = Epoch(baseline: int, start: nat)

  /** A row of the membership snapshot taken by registration. */
  datatype Row = Row(channel: string, cursor: int)

  datatype State = State(
    log: seq<StoredMessage>,
    counter: nat,
    cursors: map<Seat, int>,
    connected: set<string>,
    clients: map<string, string>,
    channels: map<string, set<string>>,
    sessions: map<string, Session>,
    told: set<string>,
    sent: seq<Enqueued>,
    epochs: map<Seat, Epoch>
  )

  const INIT := State([], 0, map[], {}, map[], map[], map[], {}, [], map[])

  // ----- Queries -----

  predicate IsOpen(st: State, s: string) {
    s in st.sessions && st.sessions[s].open
  }

  function Members(channels: map<string, set<string>>, c: string): set<string> {
    if c in channels then channels[c] else {}
  }

  /** Indexed members of the channel that have an active client. */
  function Recipients(st: State, c: string): set<string> {
    set p | p in Members(st.channels, c) && p in st.clients
  }

  /** Channels the principal has a durable membership of. */
  function Rooms(st: State, p: string): set<string> {
    set seat | seat in st.cursors && seat.principal == p :: seat.channel
  }

  /** The principal a session acts for, when it is registered and has not been replaced. */
  function Actor(st: State, s: string): Option<string> {
    if s in st.sessions && st.sessions[s].running && st.sessions[s].principal.Some?
       && st.sessions[s].principal.value in st.clients && st.clients[st.sessions[s].principal.value] == s
    then st.sessions[s].principal
    else None
  }

  predicate CanRegister(st: State, s: string) {
    s in st.sessions && st.sessions[s].running && st.sessions[s].principal.None?
  }

  // ----- Enqueueing -----

  function Deliver(st: State, s: string, line: Line): State {
    if IsOpen(st, s) then st.(sent := st.sent + [Enqueued(s, line)]) else st
  }

  function MarkSeen(st: State, p: string, c: string, seqNo: int): State {
    st.(cursors := Seen(st.cursors, Seat(p, c), seqNo))
  }

  predicate Reaches(st: State, p: string) {
    p in st.clients && IsOpen(st, st.clients[p])
  }

  /** One turn of the broadcast loop: the cursor moves only if the send succeeded. */
  function DeliverLive(st: State, c: string, m: StoredMessage, p: string): State {
    if Reaches(st, p)
    then MarkSeen(Deliver(st, st.clients[p], Chat(p, m, Live)), p, c, m.seqNo)
    else st
  }

  function Broadcast(st: State, c: string, m: StoredMessage, order: seq<string>): State {
    if order == [] then st else DeliverLive(Broadcast(st, c, m, Front(order)), c, m, Last(order))
  }

  function BroadcastRaw(st: State, line: Line, order: seq<string>): State {
    if order == [] then st
    else
      var done := BroadcastRaw(st, line, Front(order));
      if Last(order) in st.clients then Deliver(done, st.clients[Last(order)], line) else done
  }

  function SendPage(st: State, s: string, p: string, page: seq<StoredMessage>, origin: Origin): State {
    if page == [] then st
    else Deliver(SendPage(st, s, p, Front(page), origin), s, Chat(p, Last(page), origin))
  }

  /** One channel of replay_history: send errors are ignored, the cursor moves to the last message read. */
  function Replay(st: State, s: string, p: string, c: string, after: int, limit: int, origin: Origin): State {
    var page := Page(st.log, c, after, limit);
    var done := SendPage(st, s, p, page, origin);
    if page == [] then done else MarkSeen(done, p, c, Last(page).seqNo)
  }

  function ReplayAll(
      st: State, s: string, p: string, channels: seq<string>, after: int, limit: int, origin: Origin): State {
    if channels == [] then st
    else Replay(ReplayAll(st, s, p, Front(channels), after, limit, origin), s, p, Last(channels), after, limit, origin)
  }

  // ----- Registration, in the stages that lock separately -----

  function SnapshotRows(st: State, p: string, order: seq<string>): seq<Row> {
    if order == [] then []
    else
      var c := Last(order);
      SnapshotRows(st, p, Front(order)) + [Row(c, if Seat(p, c) in st.cursors then st.cursors[Seat(p, c)] else 0)]
  }

  function MarkConnected(st: State, s: string, p: string): State {
    if s in st.sessions
    then st.(sessions := st.sessions[s := st.sessions[s].(principal := Some(p))], connected := st.connected + {p})
    else st
  }

  function AddMember(channels: map<string, set<string>>, c: string, p: string): map<string, set<string>> {
    channels[c := Members(channels, c) + {p}]
  }

  function AddToAll(channels: map<string, set<string>>, p: string, rows: seq<Row>): map<string, set<string>> {
    if rows == [] then channels else AddMember(AddToAll(channels, p, Front(rows)), Last(rows).channel, p)
  }

  function IndexSession(st: State, s: string, p: string, rows: seq<Row>): State {
    st.(clients := st.clients[p := s], channels := AddToAll(st.channels, p, rows),
        told := st.told + if p in st.clients then {st.clients[p]} else {})
  }

  function GreetRooms(st: State, s: string, p: string, rows: seq<Row>): State {
    if rows == [] then st
    else Deliver(GreetRooms(st, s, p, Front(rows)), s, JoinedLine(p, Last(rows).channel))
  }

  function Greet(st: State, s: string, p: string, rows: seq<Row>): State {
    var welcomed := GreetRooms(Deliver(st, s, Welcome(p)), s, p, rows);
    if rows == [] then welcomed else Deliver(welcomed, s, ReplayNotice(|rows|))
  }

  function ReplayRow(st: State, s: string, p: string, row: Row): State {
    Replay(st, s, p, row.channel, row.cursor, REGISTRATION_REPLAY_LIMIT, AutoReplay)
  }

  function ReplayRows(st: State, s: string, p: string, rows: seq<Row>): State {
    if rows == [] then st else ReplayRow(ReplayRows(st, s, p, Front(rows)), s, p, Last(rows))
  }

  function RegisterSession(st: State, s: string, p: string, order: seq<string>): State {
    var rows := SnapshotRows(st, p, order);
    ReplayRows(Greet(IndexSession(MarkConnected(st, s, p), s, p, rows), s, p, rows), s, p, rows)
  }

  // ----- Memberships -----

  function AddMembership(st: State, p: string, c: string): State {
    if Seat(p, c) in st.cursors then st
    else
      var baseline := MaxSeq(st.log, c);
      st.(cursors := st.cursors[Seat(p, c) := baseline],
          epochs := st.epochs[Seat(p, c) := Epoch(baseline, |st.sent|)])
  }

  function JoinIndex(st: State, p: string, c: string): State {
    AddMembership(st, p, c).(channels := AddMember(st.channels, c, p))
  }

  function PartIndex(st: State, p: string, c: string): State {
    st.(cursors := st.cursors - {Seat(p, c)},
        epochs := st.epochs - {Seat(p, c)},
        channels := if c in st.channels then st.channels[c := st.channels[c] - {p}] else st.channels)
  }

  // ----- Publishing -----

  function Appended(st: State, c: string, sender: string, body: string, msgId: string, at: int): StoredMessage {
    StoredMessage(st.counter + 1, msgId, c, sender, body, at)
  }

  function Publish(
      st: State, c: string, sender: string, body: string, msgId: string, at: int, order: seq<string>): State {
    var m := Appended(st, c, sender, body, msgId, at);
    Broadcast(st.(log := st.log + [m], counter := st.counter + 1), c, m, order)
  }

  // ----- Leaving -----

  /** A clean exit: the index entry goes only if it is this session's own; the writer is aborted. */
  function DisconnectSession(st: State, s: string): State {
    if !(s in st.sessions && st.sessions[s].running) then st
    else
      var closed := st.(sessions := st.sessions[s := st.sessions[s].(running := false, open := false)]);
      var p := st.sessions[s].principal;
      if p.Some? && p.value in st.clients && st.clients[p.value] == s
      then closed.(clients := st.clients - {p.value}, connected := st.connected - {p.value})
      else closed
  }

  /** The connection's task ends on an error: nothing is cleaned up. */
  function AbandonSession(st: State, s: string): State {
    if s in st.sessions then st.(sessions := st.sessions[s := st.sessions[s].(running := false)]) else st
  }

  function CloseReceiverOf(st: State, s: string): State {
    if s in st.sessions then st.(sessions := st.sessions[s := st.sessions[s].(open := false)]) else st
  }

  // ----- Whole commands -----

  /** `order` is the iteration order of the hash set, or of the membership query, that the command runs through. */
  datatype Command =
    | Connect(s: string)
    | Register(s: string, principal: string, order: seq<string>)
    | BadPassword(s: string)
    | Join(s: string, channel: string, order: seq<string>)
    | Part(s: string, channel: string, order: seq<string>)
    | Privmsg(s: string, channel: string, body: string, msgId: string, at: int, order: seq<string>)
    | TaskNotice(s: string, channel: string, body: string, msgId: string, at: int, order: seq<string>)
    | Chathistory(s: string, channels: seq<string>, after: int, limit: int)
    | ShutDown(s: string)
    | Disconnect(s: string)
    | Abandon(s: string)
    | CloseReceiver(s: string)
    | Restart

  /** ensure_registered failed: 451 for an unregistered session, an error that ends a replaced one. */
  function Refuse(st: State, s: string): State {
    if !(s in st.sessions && st.sessions[s].running) then st
    else if st.sessions[s].principal.None? then Deliver(st, s, NotRegistered)
    else AbandonSession(Deliver(st, s, SessionReplaced), s)
  }

  function Act(st: State, p: string, cmd: Command): State {
    match cmd
    case Join(s, c, order) => BroadcastRaw(JoinIndex(st, p, c), JoinedLine(p, c), order)
    case Part(s, c, order) => BroadcastRaw(PartIndex(st, p, c), PartedLine(p, c), order)
    case Privmsg(s, c, body, msgId, at, order) =>
      if Seat(p, c) in st.cursors then Publish(st, c, p, body, msgId, at, order)
      else Deliver(st, s, NotOnChannel(c))
    case TaskNotice(s, c, body, msgId, at, order) => Publish(st, c, SERVER_NAME, body, msgId, at, order)
    case Chathistory(s, channels, after, limit) => ReplayAll(st, s, p, channels, after, limit, Requested)
    case _ => st
  }

  function Step(st: State, cmd: Command): State {
    match cmd
    case Connect(s) =>
      if s in st.sessions then st else Deliver(st.(sessions := st.sessions[s := Session(None, true, true)]), s, Hello)
    case Register(s, p, order) => if CanRegister(st, s) then RegisterSession(st, s, p, order) else st
    case BadPassword(s) => if CanRegister(st, s) then Deliver(st, s, PasswordIncorrect) else st
    case ShutDown(s) => if s in st.told then DisconnectSession(Deliver(st, s, ReplacedByNewer), s) else st
    case Disconnect(s) => DisconnectSession(st, s)
    case Abandon(s) => AbandonSession(st, s)
    case CloseReceiver(s) => CloseReceiverOf(st, s)
    case Restart =>
      st.(clients := map[], channels := map[],
          sessions := map s | s in st.sessions :: st.sessions[s].(running := false, open := false))
    case _ =>
      var actor := Actor(st, cmd.s);
      if actor.Some? then Act(st, actor.value, cmd) else Refuse(st, cmd.s)
  }

  /** The order a command comes with is one the data structures could produce. */
  ghost predicate Legal(st: State, cmd: Command) {
    match cmd
    case Register(s, p, order) => Enumerates(order, Rooms(st, p))
    case Join(s, c, order) =>
      Actor(st, s).Some? ==> Enumerates(order, Recipients(JoinIndex(st, Actor(st, s).value, c), c))
    case Part(s, c, order) =>
      Actor(st, s).Some? ==> Enumerates(order, Recipients(PartIndex(st, Actor(st, s).value, c), c))
    case Privmsg(s, c, body, msgId, at, order) => Enumerates(order, Recipients(st, c))
    case TaskNotice(s, c, body, msgId, at, order) => Enumerates(order, Recipients(st, c))
    case _ => true
  }
}
