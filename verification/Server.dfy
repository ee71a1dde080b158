/**
  The server object (src/server.rs): its methods update the tables and the index in place, with the loops of the
  source, and every whole command is a step of the state machine of module Bouncer.
 */
module ServerObject {
  import opened Prelude
  import opened History
  import opened Memberships
  import opened Tags
  import opened Text
  import B = Bouncer
  import F = BouncerFacts
  import L = TaskLog
  import N = TaskNotices
  import R = BouncerRuns

  type Line = B.Line
  type State = B.State

  class Server {
    const history: HistoryStore
    /** Which principal a connection token authenticates. */
    const tokens: map<string, string>

    var cursors: map<Seat, int>
    var connected: set<string>
    var clients: map<string, string>
    var channels: map<string, set<string>>
    var sessions: map<string, B.Session>
    var told: set<string>
    var sent: seq<B.Enqueued>

    ghost var epochs: map<Seat, B.Epoch>
    ghost var trace: seq<B.Command>

    ghost function Abs(): State
      reads this, history
    {
      B.State(history.messages, history.counter, cursors, connected, clients, channels, sessions, told, sent, epochs)
    }

    /** The object is where the commands it has handled lead the state machine. */
    ghost predicate Valid()
      reads this, history
    {
      history.Valid() && R.Lawful(trace) && Abs() == R.Run(trace)
    }

    constructor (tokens: map<string, string>)
      ensures Valid() && trace == [] && fresh(history)
      ensures this.tokens == tokens
    {
      history := new HistoryStore();
      this.tokens := tokens;
      cursors, connected, clients, channels := map[], {}, map[], map[];
      sessions, told, sent, epochs, trace := map[], {}, [], map[], [];
    }

    /** Record a whole command that has just been carried out. */
    ghost method Record(before: State, cmd: B.Command)
      requires history.Valid() && R.Lawful(trace) && before == R.Run(trace)
      requires B.Legal(before, cmd) && Abs() == B.Step(before, cmd)
      modifies this`trace
      ensures Valid() && trace == old(trace) + [cmd]
    {
      trace := trace + [cmd];
      assert Front(trace) == old(trace);
    }

    // ----- Pieces with one lock each -----

    method Send(s: string, line: Line) returns (ok: bool)
      modifies this`sent
      ensures ok == B.IsOpen(old(Abs()), s)
      ensures Abs() == B.Deliver(old(Abs()), s, line)
    {
      ok := s in sessions && sessions[s].open;
      if ok {
        sent := sent + [B.Enqueued(s, line)];
      }
    }

    method MarkSeen(p: string, c: string, seqNo: int)
      modifies this`cursors
      ensures Abs() == B.MarkSeen(old(Abs()), p, c, seqNo)
    {
      var seat := Seat(p, c);
      if seat in cursors {
        cursors := cursors[seat := Max(cursors[seat], seqNo)];
      }
    }

    /** The indexed members that have a client, in some iteration order of the hash set. */
    method RecipientsWithIds(c: string) returns (order: seq<string>)
      ensures Enumerates(order, B.Recipients(Abs(), c))
    {
      order := [];
      if c !in channels { return; }
      var left := channels[c];
      while left != {}
        invariant left <= channels[c]
        invariant forall p :: p in order <==> p in channels[c] && p !in left && p in clients
        invariant forall i, j :: 0 <= i < j < |order| ==> order[i] != order[j]
        decreases left
      {
        var p :| p in left;
        left := left - {p};
        if p in clients {
          order := order + [p];
        }
      }
    }

    method BroadcastMessage(c: string, m: StoredMessage) returns (order: seq<string>)
      modifies this`sent, this`cursors
      ensures Enumerates(order, B.Recipients(old(Abs()), c))
      ensures Abs() == B.Broadcast(old(Abs()), c, m, order)
    {
      order := RecipientsWithIds(c);
      var i := 0;
      while i < |order|
        invariant 0 <= i <= |order|
        invariant Abs() == B.Broadcast(old(Abs()), c, m, order[..i])
        invariant Abs() == old(Abs()).(sent := sent, cursors := cursors)
      {
        assert order[i] in B.Recipients(old(Abs()), c);
        assert Front(order[..i + 1]) == order[..i] && Last(order[..i + 1]) == order[i];
        var ok := Send(clients[order[i]], B.Chat(order[i], m, B.Live));
        if ok {
          MarkSeen(order[i], c, m.seqNo);
        }
        i := i + 1;
      }
      assert order[..i] == order;
    }

    method BroadcastRaw(c: string, line: Line) returns (order: seq<string>)
      modifies this`sent
      ensures Enumerates(order, B.Recipients(old(Abs()), c))
      ensures Abs() == B.BroadcastRaw(old(Abs()), line, order)
    {
      order := RecipientsWithIds(c);
      var i := 0;
      while i < |order|
        invariant 0 <= i <= |order|
        invariant Abs() == B.BroadcastRaw(old(Abs()), line, order[..i])
      {
        assert order[i] in B.Recipients(old(Abs()), c);
        assert Front(order[..i + 1]) == order[..i] && Last(order[..i + 1]) == order[i];
        var _ := Send(clients[order[i]], line);
        i := i + 1;
      }
      assert order[..i] == order;
    }

    /** Replay each channel in turn; send errors are ignored, and a channel's cursor moves once its page is out. */
    method ReplayHistory(s: string, p: string, targets: seq<string>, after: int, limit: int, origin: B.Origin)
      requires history.Valid()
      modifies this`sent, this`cursors
      ensures Abs() == B.ReplayAll(old(Abs()), s, p, targets, after, limit, origin)
    {
      var i := 0;
      while i < |targets|
        invariant 0 <= i <= |targets|
        invariant Abs() == B.ReplayAll(old(Abs()), s, p, targets[..i], after, limit, origin)
      {
        hide B.Replay;
        assert Front(targets[..i + 1]) == targets[..i] && Last(targets[..i + 1]) == targets[i];
        ReplayChannel(s, p, targets[i], after, limit, origin);
        i := i + 1;
      }
      assert targets[..i] == targets;
    }

    method ReplayChannel(s: string, p: string, c: string, after: int, limit: int, origin: B.Origin)
      requires history.Valid()
      modifies this`sent, this`cursors
      ensures Abs() == B.Replay(old(Abs()), s, p, c, after, limit, origin)
    {
      var page := history.After(c, after, limit);
      PageRises(history.messages, history.counter, c, after, limit);
      label read:
      var maxSeq := after;
      var j := 0;
      while j < |page|
        invariant 0 <= j <= |page|
        invariant Abs() == B.SendPage(old@read(Abs()), s, p, page[..j], origin)
        invariant maxSeq == if j == 0 then after else page[j - 1].seqNo
      {
        assert Front(page[..j + 1]) == page[..j] && Last(page[..j + 1]) == page[j];
        maxSeq := Max(maxSeq, page[j].seqNo);
        var _ := Send(s, B.Chat(p, page[j], origin));
        j := j + 1;
      }
      assert page[..j] == page;
      if maxSeq > after {
        MarkSeen(p, c, maxSeq);
      }
    }

    // ----- Registration -----

    /** SELECT ... ORDER BY channel, while marking the principal connected. */
    method MarkConnectedAndMemberships(p: string) returns (rows: seq<B.Row>, ghost order: seq<string>)
      modifies this`connected
      ensures Enumerates(order, B.Rooms(old(Abs()), p)) && Ascending(order)
      ensures rows == B.SnapshotRows(old(Abs()), p, order)
      ensures connected == old(connected) + {p}
    {
      connected := connected + {p};
      var rooms := RoomsInOrder(p);
      order := rooms;
      rows := [];
      var i := 0;
      while i < |rooms|
        invariant 0 <= i <= |rooms|
        invariant rows == B.SnapshotRows(old(Abs()), p, rooms[..i])
      {
        assert Front(rooms[..i + 1]) == rooms[..i] && Last(rooms[..i + 1]) == rooms[i];
        assert rooms[i] in B.Rooms(Abs(), p);
        rows := rows + [B.Row(rooms[i], cursors[Seat(p, rooms[i])])];
        i := i + 1;
      }
      assert rooms[..i] == rooms;
    }

    method RoomsInOrder(p: string) returns (rooms: seq<string>)
      ensures Enumerates(rooms, B.Rooms(Abs(), p)) && Ascending(rooms)
    {
      rooms := [];
      var left := cursors.Keys;
      while left != {}
        invariant left <= cursors.Keys && Ascending(rooms)
        invariant forall c :: c in rooms <==> Seat(p, c) in cursors && Seat(p, c) !in left
        decreases left
      {
        var seat :| seat in left;
        left := left - {seat};
        if seat.principal == p {
          assert seat == Seat(p, seat.channel);
          rooms := Inserted(rooms, seat.channel);
        }
      }
      AscendingDistinct(rooms);
      forall c ensures c in rooms <==> c in B.Rooms(Abs(), p) {
        if c in rooms {
          assert Seat(p, c) in cursors;
        }
      }
    }

    /** The older client of the principal, if there is one, is told to shut down. */
    method IndexSession(s: string, p: string, rows: seq<B.Row>)
      modifies this`clients, this`channels, this`told
      ensures Abs() == B.IndexSession(old(Abs()), s, p, rows)
    {
      if p in clients {
        told := told + {clients[p]};
      }
      clients := clients[p := s];
      var i := 0;
      while i < |rows|
        invariant 0 <= i <= |rows|
        invariant channels == B.AddToAll(old(channels), p, rows[..i])
        invariant clients == old(clients)[p := s]
        invariant told == old(told) + if p in old(clients) then {old(clients)[p]} else {}
      {
        assert Front(rows[..i + 1]) == rows[..i] && Last(rows[..i + 1]) == rows[i];
        channels := B.AddMember(channels, rows[i].channel, p);
        i := i + 1;
      }
      assert rows[..i] == rows;
    }

    method Greet(s: string, p: string, rows: seq<B.Row>)
      modifies this`sent
      ensures Abs() == B.Greet(old(Abs()), s, p, rows)
    {
      var _ := Send(s, B.Welcome(p));
      label welcomed:
      var i := 0;
      while i < |rows|
        invariant 0 <= i <= |rows|
        invariant Abs() == B.GreetRooms(old@welcomed(Abs()), s, p, rows[..i])
      {
        assert Front(rows[..i + 1]) == rows[..i] && Last(rows[..i + 1]) == rows[i];
        var _ := Send(s, B.JoinedLine(p, rows[i].channel));
        i := i + 1;
      }
      assert rows[..i] == rows;
      if rows != [] {
        var _ := Send(s, B.ReplayNotice(|rows|));
      }
    }

    method ReplayMissed(s: string, p: string, rows: seq<B.Row>)
      requires history.Valid()
      modifies this`sent, this`cursors
      ensures Abs() == B.ReplayRows(old(Abs()), s, p, rows)
    {
      var i := 0;
      while i < |rows|
        invariant 0 <= i <= |rows|
        invariant Abs() == B.ReplayRows(old(Abs()), s, p, rows[..i])
      {
        assert Front(rows[..i + 1]) == rows[..i] && Last(rows[..i + 1]) == rows[i];
        ReplayChannel(s, p, rows[i].channel, rows[i].cursor, B.REGISTRATION_REPLAY_LIMIT, B.AutoReplay);
        i := i + 1;
      }
      assert rows[..i] == rows;
    }

    method RegisterAs(s: string, p: string) returns (ghost order: seq<string>)
      requires history.Valid() && s in sessions
      modifies this`sessions, this`connected, this`clients, this`channels, this`told, this`sent, this`cursors
      ensures Enumerates(order, B.Rooms(old(Abs()), p)) && Ascending(order)
      ensures Abs() == B.RegisterSession(old(Abs()), s, p, order)
    {
      ghost var before := Abs();
      sessions := sessions[s := sessions[s].(principal := Some(p))];
      var rows;
      rows, order := MarkConnectedAndMemberships(p);
      F.SnapshotRowsFrame(before, B.MarkConnected(before, s, p).(connected := before.connected), p, order);
      assert Abs() == B.MarkConnected(before, s, p);
      IndexSession(s, p, rows);
      Greet(s, p, rows);
      ReplayMissed(s, p, rows);
    }

    /** Runs after every PASS, NICK and USER; registers once both a token and a nick have been given. */
    method TryRegister(s: string, pass: Option<string>, nick: Option<string>) returns (ghost order: seq<string>)
      requires Valid() && s in sessions && sessions[s].running
      modifies this
      ensures Valid()
      ensures trace == old(trace) + (
          if old(sessions[s].principal).Some? || pass.None? || nick.None? then []
          else if pass.value !in tokens then [B.BadPassword(s)]
          else [B.Register(s, tokens[pass.value], order)])
      ensures old(sessions[s].principal).Some? || pass.None? || nick.None? ==> Abs() == old(Abs())
    {
      order := [];
      if sessions[s].principal.Some? || pass.None? || nick.None? { return; }
      ghost var before := Abs();
      if pass.value !in tokens {
        var _ := Send(s, B.PasswordIncorrect);
        Record(before, B.BadPassword(s));
      } else {
        order := RegisterAs(s, tokens[pass.value]);
        Record(before, B.Register(s, tokens[pass.value], order));
      }
    }

    // ----- Commands of registered sessions -----

    /** ensure_registered: 451 for an unregistered session; a replaced one gets an error that ends its task. */
    method EnsureRegistered(s: string) returns (actor: Option<string>)
      modifies this`sent, this`sessions
      ensures actor == B.Actor(old(Abs()), s)
      ensures Abs() == if actor.Some? then old(Abs()) else B.Refuse(old(Abs()), s)
    {
      actor := None;
      if s !in sessions || !sessions[s].running { return; }
      var principal := sessions[s].principal;
      if principal.None? {
        var _ := Send(s, B.NotRegistered);
      } else if principal.value in clients && clients[principal.value] == s {
        actor := principal;
      } else {
        var _ := Send(s, B.SessionReplaced);
        sessions := sessions[s := sessions[s].(running := false)];
      }
    }

    method Join(s: string, c: string) returns (ghost order: seq<string>)
      requires Valid()
      modifies this
      ensures Valid() && trace == old(trace) + [B.Join(s, c, order)]
    {
      ghost var before := Abs();
      order := [];
      var actor := EnsureRegistered(s);
      if actor.Some? {
        AddMembership(actor.value, c);
        channels := B.AddMember(channels, c, actor.value);
        assert Abs() == B.JoinIndex(before, actor.value, c);
        order := BroadcastRaw(c, B.JoinedLine(actor.value, c));
      }
      Record(before, B.Join(s, c, order));
    }

    /** INSERT OR IGNORE of a row whose cursor is the channel's current maximum. */
    method AddMembership(p: string, c: string)
      modifies this`cursors, this`epochs
      ensures Abs() == B.AddMembership(old(Abs()), p, c)
    {
      var seat := Seat(p, c);
      var current := MaxSeq(history.messages, c);
      if seat !in cursors {
        cursors := cursors[seat := current];
        epochs := epochs[seat := B.Epoch(current, |sent|)];
      }
    }

    method Part(s: string, c: string) returns (ghost order: seq<string>)
      requires Valid()
      modifies this
      ensures Valid() && trace == old(trace) + [B.Part(s, c, order)]
    {
      ghost var before := Abs();
      order := [];
      var actor := EnsureRegistered(s);
      if actor.Some? {
        cursors := cursors - {Seat(actor.value, c)};
        epochs := epochs - {Seat(actor.value, c)};
        if c in channels {
          channels := channels[c := channels[c] - {actor.value}];
        }
        assert Abs() == B.PartIndex(before, actor.value, c);
        order := BroadcastRaw(c, B.PartedLine(actor.value, c));
      }
      Record(before, B.Part(s, c, order));
    }

    method AppendAndBroadcast(c: string, sender: string, body: string, msgId: string, at: int)
      returns (order: seq<string>)
      requires history.Valid()
      modifies history, this`sent, this`cursors
      ensures history.Valid() && Enumerates(order, B.Recipients(old(Abs()), c))
      ensures Abs() == B.Publish(old(Abs()), c, sender, body, msgId, at, order)
    {
      ghost var before := Abs();
      var m := history.Append(c, sender, body, msgId, at);
      assert Abs() == before.(log := before.log + [m], counter := before.counter + 1);
      assert B.Recipients(Abs(), c) == B.Recipients(before, c);
      order := BroadcastMessage(c, m);
    }

    /** `msgId` is the fresh id and `at` the clock reading that the append draws. */
    method Privmsg(s: string, c: string, body: string, msgId: string, at: int) returns (ghost order: seq<string>)
      requires Valid()
      modifies this, history
      ensures Valid() && trace == old(trace) + [B.Privmsg(s, c, body, msgId, at, order)]
    {
      ghost var before := Abs();
      order := RecipientsWithIds(c);
      var actor := EnsureRegistered(s);
      if actor.Some? {
        if Seat(actor.value, c) in cursors {
          order := AppendAndBroadcast(c, actor.value, body, msgId, at);
        } else {
          var _ := Send(s, B.NotOnChannel(c));
        }
      }
      Record(before, B.Privmsg(s, c, body, msgId, at, order));
    }

    /**
      What every task command that changed a task publishes to the task's channel, in the server's own name: the event's
      text, under the tags that tell of it.
     */
    method BroadcastTaskEvent(s: string, c: string, event: L.Event, action: string, msgId: string, at: int)
      returns (tags: seq<Tag>, ghost order: seq<string>)
      requires Valid()
      modifies this, history
      ensures Valid() && trace == old(trace) + [B.TaskNotice(s, c, L.EventText(event), msgId, at, order)]
      ensures B.Actor(old(Abs()), s).Some? ==>
        && history.counter == old(history.counter) + 1
        && tags == N.EventTags(history.counter, msgId, at, event.id, action, event.actor, event.title)
    {
      ghost var before := Abs();
      tags := [];
      order := RecipientsWithIds(c);
      var actor := EnsureRegistered(s);
      if actor.Some? {
        order := AppendAndBroadcast(c, SERVER_NAME, L.EventText(event), msgId, at);
        PublishCounts(before, c, L.EventText(event), msgId, at, order);
        tags := [Tag("seq", PrintInt(history.counter)), Tag("msg-id", msgId), Tag("time", PrintInt(at)),
                 Tag("task-id", event.id), Tag("task-action", action), Tag("task-status", "success"),
                 Tag("task-actor", event.actor)];
        if event.title != "" {
          tags := tags + [Tag("task-title", event.title)];
        }
      }
      Record(before, B.TaskNotice(s, c, L.EventText(event), msgId, at, order));
    }

    method Chathistory(s: string, targets: seq<string>, after: int, limit: int)
      requires Valid()
      modifies this
      ensures Valid() && trace == old(trace) + [B.Chathistory(s, targets, after, limit)]
    {
      ghost var before := Abs();
      var actor := EnsureRegistered(s);
      if actor.Some? {
        ReplayHistory(s, actor.value, targets, after, limit, B.Requested);
      }
      Record(before, B.Chathistory(s, targets, after, limit));
    }

    // ----- Connections -----

    method Connect(s: string)
      requires Valid() && s !in sessions
      modifies this
      ensures Valid() && trace == old(trace) + [B.Connect(s)]
    {
      ghost var before := Abs();
      sessions := sessions[s := B.Session(None, true, true)];
      var _ := Send(s, B.Hello);
      Record(before, B.Connect(s));
    }

    /** The session's loop receives the shutdown notice: it sends the reason and leaves. */
    method ShutDown(s: string)
      requires Valid() && s in sessions && sessions[s].running && s in told
      modifies this
      ensures Valid() && trace == old(trace) + [B.ShutDown(s)]
    {
      ghost var before := Abs();
      var _ := Send(s, B.ReplacedByNewer);
      Leave(s);
      Record(before, B.ShutDown(s));
    }

    method Disconnect(s: string)
      requires Valid() && s in sessions && sessions[s].running
      modifies this
      ensures Valid() && trace == old(trace) + [B.Disconnect(s)]
    {
      ghost var before := Abs();
      Leave(s);
      Record(before, B.Disconnect(s));
    }

    /** The index entry and the connected mark go only if they are still this session's. */
    method Leave(s: string)
      requires s in sessions && sessions[s].running
      modifies this`clients, this`connected, this`sessions
      ensures Abs() == B.DisconnectSession(old(Abs()), s)
    {
      var principal := sessions[s].principal;
      if principal.Some? {
        var p := principal.value;
        var mine := p in clients && clients[p] == s;
        if mine {
          clients := clients - {p};
          connected := connected - {p};
        }
      }
      sessions := sessions[s := sessions[s].(running := false, open := false)];
    }
  }

  // ----- Channels in ascending order -----

  /** Code point by code point; a proper prefix comes first. */
  predicate Precedes(a: string, b: string) {
    b != "" && (a == "" || a[0] < b[0] || (a[0] == b[0] && Precedes(a[1..], b[1..])))
  }

  predicate Ascending(order: seq<string>) {
    order == []
    || (Ascending(Front(order)) && forall i :: 0 <= i < |order| - 1 ==> Precedes(order[i], Last(order)))
  }

  lemma {:induction false} PrecedesTotal(a: string, b: string)
    ensures a == b || Precedes(a, b) || Precedes(b, a)
    ensures !(Precedes(a, b) && Precedes(b, a))
  {
    if a != "" && b != "" {
      PrecedesTotal(a[1..], b[1..]);
      assert a == [a[0]] + a[1..] && b == [b[0]] + b[1..];
    }
  }

  lemma {:induction false} PrecedesTrans(a: string, b: string, c: string)
    requires Precedes(a, b) && Precedes(b, c)
    ensures Precedes(a, c)
  {
    if a != "" && a[0] == b[0] == c[0] {
      PrecedesTrans(a[1..], b[1..], c[1..]);
    }
  }

  function Inserted(order: seq<string>, c: string): (r: seq<string>)
    requires Ascending(order) && c !in order
    ensures Ascending(r) && forall x :: x in r <==> x == c || x in order
  {
    if order == [] then [c]
    else
      var front, last := Front(order), Last(order);
      assert order == front + [last];
      PrecedesTotal(last, c);
      if Precedes(last, c) then
        AllBefore(order, c);
        assert Front(order + [c]) == order;
        order + [c]
      else
        var r := Inserted(front, c);
        assert forall x :: x in front ==> x in order;
        assert Front(r + [last]) == r;
        assert forall i :: 0 <= i < |r| ==> r[i] in r;
        assert forall i :: 0 <= i < |front| ==> Precedes(front[i], last);
        assert forall x :: x in front ==> Precedes(x, last);
        r + [last]
  }

  lemma {:induction false} AllBefore(order: seq<string>, c: string)
    requires order != [] && Ascending(order) && Precedes(Last(order), c)
    ensures forall i :: 0 <= i < |order| ==> Precedes(order[i], c)
  {
    forall i | 0 <= i < |order| ensures Precedes(order[i], c) {
      if i < |order| - 1 {
        PrecedesTrans(order[i], Last(order), c);
      }
    }
  }

  lemma {:induction false} AscendingDistinct(order: seq<string>)
    requires Ascending(order)
    ensures forall i, j :: 0 <= i < j < |order| ==> order[i] != order[j]
  {
    if order != [] {
      AscendingDistinct(Front(order));
      forall i | 0 <= i < |order| - 1 ensures order[i] != Last(order) {
        PrecedesTotal(order[i], Last(order));
      }
      assert forall i :: 0 <= i < |order| - 1 ==> Front(order)[i] == order[i];
    }
  }

  lemma {:induction false} PublishCounts(
      st: State, c: string, body: string, msgId: string, at: int, order: seq<string>)
    ensures B.Publish(st, c, SERVER_NAME, body, msgId, at, order).counter == st.counter + 1
  {
    var m := B.Appended(st, c, SERVER_NAME, body, msgId, at);
    F.BroadcastSends(st.(log := st.log + [m], counter := st.counter + 1), c, m, order);
  }

  lemma {:induction false} PageRises(log: seq<StoredMessage>, counter: nat, c: string, after: int, limit: int)
    requires ValidLog(log, counter)
    ensures var page := Page(log, c, after, limit);
      && (forall j :: 0 <= j < |page| ==> after < page[j].seqNo)
      && (forall j :: 0 < j < |page| ==> page[j - 1].seqNo < page[j].seqNo)
  {
    var page := Page(log, c, after, limit);
    AboveAll(log, c, after);
    PageIsWindow(log, counter, c, after, limit);
    if page != [] {
      WindowAscends(log, counter, c, after, Last(page).seqNo);
    }
  }
}
