/**
  The bouncer's promises over whole runs of commands: what a principal's sessions are sent on their own account
  is exactly the channel's log from the join baseline to the cursor, and the index agrees with the membership table.
 */
module BouncerRuns {
  import opened Prelude
  import opened History
  import opened Memberships
  import opened Bouncer
  import opened BouncerFacts

  // ----- The invariant -----

  /** What the sessions of the seat's principal were sent, unasked, on that channel since the principal joined it. */
  ghost function Stream(st: State, seat: Seat): seq<StoredMessage>
    requires seat in st.epochs
  {
    var start := st.epochs[seat].start;
    if start <= |st.sent| then AutoSent(st.sent[start..], seat.principal, seat.channel) else []
  }

  ghost predicate ExactlyOnce(st: State, seat: Seat)
    requires seat in st.cursors && seat in st.epochs
  {
    Stream(st, seat) == Window(st.log, seat.channel, st.epochs[seat].baseline, st.cursors[seat])
  }

  ghost predicate SeatOk(st: State, seat: Seat)
    requires seat in st.cursors && seat in st.epochs
  {
    && st.epochs[seat].start <= |st.sent|
    && 0 <= st.epochs[seat].baseline <= st.cursors[seat] <= MaxSeq(st.log, seat.channel)
    && ExactlyOnce(st, seat)
  }

  ghost predicate Core(st: State) {
    && ValidLog(st.log, st.counter)
    && st.cursors.Keys == st.epochs.Keys
    && OwnersAgree(st.sessions, st.sent)
    && (forall seat :: seat in st.cursors ==> SeatOk(st, seat))
  }

  ghost predicate Indexed(st: State) {
    && st.clients.Keys <= st.connected
    && (forall p :: p in st.clients ==>
          st.clients[p] in st.sessions && st.sessions[st.clients[p]].principal == Some(p))
    && (forall p, c :: p in Members(st.channels, c) ==> Seat(p, c) in st.cursors)
    && (forall seat :: seat in st.cursors && seat.principal in st.clients ==>
          seat.principal in Members(st.channels, seat.channel))
  }

  ghost predicate CaughtUp(st: State, seat: Seat)
    requires seat in st.cursors
  {
    st.cursors[seat] == MaxSeq(st.log, seat.channel)
  }

  ghost predicate ActiveCaughtUp(st: State) {
    forall seat :: seat in st.cursors && Reaches(st, seat.principal) ==> CaughtUp(st, seat)
  }

  ghost predicate Inv(st: State) {
    Core(st) && Indexed(st) && ActiveCaughtUp(st)
  }

  // ----- Runs -----

  ghost function Run(cmds: seq<Command>): State {
    if cmds == [] then INIT else Step(Run(Front(cmds)), Last(cmds))
  }

  ghost function Backlog(st: State, seat: Seat): seq<StoredMessage>
    requires seat in st.cursors
  {
    Above(st.log, seat.channel, st.cursors[seat])
  }

  /** Wherever a replay runs there is a receiver, and a registration finds at most one page of backlog per channel. */
  ghost predicate Undisturbed(st: State, cmd: Command) {
    match cmd
    case Register(s, p, order) =>
      CanRegister(st, s) ==>
        && IsOpen(st, s)
        && (forall seat :: seat in st.cursors && seat.principal == p ==>
              |Backlog(st, seat)| <= REGISTRATION_REPLAY_LIMIT)
    case Chathistory(s, channels, after, limit) => Actor(st, s).Some? ==> IsOpen(st, s)
    case _ => true
  }

  ghost predicate Admissible(cmds: seq<Command>) {
    cmds == [] || (
      && Admissible(Front(cmds))
      && Legal(Run(Front(cmds)), Last(cmds))
      && Undisturbed(Run(Front(cmds)), Last(cmds)))
  }

  lemma {:induction false} RunSnoc(cmds: seq<Command>, cmd: Command, st: State)
    requires Admissible(cmds) && Run(cmds) == st && Legal(st, cmd) && Undisturbed(st, cmd)
    ensures Admissible(cmds + [cmd]) && Run(cmds + [cmd]) == Step(st, cmd)
  {
    assert Front(cmds + [cmd]) == cmds;
  }

  // ----- How windows and streams grow -----

  lemma {:induction false} StreamGrows(st: State, r: State, seat: Seat, lines: seq<Enqueued>)
    requires seat in st.epochs && seat in r.epochs && r.epochs[seat] == st.epochs[seat]
    requires st.epochs[seat].start <= |st.sent| && r.sent == st.sent + lines
    ensures Stream(r, seat) == Stream(st, seat) + AutoSent(lines, seat.principal, seat.channel)
  {
    var start := st.epochs[seat].start;
    assert r.sent[start..] == st.sent[start..] + lines;
    AutoSentConcat(st.sent[start..], lines, seat.principal, seat.channel);
  }

  lemma {:induction false} AppendedWindow(log: seq<StoredMessage>, m: StoredMessage, c: string, lo: int, hi: int)
    ensures Window(log + [m], c, lo, hi) ==
      Window(log, c, lo, hi) + (if m.channel == c && lo < m.seqNo <= hi then [m] else [])
    ensures MaxSeq(log + [m], c) == if m.channel == c then Max(m.seqNo, MaxSeq(log, c)) else MaxSeq(log, c)
  {
    assert Front(log + [m]) == log;
  }

  /** Nothing is left above the cursor exactly when it stands at the channel's maximum. */
  lemma {:induction false} CaughtUpIffNothingAbove(log: seq<StoredMessage>, counter: nat, c: string, k: int)
    requires ValidLog(log, counter) && 0 <= k
    ensures Above(log, c, k) == [] <==> MaxSeq(log, c) <= k
  {
    var top := MaxSeq(log, c);
    MaxSeqBounds(log, counter, c);
    AboveIsWindow(log, counter, c, k, top);
    if top <= k {
      WindowEmpty(log, c, k, top);
    } else {
      var m :| m in log && m.channel == c && m.seqNo == top;
      WindowMember(log, c, k, top, m);
    }
  }

  /** Lines without chat messages, and changes to the index, leave every stream as it was. */
  lemma {:induction false} CoreFrame(st: State, r: State)
    requires Core(st)
    requires r.log == st.log && r.counter == st.counter
    requires r.cursors.Keys <= st.cursors.Keys && r.epochs.Keys == r.cursors.Keys
    requires forall seat :: seat in r.cursors ==>
        r.cursors[seat] == st.cursors[seat] && r.epochs[seat] == st.epochs[seat]
    requires st.sent <= r.sent && forall e :: e in News(st, r) ==> !e.line.Chat?
    requires forall s :: s in st.sessions && st.sessions[s].principal.Some? ==>
        s in r.sessions && r.sessions[s].principal == st.sessions[s].principal
    ensures Core(r)
  {
    assert r.sent == st.sent + News(st, r);
    forall seat | seat in r.cursors ensures SeatOk(r, seat) {
      assert SeatOk(st, seat);
      StreamGrows(st, r, seat, News(st, r));
      AutoSentOfControl(News(st, r), seat.principal, seat.channel);
    }
  }

  // ----- Publishing -----

  lemma {:induction false} PublishKeepsInv(
      st: State, c: string, sender: string, body: string, msgId: string, at: int, order: seq<string>)
    requires Inv(st) && Enumerates(order, Recipients(st, c))
    ensures Inv(Publish(st, c, sender, body, msgId, at, order))
  {
    var m := Appended(st, c, sender, body, msgId, at);
    var grown := st.(log := st.log + [m], counter := st.counter + 1);
    var r := Publish(st, c, sender, body, msgId, at, order);
    BroadcastSends(grown, c, m, order);
    LiveLinesOwners(grown, m, order);
    forall seat | seat in r.cursors
      ensures SeatOk(r, seat)
      ensures Reaches(r, seat.principal) ==> CaughtUp(r, seat)
    {
      PublishKeepsSeat(st, m, order, seat);
    }
  }

  lemma {:induction false} PublishKeepsSeat(st: State, m: StoredMessage, order: seq<string>, seat: Seat)
    requires Inv(st) && Enumerates(order, Recipients(st, m.channel))
    requires m.seqNo == st.counter + 1 && seat in st.cursors
    ensures var r := Broadcast(st.(log := st.log + [m], counter := st.counter + 1), m.channel, m, order);
      && r.epochs == st.epochs && seat in r.cursors && SeatOk(r, seat)
      && (Reaches(r, seat.principal) ==> CaughtUp(r, seat))
  {
    var grown := st.(log := st.log + [m], counter := st.counter + 1);
    var r := Broadcast(grown, m.channel, m, order);
    var p, c := seat.principal, seat.channel;
    var b, k, top := st.epochs[seat].baseline, st.cursors[seat], MaxSeq(st.log, c);
    assert SeatOk(st, seat);
    BroadcastSends(grown, m.channel, m, order);
    BroadcastCursor(grown, m.channel, m, order, seat);
    LiveLinesFor(grown, m, order, p, c);
    StreamGrows(st, r, seat, LiveLines(grown, m, order));
    AppendedWindow(st.log, m, c, b, r.cursors[seat]);
    MaxSeqBounds(st.log, st.counter, c);
    assert p in order <==> p in Recipients(st, m.channel);
    if c == m.channel && Reaches(st, p) {
      AboveIsWindow(st.log, st.counter, c, b, top);
      AboveIsWindow(st.log, st.counter, c, b, m.seqNo);
    }
  }

  // ----- Replays -----

  lemma {:induction false} ReplayRowKeepsSeat(st: State, s: string, p: string, c: string, other: Seat)
    requires Core(st) && Seat(p, c) in st.cursors && other in st.cursors
    requires IsOpen(st, s)
    ensures var r := ReplayRow(st, s, p, Row(c, st.cursors[Seat(p, c)]));
      && r.epochs == st.epochs && r.log == st.log && other in r.cursors && SeatOk(r, other)
      && (other != Seat(p, c) ==> r.cursors[other] == st.cursors[other])
  {
    var seat := Seat(p, c);
    var k := st.cursors[seat];
    var page := Page(st.log, c, k, REGISTRATION_REPLAY_LIMIT);
    var r := ReplayRow(st, s, p, Row(c, k));
    ReplayEffect(st, s, p, c, k, REGISTRATION_REPLAY_LIMIT, AutoReplay);
    AboveAll(st.log, c, k);
    assert SeatOk(st, other);
    StreamGrows(st, r, other, PageLines(s, p, page, AutoReplay));
    PageLinesFor(s, p, c, page, AutoReplay, other.principal, other.channel);
    if other == seat && page != [] {
      PageIsWindow(st.log, st.counter, c, k, REGISTRATION_REPLAY_LIMIT);
      WindowSplits(st.log, st.counter, c, st.epochs[seat].baseline, k, Last(page).seqNo);
    }
  }

  /** A replay catches the seat up exactly when one page holds the whole backlog. */
  lemma {:induction false} ReplayRowCatchesUp(st: State, s: string, p: string, c: string)
    requires Core(st) && Seat(p, c) in st.cursors
    ensures var r := ReplayRow(st, s, p, Row(c, st.cursors[Seat(p, c)]));
      && r == st.(cursors := r.cursors, sent := r.sent)
      && r.cursors.Keys == st.cursors.Keys
      && (CaughtUp(r, Seat(p, c)) <==> |Backlog(st, Seat(p, c))| <= REGISTRATION_REPLAY_LIMIT)
  {
    var seat := Seat(p, c);
    var k := st.cursors[seat];
    assert SeatOk(st, seat);
    var r := ReplayRow(st, s, p, Row(c, k));
    ReplayEffect(st, s, p, c, k, REGISTRATION_REPLAY_LIMIT, AutoReplay);
    PageIsWindow(st.log, st.counter, c, k, REGISTRATION_REPLAY_LIMIT);
    CaughtUpIffNothingAbove(st.log, st.counter, c, r.cursors[seat]);
  }

  lemma {:induction false} ReplayRowKeepsCore(st: State, s: string, p: string, c: string)
    requires Core(st) && Seat(p, c) in st.cursors
    requires IsOpen(st, s) && st.sessions[s].principal == Some(p)
    ensures Core(ReplayRow(st, s, p, Row(c, st.cursors[Seat(p, c)])))
  {
    var k := st.cursors[Seat(p, c)];
    var r := ReplayRow(st, s, p, Row(c, k));
    ReplayEffect(st, s, p, c, k, REGISTRATION_REPLAY_LIMIT, AutoReplay);
    PageLinesOwners(s, p, Page(st.log, c, k, REGISTRATION_REPLAY_LIMIT), AutoReplay);
    ReplayRowCatchesUp(st, s, p, c);
    forall other | other in r.cursors ensures SeatOk(r, other) {
      ReplayRowKeepsSeat(st, s, p, c, other);
    }
  }

  /** The rows of a registration snapshot that still agrees with the membership table. */
  ghost predicate FreshRows(st: State, p: string, rows: seq<Row>) {
    && (forall i, j :: 0 <= i < j < |rows| ==> rows[i].channel != rows[j].channel)
    && (forall i :: 0 <= i < |rows| ==>
          Seat(p, rows[i].channel) in st.cursors && rows[i].cursor == st.cursors[Seat(p, rows[i].channel)])
  }

  ghost predicate InRows(rows: seq<Row>, p: string, seat: Seat) {
    seat.principal == p && exists i :: 0 <= i < |rows| && rows[i].channel == seat.channel
  }

  lemma {:induction false} ReplayRowsFrame(st: State, s: string, p: string, rows: seq<Row>)
    ensures var r := ReplayRows(st, s, p, rows);
      && r == st.(cursors := r.cursors, sent := r.sent)
      && r.cursors.Keys == st.cursors.Keys
  {
    if rows != [] {
      ReplayRowsFrame(st, s, p, Front(rows));
      var last := Last(rows);
      var mid := ReplayRows(st, s, p, Front(rows));
      ReplayEffect(mid, s, p, last.channel, last.cursor, REGISTRATION_REPLAY_LIMIT, AutoReplay);
    }
  }

  lemma {:induction false} ReplayRowsElsewhere(st: State, s: string, p: string, rows: seq<Row>, seat: Seat)
    requires seat in st.cursors && !InRows(rows, p, seat)
    ensures seat in ReplayRows(st, s, p, rows).cursors
    ensures ReplayRows(st, s, p, rows).cursors[seat] == st.cursors[seat]
  {
    if rows != [] {
      var last := Last(rows);
      assert rows[|rows| - 1] == last;
      assert forall i :: 0 <= i < |Front(rows)| ==> Front(rows)[i] == rows[i];
      ReplayRowsElsewhere(st, s, p, Front(rows), seat);
      var mid := ReplayRows(st, s, p, Front(rows));
      ReplayEffect(mid, s, p, last.channel, last.cursor, REGISTRATION_REPLAY_LIMIT, AutoReplay);
    }
  }

  /** The last row of a fresh snapshot is still fresh when its turn comes. */
  lemma {:induction false} LastRowStaysFresh(st: State, s: string, p: string, rows: seq<Row>)
    requires FreshRows(st, p, rows) && rows != []
    ensures FreshRows(st, p, Front(rows))
    ensures var seat, mid := Seat(p, Last(rows).channel), ReplayRows(st, s, p, Front(rows));
      seat in mid.cursors && mid.cursors[seat] == st.cursors[seat] == Last(rows).cursor
  {
    var seat := Seat(p, Last(rows).channel);
    assert rows[|rows| - 1] == Last(rows);
    assert !InRows(Front(rows), p, seat);
    ReplayRowsElsewhere(st, s, p, Front(rows), seat);
  }

  lemma {:induction false} ReplayRowsKeepCore(st: State, s: string, p: string, rows: seq<Row>)
    requires Core(st) && FreshRows(st, p, rows)
    requires IsOpen(st, s) && st.sessions[s].principal == Some(p)
    ensures Core(ReplayRows(st, s, p, rows))
  {
    if rows != [] {
      LastRowStaysFresh(st, s, p, rows);
      ReplayRowsKeepCore(st, s, p, Front(rows));
      ReplayRowsFrame(st, s, p, Front(rows));
      ReplayRowKeepsCore(ReplayRows(st, s, p, Front(rows)), s, p, Last(rows).channel);
    }
  }

  lemma {:induction false} ReplayRowsCatchUp(st: State, s: string, p: string, rows: seq<Row>, i: nat)
    requires Core(st) && FreshRows(st, p, rows) && i < |rows|
    requires IsOpen(st, s) && st.sessions[s].principal == Some(p)
    ensures var seat, r := Seat(p, rows[i].channel), ReplayRows(st, s, p, rows);
      && seat in r.cursors
      && (CaughtUp(r, seat) <==> |Backlog(st, seat)| <= REGISTRATION_REPLAY_LIMIT)
  {
    hide Core;
    var seat := Seat(p, rows[i].channel);
    var last := Last(rows);
    var mid := ReplayRows(st, s, p, Front(rows));
    LastRowStaysFresh(st, s, p, rows);
    ReplayRowsKeepCore(st, s, p, Front(rows));
    ReplayRowsFrame(st, s, p, Front(rows));
    if i == |rows| - 1 {
      ReplayRowCatchesUp(mid, s, p, last.channel);
    } else {
      ReplayRowsCatchUp(st, s, p, Front(rows), i);
      assert rows[i].channel != rows[|rows| - 1].channel;
      ReplayEffect(mid, s, p, last.channel, last.cursor, REGISTRATION_REPLAY_LIMIT, AutoReplay);
    }
  }

  // ----- Registration -----

  /** The state in which a registration's replays start. */
  ghost function Greeted(st: State, s: string, p: string, order: seq<string>): State {
    var rows := SnapshotRows(st, p, order);
    Greet(IndexSession(MarkConnected(st, s, p), s, p, rows), s, p, rows)
  }

  lemma {:induction false} GreetedShape(st: State, s: string, p: string, order: seq<string>)
    requires CanRegister(st, s) && Enumerates(order, Rooms(st, p))
    ensures var rows, r := SnapshotRows(st, p, order), Greeted(st, s, p, order);
      && FreshRows(r, p, rows)
      && r.log == st.log && r.counter == st.counter && r.cursors == st.cursors && r.epochs == st.epochs
      && r.clients == st.clients[p := s] && r.connected == st.connected + {p}
      && r.sessions == st.sessions[s := st.sessions[s].(principal := Some(p))]
      && r.channels == AddToAll(st.channels, p, rows)
      && r.told == st.told + (if p in st.clients then {st.clients[p]} else {})
      && |rows| == |order| && (forall i :: 0 <= i < |rows| ==> rows[i].channel == order[i])
      && st.sent <= r.sent && (forall e :: e in News(st, r) ==> !e.line.Chat?)
  {
    var rows := SnapshotRows(st, p, order);
    SnapshotRowsAt(st, p, order);
    QuietGreet(IndexSession(MarkConnected(st, s, p), s, p, rows), s, p, rows);
    forall i | 0 <= i < |rows| ensures Seat(p, rows[i].channel) in st.cursors {
      assert order[i] in Rooms(st, p);
    }
  }

  lemma {:induction false} GreetedCore(st: State, s: string, p: string, order: seq<string>)
    requires Core(st) && CanRegister(st, s) && Enumerates(order, Rooms(st, p))
    ensures Core(Greeted(st, s, p, order))
  {
    GreetedShape(st, s, p, order);
    CoreFrame(st, Greeted(st, s, p, order));
  }

  lemma {:induction false} GreetedIndexed(st: State, s: string, p: string, order: seq<string>)
    requires Indexed(st) && CanRegister(st, s) && Enumerates(order, Rooms(st, p))
    ensures Indexed(Greeted(st, s, p, order))
  {
    var rows, r := SnapshotRows(st, p, order), Greeted(st, s, p, order);
    GreetedShape(st, s, p, order);
    forall q, c | q in Members(r.channels, c) ensures Seat(q, c) in r.cursors {
      AddToAllMembers(st.channels, p, rows, c);
      if q !in Members(st.channels, c) {
        var row :| row in rows && row.channel == c;
        assert q == p && c in order && c in Rooms(st, p);
      }
    }
    forall seat | seat in r.cursors && seat.principal in r.clients
      ensures seat.principal in Members(r.channels, seat.channel)
    {
      AddToAllMembers(st.channels, p, rows, seat.channel);
      if seat.principal == p {
        var i := RowOf(st, p, order, seat);
        assert rows[i] in rows;
      }
    }
  }

  lemma {:induction false} IndexedFrame(st: State, r: State)
    requires Indexed(st) && r.cursors.Keys == st.cursors.Keys
    requires r == st.(cursors := r.cursors, sent := r.sent)
    ensures Indexed(r)
  {
  }

  lemma {:induction false} RowOf(st: State, p: string, order: seq<string>, seat: Seat) returns (i: nat)
    requires Enumerates(order, Rooms(st, p)) && seat in st.cursors && seat.principal == p
    ensures i < |order| && order[i] == seat.channel
  {
    assert seat.channel in Rooms(st, p);
    i :| 0 <= i < |order| && order[i] == seat.channel;
  }

  /** A registration through an open receiver: exact streams, and each seat caught up iff its backlog fits one page. */
  lemma {:induction false} RegisterEffect(st: State, s: string, p: string, order: seq<string>)
    requires Inv(st) && CanRegister(st, s) && IsOpen(st, s) && Enumerates(order, Rooms(st, p))
    ensures var r := RegisterSession(st, s, p, order);
      && Core(r) && Indexed(r)
      && r.log == st.log && r.epochs == st.epochs && r.cursors.Keys == st.cursors.Keys
      && r.clients == st.clients[p := s] && IsOpen(r, s)
      && (forall seat :: seat in st.cursors && seat.principal == p ==>
            (CaughtUp(r, seat) <==> |Backlog(st, seat)| <= REGISTRATION_REPLAY_LIMIT))
      && (forall seat :: seat in st.cursors && seat.principal != p && Reaches(r, seat.principal) ==> CaughtUp(r, seat))
  {
    var rows, g, r := SnapshotRows(st, p, order), Greeted(st, s, p, order), RegisterSession(st, s, p, order);
    hide Core, FreshRows;
    GreetedShape(st, s, p, order);
    GreetedCore(st, s, p, order);
    GreetedIndexed(st, s, p, order);
    ReplayRowsKeepCore(g, s, p, rows);
    ReplayRowsFrame(g, s, p, rows);
    IndexedFrame(g, r);
    hide Indexed;
    forall seat | seat in st.cursors && seat.principal == p
      ensures CaughtUp(r, seat) <==> |Backlog(st, seat)| <= REGISTRATION_REPLAY_LIMIT
    {
      var i := RowOf(st, p, order, seat);
      ReplayRowsCatchUp(g, s, p, rows, i);
      assert Backlog(g, seat) == Backlog(st, seat);
    }
    forall seat | seat in st.cursors && seat.principal != p && Reaches(r, seat.principal)
      ensures CaughtUp(r, seat)
    {
      ReplayRowsElsewhere(g, s, p, rows, seat);
      assert r.sessions == g.sessions && r.clients == g.clients;
      assert Reaches(st, seat.principal);
    }
  }

  lemma {:induction false} RegisterKeepsInv(st: State, s: string, p: string, order: seq<string>)
    requires Inv(st) && CanRegister(st, s)
    requires Legal(st, Register(s, p, order)) && Undisturbed(st, Register(s, p, order))
    ensures Inv(RegisterSession(st, s, p, order))
  {
    hide Core, Indexed;
    RegisterEffect(st, s, p, order);
  }

  // ----- CHATHISTORY -----

  /** Asked-for lines belong to no stream. */
  lemma {:induction false} RequestedKeepsCore(
      st: State, r: State, s: string, p: string, c: string, page: seq<StoredMessage>)
    requires Core(st) && IsOpen(st, s) && st.sessions[s].principal == Some(p)
    requires r == st.(sent := st.sent + PageLines(s, p, page, Requested))
    requires forall m :: m in page ==> m.channel == c
    ensures Core(r)
  {
    PageLinesOwners(s, p, page, Requested);
    forall seat | seat in r.cursors ensures SeatOk(r, seat) {
      assert SeatOk(st, seat);
      StreamGrows(st, r, seat, PageLines(s, p, page, Requested));
      PageLinesFor(s, p, c, page, Requested, seat.principal, seat.channel);
    }
  }

  lemma {:induction false} RequestedMovesNothing(st: State, s: string, p: string, c: string, after: int, limit: int)
    requires ValidLog(st.log, st.counter)
    requires Seat(p, c) in st.cursors ==> st.cursors[Seat(p, c)] == MaxSeq(st.log, c)
    ensures var r := Replay(st, s, p, c, after, limit, Requested);
      var lines := PageLines(s, p, Page(st.log, c, after, limit), Requested);
      r == st.(sent := st.sent + if IsOpen(st, s) then lines else [])
  {
    ReplayEffect(st, s, p, c, after, limit, Requested);
    PageIsWindow(st.log, st.counter, c, after, limit);
    assert Replay(st, s, p, c, after, limit, Requested).cursors == st.cursors;
  }

  lemma {:induction false} RequestedKeepsInv(st: State, s: string, p: string, c: string, after: int, limit: int)
    requires Inv(st) && Actor(st, s) == Some(p) && IsOpen(st, s)
    ensures var r := Replay(st, s, p, c, after, limit, Requested);
      Inv(r) && r == st.(sent := r.sent)
  {
    var r := Replay(st, s, p, c, after, limit, Requested);
    hide Core, Indexed;
    assert ValidLog(st.log, st.counter) by { LogOfCore(st); }
    assert Reaches(st, p);
    assert Seat(p, c) in st.cursors ==> CaughtUp(st, Seat(p, c));
    RequestedMovesNothing(st, s, p, c, after, limit);
    AboveAll(st.log, c, after);
    RequestedKeepsCore(st, r, s, p, c, Page(st.log, c, after, limit));
    IndexedFrame(st, r);
  }

  lemma {:induction false} LogOfCore(st: State)
    requires Core(st)
    ensures ValidLog(st.log, st.counter)
  {
  }

  /** History asked for by a caught-up client moves no cursor and adds nothing to any stream. */
  lemma {:induction false} ReplayAllKeepsInv(
      st: State, s: string, p: string, channels: seq<string>, after: int, limit: int)
    requires Inv(st) && Actor(st, s) == Some(p) && IsOpen(st, s)
    ensures var r := ReplayAll(st, s, p, channels, after, limit, Requested);
      Inv(r) && r == st.(sent := r.sent)
  {
    if channels != [] {
      ReplayAllKeepsInv(st, s, p, Front(channels), after, limit);
      var mid := ReplayAll(st, s, p, Front(channels), after, limit, Requested);
      RequestedKeepsInv(mid, s, p, Last(channels), after, limit);
    }
  }

  // ----- Joining, parting, leaving -----

  lemma {:induction false} QuietKeepsInv(st: State, r: State)
    requires Inv(st) && Quiet(st, r)
    ensures Inv(r)
  {
    CoreFrame(st, r);
  }

  lemma {:induction false} JoinIndexKeepsSeat(st: State, p: string, c: string, seat: Seat)
    requires Core(st) && seat in JoinIndex(st, p, c).cursors
    ensures seat in JoinIndex(st, p, c).epochs && SeatOk(JoinIndex(st, p, c), seat)
    ensures seat !in st.cursors ==> CaughtUp(JoinIndex(st, p, c), seat)
  {
    var r := JoinIndex(st, p, c);
    MaxSeqBounds(st.log, st.counter, c);
    if seat in st.cursors {
      assert SeatOk(st, seat);
      StreamGrows(st, r, seat, []);
    } else {
      assert r.sent[|st.sent|..] == [];
      WindowEmpty(st.log, c, r.cursors[seat], r.cursors[seat]);
    }
  }

  lemma {:induction false} JoinIndexIndexed(st: State, p: string, c: string)
    requires Indexed(st)
    ensures Indexed(JoinIndex(st, p, c))
  {
    var r := JoinIndex(st, p, c);
    assert r.cursors.Keys == st.cursors.Keys + {Seat(p, c)};
    assert forall ch :: Members(r.channels, ch) == Members(st.channels, ch) + if ch == c then {p} else {};
  }

  lemma {:induction false} JoinIndexKeepsCore(st: State, p: string, c: string)
    requires Core(st)
    ensures Core(JoinIndex(st, p, c))
  {
    var r := JoinIndex(st, p, c);
    assert r.cursors.Keys == r.epochs.Keys;
    forall seat | seat in r.cursors ensures SeatOk(r, seat) {
      hide Core, SeatOk;
      JoinIndexKeepsSeat(st, p, c, seat);
    }
  }

  lemma {:induction false} JoinIndexKeepsInv(st: State, p: string, c: string)
    requires Inv(st)
    ensures Inv(JoinIndex(st, p, c))
  {
    hide Core, Indexed, SeatOk;
    JoinIndexIndexed(st, p, c);
    JoinIndexKeepsCore(st, p, c);
    var r := JoinIndex(st, p, c);
    forall seat | seat in r.cursors && Reaches(r, seat.principal) ensures CaughtUp(r, seat) {
      JoinIndexKeepsSeat(st, p, c, seat);
      assert seat in st.cursors ==> r.cursors[seat] == st.cursors[seat] && Reaches(st, seat.principal);
    }
  }

  lemma {:induction false} JoinKeepsInv(st: State, p: string, c: string, order: seq<string>)
    requires Inv(st)
    ensures Inv(BroadcastRaw(JoinIndex(st, p, c), JoinedLine(p, c), order))
  {
    JoinIndexKeepsInv(st, p, c);
    QuietBroadcastRaw(JoinIndex(st, p, c), JoinedLine(p, c), order);
    QuietKeepsInv(JoinIndex(st, p, c), BroadcastRaw(JoinIndex(st, p, c), JoinedLine(p, c), order));
  }

  lemma {:induction false} PartIndexIndexed(st: State, p: string, c: string)
    requires Indexed(st)
    ensures Indexed(PartIndex(st, p, c))
  {
    var r := PartIndex(st, p, c);
    assert forall ch :: Members(r.channels, ch) == Members(st.channels, ch) - if ch == c then {p} else {};
  }

  lemma {:induction false} PartIndexKeepsInv(st: State, p: string, c: string)
    requires Inv(st)
    ensures Inv(PartIndex(st, p, c))
  {
    CoreFrame(st, PartIndex(st, p, c));
    PartIndexIndexed(st, p, c);
    hide Core, Indexed;
    assert forall seat :: seat in PartIndex(st, p, c).cursors ==> seat in st.cursors;
  }

  lemma {:induction false} PartKeepsInv(st: State, p: string, c: string, order: seq<string>)
    requires Inv(st)
    ensures Inv(BroadcastRaw(PartIndex(st, p, c), PartedLine(p, c), order))
  {
    PartIndexKeepsInv(st, p, c);
    QuietBroadcastRaw(PartIndex(st, p, c), PartedLine(p, c), order);
    QuietKeepsInv(PartIndex(st, p, c), BroadcastRaw(PartIndex(st, p, c), PartedLine(p, c), order));
  }

  /** Sessions may come, stop running and close, and clients may leave the index, without touching the durable part. */
  ghost predicate SessionChange(st: State, r: State) {
    && r == st.(sessions := r.sessions, clients := r.clients, connected := r.connected, channels := r.channels)
    && r.clients.Keys <= st.clients.Keys
    && (forall p :: p in r.clients && p in st.connected ==> p in r.connected)
    && (forall p :: p in r.clients ==> r.clients[p] == st.clients[p])
    && (r.channels == st.channels || (r.channels == map[] && r.clients == map[]))
    && (forall s :: s in st.sessions ==>
          && s in r.sessions && r.sessions[s].principal == st.sessions[s].principal
          && (r.sessions[s].open ==> st.sessions[s].open))
  }

  predicate IsLeaving(cmd: Command) {
    cmd.Disconnect? || cmd.Abandon? || cmd.CloseReceiver? || cmd.Restart?
  }

  lemma {:induction false} LeavingShape(st: State, cmd: Command)
    requires IsLeaving(cmd)
    ensures SessionChange(st, Step(st, cmd))
  {
    hide Act, Refuse, Actor, RegisterSession, CanRegister, Deliver;
  }

  function Connected(st: State, s: string): State {
    if s in st.sessions then st else st.(sessions := st.sessions[s := Session(None, true, true)])
  }

  /** A new session is added and then greeted. */
  lemma {:induction false} ConnectShape(st: State, s: string)
    ensures SessionChange(st, Connected(st, s)) && Quiet(Connected(st, s), Step(st, Connect(s)))
  {
  }

  /** A session that was told to shut down sends the reason and then leaves. */
  lemma {:induction false} ShutDownShape(st: State, s: string)
    requires s in st.told
    ensures Quiet(st, Deliver(st, s, ReplacedByNewer))
    ensures SessionChange(Deliver(st, s, ReplacedByNewer), Step(st, ShutDown(s)))
  {
    hide Act, Refuse, Actor, RegisterSession, CanRegister;
  }

  lemma {:induction false} SessionChangeKeepsInv(st: State, r: State)
    requires Inv(st) && SessionChange(st, r)
    ensures Inv(r)
  {
    CoreFrame(st, r);
    assert Indexed(r);
    forall seat | seat in r.cursors && Reaches(r, seat.principal) ensures CaughtUp(r, seat) {
      assert Reaches(st, seat.principal);
    }
  }

  lemma {:induction false} RefuseKeepsInv(st: State, s: string)
    requires Inv(st)
    ensures Inv(Refuse(st, s))
  {
    hide Core, Indexed, ActiveCaughtUp;
    if s in st.sessions && st.sessions[s].running {
      var line := if st.sessions[s].principal.None? then NotRegistered else SessionReplaced;
      QuietKeepsInv(st, Deliver(st, s, line));
      SessionChangeKeepsInv(Deliver(st, s, line), AbandonSession(Deliver(st, s, line), s));
    }
  }

  lemma {:induction false} ConnectKeepsInv(st: State, s: string)
    requires Inv(st)
    ensures Inv(Step(st, Connect(s)))
  {
    hide Inv, SessionChange, Quiet, Step;
    ConnectShape(st, s);
    SessionChangeKeepsInv(st, Connected(st, s));
    QuietKeepsInv(Connected(st, s), Step(st, Connect(s)));
  }

  lemma {:induction false} ShutDownKeepsInv(st: State, s: string)
    requires Inv(st)
    ensures Inv(Step(st, ShutDown(s)))
  {
    hide Inv, SessionChange, Quiet;
    if s in st.told {
      ShutDownShape(st, s);
      QuietKeepsInv(st, Deliver(st, s, ReplacedByNewer));
      SessionChangeKeepsInv(Deliver(st, s, ReplacedByNewer), Step(st, ShutDown(s)));
    }
  }

  lemma {:induction false} LeavingKeepsInv(st: State, cmd: Command)
    requires Inv(st) && IsLeaving(cmd)
    ensures Inv(Step(st, cmd))
  {
    hide Inv;
    LeavingShape(st, cmd);
    hide Step;
    SessionChangeKeepsInv(st, Step(st, cmd));
  }

  // ----- Whole runs -----

  lemma {:induction false} StepKeepsInv(st: State, cmd: Command)
    requires Inv(st) && Legal(st, cmd) && Undisturbed(st, cmd)
    ensures Inv(Step(st, cmd))
  {
    hide Inv;
    match cmd {
      case Register(s, p, order) =>
        if CanRegister(st, s) {
          RegisterKeepsInv(st, s, p, order);
        }
      case BadPassword(s) =>
        if CanRegister(st, s) {
          QuietKeepsInv(st, Deliver(st, s, PasswordIncorrect));
        }
      case Join(s, c, order) => ActOrRefuse(st, cmd);
      case Part(s, c, order) => ActOrRefuse(st, cmd);
      case Privmsg(s, c, body, msgId, at, order) => ActOrRefuse(st, cmd);
      case TaskNotice(s, c, body, msgId, at, order) => ActOrRefuse(st, cmd);
      case Chathistory(s, channels, after, limit) => ActOrRefuse(st, cmd);
      case Connect(s) => ConnectKeepsInv(st, s);
      case ShutDown(s) => ShutDownKeepsInv(st, s);
      case _ => LeavingKeepsInv(st, cmd);
    }
  }

  lemma {:induction false} ActOrRefuse(st: State, cmd: Command)
    requires Inv(st) && Legal(st, cmd) && Undisturbed(st, cmd)
    requires cmd.Join? || cmd.Part? || cmd.Privmsg? || cmd.TaskNotice? || cmd.Chathistory?
    ensures Inv(Step(st, cmd))
  {
    var actor := Actor(st, cmd.s);
    if actor.None? {
      RefuseKeepsInv(st, cmd.s);
    } else {
      var p := actor.value;
      match cmd {
        case Join(s, c, order) => JoinKeepsInv(st, p, c, order);
        case Part(s, c, order) => PartKeepsInv(st, p, c, order);
        case Privmsg(s, c, body, msgId, at, order) =>
          if Seat(p, c) in st.cursors {
            PublishKeepsInv(st, c, p, body, msgId, at, order);
          } else {
            QuietKeepsInv(st, Deliver(st, s, NotOnChannel(c)));
          }
        case TaskNotice(s, c, body, msgId, at, order) => PublishKeepsInv(st, c, SERVER_NAME, body, msgId, at, order);
        case Chathistory(s, channels, after, limit) => ReplayAllKeepsInv(st, s, p, channels, after, limit);
      }
    }
  }

  lemma {:induction false} RunKeepsInv(cmds: seq<Command>)
    requires Admissible(cmds)
    ensures Inv(Run(cmds))
  {
    if cmds != [] {
      RunKeepsInv(Front(cmds));
      StepKeepsInv(Run(Front(cmds)), Last(cmds));
    }
  }

  // ----- Main results: nothing skipped, nothing twice -----

  /**
    In every admissible run, the messages a member's sessions were sent on their own account since joining are
    exactly the channel's messages from the join baseline to the cursor, each once and in order; and a member
    whose active session has a receiver is level with the channel.
   */
  lemma {:induction false} RunsDeliverExactlyOnce(cmds: seq<Command>)
    requires Admissible(cmds)
    ensures Run(cmds).cursors.Keys == Run(cmds).epochs.Keys
    ensures OwnersAgree(Run(cmds).sessions, Run(cmds).sent)
    ensures forall seat :: seat in Run(cmds).cursors ==>
      && Stream(Run(cmds), seat) ==
           Window(Run(cmds).log, seat.channel, Run(cmds).epochs[seat].baseline, Run(cmds).cursors[seat])
      && (forall i, j :: 0 <= i < j < |Stream(Run(cmds), seat)| ==>
            Stream(Run(cmds), seat)[i].seqNo < Stream(Run(cmds), seat)[j].seqNo)
      && (forall m :: m in Stream(Run(cmds), seat) <==>
            && m in Run(cmds).log && m.channel == seat.channel
            && Run(cmds).epochs[seat].baseline < m.seqNo <= Run(cmds).cursors[seat])
      && (Reaches(Run(cmds), seat.principal) ==> Run(cmds).cursors[seat] == MaxSeq(Run(cmds).log, seat.channel))
  {
    var st := Run(cmds);
    RunKeepsInv(cmds);
    forall seat | seat in st.cursors
      ensures var b, k := st.epochs[seat].baseline, st.cursors[seat];
        && Stream(st, seat) == Window(st.log, seat.channel, b, k)
        && (forall i, j :: 0 <= i < j < |Stream(st, seat)| ==> Stream(st, seat)[i].seqNo < Stream(st, seat)[j].seqNo)
        && (forall m :: m in Stream(st, seat) <==> m in st.log && m.channel == seat.channel && b < m.seqNo <= k)
    {
      assert SeatOk(st, seat);
      var b, k := st.epochs[seat].baseline, st.cursors[seat];
      WindowAscends(st.log, st.counter, seat.channel, b, k);
      forall m ensures m in Stream(st, seat) <==> m in st.log && m.channel == seat.channel && b < m.seqNo <= k {
        WindowMember(st.log, seat.channel, b, k, m);
      }
    }
  }

  /** Two windows from the same baseline agree exactly when no message lies between their ends. */
  lemma {:induction false} WindowsAgreeIff(log: seq<StoredMessage>, counter: nat, c: string, b: int, k: int, top: int)
    requires ValidLog(log, counter) && b <= k <= top
    ensures Window(log, c, b, k) == Window(log, c, b, top) <==> Window(log, c, k, top) == []
  {
    WindowSplits(log, counter, c, b, k, top);
    assert Window(log, c, k, top) != [] ==> |Window(log, c, b, k)| < |Window(log, c, b, top)|;
  }

  lemma {:induction false} WindowEmptyIff(log: seq<StoredMessage>, counter: nat, c: string, k: int, m: StoredMessage)
    requires ValidLog(log, counter) && m in log && m.channel == c
    ensures Window(log, c, k, m.seqNo) == [] <==> m.seqNo <= k
  {
    WindowMember(log, c, k, m.seqNo, m);
    if m.seqNo <= k {
      WindowEmpty(log, c, k, m.seqNo);
    }
  }

  lemma {:induction false} AppendInjective(a: seq<StoredMessage>, b: seq<StoredMessage>, m: StoredMessage)
    ensures a + [m] == b + [m] <==> a == b
  {
    if a + [m] == b + [m] {
      assert a == (a + [m])[..|a|];
      assert b == (b + [m])[..|b|];
    }
  }

  /** A live message keeps a seat's stream exact if and only if the seat was level with the channel before it. */
  lemma {:induction false} LiveMessageExactIffCaughtUp(st: State, seat: Seat, m: StoredMessage, order: seq<string>)
    requires Core(st) && seat in st.cursors && Reaches(st, seat.principal)
    requires m.channel == seat.channel && m.seqNo == st.counter + 1
    requires seat.principal in order && forall i, j :: 0 <= i < j < |order| ==> order[i] != order[j]
    ensures var r := Broadcast(st.(log := st.log + [m], counter := st.counter + 1), m.channel, m, order);
      && seat in r.cursors && r.epochs == st.epochs
      && (ExactlyOnce(r, seat) <==> CaughtUp(st, seat))
  {
    var grown := st.(log := st.log + [m], counter := st.counter + 1);
    var r := Broadcast(grown, m.channel, m, order);
    var c, b, k, top := seat.channel, st.epochs[seat].baseline, st.cursors[seat], MaxSeq(st.log, seat.channel);
    assert SeatOk(st, seat);
    BroadcastSends(grown, c, m, order);
    BroadcastCursor(grown, c, m, order, seat);
    LiveLinesFor(grown, m, order, seat.principal, c);
    StreamGrows(st, r, seat, LiveLines(grown, m, order));
    MaxSeqBounds(st.log, st.counter, c);
    AppendedWindow(st.log, m, c, b, m.seqNo);
    AboveIsWindow(st.log, st.counter, c, b, top);
    AboveIsWindow(st.log, st.counter, c, b, m.seqNo);
    WindowsAgreeIff(st.log, st.counter, c, b, k, top);
    CaughtUpIffNothingAbove(st.log, st.counter, c, k);
    AboveIsWindow(st.log, st.counter, c, k, top);
    AppendInjective(Window(st.log, c, b, k), Window(st.log, c, b, top), m);
    hide Core, SeatOk, Broadcast, AutoSent, Window, Above, MaxSeq;
    assert Stream(r, seat) == Window(st.log, c, b, k) + [m];
    assert r.cursors[seat] == m.seqNo && r.log == st.log + [m];
    assert Window(r.log, c, b, m.seqNo) == Window(st.log, c, b, top) + [m];
  }

  lemma {:induction false} RegisterLevelsSeatIff(
      st: State, s: string, p: string, order: seq<string>, r: State, seat: Seat)
    requires Inv(st) && CanRegister(st, s) && IsOpen(st, s) && Enumerates(order, Rooms(st, p))
    requires seat in st.cursors && seat.principal == p && r == RegisterSession(st, s, p, order)
    ensures Core(r) && Reaches(r, p) && seat in r.cursors && seat in r.epochs && p in Members(r.channels, seat.channel)
    ensures CaughtUp(r, seat) <==> |Backlog(st, seat)| <= REGISTRATION_REPLAY_LIMIT
  {
    assert seat in st.epochs;
    hide RegisterSession, Core;
    RegisterEffect(st, s, p, order);
  }

  lemma {:induction false} NextMessageAfterRegistration(
      st: State, s: string, p: string, order: seq<string>, registered: State,
      c: string, sender: string, body: string, msgId: string, at: int, recipients: seq<string>)
    requires Inv(st) && CanRegister(st, s) && IsOpen(st, s) && Enumerates(order, Rooms(st, p))
    requires Seat(p, c) in st.cursors && registered == RegisterSession(st, s, p, order)
    requires Enumerates(recipients, Recipients(registered, c))
    ensures var after := Publish(registered, c, sender, body, msgId, at, recipients);
      && Seat(p, c) in after.cursors && Seat(p, c) in after.epochs
      && (ExactlyOnce(after, Seat(p, c)) <==> |Backlog(st, Seat(p, c))| <= REGISTRATION_REPLAY_LIMIT)
  {
    hide RegisterSession, Inv, Core;
    RegisterLevelsSeatIff(st, s, p, order, registered, Seat(p, c));
    assert p in Recipients(registered, c);
    LiveMessageExactIffCaughtUp(registered, Seat(p, c), Appended(registered, c, sender, body, msgId, at), recipients);
  }

  /**
    The bound of 200 is exact: in any run, after a registration through an open receiver, the next message published
    to the channel leaves the stream gap-free if and only if the backlog at registration fitted one page.
   */
  lemma {:induction false} NextMessageGapFreeIffBacklogFits(
      cmds: seq<Command>, s: string, p: string, order: seq<string>, registered: State,
      c: string, sender: string, body: string, msgId: string, at: int, recipients: seq<string>)
    requires Admissible(cmds) && CanRegister(Run(cmds), s) && IsOpen(Run(cmds), s)
    requires Enumerates(order, Rooms(Run(cmds), p)) && Seat(p, c) in Run(cmds).cursors
    requires registered == Step(Run(cmds), Register(s, p, order))
    requires Enumerates(recipients, Recipients(registered, c))
    ensures var after := Publish(registered, c, sender, body, msgId, at, recipients);
      && Seat(p, c) in after.cursors && Seat(p, c) in after.epochs
      && (ExactlyOnce(after, Seat(p, c)) <==> |Backlog(Run(cmds), Seat(p, c))| <= REGISTRATION_REPLAY_LIMIT)
  {
    RunKeepsInv(cmds);
    hide Inv, Admissible, Run, Publish;
    NextMessageAfterRegistration(Run(cmds), s, p, order, registered, c, sender, body, msgId, at, recipients);
  }

  /** A replay into a closed receiver moves the cursor all the same: the stream stays exact iff it passes no message. */
  lemma {:induction false} ClosedReplayExactIff(
      st: State, s: string, p: string, c: string, after: int, limit: int, origin: Origin)
    requires Core(st) && Seat(p, c) in st.cursors && !IsOpen(st, s)
    ensures var r, page := Replay(st, s, p, c, after, limit, origin), Page(st.log, c, after, limit);
      && r.cursors.Keys == st.cursors.Keys && r.epochs == st.epochs
      && (ExactlyOnce(r, Seat(p, c)) <==> page == [] || Last(page).seqNo <= st.cursors[Seat(p, c)])
  {
    var seat, page := Seat(p, c), Page(st.log, c, after, limit);
    var r := Replay(st, s, p, c, after, limit, origin);
    ReplayEffect(st, s, p, c, after, limit, origin);
    assert SeatOk(st, seat);
    StreamGrows(st, r, seat, []);
    var b, k := st.epochs[seat].baseline, st.cursors[seat];
    if page != [] {
      AboveAll(st.log, c, after);
      WindowsAgreeIff(st.log, st.counter, c, b, k, r.cursors[seat]);
      WindowEmptyIff(st.log, st.counter, c, k, Last(page));
      WindowEmpty(st.log, c, k, k);
    }
  }

  // ----- Main results: the index -----

  ghost predicate Lawful(cmds: seq<Command>) {
    cmds == [] || (Lawful(Front(cmds)) && Legal(Run(Front(cmds)), Last(cmds)))
  }

  lemma {:induction false} ReplayAllFrame(
      st: State, s: string, p: string, channels: seq<string>, after: int, limit: int)
    ensures var r := ReplayAll(st, s, p, channels, after, limit, Requested);
      && r == st.(cursors := r.cursors, sent := r.sent)
      && r.cursors.Keys == st.cursors.Keys
  {
    if channels != [] {
      ReplayAllFrame(st, s, p, Front(channels), after, limit);
      var mid := ReplayAll(st, s, p, Front(channels), after, limit, Requested);
      ReplayEffect(mid, s, p, Last(channels), after, limit, Requested);
    }
  }

  lemma {:induction false} PublishKeepsIndexed(
      st: State, c: string, sender: string, body: string, msgId: string, at: int, order: seq<string>)
    requires Indexed(st)
    ensures Indexed(Publish(st, c, sender, body, msgId, at, order))
  {
    var m := Appended(st, c, sender, body, msgId, at);
    var grown := st.(log := st.log + [m], counter := st.counter + 1);
    BroadcastSends(grown, c, m, order);
    IndexedFrame(grown, Publish(st, c, sender, body, msgId, at, order));
  }

  lemma {:induction false} ActKeepsIndexed(st: State, p: string, cmd: Command)
    requires Indexed(st)
    ensures Indexed(Act(st, p, cmd))
  {
    hide Indexed;
    match cmd {
      case Join(s, c, order) =>
        JoinIndexIndexed(st, p, c);
        QuietBroadcastRaw(JoinIndex(st, p, c), JoinedLine(p, c), order);
        IndexedFrame(JoinIndex(st, p, c), Act(st, p, cmd));
      case Part(s, c, order) =>
        PartIndexIndexed(st, p, c);
        QuietBroadcastRaw(PartIndex(st, p, c), PartedLine(p, c), order);
        IndexedFrame(PartIndex(st, p, c), Act(st, p, cmd));
      case Privmsg(s, c, body, msgId, at, order) =>
        if Seat(p, c) in st.cursors {
          PublishKeepsIndexed(st, c, p, body, msgId, at, order);
        } else {
          IndexedFrame(st, Deliver(st, s, NotOnChannel(c)));
        }
      case TaskNotice(s, c, body, msgId, at, order) => PublishKeepsIndexed(st, c, SERVER_NAME, body, msgId, at, order);
      case Chathistory(s, channels, after, limit) =>
        ReplayAllFrame(st, s, p, channels, after, limit);
        IndexedFrame(st, Act(st, p, cmd));
      case _ =>
    }
  }

  lemma {:induction false} RegisterKeepsIndexed(st: State, s: string, p: string, order: seq<string>)
    requires Indexed(st) && CanRegister(st, s) && Enumerates(order, Rooms(st, p))
    ensures Indexed(RegisterSession(st, s, p, order))
  {
    hide Indexed;
    GreetedIndexed(st, s, p, order);
    ReplayRowsFrame(Greeted(st, s, p, order), s, p, SnapshotRows(st, p, order));
    IndexedFrame(Greeted(st, s, p, order), RegisterSession(st, s, p, order));
  }

  lemma {:induction false} SessionChangeKeepsIndexed(st: State, r: State)
    requires Indexed(st) && SessionChange(st, r)
    ensures Indexed(r)
  {
  }

  lemma {:induction false} QuietKeepsIndexed(st: State, r: State)
    requires Indexed(st) && Quiet(st, r)
    ensures Indexed(r)
  {
  }

  lemma {:induction false} StepKeepsIndexed(st: State, cmd: Command)
    requires Indexed(st) && Legal(st, cmd)
    ensures Indexed(Step(st, cmd))
  {
    hide Indexed;
    match cmd {
      case Register(s, p, order) =>
        if CanRegister(st, s) {
          RegisterKeepsIndexed(st, s, p, order);
        }
      case BadPassword(s) => IndexedFrame(st, Step(st, cmd));
      case Connect(s) =>
        ConnectShape(st, s);
        SessionChangeKeepsIndexed(st, Connected(st, s));
        QuietKeepsIndexed(Connected(st, s), Step(st, cmd));
      case ShutDown(s) =>
        if s in st.told {
          ShutDownShape(st, s);
          QuietKeepsIndexed(st, Deliver(st, s, ReplacedByNewer));
          SessionChangeKeepsIndexed(Deliver(st, s, ReplacedByNewer), Step(st, cmd));
        }
      case Disconnect(s) => LeavingKeepsIndexed(st, cmd);
      case Abandon(s) => LeavingKeepsIndexed(st, cmd);
      case CloseReceiver(s) => LeavingKeepsIndexed(st, cmd);
      case Restart => LeavingKeepsIndexed(st, cmd);
      case _ =>
        if Actor(st, cmd.s).Some? {
          ActKeepsIndexed(st, Actor(st, cmd.s).value, cmd);
        } else {
          RefuseKeepsIndexed(st, cmd.s);
        }
    }
  }

  lemma {:induction false} LeavingKeepsIndexed(st: State, cmd: Command)
    requires Indexed(st) && IsLeaving(cmd)
    ensures Indexed(Step(st, cmd))
  {
    LeavingShape(st, cmd);
    hide Indexed, Step;
    SessionChangeKeepsIndexed(st, Step(st, cmd));
  }

  lemma {:induction false} RefuseKeepsIndexed(st: State, s: string)
    requires Indexed(st)
    ensures Indexed(Refuse(st, s))
  {
    hide Indexed;
    if s in st.sessions && st.sessions[s].running {
      var line := if st.sessions[s].principal.None? then NotRegistered else SessionReplaced;
      IndexedFrame(st, Deliver(st, s, line));
      SessionChangeKeepsIndexed(Deliver(st, s, line), AbandonSession(Deliver(st, s, line), s));
    }
  }

  lemma {:induction false} RunKeepsIndexed(cmds: seq<Command>)
    requires Lawful(cmds)
    ensures Indexed(Run(cmds))
  {
    if cmds != [] {
      RunKeepsIndexed(Front(cmds));
      StepKeepsIndexed(Run(Front(cmds)), Last(cmds));
    }
  }

  /** The recipients computed from the index are exactly the durable members with an active client. */
  lemma {:induction false} RecipientsAreActiveMembers(cmds: seq<Command>, c: string)
    requires Lawful(cmds)
    ensures forall p :: p in Recipients(Run(cmds), c) <==> Seat(p, c) in Run(cmds).cursors && p in Run(cmds).clients
  {
    RunKeepsIndexed(cmds);
    var st := Run(cmds);
    forall p ensures p in Recipients(st, c) <==> Seat(p, c) in st.cursors && p in st.clients {
      if Seat(p, c) in st.cursors && p in st.clients {
        assert Seat(p, c).principal in Members(st.channels, c);
      }
    }
  }

  /** Every registered session that still runs is its principal's indexed one or has been told to shut down. */
  ghost predicate OthersTold(st: State) {
    forall s, p :: Registered(st, s, p) ==> Actor(st, s) == Some(p) || s in st.told
  }

  predicate Registered(st: State, s: string, p: string) {
    s in st.sessions && st.sessions[s].running && st.sessions[s].principal == Some(p)
  }

  /** Registrations stay what they were, and an indexed session leaves the index only by ending. */
  ghost predicate Stays(st: State, r: State) {
    && st.told <= r.told
    && forall s, p :: Registered(r, s, p) ==>
         Registered(st, s, p) && (Actor(st, s) == Some(p) ==> p in r.clients && r.clients[p] == s)
  }

  lemma {:induction false} StaysTells(st: State, r: State)
    requires OthersTold(st) && Stays(st, r)
    ensures OthersTold(r)
  {
    forall s, p | Registered(r, s, p) ensures Actor(r, s) == Some(p) || s in r.told {
      assert Registered(st, s, p);
    }
  }

  lemma {:induction false} DisconnectStays(st: State, s: string)
    ensures Stays(st, DisconnectSession(st, s))
  {
  }

  lemma {:induction false} AbandonStays(st: State, s: string)
    ensures Stays(st, AbandonSession(st, s)) && Stays(st, CloseReceiverOf(st, s))
  {
  }

  lemma {:induction false} DeliverStays(st: State, s: string, line: Line)
    ensures Stays(st, Deliver(st, s, line)) && OthersTold(Deliver(st, s, line)) == OthersTold(st)
  {
  }

  lemma {:induction false} RestartStays(st: State)
    ensures Stays(st, Step(st, Restart))
  {
  }

  lemma {:induction false} RegisterTells(st: State, s: string, p: string, order: seq<string>)
    requires OthersTold(st) && Indexed(st) && CanRegister(st, s) && Enumerates(order, Rooms(st, p))
    ensures OthersTold(RegisterSession(st, s, p, order))
  {
    var g, r := Greeted(st, s, p, order), RegisterSession(st, s, p, order);
    GreetedShape(st, s, p, order);
    ReplayRowsFrame(g, s, p, SnapshotRows(st, p, order));
    hide Greeted, RegisterSession, Indexed;
    forall t, q | Registered(r, t, q) ensures Actor(r, t) == Some(q) || t in r.told {
      if t != s {
        assert Registered(st, t, q);
      }
    }
  }

  lemma {:induction false} ActFrame(st: State, p: string, cmd: Command)
    ensures Act(st, p, cmd).sessions == st.sessions && Act(st, p, cmd).clients == st.clients
    ensures Act(st, p, cmd).told == st.told
  {
    match cmd {
      case Join(s, c, order) => QuietBroadcastRaw(JoinIndex(st, p, c), JoinedLine(p, c), order);
      case Part(s, c, order) => QuietBroadcastRaw(PartIndex(st, p, c), PartedLine(p, c), order);
      case Privmsg(s, c, body, msgId, at, order) => PublishFrame(st, c, p, body, msgId, at, order);
      case TaskNotice(s, c, body, msgId, at, order) => PublishFrame(st, c, SERVER_NAME, body, msgId, at, order);
      case Chathistory(s, channels, after, limit) => ReplayAllFrame(st, s, p, channels, after, limit);
      case _ =>
    }
  }

  lemma {:induction false} PublishFrame(
      st: State, c: string, sender: string, body: string, msgId: string, at: int, order: seq<string>)
    ensures var r := Publish(st, c, sender, body, msgId, at, order);
      r.sessions == st.sessions && r.clients == st.clients && r.told == st.told
  {
    var m := Appended(st, c, sender, body, msgId, at);
    BroadcastSends(st.(log := st.log + [m], counter := st.counter + 1), c, m, order);
  }

  lemma {:induction false} ConnectTells(st: State, s: string)
    requires OthersTold(st)
    ensures OthersTold(Step(st, Connect(s)))
  {
    var mid := Connected(st, s);
    assert Stays(st, mid);
    StaysTells(st, mid);
    hide OthersTold;
    DeliverStays(mid, s, Hello);
  }

  lemma {:induction false} LeavingTells(st: State, cmd: Command)
    requires OthersTold(st) && (IsLeaving(cmd) || cmd.ShutDown?)
    ensures OthersTold(Step(st, cmd))
  {
    hide OthersTold, Stays, DisconnectSession, AbandonSession, CloseReceiverOf, Deliver;
    match cmd {
      case ShutDown(s) =>
        if s in st.told {
          var mid := Deliver(st, s, ReplacedByNewer);
          DeliverStays(st, s, ReplacedByNewer);
          DisconnectStays(mid, s);
          StaysTells(mid, DisconnectSession(mid, s));
        }
      case Disconnect(s) =>
        DisconnectStays(st, s);
        StaysTells(st, DisconnectSession(st, s));
      case Restart =>
        RestartStays(st);
        StaysTells(st, Step(st, Restart));
      case Abandon(s) =>
        AbandonStays(st, s);
        StaysTells(st, AbandonSession(st, s));
      case CloseReceiver(s) =>
        AbandonStays(st, s);
        StaysTells(st, CloseReceiverOf(st, s));
      case _ =>
    }
  }

  lemma {:induction false} ActTells(st: State, p: string, cmd: Command)
    requires OthersTold(st)
    ensures OthersTold(Act(st, p, cmd))
  {
    var r := Act(st, p, cmd);
    ActFrame(st, p, cmd);
    hide Act;
    assert Stays(st, r);
    StaysTells(st, r);
  }

  lemma {:induction false} RefuseTells(st: State, s: string)
    requires OthersTold(st)
    ensures OthersTold(Refuse(st, s))
  {
    hide OthersTold, Stays, Deliver, AbandonSession;
    var mid := Deliver(st, s, SessionReplaced);
    DeliverStays(st, s, NotRegistered);
    DeliverStays(st, s, SessionReplaced);
    AbandonStays(mid, s);
    StaysTells(mid, AbandonSession(mid, s));
  }

  lemma {:induction false} StepTells(st: State, cmd: Command)
    requires OthersTold(st) && Indexed(st) && Legal(st, cmd)
    ensures OthersTold(Step(st, cmd))
  {
    hide OthersTold, Indexed, Act, Refuse, RegisterSession, Deliver;
    match cmd {
      case Register(s, p, order) =>
        if CanRegister(st, s) {
          RegisterTells(st, s, p, order);
        }
      case BadPassword(s) => DeliverStays(st, s, PasswordIncorrect);
      case Connect(s) => ConnectTells(st, s);
      case ShutDown(s) => LeavingTells(st, cmd);
      case Disconnect(s) => LeavingTells(st, cmd);
      case Abandon(s) => LeavingTells(st, cmd);
      case CloseReceiver(s) => LeavingTells(st, cmd);
      case Restart => LeavingTells(st, cmd);
      case _ =>
        if Actor(st, cmd.s).Some? {
          ActTells(st, Actor(st, cmd.s).value, cmd);
        }
        RefuseTells(st, cmd.s);
    }
  }

  /**
    A replaced session is always told: in every run each registered session that still runs is the one its principal
    acts through, of which there is one, connected and in the index, or its shutdown notice has been sent.
   */
  lemma {:induction false} ReplacedSessionsAreTold(cmds: seq<Command>, s: string, p: string)
    requires Lawful(cmds) && Registered(Run(cmds), s, p)
    ensures s in Run(cmds).told || (Actor(Run(cmds), s) == Some(p) && p in Run(cmds).connected)
  {
    RunKeepsIndexed(cmds);
    RunTells(cmds);
  }

  lemma {:induction false} RunTells(cmds: seq<Command>)
    requires Lawful(cmds)
    ensures OthersTold(Run(cmds))
  {
    if cmds != [] {
      RunTells(Front(cmds));
      RunKeepsIndexed(Front(cmds));
      StepTells(Run(Front(cmds)), Last(cmds));
    }
  }

  /** When a replaced session goes away, the newer session keeps its index entry, its connected mark and its seats. */
  lemma {:induction false} ReplacedSessionLeavesQuietly(cmds: seq<Command>, s: string, p: string)
    requires Lawful(cmds)
    requires s in Run(cmds).sessions && Run(cmds).sessions[s].principal == Some(p)
    requires p in Run(cmds).clients && Run(cmds).clients[p] != s
    ensures var st, r := Run(cmds), DisconnectSession(Run(cmds), s);
      && r == st.(sessions := r.sessions)
      && p in r.connected
      && Actor(r, st.clients[p]) == Actor(st, st.clients[p])
      && Reaches(r, p) == Reaches(st, p)
  {
    RunKeepsIndexed(cmds);
  }
}
