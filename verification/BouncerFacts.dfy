/** What one step of the bouncer does to the index, the cursors and the lines enqueued to each principal. */
module BouncerFacts {
  import opened Prelude
  import opened History
  import opened Memberships
  import opened Bouncer

  /** Messages of channel `c` enqueued to sessions of `p` without being asked for: live or by registration replay. */
  ghost function AutoSent(sent: seq<Enqueued>, p: string, c: string): seq<StoredMessage> {
    if sent == [] then []
    else
      var line := Last(sent).line;
      AutoSent(Front(sent), p, c) +
      if line.Chat? && line.owner == p && line.origin != Requested && line.message.channel == c
      then [line.message] else []
  }

  /** The lines `r` has enqueued beyond those of `st`. */
  ghost function News(st: State, r: State): seq<Enqueued> {
    if |st.sent| <= |r.sent| then r.sent[|st.sent|..] else []
  }

  /** Chat lines go only to a session registered to the principal they are meant for. */
  ghost predicate OwnersAgree(sessions: map<string, Session>, sent: seq<Enqueued>) {
    forall e :: e in sent && e.line.Chat? ==>
      e.session in sessions && sessions[e.session].principal == Some(e.line.owner)
  }

  /** Only lines that carry no chat message were added. */
  ghost predicate Quiet(st: State, r: State) {
    && r == st.(sent := r.sent)
    && st.sent <= r.sent
    && (forall e :: e in News(st, r) ==> !e.line.Chat?)
  }

  lemma {:induction false} AutoSentSnoc(a: seq<Enqueued>, e: Enqueued, p: string, c: string)
    ensures AutoSent(a + [e], p, c) == AutoSent(a, p, c) + (
        if e.line.Chat? && e.line.owner == p && e.line.origin != Requested && e.line.message.channel == c
        then [e.line.message] else [])
  {
    assert Front(a + [e]) == a;
  }

  lemma {:induction false} AutoSentConcat(a: seq<Enqueued>, b: seq<Enqueued>, p: string, c: string)
    ensures AutoSent(a + b, p, c) == AutoSent(a, p, c) + AutoSent(b, p, c)
  {
    if b == [] {
      assert a + b == a;
    } else {
      var front, e := Front(b), Last(b);
      assert b == front + [e] && a + b == (a + front) + [e];
      AutoSentConcat(a, front, p, c);
      AutoSentSnoc(a + front, e, p, c);
      AutoSentSnoc(front, e, p, c);
      hide *;
      assert AutoSent(a + b, p, c) == AutoSent(a + (front + [e]), p, c);
    }
  }

  lemma {:induction false} AutoSentOfControl(sent: seq<Enqueued>, p: string, c: string)
    requires forall e :: e in sent ==> !e.line.Chat?
    ensures AutoSent(sent, p, c) == []
  {
    if sent != [] {
      assert Last(sent) in sent;
      AutoSentOfControl(Front(sent), p, c);
    }
  }

  // ----- Raw lines -----

  lemma {:induction false} QuietDeliver(st: State, s: string, line: Line)
    requires !line.Chat?
    ensures Quiet(st, Deliver(st, s, line))
  {
  }

  lemma {:induction false} QuietTrans(a: State, b: State, c: State)
    requires Quiet(a, b) && Quiet(b, c)
    ensures Quiet(a, c)
  {
    assert News(a, c) == News(a, b) + News(b, c);
  }

  lemma {:induction false} QuietBroadcastRaw(st: State, line: Line, order: seq<string>)
    requires !line.Chat?
    ensures Quiet(st, BroadcastRaw(st, line, order))
  {
    if order != [] {
      QuietBroadcastRaw(st, line, Front(order));
      if Last(order) in st.clients {
        var done := BroadcastRaw(st, line, Front(order));
        QuietDeliver(done, st.clients[Last(order)], line);
        QuietTrans(st, done, BroadcastRaw(st, line, order));
      }
    }
  }

  lemma {:induction false} QuietGreetRooms(st: State, s: string, p: string, rows: seq<Row>)
    ensures Quiet(st, GreetRooms(st, s, p, rows))
  {
    if rows != [] {
      QuietGreetRooms(st, s, p, Front(rows));
      var done := GreetRooms(st, s, p, Front(rows));
      QuietDeliver(done, s, JoinedLine(p, Last(rows).channel));
      QuietTrans(st, done, GreetRooms(st, s, p, rows));
    }
  }

  lemma {:induction false} QuietGreet(st: State, s: string, p: string, rows: seq<Row>)
    ensures Quiet(st, Greet(st, s, p, rows))
  {
    var a := Deliver(st, s, Welcome(p));
    QuietDeliver(st, s, Welcome(p));
    QuietGreetRooms(a, s, p, rows);
    var b := GreetRooms(a, s, p, rows);
    QuietTrans(st, a, b);
    if rows != [] {
      QuietDeliver(b, s, ReplayNotice(|rows|));
      QuietTrans(st, b, Greet(st, s, p, rows));
    }
  }

  // ----- The broadcast loop -----

  /** The lines a broadcast enqueues: one for each principal of `order` whose client still has a receiver. */
  ghost function LiveLines(st: State, m: StoredMessage, order: seq<string>): seq<Enqueued> {
    if order == [] then []
    else
      var p := Last(order);
      LiveLines(st, m, Front(order)) + if Reaches(st, p) then [Enqueued(st.clients[p], Chat(p, m, Live))] else []
  }

  lemma {:induction false} BroadcastSends(st: State, c: string, m: StoredMessage, order: seq<string>)
    ensures var r := Broadcast(st, c, m, order);
      && r == st.(cursors := r.cursors, sent := r.sent)
      && r.sent == st.sent + LiveLines(st, m, order)
      && r.cursors.Keys == st.cursors.Keys
  {
    if order != [] {
      BroadcastSends(st, c, m, Front(order));
      assert Reaches(Broadcast(st, c, m, Front(order)), Last(order)) == Reaches(st, Last(order));
    }
  }

  lemma {:induction false} BroadcastCursor(st: State, c: string, m: StoredMessage, order: seq<string>, seat: Seat)
    requires seat in st.cursors
    ensures seat in Broadcast(st, c, m, order).cursors
    ensures Broadcast(st, c, m, order).cursors[seat] == (
        if seat.channel == c && seat.principal in order && Reaches(st, seat.principal)
        then Max(st.cursors[seat], m.seqNo) else st.cursors[seat])
  {
    if order != [] {
      assert order == Front(order) + [Last(order)];
      BroadcastSends(st, c, m, Front(order));
      BroadcastCursor(st, c, m, Front(order), seat);
      assert Reaches(Broadcast(st, c, m, Front(order)), Last(order)) == Reaches(st, Last(order));
    }
  }

  lemma {:induction false} LiveLinesFor(st: State, m: StoredMessage, order: seq<string>, p: string, c: string)
    requires forall i, j :: 0 <= i < j < |order| ==> order[i] != order[j]
    ensures AutoSent(LiveLines(st, m, order), p, c) == (
        if c == m.channel && p in order && Reaches(st, p) then [m] else [])
  {
    if order != [] {
      var q := Last(order);
      assert order == Front(order) + [q];
      assert q !in Front(order);
      LiveLinesFor(st, m, Front(order), p, c);
      if Reaches(st, q) {
        AutoSentSnoc(LiveLines(st, m, Front(order)), Enqueued(st.clients[q], Chat(q, m, Live)), p, c);
      } else {
        assert LiveLines(st, m, order) == LiveLines(st, m, Front(order));
      }
    }
  }

  lemma {:induction false} LiveLinesOwners(st: State, m: StoredMessage, order: seq<string>)
    ensures forall e :: e in LiveLines(st, m, order) ==>
        e.line.Chat? && e.line.owner in st.clients && e.session == st.clients[e.line.owner]
  {
    if order != [] {
      LiveLinesOwners(st, m, Front(order));
    }
  }

  // ----- The replay loop -----

  /** The lines a replay enqueues. */
  ghost function PageLines(s: string, p: string, page: seq<StoredMessage>, origin: Origin): seq<Enqueued> {
    if page == [] then []
    else PageLines(s, p, Front(page), origin) + [Enqueued(s, Chat(p, Last(page), origin))]
  }

  lemma {:induction false} SendPageSends(st: State, s: string, p: string, page: seq<StoredMessage>, origin: Origin)
    ensures SendPage(st, s, p, page, origin)
         == st.(sent := st.sent + if IsOpen(st, s) then PageLines(s, p, page, origin) else [])
  {
    if page != [] {
      SendPageSends(st, s, p, Front(page), origin);
    }
  }

  lemma {:induction false} PageLinesFor(
      s: string, p: string, c: string, page: seq<StoredMessage>, origin: Origin, q: string, ch: string)
    requires forall m :: m in page ==> m.channel == c
    ensures AutoSent(PageLines(s, p, page, origin), q, ch) == (
        if q == p && ch == c && origin != Requested then page else [])
  {
    if page != [] {
      assert page == Front(page) + [Last(page)];
      PageLinesFor(s, p, c, Front(page), origin, q, ch);
      AutoSentSnoc(PageLines(s, p, Front(page), origin), Enqueued(s, Chat(p, Last(page), origin)), q, ch);
    }
  }

  lemma {:induction false} PageLinesOwners(s: string, p: string, page: seq<StoredMessage>, origin: Origin)
    ensures forall e :: e in PageLines(s, p, page, origin) ==> e.line.Chat? && e.line.owner == p && e.session == s
  {
    if page != [] {
      PageLinesOwners(s, p, Front(page), origin);
    }
  }

  /** One channel of a replay: the page goes out whole, and only that seat's cursor moves, to the page's end. */
  lemma {:induction false} ReplayEffect(
      st: State, s: string, p: string, c: string, after: int, limit: int, origin: Origin)
    ensures var r, page := Replay(st, s, p, c, after, limit, origin), Page(st.log, c, after, limit);
      && r == st.(cursors := r.cursors, sent := r.sent)
      && r.sent == st.sent + (if IsOpen(st, s) then PageLines(s, p, page, origin) else [])
      && r.cursors == if page != [] && Seat(p, c) in st.cursors
                      then st.cursors[Seat(p, c) := Max(st.cursors[Seat(p, c)], Last(page).seqNo)] else st.cursors
  {
    SendPageSends(st, s, p, Page(st.log, c, after, limit), origin);
  }

  // ----- The snapshot and the index -----

  lemma {:induction false} SnapshotRowsAt(st: State, p: string, order: seq<string>)
    ensures |SnapshotRows(st, p, order)| == |order|
    ensures forall i :: 0 <= i < |order| ==>
        SnapshotRows(st, p, order)[i]
          == Row(order[i], if Seat(p, order[i]) in st.cursors then st.cursors[Seat(p, order[i])] else 0)
  {
    if order != [] {
      SnapshotRowsAt(st, p, Front(order));
    }
  }

  lemma {:induction false} SnapshotRowsFrame(st: State, r: State, p: string, order: seq<string>)
    requires r.cursors == st.cursors
    ensures SnapshotRows(r, p, order) == SnapshotRows(st, p, order)
  {
    if order != [] {
      SnapshotRowsFrame(st, r, p, Front(order));
    }
  }

  lemma {:induction false} AddToAllMembers(channels: map<string, set<string>>, p: string, rows: seq<Row>, c: string)
    ensures Members(AddToAll(channels, p, rows), c) ==
        Members(channels, c) + if exists row :: row in rows && row.channel == c then {p} else {}
  {
    if rows != [] {
      assert rows == Front(rows) + [Last(rows)];
      AddToAllMembers(channels, p, Front(rows), c);
      assert Last(rows) in rows;
      assert forall row :: row in Front(rows) ==> row in rows;
      assert forall row :: row in rows ==> row in Front(rows) || row == Last(rows);
    }
  }

  // ----- A first member -----

  /** A registered session whose task still runs. */
  function Of(p: string, open: bool): Session {
    Session(Some(p), true, open)
  }

  function Joined(st: State, s: string, p: string, c: string): State {
    st.(cursors := map[Seat(p, c) := 0], epochs := map[Seat(p, c) := Epoch(0, |st.sent|)], channels := map[c := {p}],
        sent := st.sent + [Enqueued(s, JoinedLine(p, c))])
  }

  /** The first to join a channel hears of it alone. */
  lemma {:induction false} JoinsAlone(st: State, s: string, p: string, c: string)
    requires Actor(st, s) == Some(p) && IsOpen(st, s)
    requires st.log == [] && st.cursors == map[] && st.epochs == map[] && st.channels == map[]
    ensures Legal(st, Join(s, c, [p])) && Step(st, Join(s, c, [p])) == Joined(st, s, p, c)
  {
    var indexed := JoinIndex(st, p, c);
    assert {} + {p} == {p};
    assert indexed.channels == map[c := {p}];
    assert Recipients(indexed, c) == {p};
    assert Front([p]) == [] && BroadcastRaw(indexed, JoinedLine(p, c), []) == indexed;
    assert BroadcastRaw(indexed, JoinedLine(p, c), [p]) == Deliver(indexed, s, JoinedLine(p, c));
  }
}
