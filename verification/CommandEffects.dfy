/**
  What each whole command does, said about the state before and after it and about the lines the sessions are sent
  (src/server.rs, handle_command and what it calls).
 */
module CommandEffects {
  import opened Prelude
  import opened History
  import opened Memberships
  import opened Bouncer
  import opened BouncerFacts
  import opened BouncerRuns

  // ----- Who hears a line -----

  /** The lines are one for each of `who`, in some order, sent to its client's session. */
  ghost predicate EachHears(
      clients: map<string, string>, lines: seq<Enqueued>, who: set<string>, line: string -> Line)
  {
    exists order: seq<string> :: Enumerates(order, who) && IsSentTo(clients, lines, order, line)
  }

  ghost predicate IsSentTo(
      clients: map<string, string>, lines: seq<Enqueued>, order: seq<string>, line: string -> Line)
  {
    && |lines| == |order|
    && (forall i :: 0 <= i < |order| ==>
          order[i] in clients && lines[i] == Enqueued(clients[order[i]], line(order[i])))
  }

  ghost function LinesTo(st: State, order: seq<string>, line: string -> Line): seq<Enqueued> {
    if order == [] then []
    else
      LinesTo(st, Front(order), line)
        + if Reaches(st, Last(order)) then [Enqueued(st.clients[Last(order)], line(Last(order)))] else []
  }

  ghost function Reached(st: State, order: seq<string>): seq<string> {
    if order == [] then []
    else Reached(st, Front(order)) + if Reaches(st, Last(order)) then [Last(order)] else []
  }

  lemma {:induction false} ReachedOnce(st: State, order: seq<string>, line: string -> Line)
    requires forall i, j :: 0 <= i < j < |order| ==> order[i] != order[j]
    ensures forall q :: q in Reached(st, order) <==> q in order && Reaches(st, q)
    ensures forall i, j :: 0 <= i < j < |Reached(st, order)| ==> Reached(st, order)[i] != Reached(st, order)[j]
    ensures IsSentTo(st.clients, LinesTo(st, order, line), Reached(st, order), line)
  {
    if order != [] {
      var front, q := Front(order), Last(order);
      ReachedOnce(st, front, line);
      assert order == front + [q] && q !in front;
      ReachedHasClient(st, q);
      var one := if Reaches(st, q) then [q] else [];
      assert Reached(st, order) == Reached(st, front) + one;
      var sent := if Reaches(st, q) then [Enqueued(st.clients[q], line(q))] else [];
      assert LinesTo(st, order, line) == LinesTo(st, front, line) + sent;
      hide Reaches, Reached, LinesTo, IsSentTo;
      OneMoreSent(st.clients, LinesTo(st, front, line), Reached(st, front), line, sent, one);
    }
  }

  lemma {:induction false} OneMoreSent(
      clients: map<string, string>, lines: seq<Enqueued>, order: seq<string>, line: string -> Line,
      moreLines: seq<Enqueued>, more: seq<string>)
    requires IsSentTo(clients, lines, order, line) && IsSentTo(clients, moreLines, more, line)
    ensures IsSentTo(clients, lines + moreLines, order + more, line)
  {
  }

  lemma {:induction false} ReachedHasClient(st: State, p: string)
    ensures Reaches(st, p) ==> p in st.clients
  {
  }

  lemma {:induction false} LinesEachHears(st: State, order: seq<string>, who: set<string>, line: string -> Line)
    requires Enumerates(order, who)
    ensures EachHears(st.clients, LinesTo(st, order, line), (set q | q in who && Reaches(st, q)), line)
  {
    ReachedOnce(st, order, line);
    hide Reached, LinesTo, IsSentTo;
    assert Enumerates(Reached(st, order), set q | q in who && Reaches(st, q));
  }

  lemma {:induction false} RawLines(st: State, line: Line, order: seq<string>)
    ensures BroadcastRaw(st, line, order) == st.(sent := st.sent + LinesTo(st, order, _ => line))
  {
    if order != [] {
      RawLines(st, line, Front(order));
    }
  }

  lemma {:induction false} LiveAreLinesTo(st: State, m: StoredMessage, order: seq<string>)
    ensures LiveLines(st, m, order) == LinesTo(st, order, q => Chat(q, m, Live))
  {
    if order != [] {
      LiveAreLinesTo(st, m, Front(order));
    }
  }

  // ----- Memberships -----

  /** JOIN: a membership that was there goes on; a new one starts at the channel's top. Every member hears of it. */
  lemma {:induction false} JoinBegins(st: State, s: string, p: string, c: string, order: seq<string>)
    requires Actor(st, s) == Some(p) && Legal(st, Join(s, c, order))
    ensures var r, seat, top := Step(st, Join(s, c, order)), Seat(p, c), MaxSeq(st.log, c);
      && r == st.(cursors := r.cursors, epochs := r.epochs, channels := r.channels, sent := r.sent)
      && r.cursors == (if seat in st.cursors then st.cursors else st.cursors[seat := top])
      && r.epochs == (if seat in st.cursors then st.epochs else st.epochs[seat := Epoch(top, |st.sent|)])
      && (forall q, d :: q in Members(r.channels, d) <==> q in Members(st.channels, d) || (q == p && d == c))
      && st.sent <= r.sent
      && EachHears(st.clients, News(st, r), (set q | q in Members(st.channels, c) + {p} && Reaches(st, q)),
                   _ => JoinedLine(p, c))
  {
    var mid, r := JoinIndex(st, p, c), Step(st, Join(s, c, order));
    RawLines(mid, JoinedLine(p, c), order);
    LinesEachHears(mid, order, Recipients(mid, c), _ => JoinedLine(p, c));
    hide LinesTo, EachHears, BroadcastRaw, MaxSeq;
    assert News(st, r) == LinesTo(mid, order, _ => JoinedLine(p, c));
    assert (set q | q in Recipients(mid, c) && Reaches(mid, q))
        == (set q | q in Members(st.channels, c) + {p} && Reaches(st, q));
  }

  /** PART: the membership ends, in the table and in the index, and nothing else changes. */
  lemma {:induction false} PartEnds(st: State, s: string, p: string, c: string, order: seq<string>)
    requires Actor(st, s) == Some(p) && Legal(st, Part(s, c, order))
    ensures var r, seat := Step(st, Part(s, c, order)), Seat(p, c);
      && r == st.(cursors := r.cursors, epochs := r.epochs, channels := r.channels, sent := r.sent)
      && r.cursors == st.cursors - {seat} && r.epochs == st.epochs - {seat}
      && (forall q, d :: q in Members(r.channels, d) <==> q in Members(st.channels, d) && !(q == p && d == c))
      && st.sent <= r.sent
      && EachHears(st.clients, News(st, r), (set q | q in Members(st.channels, c) - {p} && Reaches(st, q)),
                   _ => PartedLine(p, c))
  {
    var mid, r := PartIndex(st, p, c), Step(st, Part(s, c, order));
    RawLines(mid, PartedLine(p, c), order);
    LinesEachHears(mid, order, Recipients(mid, c), _ => PartedLine(p, c));
    hide LinesTo, EachHears, BroadcastRaw;
    assert News(st, r) == LinesTo(mid, order, _ => PartedLine(p, c));
    assert (set q | q in Recipients(mid, c) && Reaches(mid, q))
        == (set q | q in Members(st.channels, c) - {p} && Reaches(st, q));
  }

  // ----- Publishing -----

  /** Exactly this message was published: logged under the next number and sent once to each member that is reached. */
  ghost predicate IsPublished(st: State, r: State, m: StoredMessage) {
    && m.seqNo == st.counter + 1
    && r == st.(log := st.log + [m], counter := st.counter + 1, cursors := r.cursors, sent := r.sent)
    && st.sent <= r.sent
    && EachHears(st.clients, News(st, r), (set q | q in Members(st.channels, m.channel) && Reaches(st, q)),
                 q => Chat(q, m, Live))
    && r.cursors.Keys == st.cursors.Keys
    && (forall seat :: seat in st.cursors ==>
          r.cursors[seat] ==
            if seat.channel == m.channel && seat.principal in Members(st.channels, m.channel)
               && Reaches(st, seat.principal)
            then Max(st.cursors[seat], m.seqNo) else st.cursors[seat])
  }

  lemma {:induction false} PublishIsPublished(
      st: State, c: string, sender: string, body: string, msgId: string, at: int, order: seq<string>)
    requires Enumerates(order, Recipients(st, c))
    ensures IsPublished(st, Publish(st, c, sender, body, msgId, at, order),
                        StoredMessage(st.counter + 1, msgId, c, sender, body, at))
  {
    var m := StoredMessage(st.counter + 1, msgId, c, sender, body, at);
    var grown := st.(log := st.log + [m], counter := st.counter + 1);
    var r := Publish(st, c, sender, body, msgId, at, order);
    BroadcastSends(grown, c, m, order);
    LiveAreLinesTo(grown, m, order);
    LinesEachHears(grown, order, Recipients(st, c), q => Chat(q, m, Live));
    hide LinesTo, EachHears, Broadcast, LiveLines;
    assert News(st, r) == LinesTo(grown, order, q => Chat(q, m, Live));
    assert (set q | q in Recipients(st, c) && Reaches(grown, q))
        == (set q | q in Members(st.channels, c) && Reaches(st, q));
    forall seat | seat in st.cursors
      ensures seat in r.cursors && r.cursors[seat] ==
        if seat.channel == c && seat.principal in Members(st.channels, c) && Reaches(st, seat.principal)
        then Max(st.cursors[seat], m.seqNo) else st.cursors[seat]
    {
      BroadcastCursor(grown, c, m, order, seat);
    }
  }

  /** PRIVMSG: a member's message is published in its name; anyone else is told, and nothing more happens. */
  lemma {:induction false} PrivmsgTakesAMembership(
      st: State, s: string, p: string, c: string, body: string, msgId: string, at: int, order: seq<string>)
    requires Actor(st, s) == Some(p) && Legal(st, Privmsg(s, c, body, msgId, at, order))
    ensures var r := Step(st, Privmsg(s, c, body, msgId, at, order));
      && (Seat(p, c) in st.cursors ==> IsPublished(st, r, StoredMessage(st.counter + 1, msgId, c, p, body, at)))
      && (Seat(p, c) !in st.cursors ==>
            r == st.(sent := st.sent + if IsOpen(st, s) then [Enqueued(s, NotOnChannel(c))] else []))
  {
    PublishIsPublished(st, c, p, body, msgId, at, order);
    hide IsPublished, Broadcast;
    assert st.sent + [] == st.sent;
  }

  /** A task event is published in the server's name, whoever caused it. */
  lemma {:induction false} TaskNoticePublishes(
      st: State, s: string, p: string, c: string, body: string, msgId: string, at: int, order: seq<string>)
    requires Actor(st, s) == Some(p) && Legal(st, TaskNotice(s, c, body, msgId, at, order))
    ensures IsPublished(st, Step(st, TaskNotice(s, c, body, msgId, at, order)),
                        StoredMessage(st.counter + 1, msgId, c, "aircd", body, at))
  {
    PublishIsPublished(st, c, SERVER_NAME, body, msgId, at, order);
    hide IsPublished, Broadcast;
  }

  // ----- Refusals -----

  predicate ForRegistered(cmd: Command) {
    cmd.Join? || cmd.Part? || cmd.Privmsg? || cmd.TaskNotice? || cmd.Chathistory?
  }

  /**
    A command of a session that may not act changes nothing but what the session is told: 451 if it never registered,
    an error that also ends its task if a newer session has replaced it.
   */
  lemma {:induction false} OthersAreRefused(st: State, cmd: Command)
    requires ForRegistered(cmd) && Actor(st, cmd.s).None?
    ensures var r, s := Step(st, cmd), cmd.s;
      && (s in st.sessions && st.sessions[s].running && st.sessions[s].principal.None? ==>
            r == st.(sent := st.sent + if st.sessions[s].open then [Enqueued(s, NotRegistered)] else []))
      && (s in st.sessions && st.sessions[s].running && st.sessions[s].principal.Some? ==>
            r == st.(sent := st.sent + (if st.sessions[s].open then [Enqueued(s, SessionReplaced)] else []),
                     sessions := st.sessions[s := st.sessions[s].(running := false)]))
      && (s !in st.sessions || !st.sessions[s].running ==> r == st)
  {
    assert st.sent + [] == st.sent;
  }

  // ----- History asked for -----

  /** What is read for the request: the channels in turn, each a page. */
  ghost function Pages(log: seq<StoredMessage>, channels: seq<string>, after: int, limit: int): seq<StoredMessage> {
    if channels == [] then []
    else Pages(log, Front(channels), after, limit) + Page(log, Last(channels), after, limit)
  }

  /** The lines are these messages, one by one, for `p` on session `s`. */
  ghost predicate AreChats(
      lines: seq<Enqueued>, s: string, p: string, messages: seq<StoredMessage>, origin: Origin)
  {
    |lines| == |messages|
    && forall i :: 0 <= i < |messages| ==> lines[i] == Enqueued(s, Chat(p, messages[i], origin))
  }

  lemma {:induction false} PageLinesAreChats(s: string, p: string, page: seq<StoredMessage>, origin: Origin)
    ensures AreChats(PageLines(s, p, page, origin), s, p, page, origin)
  {
    if page != [] {
      PageLinesAreChats(s, p, Front(page), origin);
    }
  }

  lemma {:induction false} PageLinesConcat(
      s: string, p: string, a: seq<StoredMessage>, b: seq<StoredMessage>, origin: Origin)
    ensures PageLines(s, p, a + b, origin) == PageLines(s, p, a, origin) + PageLines(s, p, b, origin)
  {
    if b == [] {
      assert a + b == a;
    } else {
      assert Front(a + b) == a + Front(b) && Last(a + b) == Last(b);
      PageLinesConcat(s, p, a, Front(b), origin);
    }
  }

  /** One more page after what was sent before. */
  lemma {:induction false} OneMorePage(
      st: State, mid: State, s: string, p: string, before: seq<StoredMessage>, c: string, after: int, limit: int,
      origin: Origin)
    requires mid.log == st.log && mid.sessions == st.sessions
    requires mid.sent == st.sent + if IsOpen(st, s) then PageLines(s, p, before, origin) else []
    ensures Replay(mid, s, p, c, after, limit, origin).sent
      == st.sent + if IsOpen(st, s) then PageLines(s, p, before + Page(st.log, c, after, limit), origin) else []
  {
    var page := Page(st.log, c, after, limit);
    ReplayEffect(mid, s, p, c, after, limit, origin);
    hide Replay, PageLines, Page;
    PageLinesConcat(s, p, before, page, origin);
    var a, b := PageLines(s, p, before, origin), PageLines(s, p, page, origin);
    assert st.sent + a + b == st.sent + (a + b);
  }

  lemma {:induction false} HistoryLines(
      st: State, s: string, p: string, channels: seq<string>, after: int, limit: int)
    ensures var r := ReplayAll(st, s, p, channels, after, limit, Requested);
      && r == st.(cursors := r.cursors, sent := r.sent)
      && r.sent == st.sent
           + if IsOpen(st, s) then PageLines(s, p, Pages(st.log, channels, after, limit), Requested) else []
  {
    if channels == [] {
      assert st.sent + [] == st.sent;
    } else {
      var mid := ReplayAll(st, s, p, Front(channels), after, limit, Requested);
      HistoryLines(st, s, p, Front(channels), after, limit);
      OneMorePage(st, mid, s, p, Pages(st.log, Front(channels), after, limit), Last(channels), after, limit, Requested);
      ReplayEffect(mid, s, p, Last(channels), after, limit, Requested);
      hide Replay, PageLines, Page;
    }
  }

  lemma {:induction false} HistoryCursors(
      st: State, s: string, p: string, channels: seq<string>, after: int, limit: int, seat: Seat)
    requires seat in st.cursors
    ensures var r := ReplayAll(st, s, p, channels, after, limit, Requested);
      var page := Page(st.log, seat.channel, after, limit);
      && r.cursors.Keys == st.cursors.Keys
      && r.cursors[seat] ==
           if seat.principal == p && seat.channel in channels && page != []
           then Max(st.cursors[seat], Last(page).seqNo) else st.cursors[seat]
  {
    if channels != [] {
      var mid := ReplayAll(st, s, p, Front(channels), after, limit, Requested);
      HistoryCursors(st, s, p, Front(channels), after, limit, seat);
      HistoryLines(st, s, p, Front(channels), after, limit);
      ReplayEffect(mid, s, p, Last(channels), after, limit, Requested);
      hide Replay, PageLines, Page;
      assert channels == Front(channels) + [Last(channels)];
    }
  }

  /** CHATHISTORY: only the asking session is sent anything; only cursors of its principal in these channels move. */
  lemma {:induction false} HistoryAnswersTheAsker(
      st: State, s: string, p: string, channels: seq<string>, after: int, limit: int)
    requires Actor(st, s) == Some(p)
    ensures var r := Step(st, Chathistory(s, channels, after, limit));
      && r == st.(cursors := r.cursors, sent := r.sent)
      && st.sent <= r.sent
      && AreChats(News(st, r), s, p, if IsOpen(st, s) then Pages(st.log, channels, after, limit) else [], Requested)
      && r.cursors.Keys == st.cursors.Keys
      && (forall seat :: seat in st.cursors ==>
            var page := Page(st.log, seat.channel, after, limit);
            r.cursors[seat] ==
              if seat.principal == p && seat.channel in channels && page != []
              then Max(st.cursors[seat], Last(page).seqNo) else st.cursors[seat])
  {
    ChathistoryAnswers(st, s, p, channels, after, limit);
    HistoryLines(st, s, p, channels, after, limit);
    ReplayAllFrame(st, s, p, channels, after, limit);
    hide ReplayAll, Pages, PageLines, Step, Page;
    forall seat | seat in st.cursors
      ensures var page := Page(st.log, seat.channel, after, limit);
        ReplayAll(st, s, p, channels, after, limit, Requested).cursors[seat] ==
          if seat.principal == p && seat.channel in channels && page != []
          then Max(st.cursors[seat], Last(page).seqNo) else st.cursors[seat]
    {
      HistoryCursors(st, s, p, channels, after, limit, seat);
    }
    PageLinesAreChats(s, p, Pages(st.log, channels, after, limit), Requested);
  }

  lemma {:induction false} ChathistoryAnswers(
      st: State, s: string, p: string, channels: seq<string>, after: int, limit: int)
    requires Actor(st, s) == Some(p)
    ensures Step(st, Chathistory(s, channels, after, limit))
         == ReplayAll(st, s, p, channels, after, limit, Requested)
  {
  }

  // ----- Registration -----

  function Joins(p: string, order: seq<string>): seq<Line> {
    seq(|order|, i requires 0 <= i < |order| => JoinedLine(p, order[i]))
  }

  /** What a session is greeted with: the welcome, a JOIN per channel in order, and the notice of the replay. */
  function Greeting(p: string, order: seq<string>): seq<Line> {
    [Welcome(p)] + Joins(p, order) + if order == [] then [] else [ReplayNotice(|order|)]
  }

  ghost predicate AreLines(lines: seq<Enqueued>, s: string, what: seq<Line>) {
    |lines| == |what| && forall i :: 0 <= i < |what| ==> lines[i] == Enqueued(s, what[i])
  }

  ghost function RoomLines(s: string, p: string, order: seq<string>): seq<Enqueued> {
    if order == [] then [] else RoomLines(s, p, Front(order)) + [Enqueued(s, JoinedLine(p, Last(order)))]
  }

  lemma {:induction false} RoomLinesAreJoins(s: string, p: string, order: seq<string>)
    ensures AreLines(RoomLines(s, p, order), s, Joins(p, order))
  {
    if order != [] {
      RoomLinesAreJoins(s, p, Front(order));
    }
  }

  lemma {:induction false} RoomsGreeted(st: State, s: string, p: string, order: seq<string>, rows: seq<Row>)
    requires |rows| == |order| && forall i :: 0 <= i < |order| ==> rows[i].channel == order[i]
    ensures GreetRooms(st, s, p, rows)
      == if IsOpen(st, s) then st.(sent := st.sent + RoomLines(s, p, order)) else st
  {
    if rows == [] {
      assert st.sent + [] == st.sent;
    } else {
      RoomsGreeted(st, s, p, Front(order), Front(rows));
    }
  }

  ghost function GreetLines(s: string, p: string, order: seq<string>): seq<Enqueued> {
    [Enqueued(s, Welcome(p))] + RoomLines(s, p, order)
      + if order == [] then [] else [Enqueued(s, ReplayNotice(|order|))]
  }

  lemma {:induction false} GreetSends(st: State, s: string, p: string, order: seq<string>, rows: seq<Row>)
    requires |rows| == |order| && forall i :: 0 <= i < |order| ==> rows[i].channel == order[i]
    ensures Greet(st, s, p, rows) == if IsOpen(st, s) then st.(sent := st.sent + GreetLines(s, p, order)) else st
  {
    RoomsGreeted(Deliver(st, s, Welcome(p)), s, p, order, rows);
    hide GreetRooms, RoomLines;
    assert st.sent + [Enqueued(s, Welcome(p))] + RoomLines(s, p, order)
        == st.sent + ([Enqueued(s, Welcome(p))] + RoomLines(s, p, order));
  }

  lemma {:induction false} GreetIsGreeting(st: State, s: string, p: string, order: seq<string>, rows: seq<Row>)
    requires |rows| == |order| && forall i :: 0 <= i < |order| ==> rows[i].channel == order[i]
    ensures var r := Greet(st, s, p, rows);
      && r == st.(sent := r.sent) && st.sent <= r.sent
      && (!IsOpen(st, s) ==> r == st)
      && (IsOpen(st, s) ==> AreLines(News(st, r), s, Greeting(p, order)))
  {
    GreetSends(st, s, p, order, rows);
    GreetingLines(s, p, order);
    hide Greet, GreetLines, AreLines;
  }

  lemma {:induction false} GreetingLines(s: string, p: string, order: seq<string>)
    ensures AreLines(GreetLines(s, p, order), s, Greeting(p, order))
  {
    var notice := if order == [] then [] else [Enqueued(s, ReplayNotice(|order|))];
    var last := if order == [] then [] else [ReplayNotice(|order|)];
    assert AreLines([Enqueued(s, Welcome(p))], s, [Welcome(p)]) && AreLines(notice, s, last);
    RoomLinesAreJoins(s, p, order);
    hide AreLines, RoomLines, Joins;
    LinesConcat([Enqueued(s, Welcome(p))], RoomLines(s, p, order), s, [Welcome(p)], Joins(p, order));
    LinesConcat([Enqueued(s, Welcome(p))] + RoomLines(s, p, order), notice, s, [Welcome(p)] + Joins(p, order), last);
  }

  lemma {:induction false} LinesConcat(
      a: seq<Enqueued>, b: seq<Enqueued>, s: string, whatA: seq<Line>, whatB: seq<Line>)
    requires AreLines(a, s, whatA) && AreLines(b, s, whatB)
    ensures AreLines(a + b, s, whatA + whatB)
  {
  }

  /** What registration replays: for each channel in order one page above the cursor the snapshot has. */
  ghost function Missed(st: State, p: string, order: seq<string>): seq<StoredMessage> {
    if order == [] then []
    else
      var c := Last(order);
      Missed(st, p, Front(order))
        + Page(st.log, c, if Seat(p, c) in st.cursors then st.cursors[Seat(p, c)] else 0, REGISTRATION_REPLAY_LIMIT)
  }

  lemma {:induction false} RowsReplayMissed(st: State, r: State, s: string, p: string, order: seq<string>)
    requires r.log == st.log
    ensures var done := ReplayRows(r, s, p, SnapshotRows(st, p, order));
      && done == r.(cursors := done.cursors, sent := done.sent)
      && done.sent == r.sent + if IsOpen(r, s) then PageLines(s, p, Missed(st, p, order), AutoReplay) else []
  {
    var rows := SnapshotRows(st, p, order);
    if order == [] {
      assert r.sent + [] == r.sent;
    } else {
      var row, before := Last(rows), Missed(st, p, Front(order));
      RowsReplayMissed(st, r, s, p, Front(order));
      assert Front(rows) == SnapshotRows(st, p, Front(order));
      var mid := ReplayRows(r, s, p, Front(rows));
      assert ReplayRows(r, s, p, rows)
          == Replay(mid, s, p, row.channel, row.cursor, REGISTRATION_REPLAY_LIMIT, AutoReplay);
      assert Missed(st, p, order) == before + Page(r.log, row.channel, row.cursor, REGISTRATION_REPLAY_LIMIT);
      hide ReplayRows, SnapshotRows, Missed, PageLines, Page, Replay;
      OneMorePage(r, mid, s, p, before, row.channel, row.cursor, REGISTRATION_REPLAY_LIMIT, AutoReplay);
      ReplayEffect(mid, s, p, row.channel, row.cursor, REGISTRATION_REPLAY_LIMIT, AutoReplay);
    }
  }

  /** The state in which a registration greets its session. */
  ghost function Indexing(st: State, s: string, p: string, order: seq<string>): State {
    var rows := SnapshotRows(st, p, order);
    IndexSession(MarkConnected(st, s, p), s, p, rows)
  }

  lemma {:induction false} IndexingState(st: State, s: string, p: string, order: seq<string>)
    requires CanRegister(st, s) && Enumerates(order, Rooms(st, p))
    ensures var r := Indexing(st, s, p, order);
      && r == st.(sessions := st.sessions[s := st.sessions[s].(principal := Some(p))],
                  connected := st.connected + {p}, clients := st.clients[p := s],
                  told := st.told + (if p in st.clients then {st.clients[p]} else {}), channels := r.channels)
      && Actor(r, s) == Some(p) && (IsOpen(r, s) <==> IsOpen(st, s))
      && (forall q, d :: q in Members(r.channels, d) <==>
            q in Members(st.channels, d) || (q == p && Seat(p, d) in st.cursors))
  {
    SnapshotRowsAt(st, p, order);
    RegisteredMembers(st, p, order, SnapshotRows(st, p, order));
    hide SnapshotRows, AddToAll, Members;
  }

  lemma {:induction false} RegisterLines(
      st: State, indexed: State, r: State, s: string, p: string, order: seq<string>)
    requires indexed.log == st.log && indexed.sent == st.sent
    requires r == ReplayRows(Greet(indexed, s, p, SnapshotRows(st, p, order)), s, p, SnapshotRows(st, p, order))
    ensures r == indexed.(cursors := r.cursors, sent := r.sent)
    ensures !IsOpen(indexed, s) ==> r.sent == st.sent
    ensures IsOpen(indexed, s) ==>
      exists a, b ::
        && r.sent == st.sent + a + b
        && AreLines(a, s, Greeting(p, order)) && AreChats(b, s, p, Missed(st, p, order), AutoReplay)
  {
    var rows := SnapshotRows(st, p, order);
    var greeted := Greet(indexed, s, p, rows);
    SnapshotRowsAt(st, p, order);
    GreetIsGreeting(indexed, s, p, order, rows);
    RowsReplayMissed(st, greeted, s, p, order);
    PageLinesAreChats(s, p, Missed(st, p, order), AutoReplay);
    hide Greet, ReplayRows, SnapshotRows, AreLines, AreChats, Missed, Greeting, PageLines;
    if IsOpen(indexed, s) {
      assert r.sent == st.sent + News(indexed, greeted) + PageLines(s, p, Missed(st, p, order), AutoReplay);
    } else {
      assert st.sent + [] == st.sent;
    }
  }

  /**
    Registration: the session acts for its principal from now on, which is connected and in the index of every channel
    it has a membership of; the older client is told; and the session is sent the greeting and what was missed, in
    that order.
   */
  lemma {:induction false} RegisterGreetsAndReplays(st: State, s: string, p: string, order: seq<string>)
    requires CanRegister(st, s) && Legal(st, Register(s, p, order))
    ensures var r := Step(st, Register(s, p, order));
      && r == st.(sessions := st.sessions[s := st.sessions[s].(principal := Some(p))],
                  connected := st.connected + {p}, clients := st.clients[p := s],
                  told := st.told + (if p in st.clients then {st.clients[p]} else {}),
                  channels := r.channels, cursors := r.cursors, sent := r.sent)
      && Actor(r, s) == Some(p)
      && (forall q, d :: q in Members(r.channels, d) <==>
            q in Members(st.channels, d) || (q == p && Seat(p, d) in st.cursors))
      && (!IsOpen(st, s) ==> r.sent == st.sent)
      && (IsOpen(st, s) ==>
            exists a, b ::
              && r.sent == st.sent + a + b
              && AreLines(a, s, Greeting(p, order)) && AreChats(b, s, p, Missed(st, p, order), AutoReplay))
  {
    var indexed, r := Indexing(st, s, p, order), Step(st, Register(s, p, order));
    assert r == ReplayRows(Greet(indexed, s, p, SnapshotRows(st, p, order)), s, p, SnapshotRows(st, p, order));
    IndexingState(st, s, p, order);
    hide Indexing, Greet, ReplayRows, SnapshotRows, AreLines, AreChats, Missed, Greeting, Step;
    RegisterLines(st, indexed, r, s, p, order);
  }

  lemma {:induction false} RegisteredMembers(st: State, p: string, order: seq<string>, rows: seq<Row>)
    requires Enumerates(order, Rooms(st, p)) && |rows| == |order|
    requires forall i :: 0 <= i < |order| ==> rows[i].channel == order[i]
    ensures forall q, d :: q in Members(AddToAll(st.channels, p, rows), d) <==>
      q in Members(st.channels, d) || (q == p && Seat(p, d) in st.cursors)
  {
    forall q, d ensures q in Members(AddToAll(st.channels, p, rows), d) <==>
      q in Members(st.channels, d) || (q == p && Seat(p, d) in st.cursors)
    {
      AddToAllMembers(st.channels, p, rows, d);
      assert Seat(p, d) in st.cursors <==> d in Rooms(st, p);
      if d in order {
        var i :| 0 <= i < |order| && order[i] == d;
        assert rows[i] in rows;
      }
      if row :| row in rows && row.channel == d {
        var i :| 0 <= i < |rows| && rows[i] == row;
        assert order[i] in order;
      }
    }
  }

  // ----- Sessions that come and go -----

  /** A clean exit ends the session; its principal is gone only if no newer session has taken its place. */
  ghost predicate HasLeft(st: State, r: State, s: string) {
    if s in st.sessions && st.sessions[s].running then
      var p := st.sessions[s].principal;
      var gone := if p.Some? && Actor(st, s) == p then {p.value} else {};
      r == st.(sessions := st.sessions[s := st.sessions[s].(running := false, open := false)],
               clients := st.clients - gone, connected := st.connected - gone)
    else r == st
  }

  lemma {:induction false} LeavingEnds(st: State, s: string)
    ensures HasLeft(st, Step(st, Disconnect(s)), s)
    ensures s in st.told && IsOpen(st, s) ==>
      HasLeft(st.(sent := st.sent + [Enqueued(s, ReplacedByNewer)]), Step(st, ShutDown(s)), s)
    ensures s in st.told && !IsOpen(st, s) ==> HasLeft(st, Step(st, ShutDown(s)), s)
    ensures s !in st.told ==> Step(st, ShutDown(s)) == st
  {
    assert st.clients - {} == st.clients && st.connected - {} == st.connected;
  }

  /** A restart ends every session and forgets the index; the tables, connected marks included, stay. */
  lemma {:induction false} RestartForgetsTheIndex(st: State)
    ensures var r := Step(st, Restart);
      && r == st.(sessions := r.sessions, clients := map[], channels := map[])
      && r.sessions.Keys == st.sessions.Keys
      && (forall s :: s in st.sessions ==>
            r.sessions[s] == Session(st.sessions[s].principal, false, false) && Actor(r, s) == None)
  {
  }

  /** A session begins unregistered and greeted; a wrong token is answered; a task or a receiver can end by itself. */
  lemma {:induction false} SessionsBeginAndBreak(st: State, s: string)
    ensures Step(st, Connect(s)) ==
      if s in st.sessions then st
      else st.(sessions := st.sessions[s := Session(None, true, true)], sent := st.sent + [Enqueued(s, Hello)])
    ensures Step(st, BadPassword(s)) ==
      if CanRegister(st, s) && IsOpen(st, s) then st.(sent := st.sent + [Enqueued(s, PasswordIncorrect)]) else st
    ensures Step(st, Abandon(s)) ==
      if s in st.sessions then st.(sessions := st.sessions[s := st.sessions[s].(running := false)]) else st
    ensures Step(st, CloseReceiver(s)) ==
      if s in st.sessions then st.(sessions := st.sessions[s := st.sessions[s].(open := false)]) else st
  {
  }
}
