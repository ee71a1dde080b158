/**
  How often a message published while registrations run reaches a principal: once live if it is reached at that moment,
  and once more for every registration in progress that has not yet replayed the channel.
 */
module RegistrationCopies {
  import opened Prelude
  import opened History
  import opened Memberships
  import opened Bouncer
  import opened BouncerFacts
  import opened BouncerRuns
  import opened StagedRegistration

  /** How often the message was enqueued unasked to the principal's sessions since `sent` was `from` long. */
  ghost function Copies(st: State, from: nat, p: string, m: StoredMessage): nat {
    if from <= |st.sent| then multiset(AutoSent(st.sent[from..], p, m.channel))[m] else 0
  }

  /** The registrations in progress that will still replay the message to the principal. */
  ghost function Debtors(g: Staged, p: string, m: StoredMessage): set<string> {
    set s | s in g.pending && Owes(g.pending[s], Seat(p, m.channel), m)
  }

  // ----- Changes that add no copy -----

  ghost predicate AddsNone(st: State, r: State, p: string, m: StoredMessage) {
    st.sent <= r.sent && m !in AutoSent(News(st, r), p, m.channel)
  }

  lemma {:induction false} AddsNoneCopies(st: State, r: State, from: nat, p: string, m: StoredMessage)
    requires AddsNone(st, r, p, m) && from <= |st.sent|
    ensures st.sent <= r.sent && Copies(r, from, p, m) == Copies(st, from, p, m)
  {
    assert r.sent == st.sent + News(st, r);
    hide Copies, AutoSent, News;
    LinesCopies(st, r, from, p, m, News(st, r));
  }

  lemma {:induction false} LinesCopies(
      st: State, r: State, from: nat, p: string, m: StoredMessage, lines: seq<Enqueued>)
    requires r.sent == st.sent + lines && from <= |st.sent|
    ensures Copies(r, from, p, m) == Copies(st, from, p, m) + multiset(AutoSent(lines, p, m.channel))[m]
  {
    assert r.sent[from..] == st.sent[from..] + lines;
    AutoSentConcat(st.sent[from..], lines, p, m.channel);
  }

  lemma {:induction false} SameSent(st: State, r: State, p: string, m: StoredMessage)
    requires r.sent == st.sent
    ensures AddsNone(st, r, p, m)
  {
    assert News(st, r) == [];
  }

  lemma {:induction false} QuietAddsNone(st: State, r: State, p: string, m: StoredMessage)
    requires Quiet(st, r)
    ensures AddsNone(st, r, p, m)
  {
    AutoSentOfControl(News(st, r), p, m.channel);
  }

  lemma {:induction false} AddsNoneTrans(a: State, b: State, c: State, p: string, m: StoredMessage)
    requires AddsNone(a, b, p, m) && AddsNone(b, c, p, m)
    ensures AddsNone(a, c, p, m)
  {
    assert News(a, c) == News(a, b) + News(b, c);
    AutoSentConcat(News(a, b), News(b, c), p, m.channel);
  }

  lemma {:induction false} PublishAddsNone(
      st: State, c: string, sender: string, body: string, msgId: string, at: int, order: seq<string>,
      p: string, m: StoredMessage)
    requires ValidLog(st.log, st.counter) && m in st.log && Enumerates(order, Recipients(st, c))
    ensures AddsNone(st, Publish(st, c, sender, body, msgId, at, order), p, m)
  {
    var n := Appended(st, c, sender, body, msgId, at);
    var grown := st.(log := st.log + [n], counter := st.counter + 1);
    var r := Publish(st, c, sender, body, msgId, at, order);
    BroadcastSends(grown, c, n, order);
    LiveLinesFor(grown, n, order, p, m.channel);
    assert News(st, r) == LiveLines(grown, n, order);
    assert m.seqNo <= st.counter < n.seqNo;
  }

  lemma {:induction false} RequestedAddsNone(
      st: State, s: string, q: string, c: string, after: int, limit: int, p: string, m: StoredMessage)
    ensures AddsNone(st, Replay(st, s, q, c, after, limit, Requested), p, m)
  {
    var r, page := Replay(st, s, q, c, after, limit, Requested), Page(st.log, c, after, limit);
    ReplayEffect(st, s, q, c, after, limit, Requested);
    AboveAll(st.log, c, after);
    PageLinesFor(s, q, c, page, Requested, p, m.channel);
    assert News(st, r) == if IsOpen(st, s) then PageLines(s, q, page, Requested) else [];
  }

  lemma {:induction false} ReplayAllAddsNone(
      st: State, s: string, q: string, channels: seq<string>, after: int, limit: int, p: string, m: StoredMessage)
    ensures AddsNone(st, ReplayAll(st, s, q, channels, after, limit, Requested), p, m)
  {
    if channels == [] {
      SameSent(st, ReplayAll(st, s, q, channels, after, limit, Requested), p, m);
    } else {
      var mid := ReplayAll(st, s, q, Front(channels), after, limit, Requested);
      ReplayAllAddsNone(st, s, q, Front(channels), after, limit, p, m);
      RequestedAddsNone(mid, s, q, Last(channels), after, limit, p, m);
      hide AddsNone, Replay;
      AddsNoneTrans(st, mid, Replay(mid, s, q, Last(channels), after, limit, Requested), p, m);
    }
  }

  lemma {:induction false} ActAddsNone(st: State, q: string, cmd: Command, p: string, m: StoredMessage)
    requires cmd.Join? || cmd.Part? || cmd.Privmsg? || cmd.TaskNotice? || cmd.Chathistory?
    requires ValidLog(st.log, st.counter) && m in st.log && Legal(st, cmd) && Actor(st, cmd.s) == Some(q)
    ensures AddsNone(st, Act(st, q, cmd), p, m)
  {
    hide AddsNone, Quiet, Replay;
    var r := Act(st, q, cmd);
    match cmd {
      case Join(s, c, order) =>
        var mid := JoinIndex(st, q, c);
        SameSent(st, mid, p, m);
        QuietBroadcastRaw(mid, JoinedLine(q, c), order);
        QuietAddsNone(mid, r, p, m);
        AddsNoneTrans(st, mid, r, p, m);
      case Part(s, c, order) =>
        var mid := PartIndex(st, q, c);
        SameSent(st, mid, p, m);
        QuietBroadcastRaw(mid, PartedLine(q, c), order);
        QuietAddsNone(mid, r, p, m);
        AddsNoneTrans(st, mid, r, p, m);
      case Privmsg(s, c, body, msgId, at, order) =>
        if Seat(q, c) in st.cursors {
          PublishAddsNone(st, c, q, body, msgId, at, order, p, m);
        } else {
          QuietDeliver(st, s, NotOnChannel(c));
          QuietAddsNone(st, r, p, m);
        }
      case TaskNotice(s, c, body, msgId, at, order) =>
        PublishAddsNone(st, c, SERVER_NAME, body, msgId, at, order, p, m);
      case Chathistory(s, channels, after, limit) => ReplayAllAddsNone(st, s, q, channels, after, limit, p, m);
    }
  }

  lemma {:induction false} DeliverAddsNone(st: State, s: string, line: Line, p: string, m: StoredMessage)
    requires !line.Chat?
    ensures AddsNone(st, Deliver(st, s, line), p, m)
  {
    QuietDeliver(st, s, line);
    QuietAddsNone(st, Deliver(st, s, line), p, m);
  }

  lemma {:induction false} ComingAddsNone(st: State, cmd: Command, p: string, m: StoredMessage)
    requires cmd.Connect? || cmd.ShutDown? || cmd.BadPassword? || IsLeaving(cmd)
    ensures AddsNone(st, Step(st, cmd), p, m)
  {
    var r := Step(st, cmd);
    hide AddsNone, Actor, Act, Refuse, RegisterSession;
    match cmd {
      case Connect(s) =>
        SameSent(st, Connected(st, s), p, m);
        DeliverAddsNone(Connected(st, s), s, Hello, p, m);
        SameSent(st, st, p, m);
        AddsNoneTrans(st, Connected(st, s), Deliver(Connected(st, s), s, Hello), p, m);
      case ShutDown(s) =>
        var mid := Deliver(st, s, ReplacedByNewer);
        DeliverAddsNone(st, s, ReplacedByNewer, p, m);
        SameSent(mid, DisconnectSession(mid, s), p, m);
        SameSent(st, st, p, m);
        AddsNoneTrans(st, mid, DisconnectSession(mid, s), p, m);
      case BadPassword(s) =>
        DeliverAddsNone(st, s, PasswordIncorrect, p, m);
        SameSent(st, st, p, m);
      case _ => SameSent(st, r, p, m);
    }
  }

  lemma {:induction false} RefuseAddsNone(st: State, s: string, p: string, m: StoredMessage)
    ensures AddsNone(st, Refuse(st, s), p, m)
  {
    hide AddsNone;
    var mid := Deliver(st, s, SessionReplaced);
    DeliverAddsNone(st, s, NotRegistered, p, m);
    DeliverAddsNone(st, s, SessionReplaced, p, m);
    SameSent(mid, AbandonSession(mid, s), p, m);
    AddsNoneTrans(st, mid, AbandonSession(mid, s), p, m);
    SameSent(st, st, p, m);
  }

  lemma {:induction false} WholeAddsNone(g: Staged, cmd: Command, p: string, m: StoredMessage)
    requires ValidLog(g.st.log, g.st.counter) && Allowed(g, cmd) && m in g.st.log
    ensures AddsNone(g.st, Step(g.st, cmd), p, m)
  {
    hide AddsNone, Act, Refuse;
    if cmd.Join? || cmd.Part? || cmd.Privmsg? || cmd.TaskNotice? || cmd.Chathistory? {
      if Actor(g.st, cmd.s).Some? {
        ActAddsNone(g.st, Actor(g.st, cmd.s).value, cmd, p, m);
      } else {
        RefuseAddsNone(g.st, cmd.s, p, m);
      }
    } else {
      ComingAddsNone(g.st, cmd, p, m);
    }
  }

  // ----- The log only grows -----

  lemma {:induction false} LogGrows(g: Staged, move: Move)
    ensures g.st.log <= Advance(g, move).st.log
  {
    match move {
      case Index(s) =>
        if s in g.pending {
          var reg := g.pending[s];
          QuietGreet(IndexSession(g.st, s, reg.principal, reg.rows), s, reg.principal, reg.rows);
        }
      case ReplayNext(s) =>
        if s in g.pending && g.pending[s].replayed < |g.pending[s].rows| {
          var reg := g.pending[s];
          var row := reg.rows[reg.replayed];
          ReplayEffect(g.st, s, reg.principal, row.channel, row.cursor, REGISTRATION_REPLAY_LIMIT, AutoReplay);
        }
      case Whole(cmd) => StepLogGrows(g.st, cmd);
      case _ =>
    }
  }

  lemma {:induction false} StepLogGrows(st: State, cmd: Command)
    ensures st.log <= Step(st, cmd).log
  {
    hide Enumerates;
    match cmd {
      case Register(s, p, order) =>
        if CanRegister(st, s) {
          var rows := SnapshotRows(st, p, order);
          QuietGreet(IndexSession(MarkConnected(st, s, p), s, p, rows), s, p, rows);
          ReplayRowsFrame(Greeted(st, s, p, order), s, p, rows);
        }
      case Join(s, c, order) => ActLogGrows(st, cmd);
      case Part(s, c, order) => ActLogGrows(st, cmd);
      case Privmsg(s, c, body, msgId, at, order) => ActLogGrows(st, cmd);
      case TaskNotice(s, c, body, msgId, at, order) => ActLogGrows(st, cmd);
      case Chathistory(s, channels, after, limit) => ActLogGrows(st, cmd);
      case _ =>
    }
  }

  lemma {:induction false} ActLogGrows(st: State, cmd: Command)
    requires cmd.Join? || cmd.Part? || cmd.Privmsg? || cmd.TaskNotice? || cmd.Chathistory?
    ensures st.log <= Step(st, cmd).log
  {
    if Actor(st, cmd.s).Some? {
      var p := Actor(st, cmd.s).value;
      match cmd {
        case Join(s, c, order) => QuietBroadcastRaw(JoinIndex(st, p, c), JoinedLine(p, c), order);
        case Part(s, c, order) => QuietBroadcastRaw(PartIndex(st, p, c), PartedLine(p, c), order);
        case Privmsg(s, c, body, msgId, at, order) => PublishLogGrows(st, c, p, body, msgId, at, order);
        case TaskNotice(s, c, body, msgId, at, order) => PublishLogGrows(st, c, SERVER_NAME, body, msgId, at, order);
        case Chathistory(s, channels, after, limit) => ReplayAllFrame(st, s, p, channels, after, limit);
      }
    }
  }

  lemma {:induction false} PublishLogGrows(
      st: State, c: string, sender: string, body: string, msgId: string, at: int, order: seq<string>)
    ensures Publish(st, c, sender, body, msgId, at, order).log
         == st.log + [Appended(st, c, sender, body, msgId, at)]
  {
    var m := Appended(st, c, sender, body, msgId, at);
    BroadcastSends(st.(log := st.log + [m], counter := st.counter + 1), c, m, order);
  }

  // ----- One move -----

  /** A registration of the principal has at most one row for the channel, and owes the message through it alone. */
  lemma {:induction false} OwesByRow(reg: Pending, i: nat, p: string, m: StoredMessage)
    requires DistinctRows(reg.rows) && i < |reg.rows| && reg.principal == p
    requires reg.rows[i].channel == m.channel
    ensures Owes(reg, Seat(p, m.channel), m) <==> reg.replayed <= i && reg.rows[i].cursor < m.seqNo
  {
  }

  lemma {:induction false} AscendingOnce(page: seq<StoredMessage>, m: StoredMessage)
    requires forall a, b :: 0 <= a < b < |page| ==> page[a].seqNo < page[b].seqNo
    ensures multiset(page)[m] == if m in page then 1 else 0
  {
    if page != [] {
      AscendingOnce(Front(page), m);
      assert page == Front(page) + [Last(page)];
      assert m in Front(page) ==> m != Last(page);
    }
  }

  lemma {:induction false} AboveOnce(log: seq<StoredMessage>, counter: nat, c: string, lo: int, m: StoredMessage)
    requires ValidLog(log, counter) && m in log
    ensures multiset(Above(log, c, lo))[m] == if m.channel == c && lo < m.seqNo then 1 else 0
  {
    AboveIsTheRest(log, counter, c, lo);
    hide Above, ValidLog;
    AscendingOnce(Above(log, c, lo), m);
  }

  lemma {:induction false} RowCopies(
      st: State, s: string, q: string, row: Row, from: nat, p: string, m: StoredMessage)
    requires ValidLog(st.log, st.counter) && IsOpen(st, s) && m in st.log && from <= |st.sent|
    requires |Above(st.log, row.channel, row.cursor)| <= REGISTRATION_REPLAY_LIMIT
    ensures Copies(ReplayRow(st, s, q, row), from, p, m) == Copies(st, from, p, m)
      + if q == p && row.channel == m.channel && row.cursor < m.seqNo then 1 else 0
  {
    var above := Above(st.log, row.channel, row.cursor);
    ReplayRowSends(st, s, q, row);
    ReplayRowStream(st, s, q, row, p, m.channel);
    AboveOnce(st.log, st.counter, row.channel, row.cursor, m);
    hide Copies, Above, PageLines, AutoSent, ReplayRow, ValidLog;
    LinesCopies(st, ReplayRow(st, s, q, row), from, p, m, PageLines(s, q, above, AutoReplay));
  }

  /** The move replays the message to a session of the principal. */
  ghost predicate ReplaysIt(g: Staged, move: Move, p: string, m: StoredMessage) {
    && move.ReplayNext? && move.s in g.pending && g.pending[move.s].indexed
    && (var reg := g.pending[move.s];
        && reg.principal == p && reg.replayed < |reg.rows|
        && reg.rows[reg.replayed].channel == m.channel && reg.rows[reg.replayed].cursor < m.seqNo)
  }

  lemma {:induction false} ReplayCopies(g: Staged, s: string, from: nat, p: string, m: StoredMessage)
    requires Sound(g) && Permitted(g, ReplayNext(s)) && m in g.st.log && from <= |g.st.sent|
    requires s in g.pending && g.pending[s].indexed && g.pending[s].replayed < |g.pending[s].rows|
    ensures Copies(Advance(g, ReplayNext(s)).st, from, p, m) == Copies(g.st, from, p, m)
      + if ReplaysIt(g, ReplayNext(s), p, m) then 1 else 0
  {
    var reg := g.pending[s];
    assert RegOk(g.st, s, reg);
    hide Sound, Copies, ReplayRow, Above;
    assert ValidLog(g.st.log, g.st.counter) by { SoundLog(g); }
    RowCopies(g.st, s, reg.principal, reg.rows[reg.replayed], from, p, m);
  }

  lemma {:induction false} SoundLog(g: Staged)
    requires Sound(g)
    ensures ValidLog(g.st.log, g.st.counter)
  {
  }

  lemma {:induction false} ReplayDebt(g: Staged, s: string, p: string, m: StoredMessage)
    requires s in g.pending && g.pending[s].indexed && g.pending[s].replayed < |g.pending[s].rows|
    requires DistinctRows(g.pending[s].rows)
    ensures var replays := ReplaysIt(g, ReplayNext(s), p, m);
      && Debtors(Advance(g, ReplayNext(s)), p, m) == Debtors(g, p, m) - (if replays then {s} else {})
      && (replays ==> s in Debtors(g, p, m))
  {
    var reg, h := g.pending[s], Advance(g, ReplayNext(s));
    var row, done := reg.rows[reg.replayed], reg.(replayed := reg.replayed + 1);
    assert h.pending == g.pending[s := done];
    var seat := Seat(p, m.channel);
    hide ReplayRow;
    if reg.principal == p && row.channel == m.channel {
      OwesByRow(reg, reg.replayed, p, m);
      OwesByRow(done, reg.replayed, p, m);
    } else {
      assert Owes(reg, seat, m) <==> Owes(done, seat, m) by {
        if Owes(reg, seat, m) {
          var i :| reg.replayed <= i < |reg.rows| && reg.rows[i].channel == m.channel && reg.rows[i].cursor < m.seqNo;
          assert done.rows[i].channel == m.channel;
        }
        if Owes(done, seat, m) {
          var i :| done.replayed <= i < |reg.rows| && reg.rows[i].channel == m.channel && reg.rows[i].cursor < m.seqNo;
          assert reg.rows[i].channel == m.channel;
        }
      }
    }
    DebtChange(g, h, s, p, m);
  }

  /** Only one registration changes: the debt changes as it does. */
  lemma {:induction false} DebtChange(g: Staged, h: Staged, s: string, p: string, m: StoredMessage)
    requires s in g.pending && s in h.pending && h.pending == g.pending[s := h.pending[s]]
    requires Owes(h.pending[s], Seat(p, m.channel), m) ==> Owes(g.pending[s], Seat(p, m.channel), m)
    ensures Debtors(h, p, m) == Debtors(g, p, m)
      - if Owes(g.pending[s], Seat(p, m.channel), m) && !Owes(h.pending[s], Seat(p, m.channel), m) then {s} else {}
  {
    hide Owes;
  }

  lemma {:induction false} IndexAddsNone(g: Staged, s: string, p: string, m: StoredMessage)
    requires s in g.pending && !g.pending[s].indexed
    ensures AddsNone(g.st, Advance(g, Index(s)).st, p, m)
  {
    var reg, h := g.pending[s], Advance(g, Index(s));
    var mid := IndexSession(g.st, s, reg.principal, reg.rows);
    SameSent(g.st, mid, p, m);
    QuietGreet(mid, s, reg.principal, reg.rows);
    QuietAddsNone(mid, h.st, p, m);
    AddsNoneTrans(g.st, mid, h.st, p, m);
  }

  lemma {:induction false} IndexDebt(g: Staged, s: string, p: string, m: StoredMessage)
    requires s in g.pending && !g.pending[s].indexed
    ensures Debtors(Advance(g, Index(s)), p, m) == Debtors(g, p, m)
  {
    var reg := g.pending[s];
    hide Greet, IndexSession;
    assert Owes(reg.(indexed := true), Seat(p, m.channel), m) <==> Owes(reg, Seat(p, m.channel), m);
    DebtChange(g, Advance(g, Index(s)), s, p, m);
  }

  lemma {:induction false} PendingDebt(g: Staged, move: Move, p: string, m: StoredMessage)
    requires (move.Begin? && move.principal != p) || move.Finish?
    ensures Debtors(Advance(g, move), p, m) == Debtors(g, p, m)
  {
  }

  lemma {:induction false} PendingSendsNone(g: Staged, move: Move)
    requires move.Begin? || move.Finish? || move == Whole(Restart)
    ensures Advance(g, move).st.sent == g.st.sent
  {
  }

  /** Every move but one that replays the message leaves its copies as they are. */
  lemma {:induction false} MoveCopies(g: Staged, move: Move, from: nat, p: string, m: StoredMessage)
    requires Sound(g) && Permitted(g, move) && m in g.st.log && from <= |g.st.sent|
    ensures var h := Advance(g, move);
      && g.st.sent <= h.st.sent && m in h.st.log
      && Copies(h.st, from, p, m) == Copies(g.st, from, p, m) + if ReplaysIt(g, move, p, m) then 1 else 0
  {
    LogGrows(g, move);
    var h := Advance(g, move);
    hide Copies, AddsNone;
    if h != g {
      match move {
        case Begin(s, q, order) =>
          PendingSendsNone(g, move);
          SameSent(g.st, h.st, p, m);
          AddsNoneCopies(g.st, h.st, from, p, m);
        case Finish(s) =>
          PendingSendsNone(g, move);
          SameSent(g.st, h.st, p, m);
          AddsNoneCopies(g.st, h.st, from, p, m);
        case Index(s) =>
          IndexAddsNone(g, s, p, m);
          AddsNoneCopies(g.st, h.st, from, p, m);
        case ReplayNext(s) =>
          ReplayCopies(g, s, from, p, m);
          ReplayGrows(g, s);
        case Whole(cmd) =>
          if cmd.Restart? {
            PendingSendsNone(g, move);
            SameSent(g.st, h.st, p, m);
          } else {
            WholeAddsNone(g, cmd, p, m);
          }
          AddsNoneCopies(g.st, h.st, from, p, m);
      }
    }
  }

  /** The move neither begins another registration of the principal nor restarts the server. */
  predicate Keeps(move: Move, p: string) {
    (move.Begin? ==> move.principal != p) && move != Whole(Restart)
  }

  /** Such a move takes a registration out of the debt exactly when it replays the message. */
  lemma {:induction false} MoveDebt(g: Staged, move: Move, p: string, m: StoredMessage)
    requires Sound(g) && Keeps(move, p)
    ensures var replays := ReplaysIt(g, move, p, m);
      && Debtors(Advance(g, move), p, m) == Debtors(g, p, m) - (if replays then {move.s} else {})
      && (replays ==> move.s in Debtors(g, p, m))
  {
    hide Debtors;
    if Advance(g, move) != g {
      match move {
        case Begin(s, q, order) => PendingDebt(g, move, p, m);
        case Finish(s) => PendingDebt(g, move, p, m);
        case Index(s) => IndexDebt(g, s, p, m);
        case ReplayNext(s) =>
          assert RegOk(g.st, s, g.pending[s]);
          ReplayDebt(g, s, p, m);
        case Whole(cmd) => SameDebt(g, Advance(g, move), p, m);
      }
    } else {
      StillMove(g, move, p, m);
    }
  }

  lemma {:induction false} StillMove(g: Staged, move: Move, p: string, m: StoredMessage)
    requires Advance(g, move) == g
    ensures !ReplaysIt(g, move, p, m)
  {
  }

  /** Copies plus debt stay the same. */
  lemma {:induction false} MoveKeepsBalance(g: Staged, move: Move, from: nat, p: string, m: StoredMessage)
    requires Sound(g) && Permitted(g, move) && m in g.st.log && from <= |g.st.sent|
    requires Keeps(move, p)
    ensures var h := Advance(g, move);
      && from <= |h.st.sent| && m in h.st.log && Debtors(h, p, m) <= Debtors(g, p, m)
      && Copies(h.st, from, p, m) + |Debtors(h, p, m)| == Copies(g.st, from, p, m) + |Debtors(g, p, m)|
  {
    MoveCopies(g, move, from, p, m);
    MoveDebt(g, move, p, m);
    hide *;
    if ReplaysIt(g, move, p, m) {
      OneFewer(Debtors(g, p, m), move.s);
    }
  }

  lemma {:induction false} OneFewer(all: set<string>, s: string)
    requires s in all
    ensures |all - {s}| == |all| - 1
  {
  }

  lemma {:induction false} SameDebt(g: Staged, h: Staged, p: string, m: StoredMessage)
    requires g.pending == h.pending
    ensures Debtors(g, p, m) == Debtors(h, p, m)
  {
  }

  lemma {:induction false} ReplayGrows(g: Staged, s: string)
    requires s in g.pending && g.pending[s].indexed && g.pending[s].replayed < |g.pending[s].rows|
    ensures g.st.sent <= Advance(g, ReplayNext(s)).st.sent
  {
    var reg := g.pending[s];
    var row := reg.rows[reg.replayed];
    ReplayEffect(g.st, s, reg.principal, row.channel, row.cursor, REGISTRATION_REPLAY_LIMIT, AutoReplay);
  }

  // ----- Whole runs -----

  lemma {:induction false} RunKeepsBalance(
      before: seq<Move>, after: seq<Move>, from: nat, p: string, m: StoredMessage)
    requires Smooth(before + after) && m in Play(before).st.log && from <= |Play(before).st.sent|
    requires forall move :: move in after ==> Keeps(move, p)
    ensures var g, h := Play(before), Play(before + after);
      && from <= |h.st.sent| && m in h.st.log && Debtors(h, p, m) <= Debtors(g, p, m)
      && Copies(h.st, from, p, m) + |Debtors(h, p, m)| == Copies(g.st, from, p, m) + |Debtors(g, p, m)|
  {
    if after == [] {
      assert before + after == before;
    } else {
      var all := before + after;
      assert Front(all) == before + Front(after) && Last(all) == Last(after);
      assert forall move :: move in Front(after) ==> move in after;
      assert Last(after) in after;
      RunKeepsBalance(before, Front(after), from, p, m);
      PlaySound(Front(all));
      hide Copies, Debtors, Sound, Advance, Permitted;
      MoveKeepsBalance(Play(Front(all)), Last(all), from, p, m);
    }
  }

  /** The command publishes the message. */
  ghost predicate Publishes(st: State, cmd: Command, m: StoredMessage) {
    match cmd
    case Privmsg(s, c, body, msgId, at, order) =>
      Actor(st, s).Some? && Seat(Actor(st, s).value, c) in st.cursors
      && m == Appended(st, c, Actor(st, s).value, body, msgId, at)
    case TaskNotice(s, c, body, msgId, at, order) =>
      Actor(st, s).Some? && m == Appended(st, c, SERVER_NAME, body, msgId, at)
    case _ => false
  }

  /** Whom a broadcast to the channel reaches at this moment. */
  predicate Gets(st: State, p: string, c: string) {
    p in Recipients(st, c) && Reaches(st, p)
  }

  lemma {:induction false} PublishCopies(g: Staged, cmd: Command, p: string, m: StoredMessage)
    requires Allowed(g, cmd) && Publishes(g.st, cmd, m)
    ensures var r := Step(g.st, cmd);
      && m in r.log && |g.st.sent| <= |r.sent|
      && Copies(r, |g.st.sent|, p, m) == if Gets(g.st, p, m.channel) then 1 else 0
  {
    var st, r := g.st, Step(g.st, cmd);
    var grown := st.(log := st.log + [m], counter := st.counter + 1);
    BroadcastSends(grown, m.channel, m, cmd.order);
    LiveLinesFor(grown, m, cmd.order, p, m.channel);
    assert r.sent == st.sent + LiveLines(grown, m, cmd.order);
    assert r.sent[|st.sent|..] == LiveLines(grown, m, cmd.order);
    assert p in cmd.order <==> p in Recipients(st, m.channel);
    assert Reaches(grown, p) == Reaches(st, p);
  }

  /**
    A message published while registrations of a principal run is enqueued to the principal exactly once live, if it is
    reached then, and exactly once for each of those registrations that had not yet replayed the channel.
   */
  lemma {:induction false} CopiesAcrossRegistrations(
      before: seq<Move>, cmd: Command, after: seq<Move>, p: string, m: StoredMessage)
    requires Smooth(before + [Whole(cmd)] + after) && Publishes(Play(before).st, cmd, m)
    requires forall move :: move in after ==> Keeps(move, p)
    requires var h := Play(before + [Whole(cmd)] + after);
      forall s :: s in h.pending ==> h.pending[s].principal != p
    ensures Copies(Play(before + [Whole(cmd)] + after).st, |Play(before).st.sent|, p, m)
         == (if Gets(Play(before).st, p, m.channel) then 1 else 0) + |Debtors(Play(before), p, m)|
  {
    var g, published := Play(before), before + [Whole(cmd)];
    assert Front(published) == before && Last(published) == Whole(cmd);
    SmoothPrefix(published, after);
    PublishCopies(g, cmd, p, m);
    var h := Play(published + after);
    hide Copies;
    assert Play(published) == g.(st := Step(g.st, cmd));
    SameDebt(g, Play(published), p, m);
    RunKeepsBalance(published, after, |g.st.sent|, p, m);
    assert Debtors(h, p, m) == {};
  }

  lemma {:induction false} SmoothPrefix(before: seq<Move>, after: seq<Move>)
    requires Smooth(before + after)
    ensures Smooth(before)
  {
    if after == [] {
      assert before + after == before;
    } else {
      assert Front(before + after) == before + Front(after);
      SmoothPrefix(before, Front(after));
    }
  }

  /**
    With one registration of the principal in progress: the message comes twice if and only if the channel's replay is
    still to come and the principal is reached already, which it is from entering the index on, and before that only
    through an older session. Not reached, it comes by the replay alone; after the replay, live alone.
   */
  lemma {:induction false} TwiceIffReachedBeforeReplay(
      before: seq<Move>, cmd: Command, after: seq<Move>, s: string, i: nat, m: StoredMessage)
    requires Smooth(before + [Whole(cmd)] + after) && Publishes(Play(before).st, cmd, m)
    requires s in Play(before).pending && i < |Play(before).pending[s].rows|
    requires var g := Play(before);
      && (forall t :: t in g.pending && t != s ==> g.pending[t].principal != g.pending[s].principal)
      && g.pending[s].rows[i].channel == m.channel
      && Seat(g.pending[s].principal, m.channel) in g.st.cursors
    requires forall move :: move in after ==> Keeps(move, Play(before).pending[s].principal)
    requires var h := Play(before + [Whole(cmd)] + after);
      forall t :: t in h.pending ==> h.pending[t].principal != Play(before).pending[s].principal
    ensures var g, st := Play(before), Play(before + [Whole(cmd)] + after).st;
      var reg := g.pending[s];
      var copies := Copies(st, |g.st.sent|, reg.principal, m);
      && (copies == 2 <==> reg.replayed <= i && Reaches(g.st, reg.principal))
      && (reg.replayed <= i && !Reaches(g.st, reg.principal) ==> copies == 1)
      && (reg.replayed > i && Reaches(g.st, reg.principal) ==> copies == 1)
      && (reg.principal in g.st.clients && g.st.clients[reg.principal] == s ==> Reaches(g.st, reg.principal))
  {
    var g := Play(before);
    var reg := g.pending[s];
    var p := reg.principal;
    assert before + [Whole(cmd)] + after == before + ([Whole(cmd)] + after);
    SmoothPrefix(before, [Whole(cmd)] + after);
    PlaySound(before);
    assert RegOk(g.st, s, reg);
    assert RowOk(g.st, p, reg.rows[i]);
    MaxSeqBounds(g.st.log, g.st.counter, m.channel);
    OwesByRow(reg, i, p, m);
    assert Gets(g.st, p, m.channel) == Reaches(g.st, p);
    CopiesAcrossRegistrations(before, cmd, after, p, m);
    hide Copies, Sound, Play, Smooth;
    assert Debtors(g, p, m) == if reg.replayed <= i then {s} else {};
  }
}
