/**
  Registration split into the parts that lock separately (src/server.rs, try_register): the membership snapshot,
  the index insertion that replaces the old session, and one replay per snapshot row. Registrations overlap freely,
  also several of one principal, and whole commands of other sessions run between any two parts.
 */
module StagedRegistration {
  import opened Prelude
  import opened History
  import opened Memberships
  import opened Bouncer
  import opened BouncerFacts
  import opened BouncerRuns

  /** A registration in progress, kept under its session: its snapshot and how far it has come. */
  datatype Pending = Pending(principal: string, rows: seq<Row>, indexed: bool, replayed: nat)

  /**
    `forgotten` is a history variable: what a restart found still to be replayed although the seat's cursor had passed
    it.
   */
  datatype Staged = Staged(st: State, pending: map<string, Pending>, forgotten: set<(Seat, StoredMessage)>)

  datatype Move =
    | Begin(s: string, principal: string, order: seq<string>)
    | Index(s: string)
    | ReplayNext(s: string)
    | Finish(s: string)
    | Whole(cmd: Command)

  const START := Staged(INIT, map[], {})

  /** The registration will still replay the message to its session. */
  predicate Owes(reg: Pending, seat: Seat, m: StoredMessage) {
    reg.principal == seat.principal
    && exists i :: reg.replayed <= i < |reg.rows| && reg.rows[i].channel == seat.channel && reg.rows[i].cursor < m.seqNo
  }

  predicate Owed(g: Staged, seat: Seat, m: StoredMessage) {
    exists s :: s in g.pending && Owes(g.pending[s], seat, m)
  }

  /** What a restart now leaves behind: owed to a seat, and not above its cursor. */
  function Abandoned(g: Staged): set<(Seat, StoredMessage)> {
    set seat, m | seat in g.st.cursors && m in g.st.log && m.channel == seat.channel
      && m.seqNo <= g.st.cursors[seat] && Owed(g, seat, m) :: (seat, m)
  }

  function Advance(g: Staged, move: Move): Staged {
    match move
    case Begin(s, p, order) =>
      if CanRegister(g.st, s) && s !in g.pending
      then
        g.(st := MarkConnected(g.st, s, p),
           pending := g.pending[s := Pending(p, SnapshotRows(g.st, p, order), false, 0)])
      else g
    case Index(s) =>
      if s in g.pending && !g.pending[s].indexed
      then
        var reg := g.pending[s];
        g.(st := Greet(IndexSession(g.st, s, reg.principal, reg.rows), s, reg.principal, reg.rows),
           pending := g.pending[s := reg.(indexed := true)])
      else g
    case ReplayNext(s) =>
      if s in g.pending && g.pending[s].indexed && g.pending[s].replayed < |g.pending[s].rows|
      then
        var reg := g.pending[s];
        g.(st := ReplayRow(g.st, s, reg.principal, reg.rows[reg.replayed]),
           pending := g.pending[s := reg.(replayed := reg.replayed + 1)])
      else g
    case Finish(s) =>
      if s in g.pending && g.pending[s].indexed && g.pending[s].replayed == |g.pending[s].rows|
      then g.(pending := g.pending - {s})
      else g
    case Whole(cmd) =>
      if cmd.Restart?
      then Staged(Step(g.st, cmd), map[], g.forgotten + Abandoned(g))
      else g.(st := Step(g.st, cmd))
  }

  /**
    Which whole commands may run between the parts. A session whose own registration is running reads no command and
    keeps its receiver.
   */
  ghost predicate Allowed(g: Staged, cmd: Command) {
    && Legal(g.st, cmd)
    && Undisturbed(g.st, cmd)
    && !cmd.Register? && !cmd.Restart?
    && cmd.s !in g.pending
  }

  ghost predicate HasRow(reg: Pending, c: string) {
    exists i :: 0 <= i < |reg.rows| && reg.rows[i].channel == c
  }

  /** A registration in progress has still to replay the channel to the principal. */
  ghost predicate Covered(g: Staged, seat: Seat) {
    exists s, i ::
      && s in g.pending && g.pending[s].principal == seat.principal
      && g.pending[s].replayed <= i < |g.pending[s].rows| && g.pending[s].rows[i].channel == seat.channel
  }

  /**
    A replay finds at most one page above its snapshot; and when a session enters the index of a principal that is not
    reached, each of the principal's channels has no backlog or is still to be replayed by some registration. A restart
    may come at any time, and ends all registrations.
   */
  ghost predicate Permitted(g: Staged, move: Move) {
    match move
    case Begin(s, p, order) => IsOpen(g.st, s) && Enumerates(order, Rooms(g.st, p))
    case Index(s) =>
      s in g.pending && !Reaches(g.st, g.pending[s].principal) ==>
        forall seat :: seat in g.st.cursors && seat.principal == g.pending[s].principal ==>
          Covered(g, seat) || Backlog(g.st, seat) == []
    case ReplayNext(s) =>
      s in g.pending && g.pending[s].replayed < |g.pending[s].rows| ==>
        var row := g.pending[s].rows[g.pending[s].replayed];
        |Above(g.st.log, row.channel, row.cursor)| <= REGISTRATION_REPLAY_LIMIT
    case Whole(cmd) => cmd.Restart? || Allowed(g, cmd)
    case _ => true
  }

  ghost function Play(moves: seq<Move>): Staged {
    if moves == [] then START else Advance(Play(Front(moves)), Last(moves))
  }

  ghost predicate Smooth(moves: seq<Move>) {
    moves == [] || (Smooth(Front(moves)) && Permitted(Play(Front(moves)), Last(moves)))
  }

  lemma {:induction false} SmoothSnoc(moves: seq<Move>, move: Move, g: Staged)
    requires Smooth(moves) && Play(moves) == g && Permitted(g, move)
    ensures Smooth(moves + [move]) && Play(moves + [move]) == Advance(g, move)
  {
    assert Front(moves + [move]) == moves;
  }

  // ----- The invariant -----

  /** The seat's principal should have it: above the baseline, and at most the cursor or with a receiver indexed. */
  ghost predicate Expected(st: State, seat: Seat, m: StoredMessage)
    requires seat in st.cursors && seat in st.epochs
  {
    && m in st.log && m.channel == seat.channel && st.epochs[seat].baseline < m.seqNo
    && (m.seqNo <= st.cursors[seat] || Reaches(st, seat.principal))
  }

  ghost predicate Due(g: Staged, seat: Seat, m: StoredMessage)
    requires seat in g.st.cursors && seat in g.st.epochs
  {
    Expected(g.st, seat, m) && (seat, m) !in g.forgotten
  }

  ghost predicate Held(g: Staged, seat: Seat)
    requires seat in g.st.cursors && seat in g.st.epochs
  {
    forall m :: Due(g, seat, m) ==> m in Stream(g.st, seat) || Owed(g, seat, m)
  }

  /** Nothing was sent that lies above the cursor. */
  ghost predicate SentBelow(st: State, seat: Seat)
    requires seat in st.cursors && seat in st.epochs
  {
    forall m :: m in Stream(st, seat) ==> m.seqNo <= st.cursors[seat]
  }

  ghost predicate Bounded(st: State, seat: Seat)
    requires seat in st.epochs && seat in st.cursors
  {
    && st.epochs[seat].start <= |st.sent|
    && 0 <= st.epochs[seat].baseline <= st.cursors[seat] <= MaxSeq(st.log, seat.channel)
  }

  ghost predicate Base(st: State) {
    && ValidLog(st.log, st.counter)
    && st.cursors.Keys == st.epochs.Keys
    && OwnersAgree(st.sessions, st.sent)
    && (forall seat :: seat in st.cursors ==> Bounded(st, seat))
    && (forall p :: p in st.clients ==>
          st.clients[p] in st.sessions && st.sessions[st.clients[p]].principal == Some(p))
    && (forall seat :: seat in st.cursors && seat.principal in st.clients ==>
          seat.principal in Members(st.channels, seat.channel))
  }

  ghost predicate RowOk(st: State, p: string, row: Row) {
    && 0 <= row.cursor <= MaxSeq(st.log, row.channel)
    && (Seat(p, row.channel) in st.cursors ==> row.cursor <= st.cursors[Seat(p, row.channel)])
  }

  ghost predicate DistinctRows(rows: seq<Row>) {
    forall i, j :: 0 <= i < j < |rows| ==> rows[i].channel != rows[j].channel
  }

  /** Entering the index will make the principal an indexed member of all its channels. */
  ghost predicate Placed(st: State, reg: Pending) {
    forall seat :: seat in st.cursors && seat.principal == reg.principal ==>
      HasRow(reg, seat.channel) || seat.principal in Members(st.channels, seat.channel)
  }

  ghost predicate RegOk(st: State, s: string, reg: Pending) {
    && IsOpen(st, s) && st.sessions[s].principal == Some(reg.principal)
    && (!reg.indexed ==> reg.replayed == 0)
    && reg.replayed <= |reg.rows|
    && DistinctRows(reg.rows)
    && (forall i :: 0 <= i < |reg.rows| ==> RowOk(st, reg.principal, reg.rows[i]))
    && Placed(st, reg)
  }

  ghost predicate SeatSound(g: Staged, seat: Seat)
    requires seat in g.st.cursors && seat in g.st.epochs
  {
    Held(g, seat) && SentBelow(g.st, seat)
  }

  ghost predicate Sound(g: Staged) {
    && Base(g.st)
    && (forall s :: s in g.pending ==> RegOk(g.st, s, g.pending[s]))
    && (forall seat :: seat in g.st.cursors ==> SeatSound(g, seat))
  }

  // ----- What a change must keep -----

  /** Logs and cursors only grow, new rows start at the channel's top, and indexed members stay indexed. */
  ghost predicate Carries(st: State, r: State) {
    && (forall c :: MaxSeq(st.log, c) <= MaxSeq(r.log, c))
    && (forall seat :: seat in r.cursors ==>
          || (seat in st.cursors && st.cursors[seat] <= r.cursors[seat])
          || r.cursors[seat] == MaxSeq(st.log, seat.channel))
    && (forall seat :: seat in r.cursors ==>
          || seat.principal in Members(r.channels, seat.channel)
          || (seat in st.cursors && seat.principal !in Members(st.channels, seat.channel)))
  }

  lemma {:induction false} RegKept(st: State, r: State, s: string, reg: Pending)
    requires RegOk(st, s, reg) && Carries(st, r)
    requires IsOpen(r, s) && r.sessions[s].principal == st.sessions[s].principal
    ensures RegOk(r, s, reg)
  {
    forall i | 0 <= i < |reg.rows| ensures RowOk(r, reg.principal, reg.rows[i]) {
      assert RowOk(st, reg.principal, reg.rows[i]);
    }
    forall seat | seat in r.cursors && seat.principal == reg.principal
      ensures HasRow(reg, seat.channel) || seat.principal in Members(r.channels, seat.channel)
    {
    }
  }

  /** The log and the seat's epoch stay, lines are added, and the cursor moves only while the seat is reached. */
  ghost predicate SeatMoves(st: State, r: State, seat: Seat, lines: seq<Enqueued>) {
    && seat in st.cursors && seat in st.epochs && seat in r.cursors && seat in r.epochs
    && r.epochs[seat] == st.epochs[seat] && r.log == st.log
    && st.epochs[seat].start <= |st.sent| && r.sent == st.sent + lines
    && (Reaches(r, seat.principal) ==> Reaches(st, seat.principal))
    && st.cursors[seat] <= r.cursors[seat]
    && (r.cursors[seat] == st.cursors[seat] || Reaches(st, seat.principal))
    && (forall m :: m in AutoSent(lines, seat.principal, seat.channel) ==> m.seqNo <= r.cursors[seat])
  }

  lemma {:induction false} SeatMovesKeep(g: Staged, r: State, seat: Seat, lines: seq<Enqueued>)
    requires SeatMoves(g.st, r, seat, lines) && SeatSound(g, seat)
    ensures SeatSound(g.(st := r), seat)
  {
    StreamGrows(g.st, r, seat, lines);
    var h := g.(st := r);
    hide Stream, AutoSent;
    forall m | Due(h, seat, m) ensures m in Stream(r, seat) || Owed(h, seat, m) {
      assert Due(g, seat, m);
      assert Owed(g, seat, m) ==> Owed(h, seat, m);
    }
  }

  // ----- Publishing -----

  /** A reached seat of the channel gets the new message and its number; any other seat stays as it is. */
  lemma {:induction false} PublishedStream(st: State, r: State, seat: Seat, m: StoredMessage, order: seq<string>)
    requires Base(st) && seat in st.cursors && seat in st.epochs
    requires m.seqNo == st.counter + 1 && Enumerates(order, Recipients(st, m.channel))
    requires r == Broadcast(st.(log := st.log + [m], counter := st.counter + 1), m.channel, m, order)
    ensures r == st.(log := st.log + [m], counter := r.counter, cursors := r.cursors, sent := r.sent)
    ensures seat in r.cursors && st.cursors[seat] <= st.counter
    ensures var gets := seat.channel == m.channel && Reaches(st, seat.principal);
      && Stream(r, seat) == Stream(st, seat) + (if gets then [m] else [])
      && r.cursors[seat] == if gets then m.seqNo else st.cursors[seat]
  {
    var p, c := seat.principal, seat.channel;
    var grown := st.(log := st.log + [m], counter := st.counter + 1);
    assert Bounded(st, seat);
    BroadcastSends(grown, m.channel, m, order);
    BroadcastCursor(grown, m.channel, m, order, seat);
    LiveLinesFor(grown, m, order, p, c);
    StreamGrows(st, r, seat, LiveLines(grown, m, order));
    MaxSeqBounds(st.log, st.counter, c);
    assert p in order <==> p in Recipients(st, m.channel);
  }

  lemma {:induction false} PublishedSeat(g: Staged, r: State, seat: Seat, m: StoredMessage, order: seq<string>)
    requires Base(g.st) && seat in g.st.cursors && seat in g.st.epochs && SeatSound(g, seat)
    requires m.seqNo == g.st.counter + 1 && Enumerates(order, Recipients(g.st, m.channel))
    requires r == Broadcast(g.st.(log := g.st.log + [m], counter := g.st.counter + 1), m.channel, m, order)
    ensures seat in r.cursors && seat in r.epochs && SeatSound(g.(st := r), seat)
  {
    var st, h := g.st, g.(st := r);
    PublishedStream(st, r, seat, m, order);
    hide Stream, Broadcast, Recipients, Base;
    forall n | Due(h, seat, n) ensures n in Stream(r, seat) || Owed(h, seat, n) {
      if n in st.log {
        assert Due(g, seat, n);
        assert Owed(g, seat, n) ==> Owed(h, seat, n);
      } else {
        assert n == m;
      }
    }
  }

  lemma {:induction false} PublishBase(st: State, m: StoredMessage, order: seq<string>, r: State)
    requires Base(st) && m.seqNo == st.counter + 1
    requires r == Broadcast(st.(log := st.log + [m], counter := st.counter + 1), m.channel, m, order)
    ensures Base(r) && Carries(st, r)
    ensures r == st.(log := r.log, counter := r.counter, cursors := r.cursors, sent := r.sent)
    ensures r.cursors.Keys == st.cursors.Keys
  {
    var grown := st.(log := st.log + [m], counter := st.counter + 1);
    BroadcastSends(grown, m.channel, m, order);
    LiveLinesOwners(grown, m, order);
    forall seat | seat in r.cursors ensures Bounded(r, seat) && st.cursors[seat] <= r.cursors[seat] {
      assert Bounded(st, seat);
      BroadcastCursor(grown, m.channel, m, order, seat);
      MaxSeqBounds(st.log, st.counter, seat.channel);
      AppendedWindow(st.log, m, seat.channel, 0, 0);
    }
    forall c ensures MaxSeq(st.log, c) <= MaxSeq(r.log, c) {
      AppendedWindow(st.log, m, c, 0, 0);
    }
  }

  lemma {:induction false} PublishSound(
      g: Staged, c: string, sender: string, body: string, msgId: string, at: int, order: seq<string>)
    requires Sound(g) && Enumerates(order, Recipients(g.st, c))
    ensures Sound(g.(st := Publish(g.st, c, sender, body, msgId, at, order)))
  {
    hide Sound, Broadcast;
    PublishedSound(g, Appended(g.st, c, sender, body, msgId, at), order,
                   Publish(g.st, c, sender, body, msgId, at, order));
  }

  lemma {:induction false} PublishedSound(g: Staged, m: StoredMessage, order: seq<string>, r: State)
    requires Sound(g) && m.seqNo == g.st.counter + 1 && Enumerates(order, Recipients(g.st, m.channel))
    requires r == Broadcast(g.st.(log := g.st.log + [m], counter := g.st.counter + 1), m.channel, m, order)
    ensures Sound(g.(st := r))
  {
    var st, h := g.st, g.(st := r);
    hide Base, RegOk, SeatSound, Broadcast, Recipients, Enumerates;
    PublishBase(st, m, order, r);
    forall s | s in g.pending ensures RegOk(r, s, g.pending[s]) {
      RegIsOpen(st, s, g.pending[s]);
      RegKept(st, r, s, g.pending[s]);
    }
    BaseKeys(st);
    forall seat | seat in r.cursors ensures seat in r.epochs && SeatSound(h, seat) {
      PublishedSeat(g, r, seat, m, order);
    }
    hide Sound, Carries;
    SoundOf(h);
  }

  lemma {:induction false} BaseKeys(st: State)
    requires Base(st)
    ensures st.cursors.Keys == st.epochs.Keys
  {
  }

  lemma {:induction false} RegIsOpen(st: State, s: string, reg: Pending)
    requires RegOk(st, s, reg)
    ensures IsOpen(st, s) && st.sessions[s].principal == Some(reg.principal)
  {
  }

  // ----- Lines without messages, and sessions that come and go -----

  lemma {:induction false} QuietBase(st: State, r: State)
    requires Base(st) && Quiet(st, r)
    ensures Base(r) && Carries(st, r)
  {
    assert r.sent == st.sent + News(st, r);
    forall seat | seat in r.cursors ensures Bounded(r, seat) {
      assert Bounded(st, seat);
    }
  }

  lemma {:induction false} QuietSound(g: Staged, r: State)
    requires Sound(g) && Quiet(g.st, r)
    ensures Sound(g.(st := r))
  {
    var st := g.st;
    QuietBase(st, r);
    assert r.sent == st.sent + News(st, r);
    forall s | s in g.pending ensures RegOk(r, s, g.pending[s]) {
      RegKept(st, r, s, g.pending[s]);
    }
    forall seat | seat in r.cursors ensures SeatSound(g.(st := r), seat) {
      assert SeatSound(g, seat) && Bounded(st, seat);
      AutoSentOfControl(News(st, r), seat.principal, seat.channel);
      hide Sound, SeatSound;
      SeatMovesKeep(g, r, seat, News(st, r));
    }
  }

  lemma {:induction false} SessionChangeBase(st: State, r: State)
    requires Base(st) && SessionChange(st, r)
    ensures Base(r)
    ensures r.channels == st.channels ==> Carries(st, r)
  {
    forall seat | seat in r.cursors ensures Bounded(r, seat) {
      assert Bounded(st, seat);
    }
    forall p | p in r.clients
      ensures r.clients[p] in r.sessions && r.sessions[r.clients[p]].principal == Some(p)
    {
      assert p in st.clients;
    }
  }

  lemma {:induction false} ChangedSeat(g: Staged, r: State, seat: Seat)
    requires Base(g.st) && SessionChange(g.st, r)
    requires seat in g.st.cursors && seat in g.st.epochs && SeatSound(g, seat)
    ensures SeatSound(g.(st := r), seat)
  {
    assert Bounded(g.st, seat);
    assert AutoSent([], seat.principal, seat.channel) == [];
    hide Base, SeatSound, AutoSent;
    SeatMovesKeep(g, r, seat, []);
  }

  lemma {:induction false} SessionChangeKeys(st: State, r: State)
    requires SessionChange(st, r)
    ensures r.cursors == st.cursors && r.epochs == st.epochs
    ensures forall s :: s in st.sessions ==> s in r.sessions && r.sessions[s].principal == st.sessions[s].principal
  {
  }

  lemma {:induction false} SessionChangeSound(g: Staged, r: State)
    requires Sound(g) && SessionChange(g.st, r) && r.channels == g.st.channels
    requires forall s :: s in g.pending ==> IsOpen(r, s)
    ensures Sound(g.(st := r))
  {
    var st := g.st;
    SessionChangeBase(st, r);
    SessionChangeKeys(st, r);
    hide Base, RegOk, SeatSound, SessionChange;
    forall s | s in g.pending ensures RegOk(r, s, g.pending[s]) {
      RegIsOpen(st, s, g.pending[s]);
      RegKept(st, r, s, g.pending[s]);
    }
    BaseKeys(st);
    forall seat | seat in r.cursors ensures seat in r.epochs && SeatSound(g.(st := r), seat) {
      ChangedSeat(g, r, seat);
    }
    hide Sound, Carries;
    SoundOf(g.(st := r));
  }

  // ----- History asked for -----

  lemma {:induction false} RequestedBase(st: State, s: string, p: string, c: string, after: int, limit: int)
    requires Base(st) && Actor(st, s) == Some(p)
    ensures var r := Replay(st, s, p, c, after, limit, Requested);
      && Base(r) && Carries(st, r) && r == st.(cursors := r.cursors, sent := r.sent)
  {
    var page, r := Page(st.log, c, after, limit), Replay(st, s, p, c, after, limit, Requested);
    ReplayEffect(st, s, p, c, after, limit, Requested);
    PageLinesOwners(s, p, page, Requested);
    PageIsWindow(st.log, st.counter, c, after, limit);
    forall seat | seat in r.cursors ensures Bounded(r, seat) {
      assert Bounded(st, seat);
    }
  }

  lemma {:induction false} RequestedSeat(
      g: Staged, s: string, p: string, c: string, after: int, limit: int, seat: Seat)
    requires Base(g.st) && Actor(g.st, s) == Some(p) && IsOpen(g.st, s)
    requires seat in g.st.cursors && seat in g.st.epochs && SeatSound(g, seat)
    ensures var r := Replay(g.st, s, p, c, after, limit, Requested);
      seat in r.cursors && seat in r.epochs && SeatSound(g.(st := r), seat)
  {
    var st := g.st;
    var page, r := Page(st.log, c, after, limit), Replay(st, s, p, c, after, limit, Requested);
    var lines := PageLines(s, p, page, Requested);
    ReplayEffect(st, s, p, c, after, limit, Requested);
    AboveAll(st.log, c, after);
    assert forall m :: m in page ==> m.channel == c;
    assert Bounded(st, seat) && Reaches(st, p);
    hide SeatSound, Base, Replay, Page, PageLines, AutoSent;
    PageLinesFor(s, p, c, page, Requested, seat.principal, seat.channel);
    SeatMovesKeep(g, r, seat, lines);
  }

  lemma {:induction false} RequestedSound(g: Staged, s: string, p: string, c: string, after: int, limit: int)
    requires Sound(g) && Actor(g.st, s) == Some(p) && IsOpen(g.st, s)
    ensures var r := Replay(g.st, s, p, c, after, limit, Requested);
      && Sound(g.(st := r))
      && r == g.st.(cursors := r.cursors, sent := r.sent)
  {
    var st, r := g.st, Replay(g.st, s, p, c, after, limit, Requested);
    RequestedBase(st, s, p, c, after, limit);
    hide Base, RegOk, SeatSound, Replay;
    BaseKeys(st);
    BaseKeys(r);
    forall t | t in g.pending ensures RegOk(r, t, g.pending[t]) {
      RegIsOpen(st, t, g.pending[t]);
      RegKept(st, r, t, g.pending[t]);
    }
    RequestedKeys(st, s, p, c, after, limit);
    forall seat | seat in r.cursors ensures SeatSound(g.(st := r), seat) {
      RequestedSeat(g, s, p, c, after, limit, seat);
    }
  }

  lemma {:induction false} RequestedKeys(st: State, s: string, p: string, c: string, after: int, limit: int)
    ensures Replay(st, s, p, c, after, limit, Requested).cursors.Keys == st.cursors.Keys
  {
    ReplayEffect(st, s, p, c, after, limit, Requested);
  }

  lemma {:induction false} ReplayAllSound(
      g: Staged, s: string, p: string, channels: seq<string>, after: int, limit: int)
    requires Sound(g) && Actor(g.st, s) == Some(p) && IsOpen(g.st, s)
    ensures var r := ReplayAll(g.st, s, p, channels, after, limit, Requested);
      && Sound(g.(st := r))
      && r == g.st.(cursors := r.cursors, sent := r.sent)
  {
    if channels != [] {
      hide Sound;
      ReplayAllSound(g, s, p, Front(channels), after, limit);
      var mid := ReplayAll(g.st, s, p, Front(channels), after, limit, Requested);
      RequestedSound(g.(st := mid), s, p, Last(channels), after, limit);
    }
  }

  // ----- Joining and parting -----

  lemma {:induction false} JoinCarries(st: State, p: string, c: string)
    ensures Carries(st, JoinIndex(st, p, c))
  {
    var r := JoinIndex(st, p, c);
    hide Members, MaxSeq;
    forall seat | seat in r.cursors
      ensures seat.principal in Members(r.channels, seat.channel)
        || (seat in st.cursors && seat.principal !in Members(st.channels, seat.channel))
    {
      JoinedMember(st, p, c, seat);
    }
  }

  lemma {:induction false} JoinIndexBase(st: State, p: string, c: string)
    requires Base(st)
    ensures Base(JoinIndex(st, p, c)) && Carries(st, JoinIndex(st, p, c))
  {
    var r := JoinIndex(st, p, c);
    JoinCarries(st, p, c);
    hide Bounded, ValidLog, OwnersAgree, MaxSeq, Members, Carries;
    forall seat | seat in r.cursors ensures seat in r.epochs && Bounded(r, seat) {
      JoinedBounded(st, p, c, seat);
    }
    forall seat | seat in r.cursors
      ensures seat.principal in r.clients ==> seat.principal in Members(r.channels, seat.channel)
    {
      JoinedMember(st, p, c, seat);
    }
  }

  lemma {:induction false} JoinedMember(st: State, p: string, c: string, seat: Seat)
    requires seat in JoinIndex(st, p, c).cursors
    ensures seat.principal in Members(st.channels, seat.channel) ==>
      seat.principal in Members(JoinIndex(st, p, c).channels, seat.channel)
    ensures seat !in st.cursors ==> seat.principal in Members(JoinIndex(st, p, c).channels, seat.channel)
  {
    assert seat in st.cursors || seat == Seat(p, c);
  }

  lemma {:induction false} JoinedBounded(st: State, p: string, c: string, seat: Seat)
    requires Base(st) && seat in JoinIndex(st, p, c).cursors
    ensures seat in JoinIndex(st, p, c).epochs && Bounded(JoinIndex(st, p, c), seat)
  {
    MaxSeqBounds(st.log, st.counter, c);
    assert seat in st.cursors ==> Bounded(st, seat);
  }

  lemma {:induction false} JoinedSeat(g: Staged, p: string, c: string, seat: Seat)
    requires Base(g.st) && seat in JoinIndex(g.st, p, c).cursors
    requires seat in g.st.cursors ==> seat in g.st.epochs && SeatSound(g, seat)
    ensures seat in JoinIndex(g.st, p, c).epochs && SeatSound(g.(st := JoinIndex(g.st, p, c)), seat)
  {
    var st, r := g.st, JoinIndex(g.st, p, c);
    if seat in st.cursors {
      assert Bounded(st, seat);
      hide SeatSound, Base;
      SeatMovesKeep(g, r, seat, []);
    } else {
      MaxSeqBounds(st.log, st.counter, c);
      assert r.sent[|st.sent|..] == [];
      assert Stream(r, seat) == [];
    }
  }

  lemma {:induction false} JoinIndexSound(g: Staged, p: string, c: string)
    requires Sound(g)
    ensures Sound(g.(st := JoinIndex(g.st, p, c)))
  {
    var st, r := g.st, JoinIndex(g.st, p, c);
    JoinIndexBase(st, p, c);
    hide Base, RegOk, SeatSound;
    BaseKeys(st);
    forall s | s in g.pending ensures RegOk(r, s, g.pending[s]) {
      RegIsOpen(st, s, g.pending[s]);
      RegKept(st, r, s, g.pending[s]);
    }
    BaseKeys(r);
    forall seat | seat in r.cursors ensures SeatSound(g.(st := r), seat) {
      JoinedSeat(g, p, c, seat);
    }
  }

  lemma {:induction false} PartedMember(st: State, p: string, c: string, seat: Seat)
    requires seat != Seat(p, c)
    ensures seat.principal in Members(PartIndex(st, p, c).channels, seat.channel)
       <==> seat.principal in Members(st.channels, seat.channel)
  {
  }

  lemma {:induction false} PartIndexBase(st: State, p: string, c: string)
    requires Base(st)
    ensures Base(PartIndex(st, p, c)) && Carries(st, PartIndex(st, p, c))
  {
    var r := PartIndex(st, p, c);
    hide Members, MaxSeq, ValidLog, OwnersAgree;
    forall seat | seat in r.cursors
      ensures Bounded(r, seat)
      ensures seat.principal in Members(r.channels, seat.channel)
         <==> seat.principal in Members(st.channels, seat.channel)
    {
      assert Bounded(st, seat);
      PartedMember(st, p, c, seat);
    }
  }

  lemma {:induction false} PartIndexSound(g: Staged, p: string, c: string)
    requires Sound(g)
    ensures Sound(g.(st := PartIndex(g.st, p, c)))
  {
    var st, r := g.st, PartIndex(g.st, p, c);
    PartIndexBase(st, p, c);
    hide Base, RegOk, SeatSound;
    BaseKeys(st);
    forall s | s in g.pending ensures RegOk(r, s, g.pending[s]) {
      RegIsOpen(st, s, g.pending[s]);
      RegKept(st, r, s, g.pending[s]);
    }
    forall seat | seat in r.cursors ensures seat in r.epochs && SeatSound(g.(st := r), seat) {
      PartedSeat(g, p, c, seat);
    }
    SoundOf(g.(st := r));
  }

  lemma {:induction false} PartedSeat(g: Staged, p: string, c: string, seat: Seat)
    requires Base(g.st) && seat in PartIndex(g.st, p, c).cursors
    requires seat in g.st.epochs && SeatSound(g, seat)
    ensures seat in PartIndex(g.st, p, c).epochs && SeatSound(g.(st := PartIndex(g.st, p, c)), seat)
  {
    assert Bounded(g.st, seat);
    hide Base, SeatSound;
    SeatMovesKeep(g, PartIndex(g.st, p, c), seat, []);
  }

  // ----- Whole commands between the parts -----

  lemma {:induction false} LeavingSound(g: Staged, cmd: Command)
    requires Sound(g) && Allowed(g, cmd) && IsLeaving(cmd)
    ensures Sound(g.(st := Step(g.st, cmd)))
  {
    hide Sound, Actor, Act, Refuse, RegisterSession;
    OthersOpen(g, cmd.s);
    LeavingShape(g.st, cmd);
    SessionChangeSound(g, Step(g.st, cmd));
  }

  lemma {:induction false} OthersOpen(g: Staged, s: string)
    requires Sound(g) && s !in g.pending
    ensures forall t :: t in g.pending ==> t != s && IsOpen(g.st, t)
  {
    forall t | t in g.pending ensures IsOpen(g.st, t) {
      RegIsOpen(g.st, t, g.pending[t]);
    }
  }

  lemma {:induction false} AbandonSound(g: Staged, s: string)
    requires Sound(g) && s !in g.pending
    ensures Sound(g.(st := AbandonSession(g.st, s)))
  {
    OthersOpen(g, s);
    hide Sound;
    SessionChangeSound(g, AbandonSession(g.st, s));
  }

  lemma {:induction false} DisconnectShape(st: State, s: string)
    ensures SessionChange(st, DisconnectSession(st, s)) && DisconnectSession(st, s).channels == st.channels
    ensures forall t :: t != s && IsOpen(st, t) ==> IsOpen(DisconnectSession(st, s), t)
  {
  }

  lemma {:induction false} DisconnectSound(g: Staged, s: string)
    requires Sound(g) && s !in g.pending
    ensures Sound(g.(st := DisconnectSession(g.st, s)))
  {
    OthersOpen(g, s);
    DisconnectShape(g.st, s);
    hide Sound, DisconnectSession, SessionChange;
    SessionChangeSound(g, DisconnectSession(g.st, s));
  }

  lemma {:induction false} DeliverControlSound(g: Staged, s: string, line: Line)
    requires Sound(g) && !line.Chat?
    ensures Sound(g.(st := Deliver(g.st, s, line)))
  {
    hide Sound;
    QuietDeliver(g.st, s, line);
    QuietSound(g, Deliver(g.st, s, line));
  }

  lemma {:induction false} RefuseSound(g: Staged, s: string)
    requires Sound(g) && s !in g.pending
    ensures Sound(g.(st := Refuse(g.st, s)))
  {
    hide Sound, Deliver, AbandonSession;
    DeliverControlSound(g, s, NotRegistered);
    DeliverControlSound(g, s, SessionReplaced);
    AbandonSound(g.(st := Deliver(g.st, s, SessionReplaced)), s);
  }

  lemma {:induction false} ShutDownSound(g: Staged, s: string)
    requires Sound(g) && s !in g.pending
    ensures Sound(g.(st := Step(g.st, ShutDown(s))))
  {
    hide Sound, Deliver, DisconnectSession;
    DeliverControlSound(g, s, ReplacedByNewer);
    DisconnectSound(g.(st := Deliver(g.st, s, ReplacedByNewer)), s);
  }

  lemma {:induction false} ConnectSound(g: Staged, s: string)
    requires Sound(g) && s !in g.pending
    ensures Sound(g.(st := Step(g.st, Connect(s))))
  {
    OthersOpen(g, s);
    ConnectShape(g.st, s);
    hide Sound, Quiet, Step;
    SessionChangeSound(g, Connected(g.st, s));
    QuietSound(g.(st := Connected(g.st, s)), Step(g.st, Connect(s)));
  }

  lemma {:induction false} ActSound(g: Staged, p: string, cmd: Command)
    requires cmd.Join? || cmd.Part? || cmd.Privmsg? || cmd.TaskNotice? || cmd.Chathistory?
    requires Sound(g) && Allowed(g, cmd) && Actor(g.st, cmd.s) == Some(p)
    ensures Sound(g.(st := Act(g.st, p, cmd)))
  {
    hide Sound;
    var st := g.st;
    match cmd {
      case Join(s, c, order) =>
        JoinIndexSound(g, p, c);
        QuietBroadcastRaw(JoinIndex(st, p, c), JoinedLine(p, c), order);
        QuietSound(g.(st := JoinIndex(st, p, c)), Act(st, p, cmd));
      case Part(s, c, order) =>
        PartIndexSound(g, p, c);
        QuietBroadcastRaw(PartIndex(st, p, c), PartedLine(p, c), order);
        QuietSound(g.(st := PartIndex(st, p, c)), Act(st, p, cmd));
      case Privmsg(s, c, body, msgId, at, order) =>
        if Seat(p, c) in st.cursors {
          PublishSound(g, c, p, body, msgId, at, order);
        } else {
          QuietSound(g, Deliver(st, s, NotOnChannel(c)));
        }
      case TaskNotice(s, c, body, msgId, at, order) => PublishSound(g, c, SERVER_NAME, body, msgId, at, order);
      case Chathistory(s, channels, after, limit) => ReplayAllSound(g, s, p, channels, after, limit);
    }
  }

  lemma {:induction false} WholeSound(g: Staged, cmd: Command)
    requires Sound(g) && Allowed(g, cmd)
    ensures Sound(g.(st := Step(g.st, cmd)))
  {
    hide Sound;
    match cmd {
      case BadPassword(s) =>
        if CanRegister(g.st, s) {
          QuietSound(g, Deliver(g.st, s, PasswordIncorrect));
        }
      case Connect(s) => ConnectSound(g, s);
      case ShutDown(s) => ShutDownSound(g, s);
      case Disconnect(s) => LeavingSound(g, cmd);
      case Abandon(s) => LeavingSound(g, cmd);
      case CloseReceiver(s) => LeavingSound(g, cmd);
      case Join(s, c, order) => ActOrRefuseSound(g, cmd);
      case Part(s, c, order) => ActOrRefuseSound(g, cmd);
      case Privmsg(s, c, body, msgId, at, order) => ActOrRefuseSound(g, cmd);
      case TaskNotice(s, c, body, msgId, at, order) => ActOrRefuseSound(g, cmd);
      case Chathistory(s, channels, after, limit) => ActOrRefuseSound(g, cmd);
    }
  }

  lemma {:induction false} ActOrRefuseSound(g: Staged, cmd: Command)
    requires cmd.Join? || cmd.Part? || cmd.Privmsg? || cmd.TaskNotice? || cmd.Chathistory?
    requires Sound(g) && Allowed(g, cmd)
    ensures Sound(g.(st := Step(g.st, cmd)))
  {
    hide Sound;
    if Actor(g.st, cmd.s).Some? {
      ActSound(g, Actor(g.st, cmd.s).value, cmd);
    } else {
      RefuseSound(g, cmd.s);
    }
  }

  // ----- Restarting -----

  lemma {:induction false} RestartState(st: State)
    ensures var r := Step(st, Restart);
      && SessionChange(st, r) && r.sent == st.sent && r.log == st.log
      && r.cursors == st.cursors && r.epochs == st.epochs
      && (forall p :: !Reaches(r, p))
  {
  }

  /** After a restart nothing above a cursor is expected, and what was owed up to it counts as forgotten. */
  lemma {:induction false} RestartedSeat(g: Staged, seat: Seat)
    requires seat in g.st.cursors && seat in g.st.epochs && SeatSound(g, seat)
    ensures var h := Advance(g, Whole(Restart));
      && seat in h.st.cursors && seat in h.st.epochs && SeatSound(h, seat)
  {
    var h := Advance(g, Whole(Restart));
    RestartState(g.st);
    hide Step, SessionChange, Reaches, AutoSent, Owed;
    assert Stream(h.st, seat) == Stream(g.st, seat);
    hide Stream;
    forall m | Due(h, seat, m) ensures m in Stream(h.st, seat) {
      assert Due(g, seat, m) && m.seqNo <= g.st.cursors[seat];
      assert (seat, m) !in Abandoned(g);
    }
  }

  lemma {:induction false} RestartSound(g: Staged)
    requires Sound(g)
    ensures Sound(Advance(g, Whole(Restart)))
  {
    var h := Advance(g, Whole(Restart));
    RestartState(g.st);
    SessionChangeBase(g.st, h.st);
    BaseKeys(g.st);
    forall seat | seat in h.st.cursors ensures seat in h.st.epochs && SeatSound(h, seat) {
      assert SeatSound(g, seat);
      RestartedSeat(g, seat);
    }
    hide Base, SeatSound, Step, SessionChange;
    SoundOf(h);
  }

  // ----- The parts of a registration -----

  lemma {:induction false} BeginBase(st: State, s: string, p: string)
    requires Base(st) && CanRegister(st, s)
    ensures Base(MarkConnected(st, s, p)) && Carries(st, MarkConnected(st, s, p))
  {
    var r := MarkConnected(st, s, p);
    forall seat | seat in r.cursors ensures Bounded(r, seat) {
      assert Bounded(st, seat);
    }
  }

  lemma {:induction false} BeginReg(st: State, s: string, p: string, order: seq<string>)
    requires Base(st) && CanRegister(st, s) && IsOpen(st, s) && Enumerates(order, Rooms(st, p))
    ensures RegOk(MarkConnected(st, s, p), s, Pending(p, SnapshotRows(st, p, order), false, 0))
  {
    var rows := SnapshotRows(st, p, order);
    var r, reg := MarkConnected(st, s, p), Pending(p, rows, false, 0);
    SnapshotRowsAt(st, p, order);
    forall i | 0 <= i < |rows| ensures RowOk(r, p, rows[i]) {
      assert order[i] in Rooms(st, p);
      assert Bounded(st, Seat(p, order[i]));
    }
    forall seat | seat in r.cursors && seat.principal == p ensures HasRow(reg, seat.channel) {
      var i := RowOf(st, p, order, seat);
      assert rows[i].channel == seat.channel;
    }
  }

  /** Another registration in progress owes nothing less. */
  lemma {:induction false} PendingGrows(g: Staged, h: Staged, seat: Seat)
    requires seat in g.st.cursors && seat in g.st.epochs && SeatSound(g, seat)
    requires h.st == g.st && h.forgotten == g.forgotten
    requires forall m :: Owed(g, seat, m) ==> Owed(h, seat, m)
    ensures SeatSound(h, seat)
  {
  }

  lemma {:induction false} BeginSound(g: Staged, s: string, p: string, order: seq<string>)
    requires Sound(g) && Permitted(g, Begin(s, p, order)) && CanRegister(g.st, s) && s !in g.pending
    ensures Sound(Advance(g, Begin(s, p, order)))
  {
    var st, h := g.st, Advance(g, Begin(s, p, order));
    var r := h.st;
    BeginBase(st, s, p);
    BeginReg(st, s, p, order);
    hide Base, RegOk, SeatSound, SnapshotRows;
    forall t | t in h.pending ensures RegOk(r, t, h.pending[t]) {
      if t != s {
        RegIsOpen(st, t, g.pending[t]);
        RegKept(st, r, t, g.pending[t]);
      }
    }
    BaseKeys(st);
    forall seat | seat in r.cursors ensures seat in r.epochs && SeatSound(h, seat) {
      BegunSeat(g, s, p, order, seat);
    }
    SoundOf(h);
  }

  lemma {:induction false} BegunSeat(g: Staged, s: string, p: string, order: seq<string>, seat: Seat)
    requires Base(g.st) && CanRegister(g.st, s) && s !in g.pending
    requires seat in g.st.cursors && seat in g.st.epochs && SeatSound(g, seat)
    ensures SeatSound(Advance(g, Begin(s, p, order)), seat)
  {
    var st, h := g.st, Advance(g, Begin(s, p, order));
    var mid := g.(st := h.st);
    assert Bounded(st, seat);
    hide SeatSound, RegOk, Base, SnapshotRows;
    SeatMovesKeep(g, h.st, seat, []);
    forall m | Owed(mid, seat, m) ensures Owed(h, seat, m) {
      var t :| t in g.pending && Owes(g.pending[t], seat, m);
      assert h.pending[t] == g.pending[t];
    }
    PendingGrows(mid, h, seat);
  }

  lemma {:induction false} IndexBase(st: State, s: string, reg: Pending)
    requires Base(st) && s in st.sessions && st.sessions[s].principal == Some(reg.principal) && Placed(st, reg)
    ensures var r := IndexSession(st, s, reg.principal, reg.rows);
      Base(r) && Carries(st, r)
  {
    var p, r := reg.principal, IndexSession(st, s, reg.principal, reg.rows);
    forall seat | seat in r.cursors
      ensures Bounded(r, seat)
      ensures seat.principal in Members(st.channels, seat.channel) ==>
        seat.principal in Members(r.channels, seat.channel)
      ensures seat.principal in r.clients ==> seat.principal in Members(r.channels, seat.channel)
    {
      assert Bounded(st, seat);
      AddToAllMembers(st.channels, p, reg.rows, seat.channel);
      if seat.principal == p && HasRow(reg, seat.channel) {
        var i :| 0 <= i < |reg.rows| && reg.rows[i].channel == seat.channel;
        assert reg.rows[i] in reg.rows;
      }
    }
  }

  /** Entering the index makes everything above the cursor due: a row of the snapshot owes it. */
  lemma {:induction false} IndexedSeat(g: Staged, s: string, seat: Seat)
    requires s in g.pending && !g.pending[s].indexed && Permitted(g, Index(s))
    requires forall t :: t in g.pending ==> RegOk(g.st, t, g.pending[t])
    requires Base(g.st) && seat in g.st.cursors && seat in g.st.epochs && SeatSound(g, seat)
    ensures var reg := g.pending[s];
      SeatSound(g.(st := IndexSession(g.st, s, reg.principal, reg.rows),
                   pending := g.pending[s := reg.(indexed := true)]), seat)
  {
    var st, reg := g.st, g.pending[s];
    var r := IndexSession(st, s, reg.principal, reg.rows);
    var h := g.(st := r, pending := g.pending[s := reg.(indexed := true)]);
    assert Bounded(st, seat);
    StreamGrows(st, r, seat, []);
    assert AutoSent([], seat.principal, seat.channel) == [];
    hide Stream, IndexSession;
    forall m | Due(h, seat, m) ensures m in Stream(r, seat) || Owed(h, seat, m) {
      if Due(g, seat, m) {
        if Owed(g, seat, m) {
          OwedWhenIndexed(g, s, seat, m);
        }
      } else {
        assert seat.principal == reg.principal && !Reaches(st, reg.principal) && st.cursors[seat] < m.seqNo;
        BacklogHas(st, seat, m);
        assert Covered(g, seat);
        CoveredOwes(g, seat, m);
        OwedWhenIndexed(g, s, seat, m);
      }
    }
  }

  lemma {:induction false} OwedWhenIndexed(g: Staged, s: string, seat: Seat, m: StoredMessage)
    requires s in g.pending && Owed(g, seat, m)
    ensures Owed(g.(st := IndexSession(g.st, s, g.pending[s].principal, g.pending[s].rows),
                    pending := g.pending[s := g.pending[s].(indexed := true)]), seat, m)
  {
    var t :| t in g.pending && Owes(g.pending[t], seat, m);
    var pending := g.pending[s := g.pending[s].(indexed := true)];
    assert Owes(pending[t], seat, m);
  }

  /** A row that is still to be replayed owes everything above the cursor: its snapshot is not above it. */
  lemma {:induction false} CoveredOwes(g: Staged, seat: Seat, m: StoredMessage)
    requires forall t :: t in g.pending ==> RegOk(g.st, t, g.pending[t])
    requires Covered(g, seat) && seat in g.st.cursors && g.st.cursors[seat] < m.seqNo
    ensures Owed(g, seat, m)
  {
    var s, i :| s in g.pending && g.pending[s].principal == seat.principal
      && g.pending[s].replayed <= i < |g.pending[s].rows| && g.pending[s].rows[i].channel == seat.channel;
    assert RowOk(g.st, g.pending[s].principal, g.pending[s].rows[i]);
    assert Owes(g.pending[s], seat, m);
  }

  lemma {:induction false} BacklogHas(st: State, seat: Seat, m: StoredMessage)
    requires ValidLog(st.log, st.counter) && seat in st.cursors
    requires m in st.log && m.channel == seat.channel && st.cursors[seat] < m.seqNo
    ensures m in Backlog(st, seat)
  {
    AboveIsTheRest(st.log, st.counter, seat.channel, st.cursors[seat]);
  }

  lemma {:induction false} IndexSound(g: Staged, s: string)
    requires Sound(g) && s in g.pending && !g.pending[s].indexed && Permitted(g, Index(s))
    ensures Sound(Advance(g, Index(s)))
  {
    var st, reg, h := g.st, g.pending[s], Advance(g, Index(s));
    var mid := h.(st := IndexSession(st, s, reg.principal, reg.rows));
    assert RegOk(st, s, reg);
    IndexBase(st, s, reg);
    QuietGreet(mid.st, s, reg.principal, reg.rows);
    hide Base, RegOk, SeatSound, Greet, IndexSession, Quiet;
    forall t | t in mid.pending ensures RegOk(mid.st, t, mid.pending[t]) {
      IndexedReg(g, s, t);
    }
    BaseKeys(st);
    IndexKeys(st, s, reg);
    forall seat | seat in mid.st.cursors ensures SeatSound(mid, seat) {
      IndexedSeat(g, s, seat);
    }
    hide Sound;
    assert Sound(mid) by { SoundOf(mid); }
    QuietSound(mid, h.st);
  }

  lemma {:induction false} SoundOf(g: Staged)
    requires Base(g.st)
    requires forall s :: s in g.pending ==> RegOk(g.st, s, g.pending[s])
    requires forall seat :: seat in g.st.cursors ==> seat in g.st.epochs && SeatSound(g, seat)
    ensures Sound(g)
  {
  }

  lemma {:induction false} IndexKeys(st: State, s: string, reg: Pending)
    ensures var r := IndexSession(st, s, reg.principal, reg.rows);
      r.cursors == st.cursors && r.epochs == st.epochs
  {
  }

  lemma {:induction false} IndexedReg(g: Staged, s: string, t: string)
    requires s in g.pending && t in g.pending && RegOk(g.st, s, g.pending[s]) && RegOk(g.st, t, g.pending[t])
    requires Carries(g.st, IndexSession(g.st, s, g.pending[s].principal, g.pending[s].rows))
    requires g.pending[s].replayed == 0
    ensures RegOk(IndexSession(g.st, s, g.pending[s].principal, g.pending[s].rows), t,
                  g.pending[s := g.pending[s].(indexed := true)][t])
  {
    var reg := g.pending[s];
    var r := IndexSession(g.st, s, reg.principal, reg.rows);
    RegKept(g.st, r, t, g.pending[t]);
    if t == s {
      assert RegOk(r, s, reg);
      var done := reg.(indexed := true);
      assert forall c :: HasRow(reg, c) <==> HasRow(done, c);
    }
  }

  lemma {:induction false} ReplayRowBase(st: State, s: string, p: string, row: Row)
    requires Base(st) && IsOpen(st, s) && st.sessions[s].principal == Some(p)
    ensures var r := ReplayRow(st, s, p, row);
      && Base(r) && Carries(st, r)
      && r == st.(cursors := r.cursors, sent := r.sent) && r.cursors.Keys == st.cursors.Keys
  {
    var page, r := Page(st.log, row.channel, row.cursor, REGISTRATION_REPLAY_LIMIT), ReplayRow(st, s, p, row);
    ReplayEffect(st, s, p, row.channel, row.cursor, REGISTRATION_REPLAY_LIMIT, AutoReplay);
    PageLinesOwners(s, p, page, AutoReplay);
    PageIsWindow(st.log, st.counter, row.channel, row.cursor, REGISTRATION_REPLAY_LIMIT);
    forall seat | seat in r.cursors ensures Bounded(r, seat) {
      assert Bounded(st, seat);
    }
  }

  /** With at most one page above the snapshot, a row's replay sends everything above it. */
  lemma {:induction false} ReplayRowSends(st: State, s: string, p: string, row: Row)
    requires IsOpen(st, s) && |Above(st.log, row.channel, row.cursor)| <= REGISTRATION_REPLAY_LIMIT
    ensures ReplayRow(st, s, p, row).sent
         == st.sent + PageLines(s, p, Above(st.log, row.channel, row.cursor), AutoReplay)
  {
    assert Page(st.log, row.channel, row.cursor, REGISTRATION_REPLAY_LIMIT) == Above(st.log, row.channel, row.cursor);
    hide Page, Above, PageLines;
    ReplayEffect(st, s, p, row.channel, row.cursor, REGISTRATION_REPLAY_LIMIT, AutoReplay);
  }

  lemma {:induction false} ReplayRowStream(st: State, s: string, p: string, row: Row, q: string, c: string)
    ensures AutoSent(PageLines(s, p, Above(st.log, row.channel, row.cursor), AutoReplay), q, c)
         == if q == p && c == row.channel then Above(st.log, row.channel, row.cursor) else []
  {
    AboveAll(st.log, row.channel, row.cursor);
    hide AutoSent, PageLines, Above;
    PageLinesFor(s, p, row.channel, Above(st.log, row.channel, row.cursor), AutoReplay, q, c);
  }

  /** The cursor of the row's seat moves to the last message above the snapshot, and no other cursor moves. */
  lemma {:induction false} ReplayRowMoves(st: State, s: string, p: string, row: Row, seat: Seat)
    requires ValidLog(st.log, st.counter) && seat in st.cursors
    requires |Above(st.log, row.channel, row.cursor)| <= REGISTRATION_REPLAY_LIMIT
    ensures var r, above := ReplayRow(st, s, p, row), Above(st.log, row.channel, row.cursor);
      && seat in r.cursors && st.cursors[seat] <= r.cursors[seat]
      && (seat != Seat(p, row.channel) ==> r.cursors[seat] == st.cursors[seat])
      && (seat == Seat(p, row.channel) ==> forall m :: m in above ==> m.seqNo <= r.cursors[seat])
  {
    var above := Above(st.log, row.channel, row.cursor);
    assert Page(st.log, row.channel, row.cursor, REGISTRATION_REPLAY_LIMIT) == above;
    AboveIsTheRest(st.log, st.counter, row.channel, row.cursor);
    hide Page, Above;
    ReplayEffect(st, s, p, row.channel, row.cursor, REGISTRATION_REPLAY_LIMIT, AutoReplay);
    hide ReplayRow;
    forall m | m in above ensures m.seqNo <= Last(above).seqNo {
      var i :| 0 <= i < |above| && above[i] == m;
    }
  }

  /** What the replay does to the row's own seat. */
  lemma {:induction false} ReplayedStream(st: State, s: string, p: string, row: Row)
    requires Base(st) && IsOpen(st, s) && st.sessions[s].principal == Some(p) && Seat(p, row.channel) in st.cursors
    requires |Above(st.log, row.channel, row.cursor)| <= REGISTRATION_REPLAY_LIMIT
    ensures var r, seat := ReplayRow(st, s, p, row), Seat(p, row.channel);
      var above := Above(st.log, row.channel, row.cursor);
      && r.log == st.log && r.epochs == st.epochs && r.clients == st.clients && r.sessions == st.sessions
      && seat in st.epochs && seat in r.cursors && st.cursors[seat] <= r.cursors[seat]
      && Stream(r, seat) == Stream(st, seat) + above
      && (forall m :: m in above ==> m.seqNo <= r.cursors[seat])
      && (forall m :: m in above <==> m in st.log && m.channel == row.channel && row.cursor < m.seqNo)
  {
    var seat := Seat(p, row.channel);
    assert Bounded(st, seat);
    ReplayRowBase(st, s, p, row);
    ReplayRowSends(st, s, p, row);
    ReplayRowStream(st, s, p, row, p, row.channel);
    ReplayRowMoves(st, s, p, row, seat);
    AboveIsTheRest(st.log, st.counter, row.channel, row.cursor);
    hide ReplayRow, Above, AutoSent, Base, PageLines, Carries;
    var above := Above(st.log, row.channel, row.cursor);
    StreamGrows(st, ReplayRow(st, s, p, row), seat, PageLines(s, p, above, AutoReplay));
  }

  /** The row's own seat: what the row owed is sent now, and the cursor passes only what was owed. */
  lemma {:induction false} ReplayedSeat(g: Staged, s: string, seat: Seat)
    requires Permitted(g, ReplayNext(s)) && Base(g.st)
    requires s in g.pending && g.pending[s].indexed && g.pending[s].replayed < |g.pending[s].rows|
    requires RegOk(g.st, s, g.pending[s]) && seat in g.st.cursors && seat in g.st.epochs && SeatSound(g, seat)
    requires seat == Seat(g.pending[s].principal, g.pending[s].rows[g.pending[s].replayed].channel)
    ensures var h := Advance(g, ReplayNext(s));
      seat in h.st.cursors && seat in h.st.epochs && SeatSound(h, seat)
  {
    var st, reg, h := g.st, g.pending[s], Advance(g, ReplayNext(s));
    var row, r := reg.rows[reg.replayed], h.st;
    assert RowOk(st, reg.principal, row);
    ReplayedStream(st, s, reg.principal, row);
    forall m | Owed(g, seat, m) && m.seqNo <= row.cursor ensures Owed(h, seat, m) {
      OwedAfterReplay(g, s, seat, m);
    }
    hide Stream, ReplayRow, Above, Base, RegOk, Owed, Permitted;
    forall m | Due(h, seat, m) ensures m in Stream(r, seat) || Owed(h, seat, m) {
      if row.cursor >= m.seqNo {
        assert Due(g, seat, m);
      }
    }
  }

  /** What other rows owe they still owe. */
  lemma {:induction false} OwedAfterReplay(g: Staged, s: string, seat: Seat, m: StoredMessage)
    requires s in g.pending && g.pending[s].indexed && g.pending[s].replayed < |g.pending[s].rows|
    requires Owed(g, seat, m)
    requires var reg := g.pending[s];
      seat != Seat(reg.principal, reg.rows[reg.replayed].channel) || m.seqNo <= reg.rows[reg.replayed].cursor
    ensures Owed(Advance(g, ReplayNext(s)), seat, m)
  {
    var h := Advance(g, ReplayNext(s));
    var t :| t in g.pending && Owes(g.pending[t], seat, m);
    if t == s {
      var reg := g.pending[s];
      var i :| reg.replayed <= i < |reg.rows| && reg.rows[i].channel == seat.channel && reg.rows[i].cursor < m.seqNo;
      assert i != reg.replayed;
      assert h.pending[s].rows[i] == reg.rows[i];
    }
    assert Owes(h.pending[t], seat, m);
  }

  lemma {:induction false} OtherSeatReplayed(g: Staged, s: string, seat: Seat)
    requires Permitted(g, ReplayNext(s)) && Base(g.st)
    requires s in g.pending && g.pending[s].indexed && g.pending[s].replayed < |g.pending[s].rows|
    requires RegOk(g.st, s, g.pending[s]) && seat in g.st.cursors && seat in g.st.epochs && SeatSound(g, seat)
    requires seat != Seat(g.pending[s].principal, g.pending[s].rows[g.pending[s].replayed].channel)
    ensures var h := Advance(g, ReplayNext(s));
      seat in h.st.cursors && seat in h.st.epochs && SeatSound(h, seat)
  {
    var st, reg, h := g.st, g.pending[s], Advance(g, ReplayNext(s));
    var p, row, r := reg.principal, reg.rows[reg.replayed], h.st;
    var mid := g.(st := r);
    ReplayRowBase(st, s, p, row);
    ReplayRowSends(st, s, p, row);
    ReplayRowStream(st, s, p, row, seat.principal, seat.channel);
    ReplayRowMoves(st, s, p, row, seat);
    assert Bounded(st, seat);
    hide SeatSound, Base, ReplayRow, RegOk, Above, PageLines, AutoSent, Carries, Permitted;
    SeatMovesKeep(g, r, seat, PageLines(s, p, Above(st.log, row.channel, row.cursor), AutoReplay));
    forall m | Owed(mid, seat, m) ensures Owed(h, seat, m) {
      assert Owed(g, seat, m);
      OwedAfterReplay(g, s, seat, m);
    }
    PendingGrows(mid, h, seat);
  }

  lemma {:induction false} ReplayNextSound(g: Staged, s: string)
    requires Sound(g) && Permitted(g, ReplayNext(s))
    requires s in g.pending && g.pending[s].indexed && g.pending[s].replayed < |g.pending[s].rows|
    ensures Sound(Advance(g, ReplayNext(s)))
  {
    var st, reg, h := g.st, g.pending[s], Advance(g, ReplayNext(s));
    var row := reg.rows[reg.replayed];
    RegIsOpen(st, s, reg);
    ReplayRowBase(st, s, reg.principal, row);
    hide Base, RegOk, SeatSound, ReplayRow, Permitted;
    forall t | t in h.pending ensures RegOk(h.st, t, h.pending[t]) {
      RegIsOpen(st, t, g.pending[t]);
      RegKept(st, h.st, t, g.pending[t]);
      if t == s {
        RegAdvances(h.st, s, reg);
      }
    }
    BaseKeys(st);
    forall seat | seat in h.st.cursors ensures seat in h.st.epochs && SeatSound(h, seat) {
      if seat == Seat(reg.principal, row.channel) {
        ReplayedSeat(g, s, seat);
      } else {
        OtherSeatReplayed(g, s, seat);
      }
    }
    SoundOf(h);
  }

  lemma {:induction false} RegAdvances(st: State, s: string, reg: Pending)
    requires RegOk(st, s, reg) && reg.indexed && reg.replayed < |reg.rows|
    ensures RegOk(st, s, reg.(replayed := reg.replayed + 1))
  {
    var done := reg.(replayed := reg.replayed + 1);
    assert forall c :: HasRow(reg, c) <==> HasRow(done, c);
  }

  lemma {:induction false} FinishSound(g: Staged, s: string)
    requires Sound(g)
    requires s in g.pending && g.pending[s].indexed && g.pending[s].replayed == |g.pending[s].rows|
    ensures Sound(Advance(g, Finish(s)))
  {
    var h := Advance(g, Finish(s));
    forall seat | seat in g.st.cursors ensures SeatSound(h, seat) {
      assert SeatSound(g, seat);
      forall m | Owed(g, seat, m) ensures Owed(h, seat, m) {
        var t :| t in g.pending && Owes(g.pending[t], seat, m);
        assert t in h.pending;
      }
    }
  }

  // ----- Whole runs -----

  lemma {:induction false} AdvanceSound(g: Staged, move: Move)
    requires Sound(g) && Permitted(g, move)
    ensures Sound(Advance(g, move))
  {
    hide Sound;
    if Advance(g, move) != g {
      match move {
        case Begin(s, p, order) => BeginSound(g, s, p, order);
        case Index(s) => IndexSound(g, s);
        case ReplayNext(s) => ReplayNextSound(g, s);
        case Finish(s) => FinishSound(g, s);
        case Whole(cmd) =>
          if cmd.Restart? {
            RestartSound(g);
          } else {
            WholeSound(g, cmd);
          }
      }
    }
  }

  lemma {:induction false} PlaySound(moves: seq<Move>)
    requires Smooth(moves)
    ensures Sound(Play(moves))
  {
    if moves != [] {
      PlaySound(Front(moves));
      hide Sound;
      AdvanceSound(Play(Front(moves)), Last(moves));
    }
  }

  /** A registration of the principal is in progress. */
  ghost predicate InProgress(g: Staged, p: string) {
    exists s :: s in g.pending && g.pending[s].principal == p
  }

  /**
    At least once, however registrations, commands and restarts interleave: every message a seat should have was
    enqueued to one of the principal's sessions, or a registration in progress will still replay it, or a restart
    came before a registration replayed it and after the cursor had passed it.
   */
  lemma {:induction false} NothingMissedAcrossStages(moves: seq<Move>, seat: Seat)
    requires Smooth(moves) && seat in Play(moves).st.cursors
    ensures seat in Play(moves).st.epochs && OwnersAgree(Play(moves).st.sessions, Play(moves).st.sent)
    ensures forall m :: Expected(Play(moves).st, seat, m) ==>
      || m in Stream(Play(moves).st, seat)
      || Owed(Play(moves), seat, m)
      || (seat, m) in Play(moves).forgotten
    ensures !InProgress(Play(moves), seat.principal) ==> forall m :: !Owed(Play(moves), seat, m)
  {
    PlaySound(moves);
    assert SeatSound(Play(moves), seat);
  }

  /** Whenever the server restarted, no registration of the principal was in progress. */
  ghost predicate RestartsAtRest(moves: seq<Move>, p: string) {
    moves == []
    || (RestartsAtRest(Front(moves), p) && (Last(moves) == Whole(Restart) ==> !InProgress(Play(Front(moves)), p)))
  }

  lemma {:induction false} AtRestNothingIsForgotten(moves: seq<Move>, seat: Seat)
    requires RestartsAtRest(moves, seat.principal)
    ensures forall m :: (seat, m) !in Play(moves).forgotten
  {
    if moves != [] {
      AtRestNothingIsForgotten(Front(moves), seat);
      var g := Play(Front(moves));
      if Last(moves) == Whole(Restart) {
        assert forall m :: !Owed(g, seat, m);
      }
      hide Owed, Greet, IndexSession, MarkConnected, SnapshotRows, ReplayRow, Step;
    }
  }

  /**
    A restart while no registration of the principal is in progress loses nothing: after runs with only such restarts,
    everything a seat should have was sent or is still to be replayed, and without a registration in progress everything
    up to the cursor was sent.
   */
  lemma {:induction false} RestartsAtRestLoseNothing(moves: seq<Move>, seat: Seat)
    requires Smooth(moves) && RestartsAtRest(moves, seat.principal) && seat in Play(moves).st.cursors
    ensures seat in Play(moves).st.epochs
    ensures forall m :: Expected(Play(moves).st, seat, m) ==>
      m in Stream(Play(moves).st, seat) || Owed(Play(moves), seat, m)
    ensures !InProgress(Play(moves), seat.principal) ==>
      forall m ::
        && m in Play(moves).st.log && m.channel == seat.channel
        && Play(moves).st.epochs[seat].baseline < m.seqNo <= Play(moves).st.cursors[seat]
        ==> m in Stream(Play(moves).st, seat)
  {
    NothingMissedAcrossStages(moves, seat);
    AtRestNothingIsForgotten(moves, seat);
    hide Stream, Owed, Smooth, RestartsAtRest, Reaches, Play, InProgress;
    if !InProgress(Play(moves), seat.principal) {
      forall m | m in Play(moves).st.log && m.channel == seat.channel
          && Play(moves).st.epochs[seat].baseline < m.seqNo <= Play(moves).st.cursors[seat]
        ensures m in Stream(Play(moves).st, seat)
      {
        assert Expected(Play(moves).st, seat, m);
      }
    }
  }

  /**
    The moment its last registration finishes, nothing of a principal's channels above the baselines is missing but what
    an earlier restart left behind.
   */
  lemma {:induction false} FinishedRegistrationMissedNothing(moves: seq<Move>, s: string, p: string, c: string)
    requires Smooth(moves) && s in Play(moves).pending && Play(moves).pending[s].principal == p
    requires Play(moves).pending[s].indexed && Play(moves).pending[s].replayed == |Play(moves).pending[s].rows|
    requires forall t :: t in Play(moves).pending && t != s ==> Play(moves).pending[t].principal != p
    requires Seat(p, c) in Play(moves).st.cursors && Reaches(Play(moves).st, p)
    ensures var g := Play(moves + [Finish(s)]);
      && Seat(p, c) in g.st.epochs
      && (forall m :: m in g.st.log && m.channel == c && g.st.epochs[Seat(p, c)].baseline < m.seqNo ==>
            m in Stream(g.st, Seat(p, c)) || (Seat(p, c), m) in g.forgotten)
  {
    var all := moves + [Finish(s)];
    assert Front(all) == moves && Last(all) == Finish(s);
    assert Smooth(all);
    NothingMissedAcrossStages(all, Seat(p, c));
    assert Play(all).pending == Play(moves).pending - {s};
    assert Play(all).st == Play(moves).st;
    hide Stream, Play, Owed;
  }

  /**
    The condition on entering the index is exact: when an unreached principal's session enters it, all that lies above
    the cursor of a seat will be replayed if and only if there is nothing, or some registration in progress has still to
    replay the channel.
   */
  lemma {:induction false} IndexExactIff(moves: seq<Move>, s: string, seat: Seat)
    requires Smooth(moves) && s in Play(moves).pending && !Play(moves).pending[s].indexed
    requires seat in Play(moves).st.cursors && seat.principal == Play(moves).pending[s].principal
    requires !Reaches(Play(moves).st, seat.principal)
    ensures var g, h := Play(moves), Advance(Play(moves), Index(s));
      && seat in h.st.cursors && seat in h.st.epochs
      && (forall m :: m in Backlog(g.st, seat) ==> Expected(h.st, seat, m))
      && ((forall m :: m in Backlog(g.st, seat) ==> m in Stream(h.st, seat) || Owed(h, seat, m))
            <==> Covered(g, seat) || Backlog(g.st, seat) == [])
  {
    PlaySound(moves);
    IndexMakesDue(Play(moves), s, seat);
  }

  lemma {:induction false} IndexState(g: Staged, s: string, seat: Seat)
    requires Sound(g) && s in g.pending && !g.pending[s].indexed
    requires seat in g.st.cursors && seat.principal == g.pending[s].principal
    ensures var h := Advance(g, Index(s));
      && h.st.log == g.st.log && h.st.cursors == g.st.cursors && h.st.epochs == g.st.epochs && seat in g.st.epochs
      && Stream(h.st, seat) == Stream(g.st, seat) && Reaches(h.st, seat.principal)
      && h.pending == g.pending[s := g.pending[s].(indexed := true)]
  {
    var st, reg, h := g.st, g.pending[s], Advance(g, Index(s));
    var mid := IndexSession(st, s, reg.principal, reg.rows);
    assert RegOk(st, s, reg) && Bounded(st, seat);
    QuietGreet(mid, s, reg.principal, reg.rows);
    assert h.st.sent == st.sent + News(mid, h.st);
    hide Greet, Sound, News, RegOk;
    AutoSentOfControl(News(mid, h.st), seat.principal, seat.channel);
    hide AutoSent;
    StreamGrows(st, h.st, seat, News(mid, h.st));
  }

  lemma {:induction false} IndexMakesDue(g: Staged, s: string, seat: Seat)
    requires Sound(g) && s in g.pending && !g.pending[s].indexed
    requires seat in g.st.cursors && seat.principal == g.pending[s].principal
    ensures var h := Advance(g, Index(s));
      && seat in h.st.cursors && seat in h.st.epochs
      && (forall m :: m in Backlog(g.st, seat) ==> Expected(h.st, seat, m))
      && ((forall m :: m in Backlog(g.st, seat) ==> m in Stream(h.st, seat) || Owed(h, seat, m))
            <==> Covered(g, seat) || Backlog(g.st, seat) == [])
  {
    var h := Advance(g, Index(s));
    IndexState(g, s, seat);
    assert SeatSound(g, seat) && Bounded(g.st, seat);
    AboveIsTheRest(g.st.log, g.st.counter, seat.channel, g.st.cursors[seat]);
    hide Advance, Stream, Base, Above, Reaches, Owed;
    forall m | m in Backlog(g.st, seat)
      ensures m !in Stream(h.st, seat) && (Owed(h, seat, m) <==> Covered(g, seat))
    {
      assert SentBelow(g.st, seat);
      OwedIffCovered(g, h, s, seat, m);
    }
    hide Sound;
    if Backlog(g.st, seat) != [] {
      assert Backlog(g.st, seat)[0] in Backlog(g.st, seat);
    }
  }

  /** Entering the index changes nothing in who is to replay what. */
  lemma {:induction false} OwedIffCovered(g: Staged, h: Staged, s: string, seat: Seat, m: StoredMessage)
    requires forall t :: t in g.pending ==> RegOk(g.st, t, g.pending[t])
    requires seat in g.st.cursors && g.st.cursors[seat] < m.seqNo
    requires s in g.pending && h.pending == g.pending[s := g.pending[s].(indexed := true)]
    ensures Owed(h, seat, m) <==> Covered(g, seat)
  {
    hide RegOk;
    if Covered(g, seat) {
      CoveredOwes(g, seat, m);
      var t :| t in g.pending && Owes(g.pending[t], seat, m);
      assert Owes(h.pending[t], seat, m);
    }
    if Owed(h, seat, m) {
      var t :| t in h.pending && Owes(h.pending[t], seat, m);
      var i :| h.pending[t].replayed <= i < |h.pending[t].rows| && h.pending[t].rows[i].channel == seat.channel;
      assert g.pending[t].rows[i].channel == seat.channel;
    }
  }

  // ----- The parts make up the whole -----

  ghost function Replays(s: string, n: nat): seq<Move> {
    if n == 0 then [] else Replays(s, n - 1) + [ReplayNext(s)]
  }

  ghost function PlayFrom(g: Staged, moves: seq<Move>): Staged {
    if moves == [] then g else Advance(PlayFrom(g, Front(moves)), Last(moves))
  }

  lemma {:induction false} ReplaysPlay(g: Staged, s: string, n: nat)
    requires s in g.pending && g.pending[s].indexed && g.pending[s].replayed == 0 && n <= |g.pending[s].rows|
    ensures PlayFrom(g, Replays(s, n)) == g.(
      st := ReplayRows(g.st, s, g.pending[s].principal, g.pending[s].rows[..n]),
      pending := g.pending[s := g.pending[s].(replayed := n)])
  {
    hide ReplayRow;
    var reg := g.pending[s];
    if n == 0 {
      assert g.pending[s := reg.(replayed := 0)] == g.pending;
    } else {
      ReplaysPlay(g, s, n - 1);
      var before := PlayFrom(g, Replays(s, n - 1));
      assert Front(Replays(s, n)) == Replays(s, n - 1) && Last(Replays(s, n)) == ReplayNext(s);
      assert PlayFrom(g, Replays(s, n)) == Advance(before, ReplayNext(s));
      assert Front(reg.rows[..n]) == reg.rows[..n - 1] && Last(reg.rows[..n]) == reg.rows[n - 1];
      assert before.pending[s := reg.(replayed := n)] == g.pending[s := reg.(replayed := n)];
    }
  }

  lemma {:induction false} FirstTwoMoves(g: Staged, s: string, p: string, order: seq<string>)
    requires CanRegister(g.st, s) && s !in g.pending
    ensures var rows := SnapshotRows(g.st, p, order);
      Advance(Advance(g, Begin(s, p, order)), Index(s))
        == g.(st := Greet(IndexSession(MarkConnected(g.st, s, p), s, p, rows), s, p, rows),
              pending := g.pending[s := Pending(p, rows, true, 0)])
  {
    hide MarkConnected, IndexSession, Greet, SnapshotRows;
    var rows := SnapshotRows(g.st, p, order);
    assert g.pending[s := Pending(p, rows, false, 0)][s := Pending(p, rows, true, 0)]
        == g.pending[s := Pending(p, rows, true, 0)];
  }

  lemma {:induction false} LastMove(g: Staged, pending: map<string, Pending>, s: string)
    requires s in g.pending && g.pending[s].indexed && g.pending[s].replayed == |g.pending[s].rows|
    requires s !in pending && g.pending == pending[s := g.pending[s]]
    ensures Advance(g, Finish(s)) == g.(pending := pending)
  {
    assert g.pending - {s} == pending;
  }

  lemma {:induction false} RegisterReplays(st: State, s: string, p: string, order: seq<string>)
    requires CanRegister(st, s)
    ensures var rows := SnapshotRows(st, p, order);
      Step(st, Register(s, p, order))
        == ReplayRows(Greet(IndexSession(MarkConnected(st, s, p), s, p, rows), s, p, rows), s, p, rows)
  {
  }

  lemma {:induction false} PlaySnoc(g: Staged, moves: seq<Move>, move: Move)
    ensures PlayFrom(g, moves + [move]) == Advance(PlayFrom(g, moves), move)
  {
    assert Front(moves + [move]) == moves;
  }

  lemma {:induction false} StagesEnd(g: Staged, st: State, s: string, p: string, rows: seq<Row>)
    requires s !in g.pending
    ensures var mid := g.(st := st, pending := g.pending[s := Pending(p, rows, true, 0)]);
      PlayFrom(mid, Replays(s, |rows|) + [Finish(s)]) == g.(st := ReplayRows(st, s, p, rows))
  {
    hide Advance, ReplayRows, Replays, PlayFrom;
    var reg := Pending(p, rows, true, 0);
    var mid := g.(st := st, pending := g.pending[s := reg]);
    assert rows[..|rows|] == rows;
    ReplaysPlay(mid, s, |rows|);
    PlaySnoc(mid, Replays(s, |rows|), Finish(s));
    var played := PlayFrom(mid, Replays(s, |rows|));
    assert played.pending == g.pending[s := reg.(replayed := |rows|)];
    LastMove(played, g.pending, s);
  }

  /** Run without anything in between, the parts amount to the one-step registration. */
  lemma {:induction false} UninterruptedStagesAreOneStep(g: Staged, s: string, p: string, order: seq<string>)
    requires CanRegister(g.st, s) && s !in g.pending
    ensures var rows := SnapshotRows(g.st, p, order);
      PlayFrom(Advance(Advance(g, Begin(s, p, order)), Index(s)), Replays(s, |rows|) + [Finish(s)])
        == g.(st := Step(g.st, Register(s, p, order)))
  {
    FirstTwoMoves(g, s, p, order);
    RegisterReplays(g.st, s, p, order);
    hide *;
    var rows := SnapshotRows(g.st, p, order);
    StagesEnd(g, Greet(IndexSession(MarkConnected(g.st, s, p), s, p, rows), s, p, rows), s, p, rows);
  }
}
