/**
  Where the exactly-once promise ends: runs that reach a backlog of any size and a replay into a closed receiver, and
  what such replays do in every run.
 */
module BouncerLimits {
  import opened Prelude
  import opened History
  import opened Memberships
  import opened Bouncer
  import opened BouncerFacts
  import opened BouncerRuns

  // ----- Setting the stage -----

  /** `p` registers through `a` and joins the channel. */
  function Joining(p: string, c: string, a: string): seq<Command> {
    [Connect(a)] + [Register(a, p, [])] + [Join(a, c, [p])]
  }

  function Member(p: string, c: string, a: string): State {
    INIT.(cursors := map[Seat(p, c) := 0], epochs := map[Seat(p, c) := Epoch(0, 2)], channels := map[c := {p}],
          connected := {p}, clients := map[p := a], sessions := map[a := Of(p, true)],
          sent := [Enqueued(a, Hello)] + [Enqueued(a, Welcome(p))] + [Enqueued(a, JoinedLine(p, c))])
  }

  lemma {:induction false} FirstRegistration(p: string, a: string)
    ensures var st := INIT.(sessions := map[a := Session(None, true, true)], sent := [Enqueued(a, Hello)]);
      RegisterSession(st, a, p, [])
        == INIT.(connected := {p}, clients := map[p := a], sessions := map[a := Of(p, true)],
                 sent := [Enqueued(a, Hello)] + [Enqueued(a, Welcome(p))])
  {
  }

  lemma {:induction false} Joins(p: string, c: string, a: string)
    ensures Admissible(Joining(p, c, a)) && Run(Joining(p, c, a)) == Member(p, c, a)
  {
    var s1 := INIT.(sessions := map[a := Session(None, true, true)], sent := [Enqueued(a, Hello)]);
    var s2 := INIT.(connected := {p}, clients := map[p := a], sessions := map[a := Of(p, true)],
                    sent := [Enqueued(a, Hello)] + [Enqueued(a, Welcome(p))]);
    assert [] + [Connect(a)] == [Connect(a)];
    RunSnoc([], Connect(a), INIT);
    assert Step(INIT, Connect(a)) == s1;
    assert Rooms(s1, p) == {};
    FirstRegistration(p, a);
    RunSnoc([Connect(a)], Register(a, p, []), s1);
    JoinsStep(p, c, a, s2);
    RunSnoc([Connect(a)] + [Register(a, p, [])], Join(a, c, [p]), s2);
  }

  lemma {:induction false} JoinsStep(p: string, c: string, a: string, st: State)
    requires st == INIT.(connected := {p}, clients := map[p := a], sessions := map[a := Of(p, true)],
                         sent := [Enqueued(a, Hello)] + [Enqueued(a, Welcome(p))])
    ensures Legal(st, Join(a, c, [p])) && Step(st, Join(a, c, [p])) == Member(p, c, a)
  {
    JoinsAlone(st, a, p, c);
  }

  /** Then `q` registers through `b`. */
  function WithOther(st: State, q: string, b: string): State {
    st.(connected := st.connected + {q}, clients := st.clients[q := b], sessions := st.sessions[b := Of(q, true)],
        sent := st.sent + [Enqueued(b, Hello)] + [Enqueued(b, Welcome(q))])
  }

  lemma {:induction false} OtherRegisters(cmds: seq<Command>, st: State, q: string, b: string)
    requires Admissible(cmds) && Run(cmds) == st && b !in st.sessions && q !in st.clients
    requires forall seat :: seat in st.cursors ==> seat.principal != q
    ensures Admissible(cmds + [Connect(b)] + [Register(b, q, [])])
    ensures Run(cmds + [Connect(b)] + [Register(b, q, [])]) == WithOther(st, q, b)
  {
    var s1 := st.(sessions := st.sessions[b := Session(None, true, true)], sent := st.sent + [Enqueued(b, Hello)]);
    RunSnoc(cmds, Connect(b), st);
    assert Step(st, Connect(b)) == s1;
    assert Rooms(s1, q) == {};
    OtherStep(st, s1, q, b);
    RunSnoc(cmds + [Connect(b)], Register(b, q, []), s1);
  }

  lemma {:induction false} OtherStep(st: State, s1: State, q: string, b: string)
    requires q !in st.clients
    requires s1 == st.(sessions := st.sessions[b := Session(None, true, true)], sent := st.sent + [Enqueued(b, Hello)])
    ensures Step(s1, Register(b, q, [])) == WithOther(st, q, b)
  {
    assert s1.sessions[b := Of(q, true)] == st.sessions[b := Of(q, true)];
  }

  // ----- A backlog of any size -----

  function Said(c: string, n: nat): seq<StoredMessage> {
    if n == 0 then [] else Said(c, n - 1) + [StoredMessage(n, "", c, SERVER_NAME, "", 0)]
  }

  function Talk(b: string, c: string, n: nat): seq<Command> {
    if n == 0 then [] else Talk(b, c, n - 1) + [TaskNotice(b, c, "", "", 0, [])]
  }

  lemma {:induction false} TalkRuns(cmds: seq<Command>, st: State, b: string, c: string, n: nat)
    requires Admissible(cmds) && Run(cmds) == st && Actor(st, b).Some? && Recipients(st, c) == {}
    requires st.log == [] && st.counter == 0
    ensures Admissible(cmds + Talk(b, c, n))
    ensures Run(cmds + Talk(b, c, n)) == st.(log := Said(c, n), counter := n)
  {
    hide Admissible, Run, Step, Legal, Undisturbed, Recipients, Actor;
    if n == 0 {
      assert cmds + [] == cmds;
    } else {
      var earlier, cmd := Talk(b, c, n - 1), TaskNotice(b, c, "", "", 0, []);
      var mid := st.(log := Said(c, n - 1), counter := n - 1);
      TalkRuns(cmds, st, b, c, n - 1);
      TalkStep(st, b, c, n);
      assert Talk(b, c, n) == earlier + [cmd];
      assert cmds + (earlier + [cmd]) == cmds + earlier + [cmd];
      hide Talk, Said;
      RunSnoc(cmds + earlier, cmd, mid);
    }
  }

  lemma {:induction false} TalkStep(st: State, b: string, c: string, n: nat)
    requires n > 0 && Actor(st, b).Some? && Recipients(st, c) == {}
    ensures var mid := st.(log := Said(c, n - 1), counter := n - 1);
      && Legal(mid, TaskNotice(b, c, "", "", 0, [])) && Undisturbed(mid, TaskNotice(b, c, "", "", 0, []))
      && Step(mid, TaskNotice(b, c, "", "", 0, [])) == st.(log := Said(c, n), counter := n)
  {
    var mid := st.(log := Said(c, n - 1), counter := n - 1);
    assert Recipients(mid, c) == {};
    assert Publish(mid, c, SERVER_NAME, "", "", 0, []) == st.(log := Said(c, n), counter := n);
  }

  lemma {:induction false} AllAbove(c: string, n: nat)
    ensures Above(Said(c, n), c, 0) == Said(c, n) && |Said(c, n)| == n
  {
    if n > 0 {
      AllAbove(c, n - 1);
      assert Front(Said(c, n)) == Said(c, n - 1);
    }
  }

  /** `p` leaves, `q` says `n` things, and a new session connects. */
  function Absence(p: string, q: string, c: string, a: string, b: string, d: string, n: nat): seq<Command> {
    Joining(p, c, a) + [Disconnect(a)] + [Connect(b)] + [Register(b, q, [])] + Talk(b, c, n) + [Connect(d)]
  }

  function Gone(p: string, c: string, a: string): State {
    Member(p, c, a).(connected := {}, clients := map[], sessions := map[a := Session(Some(p), false, false)])
  }

  /** The state when `q` has said everything. */
  function Missed(p: string, q: string, c: string, a: string, b: string, n: nat): State {
    WithOther(Gone(p, c, a), q, b).(log := Said(c, n), counter := n)
  }

  lemma {:induction false} AbsenceRuns(
      p: string, q: string, c: string, a: string, b: string, d: string, n: nat)
    requires p != q && a != b && a != d && b != d
    ensures Admissible(Absence(p, q, c, a, b, d, n))
    ensures Run(Absence(p, q, c, a, b, d, n)) == Step(Missed(p, q, c, a, b, n), Connect(d))
  {
    var m1 := Joining(p, c, a) + [Disconnect(a)];
    var m3 := m1 + [Connect(b)] + [Register(b, q, [])];
    Joins(p, c, a);
    LeavesStep(p, q, c, a, b);
    hide Joining, Admissible, Run, Step, Recipients, Actor, Talk, Said;
    RunSnoc(Joining(p, c, a), Disconnect(a), Member(p, c, a));
    OtherRegisters(m1, Gone(p, c, a), q, b);
    TalkRuns(m3, WithOther(Gone(p, c, a), q, b), b, c, n);
    RunSnoc(m3 + Talk(b, c, n), Connect(d), Missed(p, q, c, a, b, n));
  }

  /** Every backlog is reached by a run in which nothing is out of the ordinary. */
  lemma {:induction false} AnyBacklogIsReached(
      p: string, q: string, c: string, a: string, b: string, d: string, n: nat)
    requires p != q && a != b && a != d && b != d
    ensures var cmds := Absence(p, q, c, a, b, d, n);
      && Admissible(cmds) && CanRegister(Run(cmds), d) && IsOpen(Run(cmds), d)
      && Run(cmds).cursors.Keys == {Seat(p, c)} && |Backlog(Run(cmds), Seat(p, c))| == n
  {
    AbsenceRuns(p, q, c, a, b, d, n);
    ArrivedState(Missed(p, q, c, a, b, n), p, c, d);
    AllAbove(c, n);
    hide Absence, Admissible, Run, Step, Said;
  }

  lemma {:induction false} LeavesStep(p: string, q: string, c: string, a: string, b: string)
    requires p != q && a != b
    ensures Legal(Member(p, c, a), Disconnect(a)) && Undisturbed(Member(p, c, a), Disconnect(a))
    ensures Step(Member(p, c, a), Disconnect(a)) == Gone(p, c, a)
    ensures var st := WithOther(Gone(p, c, a), q, b);
      Actor(st, b).Some? && Recipients(st, c) == {}
  {
    assert Member(p, c, a).connected - {p} == {} && Member(p, c, a).clients - {p} == map[];
  }

  lemma {:induction false} ArrivedState(st: State, p: string, c: string, d: string)
    requires d !in st.sessions && st.cursors == map[Seat(p, c) := 0]
    ensures Legal(st, Connect(d)) && Undisturbed(st, Connect(d))
    ensures var r := Step(st, Connect(d));
      && CanRegister(r, d) && IsOpen(r, d) && r.log == st.log && r.cursors == st.cursors
  {
  }

  lemma {:induction false} OnlyRoom(st: State, p: string, c: string)
    requires st.cursors.Keys == {Seat(p, c)}
    ensures Seat(p, c) in st.cursors && Enumerates([c], Rooms(st, p))
  {
    assert Seat(p, c) in st.cursors.Keys;
    assert Rooms(st, p) == {c};
  }

  lemma {:induction false} RegisteredMembers(st: State, s: string, p: string, order: seq<string>)
    requires Inv(st) && CanRegister(st, s) && IsOpen(st, s) && Enumerates(order, Rooms(st, p))
    ensures var r := RegisterSession(st, s, p, order);
      Indexed(r) && r.cursors.Keys == st.cursors.Keys && p in r.clients
  {
    hide RegisterSession, Core, Indexed, CaughtUp, Backlog;
    RegisterEffect(st, s, p, order);
  }

  /** What the registration that ends the absence finds and leaves. */
  lemma {:induction false} ReturnsAlone(st: State, d: string, p: string, c: string)
    requires Inv(st) && CanRegister(st, d) && IsOpen(st, d) && st.cursors.Keys == {Seat(p, c)}
    ensures Seat(p, c) in st.cursors && Enumerates([c], Rooms(st, p))
    ensures Enumerates([p], Recipients(RegisterSession(st, d, p, [c]), c))
  {
    hide *;
    OnlyRoom(st, p, c);
    RegisteredMembers(st, d, p, [c]);
    OnlyMember(RegisterSession(st, d, p, [c]), p, c);
  }

  lemma {:induction false} RegistersAs(st: State, d: string, p: string, order: seq<string>)
    requires CanRegister(st, d)
    ensures Step(st, Register(d, p, order)) == RegisterSession(st, d, p, order)
    ensures Legal(st, Register(d, p, order)) <==> Enumerates(order, Rooms(st, p))
  {
  }

  /**
    So the 200 of the registration's replay is the exact bound: a member that comes back to `n` missed messages is left
    with a gap by the next message exactly when `n` is more than that.
   */
  lemma {:induction false} LongAbsenceLeavesAGapIff(
      p: string, q: string, c: string, a: string, b: string, d: string, n: nat,
      sender: string, body: string, msgId: string, at: int)
    requires p != q && a != b && a != d && b != d
    ensures var cmds := Absence(p, q, c, a, b, d, n);
      var registered := Step(Run(cmds), Register(d, p, [c]));
      var after := Publish(registered, c, sender, body, msgId, at, [p]);
      && Admissible(cmds) && Legal(Run(cmds), Register(d, p, [c])) && Enumerates([p], Recipients(registered, c))
      && Seat(p, c) in after.cursors && Seat(p, c) in after.epochs
      && (ExactlyOnce(after, Seat(p, c)) <==> n <= REGISTRATION_REPLAY_LIMIT)
  {
    hide *;
    var cmds := Absence(p, q, c, a, b, d, n);
    var st := Run(cmds);
    AnyBacklogIsReached(p, q, c, a, b, d, n);
    RunKeepsInv(cmds);
    ReturnsAlone(st, d, p, c);
    RegistersAs(st, d, p, [c]);
    NextMessageGapFreeIffBacklogFits(
      cmds, d, p, [c], RegisterSession(st, d, p, [c]), c, sender, body, msgId, at, [p]);
  }

  lemma {:induction false} OnlyMember(st: State, p: string, c: string)
    requires Indexed(st) && st.cursors.Keys == {Seat(p, c)} && p in st.clients
    ensures Enumerates([p], Recipients(st, c))
  {
    assert Seat(p, c) in st.cursors.Keys;
    forall x | x in Recipients(st, c) ensures x == p {
      assert Seat(x, c) in st.cursors.Keys;
    }
    assert Recipients(st, c) == {p};
  }

  // ----- Replays into a closed receiver -----

  /** In every run, history asked for through a closed receiver keeps the stream exact iff it ends at the cursor. */
  lemma {:induction false} ClosedHistoryExactIff(
      cmds: seq<Command>, s: string, p: string, c: string, after: int, limit: int)
    requires Admissible(cmds) && Actor(Run(cmds), s) == Some(p) && !IsOpen(Run(cmds), s)
    requires Seat(p, c) in Run(cmds).cursors
    ensures var st, r := Run(cmds), Step(Run(cmds), Chathistory(s, [c], after, limit));
      var page := Page(st.log, c, after, limit);
      && Seat(p, c) in r.cursors && Seat(p, c) in r.epochs
      && (ExactlyOnce(r, Seat(p, c)) <==> page == [] || Last(page).seqNo <= st.cursors[Seat(p, c)])
  {
    RunKeepsInv(cmds);
    hide Admissible, Run, ExactlyOnce, IsOpen, Step, Indexed, ActiveCaughtUp, Page;
    CoreKeys(Run(cmds));
    HistoryStep(Run(cmds), s, p, c, after, limit);
    ClosedReplayExactIff(Run(cmds), s, p, c, after, limit, Requested);
  }

  lemma {:induction false} CoreKeys(st: State)
    requires Core(st)
    ensures st.cursors.Keys == st.epochs.Keys
  {
  }

  lemma {:induction false} HistoryStep(st: State, s: string, p: string, c: string, after: int, limit: int)
    requires Actor(st, s) == Some(p)
    ensures Step(st, Chathistory(s, [c], after, limit)) == Replay(st, s, p, c, after, limit, Requested)
  {
    assert Front([c]) == [];
    assert ReplayAll(st, s, p, [], after, limit, Requested) == st;
  }

  /** The rows of a closed session's replay move the cursors and send nothing. */
  lemma {:induction false} ClosedRows(st: State, s: string, p: string, rows: seq<Row>, i: nat)
    requires FreshRows(st, p, rows) && i < |rows| && !IsOpen(st, s)
    ensures var seat, r := Seat(p, rows[i].channel), ReplayRows(st, s, p, rows);
      var page := Page(st.log, rows[i].channel, rows[i].cursor, REGISTRATION_REPLAY_LIMIT);
      && r == st.(cursors := r.cursors) && r.cursors.Keys == st.cursors.Keys && seat in st.cursors
      && r.cursors[seat] == if page == [] then st.cursors[seat] else Max(st.cursors[seat], Last(page).seqNo)
  {
    var seat, last := Seat(p, rows[i].channel), Last(rows);
    var mid := ReplayRows(st, s, p, Front(rows));
    LastRowStaysFresh(st, s, p, rows);
    ClosedRowsFrame(st, s, p, Front(rows));
    ReplayEffect(mid, s, p, last.channel, last.cursor, REGISTRATION_REPLAY_LIMIT, AutoReplay);
    if i < |rows| - 1 {
      ClosedRows(st, s, p, Front(rows), i);
      assert rows[i].channel != rows[|rows| - 1].channel;
    }
  }

  lemma {:induction false} ClosedRowsFrame(st: State, s: string, p: string, rows: seq<Row>)
    requires !IsOpen(st, s)
    ensures var r := ReplayRows(st, s, p, rows);
      r == st.(cursors := r.cursors) && r.cursors.Keys == st.cursors.Keys
  {
    if rows != [] {
      ClosedRowsFrame(st, s, p, Front(rows));
      var mid, last := ReplayRows(st, s, p, Front(rows)), Last(rows);
      ReplayEffect(mid, s, p, last.channel, last.cursor, REGISTRATION_REPLAY_LIMIT, AutoReplay);
    }
  }

  /** A cursor that moves while nothing is sent leaves the stream exact only when it passes no message. */
  lemma {:induction false} SilentMoveExactIff(st: State, r: State, seat: Seat, page: seq<StoredMessage>)
    requires Core(st) && seat in st.cursors && seat in r.cursors && r.log == st.log && r.epochs == st.epochs
    requires Stream(r, seat) == Stream(st, seat)
    requires page == Page(st.log, seat.channel, st.cursors[seat], REGISTRATION_REPLAY_LIMIT)
    requires r.cursors[seat] == if page == [] then st.cursors[seat] else Max(st.cursors[seat], Last(page).seqNo)
    ensures seat in r.epochs && (ExactlyOnce(r, seat) <==> Backlog(st, seat) == [])
  {
    var c, k := seat.channel, st.cursors[seat];
    assert SeatOk(st, seat);
    PageIsWindow(st.log, st.counter, c, k, REGISTRATION_REPLAY_LIMIT);
    if page != [] {
      AboveAll(st.log, c, k);
      WindowsAgreeIff(st.log, st.counter, c, st.epochs[seat].baseline, k, r.cursors[seat]);
      WindowEmptyIff(st.log, st.counter, c, k, Last(page));
    }
  }

  lemma {:induction false} ClosedGreet(st: State, s: string, p: string, rows: seq<Row>)
    requires !IsOpen(st, s)
    ensures Greet(st, s, p, rows) == st
  {
    ClosedGreetRooms(st, s, p, rows);
  }

  lemma {:induction false} ClosedGreetRooms(st: State, s: string, p: string, rows: seq<Row>)
    requires !IsOpen(st, s)
    ensures GreetRooms(st, s, p, rows) == st
  {
    if rows != [] {
      ClosedGreetRooms(st, s, p, Front(rows));
    }
  }

  /** In every run, a registration through a closed receiver keeps a seat's stream exact iff nothing was missed. */
  lemma {:induction false} ClosedRegistrationExactIff(
      cmds: seq<Command>, s: string, p: string, order: seq<string>, seat: Seat)
    requires Admissible(cmds) && CanRegister(Run(cmds), s) && !IsOpen(Run(cmds), s)
    requires Enumerates(order, Rooms(Run(cmds), p)) && seat in Run(cmds).cursors && seat.principal == p
    ensures var r := Step(Run(cmds), Register(s, p, order));
      && seat in r.cursors && seat in r.epochs
      && (ExactlyOnce(r, seat) <==> Backlog(Run(cmds), seat) == [])
  {
    var st := Run(cmds);
    RunKeepsInv(cmds);
    ClosedRegistrationExact(st, s, p, order, seat);
  }

  lemma {:induction false} ClosedRegistrationMoves(
      st: State, s: string, p: string, order: seq<string>, seat: Seat)
    requires CanRegister(st, s) && !IsOpen(st, s)
    requires Enumerates(order, Rooms(st, p)) && seat in st.cursors && seat.principal == p
    ensures var r := RegisterSession(st, s, p, order);
      var page := Page(st.log, seat.channel, st.cursors[seat], REGISTRATION_REPLAY_LIMIT);
      && r.log == st.log && r.epochs == st.epochs && r.sent == st.sent && seat in r.cursors
      && r.cursors[seat] == if page == [] then st.cursors[seat] else Max(st.cursors[seat], Last(page).seqNo)
  {
    var rows, g := SnapshotRows(st, p, order), Greeted(st, s, p, order);
    var i := RowOf(st, p, order, seat);
    GreetedShape(st, s, p, order);
    ClosedGreet(IndexSession(MarkConnected(st, s, p), s, p, rows), s, p, rows);
    assert g.sent == st.sent;
    hide Greeted, GreetRooms, SnapshotRows, Page;
    ClosedRows(g, s, p, rows, i);
  }

  lemma {:induction false} ClosedRegistrationExact(st: State, s: string, p: string, order: seq<string>, seat: Seat)
    requires Inv(st) && CanRegister(st, s) && !IsOpen(st, s)
    requires Enumerates(order, Rooms(st, p)) && seat in st.cursors && seat.principal == p
    ensures var r := RegisterSession(st, s, p, order);
      && seat in r.cursors && seat in r.epochs
      && (ExactlyOnce(r, seat) <==> Backlog(st, seat) == [])
  {
    var r := RegisterSession(st, s, p, order);
    ClosedRegistrationMoves(st, s, p, order, seat);
    hide RegisterSession, Indexed, ActiveCaughtUp, Core;
    CoreKeys(st);
    SilentMoveExactIff(st, r, seat, Page(st.log, seat.channel, st.cursors[seat], REGISTRATION_REPLAY_LIMIT));
  }

  lemma {:induction false} ReceiverCloses(st: State, d: string)
    requires CanRegister(st, d)
    ensures var r := Step(st, CloseReceiver(d));
      && Legal(st, CloseReceiver(d)) && Undisturbed(st, CloseReceiver(d))
      && CanRegister(r, d) && !IsOpen(r, d) && r.log == st.log && r.cursors == st.cursors
  {
  }

  /**
    A member comes back to `n` missed messages, and its new session's receiver is closed when it registers: the cursor
    passes what nobody was sent as soon as there is anything.
   */
  lemma {:induction false} RegistrationThroughAClosedReceiverSkips(
      p: string, q: string, c: string, a: string, b: string, d: string, n: nat)
    requires p != q && a != b && a != d && b != d
    ensures var cmds := Absence(p, q, c, a, b, d, n) + [CloseReceiver(d)];
      var r := Step(Run(cmds), Register(d, p, [c]));
      && Admissible(cmds) && CanRegister(Run(cmds), d) && !IsOpen(Run(cmds), d)
      && Seat(p, c) in r.cursors && Seat(p, c) in r.epochs && (ExactlyOnce(r, Seat(p, c)) <==> n == 0)
  {
    hide *;
    var cmds, st := Absence(p, q, c, a, b, d, n), Run(Absence(p, q, c, a, b, d, n));
    AnyBacklogIsReached(p, q, c, a, b, d, n);
    ReceiverCloses(st, d);
    RunSnoc(cmds, CloseReceiver(d), st);
    var closed := Step(st, CloseReceiver(d));
    SameBacklog(st, closed, Seat(p, c));
    OnlyRoom(closed, p, c);
    ClosedRegistrationExactIff(cmds + [CloseReceiver(d)], d, p, [c], Seat(p, c));
  }

  lemma {:induction false} SameBacklog(st: State, r: State, seat: Seat)
    requires r.log == st.log && r.cursors == st.cursors && st.cursors.Keys == {seat}
    ensures seat in st.cursors && Backlog(r, seat) == Backlog(st, seat)
  {
    assert seat in st.cursors.Keys;
  }

  /** `p`'s receiver closes, `q` says one thing, and `p` asks for the channel's history. */
  function Deafened(p: string, q: string, c: string, a: string, b: string): seq<Command> {
    Joining(p, c, a) + [Connect(b)] + [Register(b, q, [])] + [CloseReceiver(a)] + [TaskNotice(b, c, "", "", 0, [p])]
  }

  /** The run up to the request is in order; the request then moves the cursor over a message nobody was sent. */
  lemma {:induction false} HistoryThroughAClosedReceiverSkips(p: string, q: string, c: string, a: string, b: string)
    requires p != q && a != b
    ensures var cmds := Deafened(p, q, c, a, b);
      && Admissible(cmds) && Actor(Run(cmds), a) == Some(p) && !IsOpen(Run(cmds), a)
      && Seat(p, c) in Run(cmds).cursors
      && (var r := Step(Run(cmds), Chathistory(a, [c], 0, 10));
          Seat(p, c) in r.cursors && Seat(p, c) in r.epochs && !ExactlyOnce(r, Seat(p, c)))
  {
    var m1 := Joining(p, c, a) + [Connect(b)] + [Register(b, q, [])];
    var st := WithOther(Member(p, c, a), q, b);
    var deaf := st.(sessions := st.sessions[a := Of(p, false)]);
    var m := StoredMessage(1, "", c, SERVER_NAME, "", 0);
    var heard := deaf.(log := [m], counter := 1);
    Joins(p, c, a);
    ClosesStep(p, q, c, a, b);
    DeafStep(deaf, p, q, c, a, b, m);
    OnePage(m, c);
    hide Joining, Admissible, Run, Step, Legal, Undisturbed, Page, ExactlyOnce;
    OtherRegisters(Joining(p, c, a), Member(p, c, a), q, b);
    RunSnoc(m1, CloseReceiver(a), st);
    RunSnoc(m1 + [CloseReceiver(a)], TaskNotice(b, c, "", "", 0, [p]), deaf);
    ClosedHistoryExactIff(Deafened(p, q, c, a, b), a, p, c, 0, 10);
  }

  lemma {:induction false} ClosesStep(p: string, q: string, c: string, a: string, b: string)
    requires p != q && a != b
    ensures var st := WithOther(Member(p, c, a), q, b);
      var deaf := st.(sessions := st.sessions[a := Of(p, false)]);
      && Legal(st, CloseReceiver(a)) && Undisturbed(st, CloseReceiver(a)) && Step(st, CloseReceiver(a)) == deaf
      && Actor(deaf, a) == Some(p) && Actor(deaf, b) == Some(q) && !IsOpen(deaf, a)
  {
  }

  lemma {:induction false} OnePage(m: StoredMessage, c: string)
    requires m.channel == c && m.seqNo == 1
    ensures Page([m], c, 0, 10) == [m] && Last([m]) == m
  {
    assert Front([m]) == [] && Above([m], c, 0) == [] + [m];
  }

  lemma {:induction false} DeafStep(
      st: State, p: string, q: string, c: string, a: string, b: string, m: StoredMessage)
    requires p != q && st.channels == map[c := {p}] && p in st.clients && st.clients[p] == a && !IsOpen(st, a)
    requires Actor(st, b) == Some(q) && st.log == [] && st.counter == 0
    requires m == StoredMessage(1, "", c, SERVER_NAME, "", 0)
    ensures Legal(st, TaskNotice(b, c, "", "", 0, [p])) && Undisturbed(st, TaskNotice(b, c, "", "", 0, [p]))
    ensures Step(st, TaskNotice(b, c, "", "", 0, [p])) == st.(log := [m], counter := 1)
  {
    assert Recipients(st, c) == {p};
    assert [] + [m] == [m];
    var grown := st.(log := [m], counter := 1);
    assert Front([p]) == [] && Broadcast(grown, c, m, []) == grown;
    assert Broadcast(grown, c, m, [p]) == grown;
  }
}
