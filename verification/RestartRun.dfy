/** A run in which the server restarts while a registration still owes a message, and the message is never sent. */
module RestartRun {
  import opened Prelude
  import opened History
  import opened Memberships
  import opened Bouncer
  import opened BouncerFacts
  import opened BouncerRuns
  import opened StagedRegistration
  import opened RestartLosses
  import opened DuplicateRun

  /** `q` registers through `b`, `p` through `a`, joins the channel and leaves. */
  function Leaving(p: string, q: string, c: string, a: string, b: string): seq<Move> {
    Registration(b, q, []) + [Finish(b)] + (Registration(a, p, []) + [Finish(a)]) + [Whole(Join(a, c, [p]))]
      + [Whole(Disconnect(a))]
  }

  /** A message comes between the snapshot of `p`'s new session and its entering the index. */
  function Returning(
      p: string, q: string, c: string, a: string, b: string, d: string, early: Command): seq<Move> {
    Leaving(p, q, c, a, b) + [Whole(Connect(d))] + [Begin(d, p, [c])] + [Whole(early)] + [Index(d)]
  }

  function Left(p: string, q: string, c: string, a: string, b: string): State {
    DisconnectSession(Prepared(p, q, c, a, b), a)
  }

  lemma {:induction false} LeftState(p: string, q: string, c: string, a: string, b: string, d: string)
    requires p != q && a != b && d != a && d != b
    ensures var st := Left(p, q, c, a, b);
      && st.cursors == map[Seat(p, c) := 0] && st.channels == map[c := {p}] && st.log == [] && st.counter == 0
      && p !in st.clients && Actor(st, b) == Some(q) && d !in st.sessions
  {
    var st := Prepared(p, q, c, a, b);
    assert st.sessions == map[b := Of(q, true), a := Of(p, true)] && st.clients == map[q := b, p := a];
  }

  lemma {:induction false} LeavePermitted(st: State, a: string)
    ensures var g := Staged(st, map[], {});
      && Permitted(g, Whole(Disconnect(a)))
      && Advance(g, Whole(Disconnect(a))) == Staged(DisconnectSession(st, a), map[], {})
  {
    hide DisconnectSession;
  }

  lemma {:induction false} RunLeaves(p: string, q: string, c: string, a: string, b: string)
    requires p != q && a != b
    ensures Smooth(Leaving(p, q, c, a, b))
    ensures Play(Leaving(p, q, c, a, b)) == Staged(Left(p, q, c, a, b), map[], {})
  {
    var moves := Registration(b, q, []) + [Finish(b)] + (Registration(a, p, []) + [Finish(a)])
      + [Whole(Join(a, c, [p]))];
    RunJoins(p, q, c, a, b);
    LeavePermitted(Prepared(p, q, c, a, b), a);
    hide Smooth, Play, Registration, Prepared, Permitted, Advance, DisconnectSession;
    SmoothSnoc(moves, Whole(Disconnect(a)), Staged(Prepared(p, q, c, a, b), map[], {}));
  }

  lemma {:induction false} EarlyPermitted(st: State, q: string, pending: map<string, Pending>, early: Command)
    requires early.TaskNotice? && early.order == [] && early.s !in pending && Actor(st, early.s) == Some(q)
    requires Recipients(st, early.channel) == {} && st.log == [] && st.counter == 0
    ensures var g := Staged(st, pending, {});
      var m := StoredMessage(1, early.msgId, early.channel, SERVER_NAME, early.body, early.at);
      Permitted(g, Whole(early)) && Advance(g, Whole(early)) == Staged(st.(log := [m], counter := 1), pending, {})
  {
    hide Recipients;
  }

  lemma {:induction false} RunBegins(p: string, q: string, c: string, a: string, b: string, d: string)
    requires p != q && a != b && a != d && b != d
    ensures var all := Leaving(p, q, c, a, b) + [Whole(Connect(d))] + [Begin(d, p, [c])];
      && Smooth(all)
      && Play(all) == Staged(Begun(Left(p, q, c, a, b), d, p), map[d := Pending(p, [Row(c, 0)], false, 0)], {})
  {
    var moves, st := Leaving(p, q, c, a, b), Left(p, q, c, a, b);
    RunLeaves(p, q, c, a, b);
    LeftState(p, q, c, a, b, d);
    hide Smooth, Play, Leaving, Left;
    assert Rooms(st, p) == {c} by { assert Seat(p, c) in st.cursors; }
    assert SnapshotRows(st, p, [c]) == [Row(c, 0)] by { assert Front([c]) == []; }
    Arrives(moves, st, d);
    Begins(moves + [Whole(Connect(d))], st, d, p, [c]);
  }

  lemma {:induction false} BegunState(p: string, q: string, c: string, a: string, b: string, d: string)
    requires p != q && a != b && d != a && d != b
    ensures var st := Begun(Left(p, q, c, a, b), d, p);
      && st.cursors == map[Seat(p, c) := 0] && st.channels == map[c := {p}] && st.log == [] && st.counter == 0
      && Recipients(st, c) == {} && Actor(st, b) == Some(q) && d in st.sessions && st.sessions[d] == Of(p, true)
  {
    LeftState(p, q, c, a, b, d);
    hide Left;
  }

  lemma {:induction false} RunReturns(
      p: string, q: string, c: string, a: string, b: string, d: string, early: Command, m: StoredMessage)
    requires p != q && a != b && a != d && b != d
    requires early.TaskNotice? && early.s == b && early.channel == c && early.order == []
    requires m == StoredMessage(1, early.msgId, c, SERVER_NAME, early.body, early.at)
    ensures var all := Returning(p, q, c, a, b, d, early);
      Smooth(all) && IsReconnecting(Play(all), p, q, c, b, d, [m])
  {
    var moves := Leaving(p, q, c, a, b) + [Whole(Connect(d))] + [Begin(d, p, [c])];
    var pending := map[d := Pending(p, [Row(c, 0)], false, 0)];
    var begun := Begun(Left(p, q, c, a, b), d, p);
    var later := begun.(log := [m], counter := 1);
    RunBegins(p, q, c, a, b, d);
    BegunState(p, q, c, a, b, d);
    assert Actor(later, b) == Some(q);
    hide Smooth, Play, Leaving, Begun, IsReconnecting, Permitted, Advance, Actor, Recipients;
    EarlyPermitted(begun, q, pending, early);
    SmoothSnoc(moves, Whole(early), Staged(begun, pending, {}));
    IndexPermitted(later, d, p, c);
    SmoothSnoc(moves + [Whole(early)], Index(d), Staged(later, pending, {}));
    IndexedState(later, p, q, c, b, d);
  }

  lemma {:induction false} LatePermitted(
      g: Staged, p: string, q: string, c: string, d: string, late: Command, early: StoredMessage)
    requires late.TaskNotice? && late.channel == c && late.order == [p]
    requires late.s != d && IsReconnecting(g, p, q, c, late.s, d, [early])
    ensures Permitted(g, Whole(late))
    ensures Advance(g, Whole(late)).st == Publish(g.st, c, SERVER_NAME, late.body, late.msgId, late.at, [p])
  {
    hide Publish, Recipients, Reaches;
  }

  /** The next message, sent live, lifts the cursor over the one that is only owed. */
  lemma {:induction false} LateLeavesAGap(
      g: Staged, p: string, q: string, c: string, d: string, late: Command, early: StoredMessage)
    requires late.TaskNotice? && late.channel == c && late.order == [p]
    requires Sound(g) && late.s != d && IsReconnecting(g, p, q, c, late.s, d, [early])
    requires early.seqNo == 1 && early.channel == c
    ensures Permitted(g, Whole(late))
    ensures var st, seat := Advance(g, Whole(late)).st, Seat(p, c);
      Missing(st, seat, early) && early.seqNo <= st.cursors[seat]
  {
    var seat := Seat(p, c);
    var m := Appended(g.st, c, SERVER_NAME, late.body, late.msgId, late.at);
    var r := Advance(g, Whole(late)).st;
    LatePermitted(g, p, q, c, d, late, early);
    assert Bounded(g.st, seat) && SeatSound(g, seat);
    PublishedStream(g.st, r, seat, m, late.order);
    hide Stream, Publish, Broadcast, Advance, Recipients, Permitted;
    assert early !in Stream(g.st, seat);
  }

  /** The registration has not replayed the channel yet. */
  lemma {:induction false} LateIsOwed(
      g: Staged, p: string, q: string, c: string, d: string, late: Command, early: StoredMessage)
    requires late.TaskNotice? && IsReconnecting(g, p, q, c, late.s, d, [early]) && early.seqNo == 1
    ensures Owed(Advance(g, Whole(late)), Seat(p, c), early)
  {
    var reg := Pending(p, [Row(c, 0)], true, 0);
    hide Step, Recipients, Reaches, Actor;
    assert Owes(reg, Seat(p, c), early) by { assert reg.rows[0].channel == c; }
    assert Advance(g, Whole(late)).pending[d] == reg;
  }

  lemma {:induction false} RestartForgets(g: Staged, seat: Seat, m: StoredMessage)
    requires Missing(g.st, seat, m) && m.seqNo <= g.st.cursors[seat] && Owed(g, seat, m)
    ensures var h := Advance(g, Whole(Restart));
      Missing(h.st, seat, m) && (seat, m) in h.forgotten
  {
    MissingAfterRestart(g, seat, m);
    hide Owed, Step, Stream, Reaches;
    assert (seat, m) in Abandoned(g);
  }

  /**
    A message that comes between the snapshot and the index is owed to the principal. After a live one behind it, a
    restart before the replay leaves the cursor above it, and it was never sent.
   */
  lemma {:induction false} ARestartLosesWhatIsOwed(
      p: string, q: string, c: string, a: string, b: string, d: string, early: Command, late: Command)
    requires p != q && a != b && a != d && b != d
    requires early.TaskNotice? && early.s == b && early.channel == c && early.order == []
    requires late.TaskNotice? && late.s == b && late.channel == c && late.order == [p]
    ensures var all := Returning(p, q, c, a, b, d, early) + [Whole(late)] + [Whole(Restart)];
      var m := StoredMessage(1, early.msgId, c, SERVER_NAME, early.body, early.at);
      Smooth(all) && Missing(Play(all).st, Seat(p, c), m) && (Seat(p, c), m) in Play(all).forgotten
  {
    var before, m := Returning(p, q, c, a, b, d, early),
                     StoredMessage(1, early.msgId, c, SERVER_NAME, early.body, early.at);
    var all := before + [Whole(late)];
    RunReturns(p, q, c, a, b, d, early, m);
    PlaySound(before);
    assert Permitted(Play(all), Whole(Restart));
    hide *;
    LateLeavesAGap(Play(before), p, q, c, d, late, m);
    LateIsOwed(Play(before), p, q, c, d, late, m);
    SmoothSnoc(before, Whole(late), Play(before));
    RestartForgets(Play(all), Seat(p, c), m);
    SmoothSnoc(all, Whole(Restart), Play(all));
  }
}
