/** A run in which a message reaches a reconnecting principal twice. */
module DuplicateRun {
  import opened Prelude
  import opened History
  import opened Memberships
  import opened Bouncer
  import opened BouncerFacts
  import opened BouncerRuns
  import opened StagedRegistration
  import opened RegistrationCopies

  const FRESH := Session(None, true, true)

  function Registration(s: string, p: string, rooms: seq<string>): seq<Move> {
    [Whole(Connect(s))] + [Begin(s, p, rooms)] + [Index(s)]
  }

  /** `q` registers through `b`, `p` through `a` and joins the channel, and `p` reconnects through `d`. */
  function Reconnecting(p: string, q: string, c: string, a: string, b: string, d: string): seq<Move> {
    Registration(b, q, []) + [Finish(b)] + (Registration(a, p, []) + [Finish(a)]) + [Whole(Join(a, c, [p]))]
      + Registration(d, p, [c])
  }

  function Arrived(st: State, s: string): State {
    st.(sessions := st.sessions[s := FRESH], sent := st.sent + [Enqueued(s, Hello)])
  }

  /** The state after the first part of a registration. */
  function Begun(st: State, s: string, p: string): State {
    st.(sessions := st.sessions[s := Of(p, true)], connected := st.connected + {p},
        sent := st.sent + [Enqueued(s, Hello)])
  }

  /** The state after a first registration of a principal without memberships. */
  function Entered(st: State, s: string, p: string): State {
    st.(sessions := st.sessions[s := Of(p, true)], connected := st.connected + {p}, clients := st.clients[p := s],
        sent := st.sent + [Enqueued(s, Hello)] + [Enqueued(s, Welcome(p))])
  }

  lemma {:induction false} Arrives(moves: seq<Move>, st: State, s: string)
    requires Smooth(moves) && Play(moves) == Staged(st, map[], {}) && s !in st.sessions
    ensures Smooth(moves + [Whole(Connect(s))])
    ensures Play(moves + [Whole(Connect(s))]) == Staged(Arrived(st, s), map[], {})
  {
    hide Smooth, Play;
    var g := Staged(st, map[], {});
    assert Permitted(g, Whole(Connect(s))) && Advance(g, Whole(Connect(s))) == Staged(Arrived(st, s), map[], {}) by {
      ArrivesStep(st, s);
    }
    SmoothSnoc(moves, Whole(Connect(s)), g);
  }

  lemma {:induction false} ArrivesStep(st: State, s: string)
    requires s !in st.sessions
    ensures var g := Staged(st, map[], {});
      Permitted(g, Whole(Connect(s))) && Advance(g, Whole(Connect(s))) == Staged(Arrived(st, s), map[], {})
  {
    var mid := st.(sessions := st.sessions[s := FRESH]);
    assert IsOpen(mid, s);
  }

  lemma {:induction false} Begins(moves: seq<Move>, st: State, s: string, p: string, order: seq<string>)
    requires Smooth(moves) && Play(moves) == Staged(Arrived(st, s), map[], {}) && Enumerates(order, Rooms(st, p))
    ensures var r := Begun(st, s, p);
      && Smooth(moves + [Begin(s, p, order)])
      && Play(moves + [Begin(s, p, order)])
           == Staged(r, map[s := Pending(p, SnapshotRows(st, p, order), false, 0)], {})
  {
    var mid := Arrived(st, s);
    assert Rooms(mid, p) == Rooms(st, p);
    SnapshotRowsFrame(st, mid, p, order);
    SmoothSnoc(moves, Begin(s, p, order), Staged(mid, map[], {}));
    assert mid.sessions[s := Of(p, true)] == st.sessions[s := Of(p, true)];
  }

  lemma {:induction false} IndexesAlone(st: State, s: string, p: string)
    requires p !in st.clients
    ensures Greet(IndexSession(st, s, p, []), s, p, [])
      == Deliver(st.(clients := st.clients[p := s]), s, Welcome(p))
  {
    assert st.told + {} == st.told;
  }

  lemma {:induction false} EntersIndex(st: State, s: string, p: string)
    requires Rooms(st, p) == {} && p !in st.clients
    ensures var g := Staged(Begun(st, s, p), map[s := Pending(p, [], false, 0)], {});
      Permitted(g, Index(s)) && Advance(g, Index(s)) == Staged(Entered(st, s, p), map[s := Pending(p, [], true, 0)], {})
  {
    assert forall seat :: seat in st.cursors && seat.principal == p ==> seat.channel in Rooms(st, p);
    IndexesAlone(Begun(st, s, p), s, p);
    hide Greet, IndexSession, Rooms, Backlog, Covered, Reaches;
  }

  lemma {:induction false} EntersFinish(st: State, s: string, p: string)
    ensures var g := Staged(st, map[s := Pending(p, [], true, 0)], {});
      Permitted(g, Finish(s)) && Advance(g, Finish(s)) == Staged(st, map[], {})
  {
    assert map[s := Pending(p, [], true, 0)] - {s} == map[];
  }

  lemma {:induction false} Enters(moves: seq<Move>, st: State, s: string, p: string)
    requires Smooth(moves) && Play(moves) == Staged(st, map[], {})
    requires s !in st.sessions && Rooms(st, p) == {} && p !in st.clients
    ensures var all := moves + (Registration(s, p, []) + [Finish(s)]);
      Smooth(all) && Play(all) == Staged(Entered(st, s, p), map[], {})
  {
    var m1 := moves + [Whole(Connect(s))];
    var m2 := m1 + [Begin(s, p, [])];
    var m3 := m2 + [Index(s)];
    var begun := Begun(st, s, p);
    var g2, g3 := Staged(begun, map[s := Pending(p, [], false, 0)], {}),
                  Staged(Entered(st, s, p), map[s := Pending(p, [], true, 0)], {});
    Arrives(moves, st, s);
    Begins(m1, st, s, p, []);
    EntersIndex(st, s, p);
    EntersFinish(Entered(st, s, p), s, p);
    hide Smooth, Play, Permitted, Advance;
    SmoothSnoc(m2, Index(s), g2);
    SmoothSnoc(m3, Finish(s), g3);
    assert m3 + [Finish(s)] == moves + (Registration(s, p, []) + [Finish(s)]);
  }

  lemma {:induction false} Joins(moves: seq<Move>, st: State, s: string, p: string, c: string)
    requires Smooth(moves) && Play(moves) == Staged(st, map[], {})
    requires Actor(st, s) == Some(p) && IsOpen(st, s)
    requires st.log == [] && st.cursors == map[] && st.epochs == map[] && st.channels == map[]
    ensures Smooth(moves + [Whole(Join(s, c, [p]))])
    ensures Play(moves + [Whole(Join(s, c, [p]))]) == Staged(Joined(st, s, p, c), map[], {})
  {
    JoinsAlone(st, s, p, c);
    hide Smooth, Play, Step;
    SmoothSnoc(moves, Whole(Join(s, c, [p])), Staged(st, map[], {}));
  }

  /** What matters about the state in which `p` is reconnecting. */
  ghost predicate IsReconnecting(
      g: Staged, p: string, q: string, c: string, b: string, d: string, log: seq<StoredMessage>) {
    && g.st.log == log && g.st.counter == |log|
    && g.pending == map[d := Pending(p, [Row(c, 0)], true, 0)]
    && g.st.cursors == map[Seat(p, c) := 0] && Reaches(g.st, p) && Actor(g.st, b) == Some(q)
    && Recipients(g.st, c) == {p}
  }

  lemma {:induction false} IndexPermitted(st: State, d: string, p: string, c: string)
    requires st.cursors == map[Seat(p, c) := 0]
    ensures Permitted(Staged(st, map[d := Pending(p, [Row(c, 0)], false, 0)], {}), Index(d))
  {
    var reg := Pending(p, [Row(c, 0)], false, 0);
    assert reg.rows[0].channel == c;
    hide Reaches, Backlog;
  }

  lemma {:induction false} Reconnects(
      moves: seq<Move>, st: State, p: string, q: string, c: string, b: string, d: string)
    requires Smooth(moves) && Play(moves) == Staged(st, map[], {})
    requires d !in st.sessions && b != d && p != q && Actor(st, b) == Some(q) && Reaches(st, p)
    requires st.cursors == map[Seat(p, c) := 0] && st.channels == map[c := {p}] && st.log == [] && st.counter == 0
    ensures var all := moves + Registration(d, p, [c]);
      Smooth(all) && IsReconnecting(Play(all), p, q, c, b, d, [])
  {
    var m1 := moves + [Whole(Connect(d))];
    var m2 := m1 + [Begin(d, p, [c])];
    var begun := Begun(st, d, p);
    var reg := Pending(p, [Row(c, 0)], false, 0);
    assert Rooms(st, p) == {c} by { assert Seat(p, c) in st.cursors; }
    assert SnapshotRows(st, p, [c]) == [Row(c, 0)] by { assert Front([c]) == []; }
    Arrives(moves, st, d);
    Begins(m1, st, d, p, [c]);
    IndexPermitted(begun, d, p, c);
    hide Smooth, Play, Permitted, Advance, IsReconnecting, Reaches;
    SmoothSnoc(m2, Index(d), Staged(begun, map[d := reg], {}));
    assert m2 + [Index(d)] == moves + Registration(d, p, [c]);
    IndexedState(begun, p, q, c, b, d);
  }

  lemma {:induction false} IndexedAgain(st: State, p: string, c: string, d: string)
    requires st.channels == map[c := {p}]
    ensures var mid := IndexSession(st, d, p, [Row(c, 0)]);
      mid.channels == map[c := {p}] && Recipients(mid, c) == {p}
  {
    var rows := [Row(c, 0)];
    assert Front(rows) == [] && AddToAll(st.channels, p, []) == st.channels;
    assert {p} + {p} == {p};
    assert AddToAll(st.channels, p, rows) == map[c := {p}];
  }

  lemma {:induction false} IndexedState(st: State, p: string, q: string, c: string, b: string, d: string)
    requires d in st.sessions && st.sessions[d] == Of(p, true) && b != d && p != q && Actor(st, b) == Some(q)
    requires st.cursors == map[Seat(p, c) := 0] && st.channels == map[c := {p}] && st.counter == |st.log|
    ensures var g := Staged(st, map[d := Pending(p, [Row(c, 0)], false, 0)], {});
      IsReconnecting(Advance(g, Index(d)), p, q, c, b, d, st.log)
  {
    IndexedAgain(st, p, c, d);
    QuietGreet(IndexSession(st, d, p, [Row(c, 0)]), d, p, [Row(c, 0)]);
    hide Greet, AddToAll;
  }

  function Prepared(p: string, q: string, c: string, a: string, b: string): State {
    Joined(Entered(Entered(INIT, b, q), a, p), a, p, c)
  }

  lemma {:induction false} RunJoins(p: string, q: string, c: string, a: string, b: string)
    requires p != q && a != b
    ensures var moves := Registration(b, q, []) + [Finish(b)] + (Registration(a, p, []) + [Finish(a)])
        + [Whole(Join(a, c, [p]))];
      Smooth(moves) && Play(moves) == Staged(Prepared(p, q, c, a, b), map[], {})
  {
    var first := Registration(b, q, []) + [Finish(b)];
    var second := first + (Registration(a, p, []) + [Finish(a)]);
    var s1 := Entered(INIT, b, q);
    var s2 := Entered(s1, a, p);
    hide Smooth, Play, Registration;
    assert [] + first == first;
    assert Smooth([]) && Play([]) == START by { NothingYet(); }
    Enters([], INIT, b, q);
    Enters(first, s1, a, p);
    Joins(second, s2, a, p, c);
  }

  lemma {:induction false} NothingYet()
    ensures Smooth([]) && Play([]) == START
  {
  }

  lemma {:induction false} RunReconnects(p: string, q: string, c: string, a: string, b: string, d: string)
    requires p != q && a != b && a != d && b != d
    ensures Smooth(Reconnecting(p, q, c, a, b, d))
    ensures IsReconnecting(Play(Reconnecting(p, q, c, a, b, d)), p, q, c, b, d, [])
  {
    var moves := Registration(b, q, []) + [Finish(b)] + (Registration(a, p, []) + [Finish(a)])
      + [Whole(Join(a, c, [p]))];
    RunJoins(p, q, c, a, b);
    hide Smooth, Play, Registration;
    Reconnects(moves, Prepared(p, q, c, a, b), p, q, c, b, d);
  }

  lemma {:induction false} Reading(g: Staged, p: string, q: string, c: string, b: string, d: string)
    requires IsReconnecting(g, p, q, c, b, d, [])
    ensures d in g.pending && |g.pending[d].rows| == 1 && g.pending[d].rows[0].channel == c
    ensures g.pending[d].principal == p && g.pending[d].replayed == 0
    ensures (forall t :: t in g.pending && t != d ==> g.pending[t].principal != p) && Seat(p, c) in g.st.cursors
    ensures Reaches(g.st, p)
  {
  }

  lemma {:induction false} PublishStep(st: State, cmd: Command, q: string, m: StoredMessage)
    requires cmd.TaskNotice? && Actor(st, cmd.s) == Some(q)
    requires m == Appended(st, cmd.channel, SERVER_NAME, cmd.body, cmd.msgId, cmd.at)
    ensures Step(st, cmd).log == st.log + [m]
  {
    PublishLogGrows(st, cmd.channel, SERVER_NAME, cmd.body, cmd.msgId, cmd.at, cmd.order);
  }

  lemma {:induction false} OneAbove(m: StoredMessage)
    ensures |Above([m], m.channel, 0)| <= 1
  {
    assert Front([m]) == [];
  }

  lemma {:induction false} PublishPermitted(
      g: Staged, p: string, q: string, c: string, d: string, cmd: Command, m: StoredMessage)
    requires cmd.TaskNotice? && cmd.s != d && cmd.channel == c && cmd.order == [p]
    requires IsReconnecting(g, p, q, c, cmd.s, d, [])
    requires m == StoredMessage(1, cmd.msgId, c, SERVER_NAME, cmd.body, cmd.at)
    ensures Permitted(g, Whole(cmd)) && Publishes(g.st, cmd, m)
    ensures Advance(g, Whole(cmd)).st.log == [m]
    ensures Advance(g, Whole(cmd)).pending == map[d := Pending(p, [Row(c, 0)], true, 0)]
  {
    PublishStep(g.st, cmd, q, m);
    assert [] + [m] == [m];
    hide Step, Recipients, Reaches;
  }

  lemma {:induction false} ReplayPermitted(g: Staged, p: string, d: string, m: StoredMessage)
    requires g.st.log == [m] && g.pending == map[d := Pending(p, [Row(m.channel, 0)], true, 0)]
    ensures Permitted(g, ReplayNext(d))
    ensures Advance(g, ReplayNext(d)).pending == map[d := Pending(p, [Row(m.channel, 0)], true, 1)]
  {
    OneAbove(m);
    hide ReplayRow;
  }

  lemma {:induction false} FinishPermitted(g: Staged, p: string, d: string, c: string)
    requires g.pending == map[d := Pending(p, [Row(c, 0)], true, 1)]
    ensures Permitted(g, Finish(d)) && Advance(g, Finish(d)).pending == map[]
  {
  }

  /** From there on a publication, the replay and the end of the registration are all permitted. */
  lemma {:induction false} PublishesAndReplays(
      before: seq<Move>, g: Staged, p: string, q: string, c: string, d: string, cmd: Command, m: StoredMessage)
    requires cmd.TaskNotice? && cmd.s != d && cmd.channel == c && cmd.order == [p]
    requires Smooth(before) && Play(before) == g && IsReconnecting(g, p, q, c, cmd.s, d, [])
    requires m == StoredMessage(1, cmd.msgId, c, SERVER_NAME, cmd.body, cmd.at)
    ensures var all := before + [Whole(cmd)] + ([ReplayNext(d)] + [Finish(d)]);
      Smooth(all) && Play(all).pending == map[]
    ensures Publishes(g.st, cmd, m)
  {
    var published := Advance(g, Whole(cmd));
    PublishPermitted(g, p, q, c, d, cmd, m);
    hide *;
    var replayed := Advance(published, ReplayNext(d));
    SmoothSnoc(before, Whole(cmd), g);
    ReplayPermitted(published, p, d, m);
    SmoothSnoc(before + [Whole(cmd)], ReplayNext(d), published);
    FinishPermitted(replayed, p, d, c);
    SmoothSnoc(before + [Whole(cmd)] + [ReplayNext(d)], Finish(d), replayed);
    assert before + [Whole(cmd)] + [ReplayNext(d)] + [Finish(d)]
        == before + [Whole(cmd)] + ([ReplayNext(d)] + [Finish(d)]);
  }

  /**
    A message published while the reconnecting session is indexed and has not replayed its channel arrives twice, in a
    run in which nothing else is out of the ordinary.
   */
  lemma {:induction false} AReconnectingMemberGetsItTwice(
      p: string, q: string, c: string, a: string, b: string, d: string, body: string, msgId: string, at: int)
    requires p != q && a != b && a != d && b != d
    ensures var before, publish := Reconnecting(p, q, c, a, b, d), Whole(TaskNotice(b, c, body, msgId, at, [p]));
      var all := before + [publish] + ([ReplayNext(d)] + [Finish(d)]);
      && Smooth(all) && Play(all).pending == map[]
      && Copies(Play(all).st, |Play(before).st.sent|, p, StoredMessage(1, msgId, c, SERVER_NAME, body, at)) == 2
  {
    assert forall move :: move in [ReplayNext(d)] + [Finish(d)] ==> Keeps(move, p);
    hide *;
    var before, cmd := Reconnecting(p, q, c, a, b, d), TaskNotice(b, c, body, msgId, at, [p]);
    var m := StoredMessage(1, msgId, c, SERVER_NAME, body, at);
    RunReconnects(p, q, c, a, b, d);
    PublishesAndReplays(before, Play(before), p, q, c, d, cmd, m);
    Reading(Play(before), p, q, c, b, d);
    TwiceIffReachedBeforeReplay(before, cmd, [ReplayNext(d)] + [Finish(d)], d, 0, m);
  }
}
