/** A PART between the snapshot and the index of a registration: the row goes, and the index entry comes back. */
module StaleSnapshot {
  import opened Prelude
  import opened History
  import opened Memberships
  import opened Bouncer
  import opened BouncerFacts
  import opened BouncerRuns
  import opened CommandEffects
  import opened StagedRegistration
  import opened DuplicateRun

  /**
    When a session enters the index, its principal is an indexed member of a channel afterwards exactly if it was one
    before or the snapshot has a row of it, whether or not the membership still exists.
   */
  lemma {:induction false} IndexFollowsTheSnapshot(g: Staged, s: string, c: string)
    requires s in g.pending && !g.pending[s].indexed
    ensures var reg, h := g.pending[s], Advance(g, Index(s));
      && h.st.cursors == g.st.cursors
      && (reg.principal in Members(h.st.channels, c) <==>
            reg.principal in Members(g.st.channels, c) || HasRow(reg, c))
  {
    var reg := g.pending[s];
    var mid := IndexSession(g.st, s, reg.principal, reg.rows);
    AddToAllMembers(g.st.channels, reg.principal, reg.rows, c);
    QuietGreet(mid, s, reg.principal, reg.rows);
    if HasRow(reg, c) {
      var i :| 0 <= i < |reg.rows| && reg.rows[i].channel == c;
      assert reg.rows[i] in reg.rows;
    }
    hide Greet, AddToAll;
  }

  /** `p` reconnects through `d` and leaves the channel through `a` before `d` is in the index. */
  function Leaving(p: string, q: string, c: string, a: string, b: string, d: string): seq<Move> {
    Registration(b, q, []) + [Finish(b)] + (Registration(a, p, []) + [Finish(a)]) + [Whole(Join(a, c, [p]))]
      + [Whole(Connect(d))] + [Begin(d, p, [c])] + [Whole(Part(a, c, []))] + [Index(d)]
  }

  function Parted(st: State, p: string, c: string): State {
    st.(cursors := map[], epochs := map[], channels := map[c := {}])
  }

  lemma {:induction false} PartStep(st: State, p: string, c: string, a: string, pending: map<string, Pending>)
    requires st.cursors == map[Seat(p, c) := 0] && st.epochs.Keys == {Seat(p, c)} && st.channels == map[c := {p}]
    requires Actor(st, a) == Some(p) && a !in pending
    ensures var g := Staged(st, pending, {});
      Permitted(g, Whole(Part(a, c, []))) && Advance(g, Whole(Part(a, c, []))) == Staged(Parted(st, p, c), pending, {})
  {
    var mid := PartIndex(st, p, c);
    assert {p} - {p} == {};
    assert mid.cursors == map[] && mid.epochs == map[] && mid.channels == map[c := {}];
    assert Recipients(mid, c) == {};
    assert Step(st, Part(a, c, [])) == mid;
    hide Actor, Step, PartIndex;
  }

  lemma {:induction false} PreparedState(p: string, q: string, c: string, a: string, b: string, d: string)
    requires p != q && a != b && d != a && d != b
    ensures var st := Prepared(p, q, c, a, b);
      && st.cursors == map[Seat(p, c) := 0] && st.epochs.Keys == {Seat(p, c)} && st.channels == map[c := {p}]
      && st.log == [] && st.counter == 0 && d !in st.sessions
      && Actor(Begun(st, d, p), a) == Some(p) && Actor(Begun(st, d, p), b) == Some(q) && Reaches(Begun(st, d, p), p)
  {
    var st := Prepared(p, q, c, a, b);
    assert st.sessions == map[b := Of(q, true), a := Of(p, true)] && st.clients == map[q := b, p := a];
  }

  lemma {:induction false} RunParts(p: string, q: string, c: string, a: string, b: string, d: string)
    requires p != q && a != b && a != d && b != d
    ensures var moves := Registration(b, q, []) + [Finish(b)] + (Registration(a, p, []) + [Finish(a)])
        + [Whole(Join(a, c, [p]))] + [Whole(Connect(d))] + [Begin(d, p, [c])] + [Whole(Part(a, c, []))];
      && Smooth(moves)
      && Play(moves) == Staged(Parted(Begun(Prepared(p, q, c, a, b), d, p), p, c),
                               map[d := Pending(p, [Row(c, 0)], false, 0)], {})
  {
    var moves := Registration(b, q, []) + [Finish(b)] + (Registration(a, p, []) + [Finish(a)])
      + [Whole(Join(a, c, [p]))];
    var st, pending := Prepared(p, q, c, a, b), map[d := Pending(p, [Row(c, 0)], false, 0)];
    RunJoins(p, q, c, a, b);
    PreparedState(p, q, c, a, b, d);
    hide Smooth, Play, Registration, Prepared, Permitted, Advance, Actor, Reaches;
    assert Rooms(st, p) == {c} by { assert Seat(p, c) in st.cursors; }
    assert SnapshotRows(st, p, [c]) == [Row(c, 0)] by { assert Front([c]) == []; }
    Arrives(moves, st, d);
    Begins(moves + [Whole(Connect(d))], st, d, p, [c]);
    PartStep(Begun(st, d, p), p, c, a, pending);
    SmoothSnoc(moves + [Whole(Connect(d))] + [Begin(d, p, [c])], Whole(Part(a, c, [])),
               Staged(Begun(st, d, p), pending, {}));
  }

  /** The state in which `p` has left the channel and is indexed in it again. */
  ghost predicate IsBack(g: Staged, p: string, q: string, c: string, b: string, d: string) {
    && g.st.log == [] && g.st.counter == 0 && g.st.cursors == map[]
    && d in g.pending && b !in g.pending && g.pending[d].principal == p
    && p in g.st.clients && g.st.clients[p] == d && IsOpen(g.st, d) && Actor(g.st, b) == Some(q)
    && Recipients(g.st, c) == {p}
  }

  lemma {:induction false} IndexBringsBack(st: State, p: string, q: string, c: string, b: string, d: string)
    requires st.log == [] && st.counter == 0 && st.cursors == map[] && st.channels == map[c := {}] && b != d && p != q
    requires d in st.sessions && st.sessions[d] == Of(p, true) && Actor(st, b) == Some(q)
    ensures var g := Staged(st, map[d := Pending(p, [Row(c, 0)], false, 0)], {});
      Permitted(g, Index(d)) && IsBack(Advance(g, Index(d)), p, q, c, b, d)
  {
    var rows := [Row(c, 0)];
    var mid := IndexSession(st, d, p, rows);
    assert Front(rows) == [] && AddToAll(st.channels, p, []) == st.channels;
    assert {} + {p} == {p};
    assert AddToAll(st.channels, p, rows) == map[c := {p}];
    assert Recipients(mid, c) == {p};
    QuietGreet(mid, d, p, rows);
    hide Greet, AddToAll;
  }

  lemma {:induction false} RunIsBack(p: string, q: string, c: string, a: string, b: string, d: string)
    requires p != q && a != b && a != d && b != d
    ensures Smooth(Leaving(p, q, c, a, b, d)) && IsBack(Play(Leaving(p, q, c, a, b, d)), p, q, c, b, d)
  {
    var moves := Registration(b, q, []) + [Finish(b)] + (Registration(a, p, []) + [Finish(a)])
      + [Whole(Join(a, c, [p]))] + [Whole(Connect(d))] + [Begin(d, p, [c])] + [Whole(Part(a, c, []))];
    var st := Parted(Begun(Prepared(p, q, c, a, b), d, p), p, c);
    RunParts(p, q, c, a, b, d);
    PreparedState(p, q, c, a, b, d);
    assert Actor(st, b) == Some(q);
    hide Smooth, Play, Registration, Prepared, Permitted, Advance, Actor, IsBack, Reaches;
    IndexBringsBack(st, p, q, c, b, d);
    SmoothSnoc(moves, Index(d), Staged(st, map[d := Pending(p, [Row(c, 0)], false, 0)], {}));
  }

  lemma {:induction false} HearsThough(g: Staged, p: string, q: string, c: string, d: string, cmd: Command)
    requires cmd.TaskNotice? && cmd.channel == c && cmd.order == [p] && cmd.s != d
    requires IsBack(g, p, q, c, cmd.s, d)
    ensures Permitted(g, Whole(cmd))
    ensures var st := Advance(g, Whole(cmd)).st;
      && Seat(p, c) !in st.cursors
      && Enqueued(d, Chat(p, StoredMessage(1, cmd.msgId, c, SERVER_NAME, cmd.body, cmd.at), Live)) in st.sent
  {
    var m := StoredMessage(1, cmd.msgId, c, SERVER_NAME, cmd.body, cmd.at);
    var grown := g.st.(log := [m], counter := 1);
    assert [] + [m] == [m];
    assert Front([p]) == [] && Broadcast(grown, c, m, []) == grown;
    assert Broadcast(grown, c, m, [p]) == DeliverLive(grown, c, m, p);
    hide Recipients;
  }

  /**
    So a PART does not outlast a registration that took its snapshot before it: the principal has no membership any more
    and is sent the channel's next message all the same.
   */
  lemma {:induction false} APartIsUndoneInTheIndex(
      p: string, q: string, c: string, a: string, b: string, d: string, cmd: Command)
    requires p != q && a != b && a != d && b != d
    requires cmd.TaskNotice? && cmd.s == b && cmd.channel == c && cmd.order == [p]
    ensures var all := Leaving(p, q, c, a, b, d) + [Whole(cmd)];
      && Smooth(all) && Seat(p, c) !in Play(all).st.cursors
      && Enqueued(d, Chat(p, StoredMessage(1, cmd.msgId, c, SERVER_NAME, cmd.body, cmd.at), Live))
           in Play(all).st.sent
  {
    RunIsBack(p, q, c, a, b, d);
    hide *;
    HearsThough(Play(Leaving(p, q, c, a, b, d)), p, q, c, d, cmd);
    SmoothSnoc(Leaving(p, q, c, a, b, d), Whole(cmd), Play(Leaving(p, q, c, a, b, d)));
  }
}
