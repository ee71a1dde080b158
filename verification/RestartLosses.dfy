/** What a restart loses: which messages are never sent to a member, and that they stay lost. */
module RestartLosses {
  import opened Prelude
  import opened History
  import opened Memberships
  import opened Bouncer
  import opened BouncerFacts
  import opened BouncerRuns
  import opened StagedRegistration
  import opened RegistrationCopies

  // ----- Seats from one move to the next -----

  /** The membership and its cursor go on, or the row was created just now at the channel's top. */
  ghost predicate SeatKept(st: State, r: State, seat: Seat) {
    seat in r.cursors && seat in r.epochs ==>
      || (seat in st.cursors && seat in st.epochs
          && st.cursors[seat] <= r.cursors[seat] && r.epochs[seat] == st.epochs[seat])
      || r.cursors[seat] == MaxSeq(st.log, seat.channel) == r.epochs[seat].baseline
  }

  lemma {:induction false} SameSeats(st: State, r: State, seat: Seat)
    requires r.cursors == st.cursors && r.epochs == st.epochs
    ensures SeatKept(st, r, seat)
  {
  }

  lemma {:induction false} PublishSeat(
      st: State, c: string, sender: string, body: string, msgId: string, at: int, order: seq<string>, seat: Seat)
    ensures SeatKept(st, Publish(st, c, sender, body, msgId, at, order), seat)
  {
    var m := Appended(st, c, sender, body, msgId, at);
    var grown := st.(log := st.log + [m], counter := st.counter + 1);
    BroadcastSends(grown, c, m, order);
    if seat in st.cursors {
      BroadcastCursor(grown, c, m, order, seat);
    }
  }

  lemma {:induction false} ReplayAllSeat(
      st: State, s: string, p: string, channels: seq<string>, after: int, limit: int, seat: Seat)
    requires seat in st.cursors
    ensures var r := ReplayAll(st, s, p, channels, after, limit, Requested);
      seat in r.cursors && st.cursors[seat] <= r.cursors[seat]
  {
    if channels != [] {
      ReplayAllSeat(st, s, p, Front(channels), after, limit, seat);
      ReplayEffect(ReplayAll(st, s, p, Front(channels), after, limit, Requested), s, p, Last(channels), after, limit,
                   Requested);
    }
  }

  lemma {:induction false} ActSeat(st: State, p: string, cmd: Command, seat: Seat)
    requires cmd.Join? || cmd.Part? || cmd.Privmsg? || cmd.TaskNotice? || cmd.Chathistory?
    ensures SeatKept(st, Act(st, p, cmd), seat)
  {
    hide MaxSeq;
    match cmd {
      case Join(s, c, order) => QuietBroadcastRaw(JoinIndex(st, p, c), JoinedLine(p, c), order);
      case Part(s, c, order) => QuietBroadcastRaw(PartIndex(st, p, c), PartedLine(p, c), order);
      case Privmsg(s, c, body, msgId, at, order) => PublishSeat(st, c, p, body, msgId, at, order, seat);
      case TaskNotice(s, c, body, msgId, at, order) => PublishSeat(st, c, SERVER_NAME, body, msgId, at, order, seat);
      case Chathistory(s, channels, after, limit) =>
        ReplayAllFrame(st, s, p, channels, after, limit);
        if seat in st.cursors {
          ReplayAllSeat(st, s, p, channels, after, limit, seat);
        }
    }
  }

  lemma {:induction false} StepSeat(st: State, cmd: Command, seat: Seat)
    requires !cmd.Register?
    ensures SeatKept(st, Step(st, cmd), seat)
  {
    hide Act, Actor, SeatKept, Refuse, RegisterSession;
    match cmd {
      case Join(s, c, order) => ActOrRefuseSeat(st, cmd, seat);
      case Part(s, c, order) => ActOrRefuseSeat(st, cmd, seat);
      case Privmsg(s, c, body, msgId, at, order) => ActOrRefuseSeat(st, cmd, seat);
      case TaskNotice(s, c, body, msgId, at, order) => ActOrRefuseSeat(st, cmd, seat);
      case Chathistory(s, channels, after, limit) => ActOrRefuseSeat(st, cmd, seat);
      case _ => SameSeats(st, Step(st, cmd), seat);
    }
  }

  lemma {:induction false} ActOrRefuseSeat(st: State, cmd: Command, seat: Seat)
    requires cmd.Join? || cmd.Part? || cmd.Privmsg? || cmd.TaskNotice? || cmd.Chathistory?
    ensures SeatKept(st, Step(st, cmd), seat)
  {
    hide Act;
    if Actor(st, cmd.s).Some? {
      ActSeat(st, Actor(st, cmd.s).value, cmd, seat);
    } else {
      SameSeats(st, Refuse(st, cmd.s), seat);
    }
  }

  lemma {:induction false} MoveSeat(g: Staged, move: Move, seat: Seat)
    requires Permitted(g, move)
    ensures SeatKept(g.st, Advance(g, move).st, seat)
  {
    var h := Advance(g, move);
    hide SeatKept, Step;
    match move {
      case Whole(cmd) => StepSeat(g.st, cmd, seat);
      case ReplayNext(s) => ReplayNextSeat(g, s, seat);
      case Index(s) =>
        if s in g.pending {
          var reg := g.pending[s];
          QuietGreet(IndexSession(g.st, s, reg.principal, reg.rows), s, reg.principal, reg.rows);
        }
        SameSeats(g.st, h.st, seat);
      case _ => SameSeats(g.st, h.st, seat);
    }
  }

  lemma {:induction false} ReplayNextSeat(g: Staged, s: string, seat: Seat)
    ensures SeatKept(g.st, Advance(g, ReplayNext(s)).st, seat)
  {
    if s in g.pending && g.pending[s].replayed < |g.pending[s].rows| {
      var reg := g.pending[s];
      var row := reg.rows[reg.replayed];
      ReplayEffect(g.st, s, reg.principal, row.channel, row.cursor, REGISTRATION_REPLAY_LIMIT, AutoReplay);
    }
  }

  // ----- Which messages are sent -----

  /** Some registration of the principal replays the message in the course of `after`. */
  ghost predicate Replayed(before: seq<Move>, after: seq<Move>, p: string, m: StoredMessage) {
    after != []
    && (Replayed(before, Front(after), p, m) || ReplaysIt(Play(before + Front(after)), Last(after), p, m))
  }

  /** The seat's membership is that of `st`, or it began after the message. */
  ghost predicate SameOrLater(st: State, r: State, seat: Seat, m: StoredMessage) {
    seat in r.cursors && seat in r.epochs ==>
      (seat in st.epochs && r.epochs[seat] == st.epochs[seat]) || m.seqNo <= r.epochs[seat].baseline
  }

  lemma {:induction false} RunCopies(before: seq<Move>, after: seq<Move>, from: nat, p: string, m: StoredMessage)
    requires Smooth(before + after) && m in Play(before).st.log && from <= |Play(before).st.sent|
    ensures var g, h := Play(before).st, Play(before + after).st;
      && g.sent <= h.sent && m in h.log && SameOrLater(g, h, Seat(p, m.channel), m)
      && Copies(h, from, p, m) >= Copies(g, from, p, m)
      && (Copies(h, from, p, m) > Copies(g, from, p, m) <==> Replayed(before, after, p, m))
  {
    if after == [] {
      assert before + after == before;
    } else {
      var all := before + after;
      assert Front(all) == before + Front(after) && Last(all) == Last(after);
      RunCopies(before, Front(after), from, p, m);
      PlaySound(Front(all));
      var g, h, mid := Play(before).st, Play(all).st, Play(Front(all));
      hide Copies, Sound, Advance, Permitted, ReplaysIt;
      MoveCopies(mid, Last(all), from, p, m);
      MoveSeat(mid, Last(all), Seat(p, m.channel));
      SameOrLaterStep(g, mid, h, Seat(p, m.channel), m);
    }
  }

  lemma {:induction false} SameOrLaterStep(g: State, mid: Staged, h: State, seat: Seat, m: StoredMessage)
    requires Sound(mid) && m in mid.st.log && m.channel == seat.channel
    requires SameOrLater(g, mid.st, seat, m) && SeatKept(mid.st, h, seat)
    ensures SameOrLater(g, h, seat, m)
  {
    MaxSeqBounds(mid.st.log, mid.st.counter, seat.channel);
  }

  /** A message published after `st` is in a seat's stream exactly if it was enqueued since. */
  lemma {:induction false} StreamCopies(g: Staged, r: State, seat: Seat, m: StoredMessage)
    requires Sound(g) && g.st.sent <= r.sent && g.st.counter < m.seqNo && m.channel == seat.channel
    requires seat in g.st.cursors && seat in g.st.epochs && seat in r.epochs && r.epochs[seat] == g.st.epochs[seat]
    ensures m in Stream(r, seat) <==> Copies(r, |g.st.sent|, seat.principal, m) > 0
  {
    var lines := r.sent[|g.st.sent|..];
    assert r.sent == g.st.sent + lines;
    assert SeatSound(g, seat) && Bounded(g.st, seat);
    MaxSeqBounds(g.st.log, g.st.counter, seat.channel);
    hide AutoSent;
    StreamGrows(g.st, r, seat, lines);
    assert m !in Stream(g.st, seat);
  }

  /**
    Exactly which messages a member is sent, in every permitted run with any restarts: a message of its membership was
    enqueued unasked if and only if the principal was reached when it was published, or some registration of the
    principal has replayed it since.
   */
  lemma {:induction false} SentIffReachedOrReplayed(
      before: seq<Move>, cmd: Command, after: seq<Move>, p: string, m: StoredMessage)
    requires Smooth(before + [Whole(cmd)] + after) && Publishes(Play(before).st, cmd, m)
    requires var st, seat := Play(before + [Whole(cmd)] + after).st, Seat(p, m.channel);
      seat in st.cursors && seat in st.epochs && st.epochs[seat].baseline < m.seqNo
    ensures m in Stream(Play(before + [Whole(cmd)] + after).st, Seat(p, m.channel))
      <==> Gets(Play(before).st, p, m.channel) || Replayed(before + [Whole(cmd)], after, p, m)
  {
    var published, seat := before + [Whole(cmd)], Seat(p, m.channel);
    var g, h := Play(before), Play(published + after).st;
    PublishedRun(before, cmd, after, p, m);
    hide Copies, Sound, Smooth, Gets, Publishes;
    RunCopies(published, after, |g.st.sent|, p, m);
    StreamCopies(g, h, seat, m);
  }

  lemma {:induction false} PublishedRun(
      before: seq<Move>, cmd: Command, after: seq<Move>, p: string, m: StoredMessage)
    requires Smooth(before + [Whole(cmd)] + after) && Publishes(Play(before).st, cmd, m)
    ensures var g, r := Play(before), Play(before + [Whole(cmd)]);
      && Sound(g) && Allowed(g, cmd) && r == g.(st := Step(g.st, cmd))
      && m in r.st.log && g.st.sent <= r.st.sent && r.st.epochs == g.st.epochs && g.st.counter < m.seqNo
      && (Seat(p, m.channel) in r.st.epochs ==> Seat(p, m.channel) in g.st.cursors)
      && Copies(r.st, |g.st.sent|, p, m) == if Gets(g.st, p, m.channel) then 1 else 0
  {
    var g, published := Play(before), before + [Whole(cmd)];
    assert Front(published) == before && Last(published) == Whole(cmd);
    SmoothPrefix(published, after);
    PlaySound(before);
    PublishCopies(g, cmd, p, m);
    PublishEpochs(g.st, cmd, m);
  }

  lemma {:induction false} PublishEpochs(st: State, cmd: Command, m: StoredMessage)
    requires Publishes(st, cmd, m)
    ensures Step(st, cmd).epochs == st.epochs && st.sent <= Step(st, cmd).sent && st.counter < m.seqNo
  {
    BroadcastSends(st.(log := st.log + [m], counter := st.counter + 1), m.channel, m, cmd.order);
  }

  // ----- What a restart loses -----

  /** The seat should have the message, but no session of the principal was sent it. */
  ghost predicate Missing(st: State, seat: Seat, m: StoredMessage) {
    seat in st.cursors && seat in st.epochs && Expected(st, seat, m) && m !in Stream(st, seat)
  }

  lemma {:induction false} MissingAfterRestart(g: Staged, seat: Seat, m: StoredMessage)
    requires seat in g.st.cursors && seat in g.st.epochs
    requires m in g.st.log && m.channel == seat.channel && g.st.epochs[seat].baseline < m.seqNo
    ensures Missing(Advance(g, Whole(Restart)).st, seat, m)
      <==> m.seqNo <= g.st.cursors[seat] && m !in Stream(g.st, seat)
  {
    RestartState(g.st);
    hide AutoSent, Reaches, Step, SessionChange;
  }

  /**
    Exactly what a restart loses: a message of a member's channel is missing after it if and only if the cursor had
    passed it, the principal was not reached when it was published, and none of the registrations that were to replay
    it then has done so since.
   */
  lemma {:induction false} LostByRestartIff(
      before: seq<Move>, cmd: Command, after: seq<Move>, p: string, m: StoredMessage)
    requires Smooth(before + [Whole(cmd)] + after) && Publishes(Play(before).st, cmd, m)
    requires forall move :: move in after ==> Keeps(move, p)
    requires var st, seat := Play(before + [Whole(cmd)] + after).st, Seat(p, m.channel);
      seat in st.cursors && seat in st.epochs && st.epochs[seat].baseline < m.seqNo
    ensures var g, h, seat := Play(before), Play(before + [Whole(cmd)] + after), Seat(p, m.channel);
      Missing(Advance(h, Whole(Restart)).st, seat, m) <==>
        && m.seqNo <= h.st.cursors[seat]
        && !Gets(g.st, p, m.channel) && Debtors(h, p, m) == Debtors(g, p, m)
  {
    var published, seat := before + [Whole(cmd)], Seat(p, m.channel);
    var g, h := Play(before), Play(published + after);
    PublishedRun(before, cmd, after, p, m);
    hide Copies, Sound, Smooth, Gets, Publishes, Stream, Missing, Debtors, Allowed, Keeps, Advance, Step;
    RunCopies(published, after, |g.st.sent|, p, m);
    RunKeepsBalance(published, after, |g.st.sent|, p, m);
    SameDebt(g, Play(published), p, m);
    StreamCopies(g, h.st, seat, m);
    MissingAfterRestart(h, seat, m);
    if Debtors(h, p, m) != Debtors(g, p, m) {
      ProperSubset(Debtors(h, p, m), Debtors(g, p, m));
    }
  }

  lemma {:induction false} ProperSubset(a: set<string>, b: set<string>)
    requires a <= b && a != b
    ensures |a| < |b|
  {
    assert |b| == |a| + |b - a| by { assert b == a + (b - a); }
    assert b - a != {};
  }

  /** No registration in progress will replay the message, and no later snapshot will lie below it. */
  ghost predicate PassedBy(g: Staged, p: string, m: StoredMessage) {
    && m in g.st.log && Debtors(g, p, m) == {}
    && (Seat(p, m.channel) in g.st.cursors ==> m.seqNo <= g.st.cursors[Seat(p, m.channel)])
  }

  lemma {:induction false} BegunOwesNothing(g: Staged, s: string, p: string, order: seq<string>, m: StoredMessage)
    requires Sound(g) && Permitted(g, Begin(s, p, order)) && PassedBy(g, p, m)
    ensures Debtors(Advance(g, Begin(s, p, order)), p, m) == {}
  {
    var rows, seat := SnapshotRows(g.st, p, order), Seat(p, m.channel);
    SnapshotRowsAt(g.st, p, order);
    var h := Advance(g, Begin(s, p, order));
    hide SnapshotRows, MarkConnected, Sound;
    forall t | t in h.pending ensures !Owes(h.pending[t], seat, m) {
      if h.pending[t] == Pending(p, rows, false, 0) {
        forall i | 0 <= i < |rows| && rows[i].channel == m.channel ensures m.seqNo <= rows[i].cursor {
          assert order[i] in Rooms(g.st, p);
        }
      } else {
        assert t in g.pending && h.pending[t] == g.pending[t];
        assert t !in Debtors(g, p, m);
      }
    }
  }

  lemma {:induction false} StillOwesNothing(g: Staged, move: Move, p: string, m: StoredMessage)
    requires Sound(g) && Permitted(g, move) && PassedBy(g, p, m)
    ensures Debtors(Advance(g, move), p, m) == {} && !ReplaysIt(g, move, p, m)
  {
    if Keeps(move, p) {
      hide Sound, Advance, Debtors, Permitted;
      MoveDebt(g, move, p, m);
    } else if move.Begin? {
      hide Sound, Advance, Permitted, PassedBy;
      BegunOwesNothing(g, move.s, p, move.order, m);
    } else {
      assert Advance(g, move).pending == map[] by { hide Step; }
    }
  }

  lemma {:induction false} StaysPassedBy(g: Staged, move: Move, p: string, m: StoredMessage)
    requires Sound(g) && Permitted(g, move) && PassedBy(g, p, m)
    ensures PassedBy(Advance(g, move), p, m) && !ReplaysIt(g, move, p, m)
  {
    var h, seat := Advance(g, move), Seat(p, m.channel);
    LogGrows(g, move);
    MoveSeat(g, move, seat);
    StillOwesNothing(g, move, p, m);
    AdvanceSound(g, move);
    SoundKeys(h);
    hide Sound, SeatKept, Advance, Permitted, Debtors, ReplaysIt;
    StaysPassedSeat(g, h.st, seat, m);
  }

  lemma {:induction false} SoundKeys(g: Staged)
    requires Sound(g)
    ensures g.st.cursors.Keys == g.st.epochs.Keys
  {
    BaseKeys(g.st);
  }

  lemma {:induction false} StaysPassedSeat(g: Staged, r: State, seat: Seat, m: StoredMessage)
    requires Sound(g) && SeatKept(g.st, r, seat) && m in g.st.log && m.channel == seat.channel
    requires seat in g.st.cursors ==> m.seqNo <= g.st.cursors[seat]
    requires r.cursors.Keys == r.epochs.Keys
    ensures seat in r.cursors ==> m.seqNo <= r.cursors[seat]
  {
    MaxSeqBounds(g.st.log, g.st.counter, seat.channel);
  }

  lemma {:induction false} PassedByIsNotReplayed(before: seq<Move>, after: seq<Move>, p: string, m: StoredMessage)
    requires Smooth(before + after) && PassedBy(Play(before), p, m)
    ensures !Replayed(before, after, p, m) && PassedBy(Play(before + after), p, m)
  {
    if after == [] {
      assert before + after == before;
    } else {
      var all := before + after;
      assert Front(all) == before + Front(after) && Last(all) == Last(after);
      PassedByIsNotReplayed(before, Front(after), p, m);
      PlaySound(Front(all));
      hide Sound, Advance, Permitted, ReplaysIt, PassedBy;
      StaysPassedBy(Play(Front(all)), Last(all), p, m);
    }
  }

  /**
    It is lost for good: what is missing after a restart is missing for as long as the membership lasts, whatever
    registrations, commands and restarts follow.
   */
  lemma {:induction false} LostForGood(moves: seq<Move>, later: seq<Move>, seat: Seat, m: StoredMessage)
    requires Smooth(moves + [Whole(Restart)] + later)
    requires Missing(Play(moves + [Whole(Restart)]).st, seat, m)
    ensures var st := Play(moves + [Whole(Restart)] + later).st;
      seat in st.cursors && seat in st.epochs && st.epochs[seat].baseline < m.seqNo ==> Missing(st, seat, m)
  {
    var restarted := moves + [Whole(Restart)];
    var g, h := Play(restarted), Play(restarted + later).st;
    assert Front(restarted) == moves;
    RestartState(Play(moves).st);
    PlaySound(restarted + later);
    assert PassedBy(g, seat.principal, m) by { assert g.pending == map[]; }
    PassedByIsNotReplayed(restarted, later, seat.principal, m);
    SmoothPrefix(restarted, later);
    PlaySound(restarted);
    hide Copies, Sound, Smooth, Play;
    RunCopies(restarted, later, |g.st.sent|, seat.principal, m);
    if seat in h.cursors && seat in h.epochs && h.epochs[seat].baseline < m.seqNo {
      StillUnsent(g.st, h, seat, m);
    }
  }

  lemma {:induction false} StillUnsent(st: State, r: State, seat: Seat, m: StoredMessage)
    requires st.sent <= r.sent && seat in st.epochs && seat in r.epochs && r.epochs[seat] == st.epochs[seat]
    requires st.epochs[seat].start <= |st.sent| && m.channel == seat.channel
    requires Copies(r, |st.sent|, seat.principal, m) <= Copies(st, |st.sent|, seat.principal, m)
    ensures m in Stream(r, seat) ==> m in Stream(st, seat)
  {
    var lines := r.sent[|st.sent|..];
    assert r.sent == st.sent + lines;
    StreamGrows(st, r, seat, lines);
    assert st.sent[|st.sent|..] == [];
    hide Stream;
  }
}
