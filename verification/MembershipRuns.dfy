/** Who belongs to a channel in a run of whole commands, what that lets it do, and what it is sent while it does not. */
module MembershipRuns {
  import opened Prelude
  import opened History
  import opened Memberships
  import opened Bouncer
  import opened BouncerFacts
  import opened BouncerRuns
  import opened CommandEffects

  /** The command is a JOIN of the channel by a session that acts for `p`. */
  ghost predicate Enters(st: State, cmd: Command, p: string, c: string) {
    cmd.Join? && cmd.channel == c && Actor(st, cmd.s) == Some(p)
  }

  ghost predicate Exits(st: State, cmd: Command, p: string, c: string) {
    cmd.Part? && cmd.channel == c && Actor(st, cmd.s) == Some(p)
  }

  /** The last of the principal's JOINs and PARTs of the channel was a JOIN. */
  ghost predicate Belongs(cmds: seq<Command>, p: string, c: string) {
    cmds != []
    && (var st, cmd := Run(Front(cmds)), Last(cmds);
        Enters(st, cmd, p, c) || (!Exits(st, cmd, p, c) && Belongs(Front(cmds), p, c)))
  }

  /** Where the present membership began, and what the log and the lines were then. */
  ghost function Since(cmds: seq<Command>, p: string, c: string): Epoch
    requires Belongs(cmds, p, c)
  {
    if Belongs(Front(cmds), p, c) then Since(Front(cmds), p, c)
    else Epoch(MaxSeq(Run(Front(cmds)).log, c), |Run(Front(cmds)).sent|)
  }

  // ----- One command -----

  /** Only JOIN and PART touch the memberships. */
  lemma {:induction false} OthersKeepMemberships(st: State, cmd: Command)
    requires Legal(st, cmd) && !(cmd.Join? && Actor(st, cmd.s).Some?) && !(cmd.Part? && Actor(st, cmd.s).Some?)
    ensures Step(st, cmd).cursors.Keys == st.cursors.Keys && Step(st, cmd).epochs == st.epochs
  {
    hide Legal, Act, Refuse, RegisterSession, DisconnectSession, AbandonSession, CloseReceiverOf, Actor;
    match cmd {
      case Register(s, p, order) =>
        if CanRegister(st, s) {
          assert Enumerates(order, Rooms(st, p)) by { LegalOrder(st, s, p, order); }
          RegisterKeepsRows(st, s, p, order);
        }
      case Join(s, c, order) => RefuseKeepsRows(st, s);
      case Part(s, c, order) => RefuseKeepsRows(st, s);
      case Privmsg(s, c, body, msgId, at, order) => ActorKeepsRows(st, cmd);
      case TaskNotice(s, c, body, msgId, at, order) => ActorKeepsRows(st, cmd);
      case Chathistory(s, channels, after, limit) => ActorKeepsRows(st, cmd);
      case _ => SessionsKeepTheTables(st, cmd);
    }
  }

  lemma {:induction false} LegalOrder(st: State, s: string, p: string, order: seq<string>)
    requires Legal(st, Register(s, p, order))
    ensures Enumerates(order, Rooms(st, p))
  {
  }

  lemma {:induction false} RefuseKeepsRows(st: State, s: string)
    ensures Refuse(st, s).cursors == st.cursors && Refuse(st, s).epochs == st.epochs
  {
  }

  predicate IsOfSession(cmd: Command) {
    cmd.Connect? || cmd.BadPassword? || cmd.ShutDown? || IsLeaving(cmd)
  }

  /** Sessions come and go without touching the tables or saying anything. */
  lemma {:induction false} SessionsKeepTheTables(st: State, cmd: Command)
    requires IsOfSession(cmd)
    ensures var r := Step(st, cmd);
      r.cursors == st.cursors && r.epochs == st.epochs && r.log == st.log && r.counter == st.counter
  {
    hide Step, Actor;
    match cmd {
      case Restart => RestartForgetsTheIndex(st);
      case Disconnect(s) => LeavingEnds(st, s);
      case ShutDown(s) => LeavingEnds(st, s);
      case Connect(s) => SessionsBeginAndBreak(st, s);
      case BadPassword(s) => SessionsBeginAndBreak(st, s);
      case Abandon(s) => SessionsBeginAndBreak(st, s);
      case CloseReceiver(s) => SessionsBeginAndBreak(st, s);
    }
  }

  lemma {:induction false} RegisterKeepsRows(st: State, s: string, p: string, order: seq<string>)
    requires CanRegister(st, s) && Enumerates(order, Rooms(st, p))
    ensures var r := RegisterSession(st, s, p, order);
      r.cursors.Keys == st.cursors.Keys && r.epochs == st.epochs
  {
    GreetedShape(st, s, p, order);
    ReplayRowsFrame(Greeted(st, s, p, order), s, p, SnapshotRows(st, p, order));
    hide Greeted, ReplayRows, SnapshotRows;
  }

  lemma {:induction false} ActorKeepsRows(st: State, cmd: Command)
    requires cmd.Privmsg? || cmd.TaskNotice? || cmd.Chathistory?
    ensures Step(st, cmd).cursors.Keys == st.cursors.Keys && Step(st, cmd).epochs == st.epochs
  {
    RefuseKeepsRows(st, cmd.s);
    if Actor(st, cmd.s).Some? {
      var p := Actor(st, cmd.s).value;
      match cmd {
        case Privmsg(s, c, body, msgId, at, order) =>
          BroadcastSends(st.(log := st.log + [Appended(st, c, p, body, msgId, at)], counter := st.counter + 1), c,
                         Appended(st, c, p, body, msgId, at), order);
        case TaskNotice(s, c, body, msgId, at, order) =>
          BroadcastSends(st.(log := st.log + [Appended(st, c, SERVER_NAME, body, msgId, at)],
                             counter := st.counter + 1), c,
                         Appended(st, c, SERVER_NAME, body, msgId, at), order);
        case Chathistory(s, channels, after, limit) => ReplayAllFrame(st, s, p, channels, after, limit);
      }
    }
  }

  /**
    In every run a principal has a membership row exactly if the last of its JOINs and PARTs of the channel was a JOIN,
    and the row's history starts where that membership began: at the channel's top at that moment.
   */
  lemma {:induction false} RowIffBelongs(cmds: seq<Command>, p: string, c: string)
    requires Lawful(cmds)
    ensures Seat(p, c) in Run(cmds).cursors <==> Belongs(cmds, p, c)
    ensures Seat(p, c) in Run(cmds).epochs <==> Belongs(cmds, p, c)
    ensures Belongs(cmds, p, c) ==> Run(cmds).epochs[Seat(p, c)] == Since(cmds, p, c)
  {
    if cmds != [] {
      var st, cmd := Run(Front(cmds)), Last(cmds);
      RowIffBelongs(Front(cmds), p, c);
      assert Legal(st, cmd);
      hide Step, Legal, MaxSeq, Lawful;
      if cmd.Join? && Actor(st, cmd.s).Some? {
        JoinBegins(st, cmd.s, Actor(st, cmd.s).value, cmd.channel, cmd.order);
      } else if cmd.Part? && Actor(st, cmd.s).Some? {
        PartEnds(st, cmd.s, Actor(st, cmd.s).value, cmd.channel, cmd.order);
      } else {
        OthersKeepMemberships(st, cmd);
      }
    }
  }

  // ----- What members say -----

  /**
    What was said in a run: the messages of members to their channels and the server's task events, each under the next
    number.
   */
  ghost function Said(cmds: seq<Command>): seq<StoredMessage> {
    if cmds == [] then []
    else
      var before, cmd := Said(Front(cmds)), Last(cmds);
      match cmd
      case Privmsg(s, c, body, msgId, at, order) =>
        var actor := Actor(Run(Front(cmds)), s);
        if actor.Some? && Belongs(Front(cmds), actor.value, c)
        then before + [StoredMessage(|before| + 1, msgId, c, actor.value, body, at)] else before
      case TaskNotice(s, c, body, msgId, at, order) =>
        if Actor(Run(Front(cmds)), s).Some?
        then before + [StoredMessage(|before| + 1, msgId, c, "aircd", body, at)] else before
      case _ => before
  }

  lemma {:induction false} OthersSayNothing(st: State, cmd: Command)
    requires Legal(st, cmd) && (cmd.Privmsg? || cmd.TaskNotice? ==> Actor(st, cmd.s).None?)
    ensures Step(st, cmd).log == st.log && Step(st, cmd).counter == st.counter
  {
    hide Legal, Act, RegisterSession, DisconnectSession, AbandonSession, CloseReceiverOf;
    if ForRegistered(cmd) {
      if Actor(st, cmd.s).None? {
        OthersAreRefused(st, cmd);
      } else {
        ActorSaysNothing(st, cmd, Actor(st, cmd.s).value);
      }
    } else {
      match cmd {
        case Register(s, p, order) =>
          if CanRegister(st, s) {
            RegisterGreetsAndReplays(st, s, p, order);
          }
        case _ => SessionsKeepTheTables(st, cmd);
      }
    }
  }

  lemma {:induction false} ActorSaysNothing(st: State, cmd: Command, p: string)
    requires (cmd.Join? || cmd.Part? || cmd.Chathistory?) && Legal(st, cmd) && Actor(st, cmd.s) == Some(p)
    ensures Step(st, cmd).log == st.log && Step(st, cmd).counter == st.counter
  {
    hide Step, Legal;
    match cmd {
      case Join(s, c, order) => JoinBegins(st, s, p, c, order);
      case Part(s, c, order) => PartEnds(st, s, p, c, order);
      case Chathistory(s, channels, after, limit) => HistoryAnswersTheAsker(st, s, p, channels, after, limit);
    }
  }

  /** In every run the log is exactly what members said to channels they belonged to, and what the server announced. */
  lemma {:induction false} LogIsWhatMembersSaid(cmds: seq<Command>)
    requires Lawful(cmds)
    ensures Run(cmds).log == Said(cmds) && Run(cmds).counter == |Said(cmds)|
  {
    if cmds != [] {
      var st, cmd := Run(Front(cmds)), Last(cmds);
      LogIsWhatMembersSaid(Front(cmds));
      assert Legal(st, cmd);
      hide Step, Legal, Belongs, EachHears, Lawful;
      if (cmd.Privmsg? || cmd.TaskNotice?) && Actor(st, cmd.s).Some? {
        var p := Actor(st, cmd.s).value;
        if cmd.Privmsg? {
          RowIffBelongs(Front(cmds), p, cmd.channel) by { LawfulFront(cmds); }
          PrivmsgTakesAMembership(st, cmd.s, p, cmd.channel, cmd.body, cmd.msgId, cmd.at, cmd.order);
        } else {
          TaskNoticePublishes(st, cmd.s, p, cmd.channel, cmd.body, cmd.msgId, cmd.at, cmd.order);
        }
      } else {
        OthersSayNothing(st, cmd);
      }
    }
  }

  lemma {:induction false} LawfulFront(cmds: seq<Command>)
    requires Lawful(cmds) && cmds != []
    ensures Lawful(Front(cmds))
  {
  }

  // ----- What non-members are sent -----

  lemma {:induction false} NothingLive(st: State, m: StoredMessage, order: seq<string>, p: string, c: string)
    requires Indexed(st) && Seat(p, c) !in st.cursors && Enumerates(order, Recipients(st, m.channel))
    ensures AutoSent(LiveLines(st, m, order), p, c) == []
  {
    LiveLinesFor(st, m, order, p, c);
  }

  /** No command sends a principal unasked anything of a channel it has no membership of. */
  lemma {:induction false} NothingWithoutARow(st: State, cmd: Command, p: string, c: string)
    requires Indexed(st) && Legal(st, cmd) && Seat(p, c) !in st.cursors
    ensures var r := Step(st, cmd);
      st.sent <= r.sent && AutoSent(News(st, r), p, c) == []
  {
    hide Legal, Act, Refuse, RegisterSession, DisconnectSession, AbandonSession, CloseReceiverOf, Indexed;
    match cmd {
      case Register(s, q, order) =>
        if CanRegister(st, s) {
          NothingAtRegistration(st, s, q, order, p, c);
        } else {
          assert News(st, st) == [];
        }
      case Join(s, ch, order) => NothingFromActor(st, cmd, p, c);
      case Part(s, ch, order) => NothingFromActor(st, cmd, p, c);
      case Privmsg(s, ch, body, msgId, at, order) => NothingFromActor(st, cmd, p, c);
      case TaskNotice(s, ch, body, msgId, at, order) => NothingFromActor(st, cmd, p, c);
      case Chathistory(s, channels, after, limit) => NothingFromActor(st, cmd, p, c);
      case _ => ControlOnly(st, cmd, p, c);
    }
  }

  lemma {:induction false} ControlOnly(st: State, cmd: Command, p: string, c: string)
    requires IsOfSession(cmd)
    ensures st.sent <= Step(st, cmd).sent && AutoSent(News(st, Step(st, cmd)), p, c) == []
  {
    hide AutoSent;
    SessionsSayNoChat(st, cmd);
    hide Step, News;
    AutoSentOfControl(News(st, Step(st, cmd)), p, c);
  }

  lemma {:induction false} SessionsSayNoChat(st: State, cmd: Command)
    requires IsOfSession(cmd)
    ensures st.sent <= Step(st, cmd).sent && forall e :: e in News(st, Step(st, cmd)) ==> !e.line.Chat?
  {
    hide Step, Actor;
    match cmd {
      case Restart => RestartForgetsTheIndex(st);
      case Disconnect(s) => LeavingEnds(st, s);
      case ShutDown(s) => LeavingEnds(st, s);
      case Connect(s) => SessionsBeginAndBreak(st, s);
      case BadPassword(s) => SessionsBeginAndBreak(st, s);
      case Abandon(s) => SessionsBeginAndBreak(st, s);
      case CloseReceiver(s) => SessionsBeginAndBreak(st, s);
    }
  }

  lemma {:induction false} NothingFromActor(st: State, cmd: Command, p: string, c: string)
    requires ForRegistered(cmd) && Indexed(st) && Legal(st, cmd) && Seat(p, c) !in st.cursors
    ensures st.sent <= Step(st, cmd).sent && AutoSent(News(st, Step(st, cmd)), p, c) == []
  {
    hide Act, Indexed;
    if Actor(st, cmd.s).None? {
      OthersAreRefused(st, cmd);
      AutoSentOfControl(News(st, Step(st, cmd)), p, c);
    } else {
      NothingFromAct(st, Actor(st, cmd.s).value, cmd, p, c);
    }
  }

  lemma {:induction false} NothingFromAct(st: State, q: string, cmd: Command, p: string, c: string)
    requires ForRegistered(cmd) && Indexed(st) && Legal(st, cmd) && Seat(p, c) !in st.cursors
    requires Actor(st, cmd.s) == Some(q)
    ensures st.sent <= Act(st, q, cmd).sent && AutoSent(News(st, Act(st, q, cmd)), p, c) == []
  {
    hide AutoSent, Indexed, ReplayAll, Broadcast, BroadcastRaw;
    match cmd {
      case Join(s, ch, order) =>
        QuietBroadcastRaw(JoinIndex(st, q, ch), JoinedLine(q, ch), order);
        AutoSentOfControl(News(st, Act(st, q, cmd)), p, c);
      case Part(s, ch, order) =>
        QuietBroadcastRaw(PartIndex(st, q, ch), PartedLine(q, ch), order);
        AutoSentOfControl(News(st, Act(st, q, cmd)), p, c);
      case Privmsg(s, ch, body, msgId, at, order) =>
        if Seat(q, ch) in st.cursors {
          NothingFromPublish(st, ch, q, body, msgId, at, order, p, c);
        } else {
          AutoSentOfControl(News(st, Act(st, q, cmd)), p, c);
        }
      case TaskNotice(s, ch, body, msgId, at, order) =>
        NothingFromPublish(st, ch, SERVER_NAME, body, msgId, at, order, p, c);
      case Chathistory(s, channels, after, limit) =>
        HistoryAnswersTheAsker(st, s, q, channels, after, limit);
        RequestedIsAsked(News(st, Act(st, q, cmd)), p, c);
    }
  }

  lemma {:induction false} RequestedIsAsked(lines: seq<Enqueued>, p: string, c: string)
    requires forall e :: e in lines ==> e.line.Chat? && e.line.origin == Requested
    ensures AutoSent(lines, p, c) == []
  {
    if lines != [] {
      assert Last(lines) in lines;
      RequestedIsAsked(Front(lines), p, c);
    }
  }

  lemma {:induction false} NothingFromPublish(
      st: State, ch: string, sender: string, body: string, msgId: string, at: int, order: seq<string>,
      p: string, c: string)
    requires Indexed(st) && Seat(p, c) !in st.cursors && Enumerates(order, Recipients(st, ch))
    ensures var r := Publish(st, ch, sender, body, msgId, at, order);
      st.sent <= r.sent && AutoSent(News(st, r), p, c) == []
  {
    var m := Appended(st, ch, sender, body, msgId, at);
    var grown := st.(log := st.log + [m], counter := st.counter + 1);
    var r := Publish(st, ch, sender, body, msgId, at, order);
    BroadcastSends(grown, ch, m, order);
    assert Recipients(grown, ch) == Recipients(st, ch);
    NothingLive(grown, m, order, p, c);
    assert News(st, r) == LiveLines(grown, m, order);
  }

  /** A registration sends control lines and then, if the receiver is open, what its replays read. */
  lemma {:induction false} RegistrationNews(st: State, s: string, q: string, order: seq<string>)
    returns (control: seq<Enqueued>, replayed: seq<Enqueued>)
    requires CanRegister(st, s) && Legal(st, Register(s, q, order))
    ensures var r := RegisterSession(st, s, q, order);
      && st.sent <= r.sent && News(st, r) == control + replayed
      && (forall e :: e in control ==> !e.line.Chat?)
      && (replayed == [] || replayed == PageLines(s, q, Missed(st, q, order), AutoReplay))
  {
    var greeted := Greeted(st, s, q, order);
    assert Enumerates(order, Rooms(st, q)) by { LegalOrder(st, s, q, order); }
    assert RegisterSession(st, s, q, order) == ReplayRows(greeted, s, q, SnapshotRows(st, q, order));
    GreetedShape(st, s, q, order);
    hide *;
    RowsReplayMissed(st, greeted, s, q, order);
    control := News(st, greeted);
    replayed := if IsOpen(greeted, s) then PageLines(s, q, Missed(st, q, order), AutoReplay) else [];
    NewsThen(st, greeted, RegisterSession(st, s, q, order), replayed);
  }

  lemma {:induction false} NewsThen(st: State, mid: State, r: State, lines: seq<Enqueued>)
    requires st.sent <= mid.sent && r.sent == mid.sent + lines
    ensures st.sent <= r.sent && News(st, r) == News(st, mid) + lines
  {
  }

  lemma {:induction false} NothingAtRegistration(
      st: State, s: string, q: string, order: seq<string>, p: string, c: string)
    requires CanRegister(st, s) && Legal(st, Register(s, q, order)) && Seat(p, c) !in st.cursors
    ensures var r := RegisterSession(st, s, q, order);
      st.sent <= r.sent && AutoSent(News(st, r), p, c) == []
  {
    assert p == q ==> c !in order by { assert c !in Rooms(st, p); }
    hide AutoSent, PageLines, Missed, RegisterSession, News, Legal, CanRegister;
    var control, replayed := RegistrationNews(st, s, q, order);
    AutoSentOfControl(control, p, c);
    AutoSentConcat(control, replayed, p, c);
    MissedOfRooms(st, s, q, order, p, c);
    AutoSentOfControl([], p, c);
  }

  lemma {:induction false} MissedOfRooms(st: State, s: string, q: string, order: seq<string>, p: string, c: string)
    requires p == q ==> c !in order
    ensures AutoSent(PageLines(s, q, Missed(st, q, order), AutoReplay), p, c) == []
  {
    if order != [] {
      var ch := Last(order);
      var page := Page(st.log, ch, if Seat(q, ch) in st.cursors then st.cursors[Seat(q, ch)] else 0,
                       REGISTRATION_REPLAY_LIMIT);
      MissedOfRooms(st, s, q, Front(order), p, c);
      PageOfChannel(st.log, ch, if Seat(q, ch) in st.cursors then st.cursors[Seat(q, ch)] else 0);
      hide Page, PageLines, AutoSent;
      PageLinesFor(s, q, ch, page, AutoReplay, p, c);
      PageLinesConcat(s, q, Missed(st, q, Front(order)), page, AutoReplay);
      AutoSentConcat(PageLines(s, q, Missed(st, q, Front(order)), AutoReplay), PageLines(s, q, page, AutoReplay), p, c);
    }
  }

  lemma {:induction false} PageOfChannel(log: seq<StoredMessage>, c: string, after: int)
    ensures forall m :: m in Page(log, c, after, REGISTRATION_REPLAY_LIMIT) ==> m.channel == c
  {
    AboveAll(log, c, after);
  }

  /**
    In every run, as long as a principal does not belong to a channel, nothing published to it is sent to the principal
    unasked, by no command and through no session.
   */
  lemma {:induction false} NothingToNonMembers(cmds: seq<Command>, more: seq<Command>, p: string, c: string)
    requires Lawful(cmds + more)
    requires forall n :: 0 <= n <= |more| ==> !Belongs(cmds + more[..n], p, c)
    ensures var st, r := Run(cmds), Run(cmds + more);
      st.sent <= r.sent && AutoSent(News(st, r), p, c) == []
  {
    var all, st := cmds + more, Run(cmds);
    if more == [] {
      assert all == cmds;
      assert News(st, st) == [];
    } else {
      assert Front(all) == cmds + Front(more) && Last(all) == Last(more);
      assert more[..|more| - 1] == Front(more);
      assert forall n :: 0 <= n <= |Front(more)| ==> Front(more)[..n] == more[..n];
      hide Belongs, AutoSent, Indexed;
      NothingToNonMembers(cmds, Front(more), p, c);
      NothingNext(all, p, c);
      var mid, r := Run(Front(all)), Run(all);
      hide *;
      NewsJoin(st, mid, r, p, c);
    }
  }

  lemma {:induction false} NewsJoin(st: State, mid: State, r: State, p: string, c: string)
    requires st.sent <= mid.sent && AutoSent(News(st, mid), p, c) == []
    requires mid.sent <= r.sent && AutoSent(News(mid, r), p, c) == []
    ensures st.sent <= r.sent && AutoSent(News(st, r), p, c) == []
  {
    hide AutoSent;
    assert r.sent == mid.sent + News(mid, r);
    NewsThen(st, mid, r, News(mid, r));
    hide News;
    AutoSentConcat(News(st, mid), News(mid, r), p, c);
  }

  lemma {:induction false} NothingNext(all: seq<Command>, p: string, c: string)
    requires all != [] && Lawful(all) && !Belongs(Front(all), p, c)
    ensures var mid, r := Run(Front(all)), Run(all);
      mid.sent <= r.sent && AutoSent(News(mid, r), p, c) == []
  {
    LawfulFront(all);
    RowIffBelongs(Front(all), p, c);
    RunKeepsIndexed(Front(all));
    assert Legal(Run(Front(all)), Last(all));
    hide Step, Legal, Belongs, AutoSent, Lawful, Indexed;
    NothingWithoutARow(Run(Front(all)), Last(all), p, c);
  }

  /** Between a PART and the principal's next JOIN nothing of the channel is sent to it unasked. */
  lemma {:induction false} NothingAfterPart(
      cmds: seq<Command>, part: Command, more: seq<Command>, p: string, c: string)
    requires Lawful(cmds + [part] + more) && Exits(Run(cmds), part, p, c)
    requires forall n :: 0 <= n < |more| ==> !Enters(Run(cmds + [part] + more[..n]), more[n], p, c)
    ensures var st, r := Run(cmds + [part]), Run(cmds + [part] + more);
      && Seat(p, c) !in r.cursors && Seat(p, c) !in r.epochs && p !in Members(r.channels, c)
      && st.sent <= r.sent && AutoSent(News(st, r), p, c) == []
  {
    var left := cmds + [part];
    assert Front(left) == cmds && Last(left) == part;
    forall n | 0 <= n <= |more| ensures !Belongs(left + more[..n], p, c) {
      StaysOut(cmds, part, more, p, c, n);
    }
    assert more[..|more|] == more;
    NothingToNonMembers(left, more, p, c);
    RowIffBelongs(left + more, p, c);
    RunKeepsIndexed(left + more);
    hide Run, Belongs, Lawful, AutoSent;
  }

  lemma {:induction false} PartLeaves(cmds: seq<Command>, part: Command, p: string, c: string)
    requires Exits(Run(cmds), part, p, c)
    ensures !Belongs(cmds + [part], p, c)
  {
    assert Front(cmds + [part]) == cmds;
  }

  lemma {:induction false} StillOut(all: seq<Command>, cmd: Command, p: string, c: string)
    requires !Belongs(all, p, c) && !Enters(Run(all), cmd, p, c)
    ensures !Belongs(all + [cmd], p, c)
  {
    assert Front(all + [cmd]) == all;
  }

  lemma {:induction false} StaysOut(
      cmds: seq<Command>, part: Command, more: seq<Command>, p: string, c: string, n: nat)
    requires Exits(Run(cmds), part, p, c) && n <= |more|
    requires forall i :: 0 <= i < |more| ==> !Enters(Run(cmds + [part] + more[..i]), more[i], p, c)
    ensures !Belongs(cmds + [part] + more[..n], p, c)
  {
    hide Belongs, Run, Enters, Exits;
    if n == 0 {
      PartLeaves(cmds, part, p, c);
      assert cmds + [part] + more[..0] == cmds + [part];
    } else {
      StaysOut(cmds, part, more, p, c, n - 1);
      var all := cmds + [part] + more[..n - 1];
      assert all + [more[n - 1]] == cmds + [part] + more[..n];
      StillOut(all, more[n - 1], p, c);
    }
  }
}
