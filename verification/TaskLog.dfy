/**
  Task commands as the server runs them (src/server.rs, task_create to broadcast_task_event): each successful one
  changes the task table and appends one line of text to the durable log. The text alone is enough to rebuild the table.
 */
module TaskLog {
  import opened Prelude
  import opened History
  import opened Text
  import T = Tasks
  import R = TaskRuns

  datatype Verb = Created | ClaimedBy | Completed | Released

  datatype Event = Event(id: string, verb: Verb, actor: string, title: string)

  // ----- The text of an event -----

  function VerbText(verb: Verb): string {
    match verb
    case Created => "created"
    case ClaimedBy => "claimed"
    case Completed => "completed"
    case Released => "released"
  }

  function VerbOf(text: string): Option<Verb> {
    if text == "created" then Some(Created)
    else if text == "claimed" then Some(ClaimedBy)
    else if text == "completed" then Some(Completed)
    else if text == "released" then Some(Released)
    else None
  }

  function EventText(e: Event): string {
    "TASK" + Spaced(e.id, Spaced(VerbText(e.verb), Spaced("by", Spaced(e.actor + ":", " " + e.title))))
  }

  /** The part of a token before its first colon that is not its first character: (\S+?): */
  function BeforeColon(run: string): Option<string> {
    if run == "" then None
    else
      var i := Find(run[1..], ":");
      if i.None? then None else Some(run[..i.value + 1])
  }

  /** TASK\s+(\S+)\s+(verb)\s+by\s+(\S+?): and the title after the blank. */
  function ParseEvent(text: string): Option<Event> {
    var a := AfterLiteral(text, "TASK");
    if a.None? then None
    else
      var id := Field(a.value, "");
      if id.None? then None
      else
        var verb := Field(id.value.1, "");
        if verb.None? || VerbOf(verb.value.0).None? then None
        else
          var link := Field(verb.value.1, "");
          if link.None? || link.value.0 != "by" then None
          else
            var run := Field(link.value.1, "");
            if run.None? then None
            else
              var actor := BeforeColon(run.value.0);
              if actor.None? then None
              else
                var rest := run.value.0[|actor.value| + 1..] + run.value.1;
                Some(Event(id.value.0, VerbOf(verb.value.0).value, actor.value, if rest == "" then "" else rest[1..]))
  }

  lemma {:induction false} BeforeColonOfName(actor: string)
    requires actor != "" && ':' !in actor
    ensures BeforeColon(actor + ":") == Some(actor)
  {
    assert (actor + ":")[1..] == actor[1..] + ":" + "";
    forall i | 0 <= i < |actor[1..]| ensures (actor[1..] + ":")[i..][..1] != ":" {
      assert (actor[1..] + ":")[i..][..1][0] == actor[i + 1];
    }
    FindAfter(actor[1..], ":", "");
  }

  lemma {:induction false} VerbRoundTrip(verb: Verb)
    ensures Word(VerbText(verb)) && VerbOf(VerbText(verb)) == Some(verb)
  {
  }

  lemma {:induction false} NameAndTitle(actor: string, title: string)
    requires Word(actor)
    ensures Word(actor + ":") && (actor + ":")[|actor| + 1..] + (" " + title) == " " + title
    ensures (" " + title)[1..] == title
  {
  }

  lemma {:induction false} AfterTask(rest: string)
    ensures AfterLiteral("TASK" + rest, "TASK") == Some(rest)
  {
    assert ("TASK" + rest)[|"TASK"|..] == rest;
  }

  /** Reading an event's text back gives the event. */
  lemma {:induction false} EventTextRoundTrip(e: Event)
    requires Word(e.id) && Word(e.actor) && ':' !in e.actor
    ensures ParseEvent(EventText(e)) == Some(e)
  {
    hide Field, AfterLiteral, Spaced, BeforeColon, VerbOf, VerbText, Word, NoSpace;
    var r4 := " " + e.title;
    var r3 := Spaced(e.actor + ":", r4);
    var r2 := Spaced("by", r3);
    var r1 := Spaced(VerbText(e.verb), r2);
    AfterTask(Spaced(e.id, r1));
    TokenField(e.id, r1);
    VerbRoundTrip(e.verb);
    TokenField(VerbText(e.verb), r2);
    VerbIsBy();
    TokenField("by", r3);
    NameAndTitle(e.actor, e.title);
    BlankEnds(e.title);
    TokenField(e.actor + ":", r4);
    BeforeColonOfName(e.actor) by {
      assert e.actor != "" by { WordNotEmpty(e.actor); }
    }
  }

  lemma {:induction false} WordNotEmpty(s: string)
    requires Word(s)
    ensures s != ""
  {
  }

  lemma {:induction false} VerbIsBy()
    ensures Word("by")
  {
  }

  lemma {:induction false} BlankEnds(s: string)
    ensures EndsToken(" " + s)
  {
  }

  // ----- Commands -----

  /** The task table and the log; `nicks` gives each principal's display name. */
  datatype Board = Board(table: T.Table, log: seq<StoredMessage>, counter: nat)

  const BLANK := Board(map[], [], 0)

  datatype Command =
    | Say(sender: string, channel: string, body: string)
    | CreateTask(actor: string, id: string, channel: string, title: string, now: int)
    | Work(actor: string, op: T.Op)

  function Append(b: Board, channel: string, sender: string, body: string): Board {
    b.(log := b.log + [StoredMessage(b.counter + 1, "", channel, sender, body, 0)], counter := b.counter + 1)
  }

  function Announce(b: Board, id: string, verb: Verb, actor: string): Board {
    if id in b.table
    then Append(b, b.table[id].channel, SERVER_NAME, EventText(Event(id, verb, actor, b.table[id].title)))
    else b
  }

  function VerbFor(op: T.Op): Verb {
    match op
    case Create(id, channel, title, now) => Created
    case Claim(id, p, now) => ClaimedBy
    case Complete(id, p, now) => Completed
    case Release(id, p, now) => Released
  }

  /** A failed operation only answers the caller; a successful one is announced in the task's channel. */
  function Perform(b: Board, leaseSeconds: int, actorNick: string, op: T.Op): Board {
    if T.Succeeds(b.table, op)
    then Announce(b.(table := T.Apply(b.table, leaseSeconds, op)), op.id, VerbFor(op), actorNick)
    else b
  }

  function Step(b: Board, leaseSeconds: int, nicks: string -> string, cmd: Command): Board {
    match cmd
    case Say(sender, channel, body) => Append(b, channel, sender, body)
    case CreateTask(actor, id, channel, title, now) =>
      if Trim(title) == "" then b
      else Perform(b, leaseSeconds, nicks(actor), T.Create(id, channel, Trim(title), now))
    case Work(actor, op) => Perform(b, leaseSeconds, nicks(actor), op)
  }

  ghost function Run(leaseSeconds: int, nicks: string -> string, cmds: seq<Command>): Board {
    if cmds == [] then BLANK else Step(Run(leaseSeconds, nicks, Front(cmds)), leaseSeconds, nicks, Last(cmds))
  }

  /** The principal an operation acts for is the one who sent the command. */
  predicate ActsFor(op: T.Op, actor: string) {
    match op
    case Create(id, channel, title, now) => false
    case Claim(id, p, now) => p == actor
    case Complete(id, p, now) => p == actor
    case Release(id, p, now) => p == actor
  }

  /** Task ids and nicks are single tokens, nicks hold no colon, and no principal bears the server's name. */
  ghost predicate WellNamed(nicks: string -> string, cmds: seq<Command>) {
    && (forall p: string :: Word(nicks(p)) && ':' !in nicks(p))
    && (forall i :: 0 <= i < |cmds| ==>
          match cmds[i]
          case Say(sender, channel, body) => sender != SERVER_NAME
          case CreateTask(actor, id, channel, title, now) => Word(id)
          case Work(actor, op) => ActsFor(op, actor))
  }

  // ----- Rebuilding the table from the log -----

  datatype Entry = Entry(channel: string, title: string, status: T.Status, holder: Option<string>)

  function Replay1(view: map<string, Entry>, m: StoredMessage): map<string, Entry> {
    if m.senderId != SERVER_NAME || ParseEvent(m.body).None? then view
    else
      var e := ParseEvent(m.body).value;
      match e.verb
      case Created => view[e.id := Entry(m.channel, e.title, T.Open, None)]
      case ClaimedBy =>
        if e.id in view then view[e.id := view[e.id].(status := T.Claimed, holder := Some(e.actor))] else view
      case Completed => if e.id in view then view[e.id := view[e.id].(status := T.Done)] else view
      case Released => if e.id in view then view[e.id := view[e.id].(status := T.Open, holder := None)] else view
  }

  function Rebuild(log: seq<StoredMessage>): map<string, Entry> {
    if log == [] then map[] else Replay1(Rebuild(Front(log)), Last(log))
  }

  function View(table: T.Table, nicks: string -> string): map<string, Entry> {
    map id | id in table :: Entry(table[id].channel, table[id].title, table[id].status,
      if table[id].claimedBy.Some? then Some(nicks(table[id].claimedBy.value)) else None)
  }

  lemma {:induction false} ApplyRefines(
      before: T.Table, leaseSeconds: int, nicks: string -> string, actor: string, op: T.Op, m: StoredMessage)
    requires T.Succeeds(before, op) && (ActsFor(op, actor) || op.Create?)
    requires forall id :: id in before ==> R.Shaped(before[id])
    requires var row := T.Apply(before, leaseSeconds, op)[op.id];
      && m.senderId == SERVER_NAME && m.channel == row.channel
      && ParseEvent(m.body) == Some(Event(op.id, VerbFor(op), nicks(actor), row.title))
    ensures Replay1(View(before, nicks), m) == View(T.Apply(before, leaseSeconds, op), nicks)
  {
    hide ParseEvent;
    var a, b := Replay1(View(before, nicks), m), View(T.Apply(before, leaseSeconds, op), nicks);
    assert a.Keys == b.Keys;
    forall id | id in a ensures a[id] == b[id] {
      if id != op.id {
        assert T.Apply(before, leaseSeconds, op)[id] == before[id];
      }
    }
  }

  lemma {:induction false} PerformRefines(b: Board, leaseSeconds: int, nicks: string -> string, actor: string, op: T.Op)
    requires Rebuild(b.log) == View(b.table, nicks)
    requires forall id :: id in b.table ==> Word(id) && R.Shaped(b.table[id])
    requires Word(nicks(actor)) && ':' !in nicks(actor)
    requires ActsFor(op, actor) || (op.Create? && Word(op.id))
    ensures var r := Perform(b, leaseSeconds, nicks(actor), op);
      && Rebuild(r.log) == View(r.table, nicks)
      && (forall id :: id in r.table ==> Word(id) && R.Shaped(r.table[id]))
  {
    if T.Succeeds(b.table, op) {
      hide ParseEvent, EventText, View, Word, Replay1;
      ApplyKeepsShape(b.table, leaseSeconds, op);
      var table := T.Apply(b.table, leaseSeconds, op);
      var e := Event(op.id, VerbFor(op), nicks(actor), table[op.id].title);
      EventTextRoundTrip(e);
      var r := Perform(b, leaseSeconds, nicks(actor), op);
      assert Front(r.log) == b.log;
      ApplyRefines(b.table, leaseSeconds, nicks, actor, op, Last(r.log));
    }
  }

  lemma {:induction false} ApplyKeepsShape(table: T.Table, leaseSeconds: int, op: T.Op)
    requires T.Succeeds(table, op)
    requires forall id :: id in table ==> Word(id) && R.Shaped(table[id])
    requires op.Create? ==> Word(op.id)
    ensures op.id in T.Apply(table, leaseSeconds, op) && Word(op.id)
    ensures forall id :: id in T.Apply(table, leaseSeconds, op) ==>
      Word(id) && R.Shaped(T.Apply(table, leaseSeconds, op)[id])
  {
    hide Word;
  }

  /**
    In every run, replaying the texts the server appended to the log rebuilds each task's channel, title, status and
    claimant, whatever else members said in between.
   */
  lemma {:induction false} LogRebuildsTable(leaseSeconds: int, nicks: string -> string, cmds: seq<Command>)
    requires WellNamed(nicks, cmds)
    ensures Rebuild(Run(leaseSeconds, nicks, cmds).log) == View(Run(leaseSeconds, nicks, cmds).table, nicks)
    ensures forall id :: id in Run(leaseSeconds, nicks, cmds).table ==>
        Word(id) && R.Shaped(Run(leaseSeconds, nicks, cmds).table[id])
  {
    if cmds != [] {
      LogRebuildsTable(leaseSeconds, nicks, Front(cmds));
      var b, r := Run(leaseSeconds, nicks, Front(cmds)), Run(leaseSeconds, nicks, cmds);
      assert cmds[|cmds| - 1] == Last(cmds);
      match Last(cmds) {
        case Say(sender, channel, body) =>
          assert Front(r.log) == b.log;
        case CreateTask(actor, id, channel, title, now) =>
          if Trim(title) != "" {
            PerformRefines(b, leaseSeconds, nicks, actor, T.Create(id, channel, Trim(title), now));
          }
        case Work(actor, op) =>
          PerformRefines(b, leaseSeconds, nicks, actor, op);
      }
    }
  }

  /** The texts stand in the log under consecutive numbers, each in its task's channel. */
  lemma {:induction false} LogIsNumbered(leaseSeconds: int, nicks: string -> string, cmds: seq<Command>)
    ensures var b := Run(leaseSeconds, nicks, cmds);
      b.counter == |b.log| && forall i :: 0 <= i < |b.log| ==> b.log[i].seqNo == i + 1
  {
    if cmds != [] {
      LogIsNumbered(leaseSeconds, nicks, Front(cmds));
      hide EventText, T.Apply, T.Succeeds, Trim;
    }
  }
}
