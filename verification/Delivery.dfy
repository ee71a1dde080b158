/**
  The daemon's delivery buffer and the agent process it feeds (clients/python/aircd/daemon.py).

  The event loop runs one handler at a time; the HTTP thread's two locked sections can fall between any two
  locked sections of a handler. `Control` is the point a handler has reached, one `Step` is one section.
 */
module Delivery {
  import opened Prelude
  import opened Dedup

  const MAX_PENDING: nat := 200
  const MESSAGE_VISIBILITY_TIMEOUT: real := 30.0

  /** A received message; `ref` is the identity of the object that holds it. */
  datatype Message = Message(msgId: string, ref: int, text: string)

  /** The key of the in-flight map: the server's id, or the object's identity when there is none. */
  datatype DeliveryId = ServerId(id: string) | ObjectId(ref: int)

  function IdOf(m: Message): DeliveryId {
    if m.msgId != "" then ServerId(m.msgId) else ObjectId(m.ref)
  }

  // ----- The in-flight map, in insertion order -----

  datatype Entry = Entry(msg: Message, at: real)

  function Messages(f: seq<Entry>): seq<Message> {
    if f == [] then [] else Messages(Front(f)) + [Last(f).msg]
  }

  predicate Has(f: seq<Entry>, id: DeliveryId) {
    f != [] && (IdOf(Last(f).msg) == id || Has(Front(f), id))
  }

  /** The keys of a map do not repeat. */
  predicate IsMap(f: seq<Entry>) {
    f == [] || (IsMap(Front(f)) && !Has(Front(f), IdOf(Last(f).msg)))
  }

  function Lookup(f: seq<Entry>, id: DeliveryId): Entry
    requires Has(f, id)
  {
    if IdOf(Last(f).msg) == id then Last(f) else Lookup(Front(f), id)
  }

  function Remove(f: seq<Entry>, id: DeliveryId): seq<Entry>
    requires Has(f, id)
  {
    if IdOf(Last(f).msg) == id then Front(f) else Remove(Front(f), id) + [Last(f)]
  }

  /** A known key keeps its position, a new one goes to the end. */
  function Overwrite(f: seq<Entry>, e: Entry): seq<Entry>
    requires Has(f, IdOf(e.msg))
  {
    if IdOf(Last(f).msg) == IdOf(e.msg) then Front(f) + [e] else Overwrite(Front(f), e) + [Last(f)]
  }

  function Put(f: seq<Entry>, e: Entry): seq<Entry> {
    if Has(f, IdOf(e.msg)) then Overwrite(f, e) else f + [e]
  }

  // ----- Requeueing, draining, acknowledging -----

  predicate IsExpired(e: Entry, now: real) {
    now - e.at > MESSAGE_VISIBILITY_TIMEOUT
  }

  function Expired(f: seq<Entry>, now: real): seq<Message> {
    if f == [] then []
    else Expired(Front(f), now) + (if IsExpired(Last(f), now) then [Last(f).msg] else [])
  }

  function Kept(f: seq<Entry>, now: real): seq<Entry> {
    if f == [] then []
    else Kept(Front(f), now) + (if IsExpired(Last(f), now) then [] else [Last(f)])
  }

  /** Moving the expired entries one by one to the front of the queue turns their order around. */
  function Requeued(pending: seq<Message>, f: seq<Entry>, now: real): seq<Message> {
    Reversed(Expired(f, now)) + pending
  }

  /** The map after the batch `ms` is put into it in order. */
  function Drain(f: seq<Entry>, ms: seq<Message>, now: real): seq<Entry> {
    if ms == [] then f else Put(Drain(f, Front(ms), now), Entry(Last(ms), now))
  }

  function Displaced(f: seq<Entry>, id: DeliveryId): seq<Message> {
    if Has(f, id) then [Lookup(f, id).msg] else []
  }

  /** What the batch pushes out of the map by arriving under the same key. */
  function PushedOut(f: seq<Entry>, ms: seq<Message>, now: real): seq<Message> {
    if ms == [] then []
    else
      PushedOut(f, Front(ms), now) + Displaced(Drain(f, Front(ms), now), IdOf(Last(ms)))
  }

  function AfterAcks(f: seq<Entry>, ids: seq<DeliveryId>): seq<Entry> {
    if ids == [] then f
    else
      var rest := AfterAcks(f, Front(ids));
      if Has(rest, Last(ids)) then Remove(rest, Last(ids)) else rest
  }

  function AckedBy(f: seq<Entry>, ids: seq<DeliveryId>): seq<Message> {
    if ids == [] then []
    else
      var rest := AfterAcks(f, Front(ids));
      AckedBy(f, Front(ids)) + Displaced(rest, Last(ids))
  }

  // ----- The agent's state -----

  datatype Agent = Agent(
    pending: seq<Message>,
    inFlight: seq<Entry>,
    seen: seq<string>,
    process: Option<nat>,
    started: nat,
    busy: bool)

  /** Where the running handler is. */
  datatype Control =
    | Resting
    | Delivering                        // about to take the pending batch
    | Holding(batch: seq<Message>)      // about to write it to stdin
    | PuttingBack(batch: seq<Message>)  // the write failed
    | Starting                          // about to spawn a process

  /** Where accepted messages have gone. */
  datatype Ledger = Ledger(
    accepted: seq<Message>,
    acked: seq<Message>,
    written: seq<Message>,
    dropped: seq<Message>,
    overwritten: seq<Message>)

  /** `failed`: the last batch written to the current process did not get through. */
  datatype World = World(agent: Agent, control: Control, failed: bool, ledger: Ledger)

  const EMPTY := World(Agent([], [], [], None, 0, false), Starting, false, Ledger([], [], [], [], []))

  datatype Step =
    | Receive(msg: Message)
    | Result                    // any reader, also one of a replaced process
    | Eof(reader: nat)
    | Watchdog(stuck: bool)
    | Reap(now: real)
    | Continue(ok: bool)        // the running handler's next section
    | Check(now: real)          // HTTP thread
    | Ack(ids: seq<DeliveryId>) // HTTP thread

  predicate Enabled(w: World, s: Step) {
    match s
    case Continue(_) => !w.control.Resting?
    case Check(_) => true
    case Ack(_) => true
    case _ => w.control.Resting?
  }

  predicate IsNew(a: Agent, m: Message) {
    m.msgId == "" || m.msgId !in a.seen
  }

  function Remember(a: Agent, m: Message): seq<string> {
    if m.msgId == "" then a.seen else Touch(a.seen, m.msgId, MAX_DEDUP_ENTRIES)
  }

  /** What the queue keeps of `p` when it is appended to while the agent is busy. */
  function Bounded(p: seq<Message>): seq<Message> {
    if |p| > MAX_PENDING then p[1..] else p
  }

  function Overflow(p: seq<Message>): seq<Message> {
    if |p| > MAX_PENDING then p[..1] else []
  }

  function ReceiveStep(w: World, m: Message): World {
    var a := w.agent.(seen := Remember(w.agent, m));
    if !IsNew(w.agent, m) then w.(agent := a)
    else
      var p := a.pending + [m];
      var l := w.ledger.(accepted := w.ledger.accepted + [m]);
      if a.busy then
        w.(agent := a.(pending := Bounded(p)), ledger := l.(dropped := l.dropped + Overflow(p)))
      else
        w.(agent := a.(pending := p), ledger := l, control := if a.process.None? then Starting else Delivering)
  }

  /** The process is gone: restart at once when something waits. */
  function Orphaned(w: World): World {
    w.(agent := w.agent.(busy := false, process := None), failed := false,
       control := if w.agent.pending != [] then Starting else Resting)
  }

  function ReapStep(w: World, now: real): World {
    var a := w.agent;
    if Expired(a.inFlight, now) == [] then w
    else
      w.(agent := a.(pending := Requeued(a.pending, a.inFlight, now), inFlight := Kept(a.inFlight, now)),
         control := if a.process.None? then Starting else if a.busy then Resting else Delivering)
  }

  function ContinueStep(w: World, ok: bool): World {
    var a := w.agent;
    match w.control
    case Resting => w
    case Delivering =>
      if a.process.None? || a.pending == [] then w.(control := Resting)
      else w.(agent := a.(pending := []), control := Holding(a.pending))
    case Holding(batch) =>
      if ok then
        w.(agent := a.(busy := true), control := Resting, failed := false,
           ledger := w.ledger.(written := w.ledger.written + batch))
      else w.(control := PuttingBack(batch), failed := true)
    case PuttingBack(batch) =>
      w.(agent := a.(pending := batch + a.pending), control := Resting)
    case Starting =>
      w.(agent := a.(process := Some(a.started), started := a.started + 1, busy := true),
         control := Resting, failed := false)
  }

  /** Expired messages and pending ones, in that order, all go in flight. */
  function CheckStep(w: World, now: real): World {
    var a := w.agent;
    var batch := Requeued(a.pending, a.inFlight, now);
    var kept := Kept(a.inFlight, now);
    w.(agent := a.(pending := [], inFlight := Drain(kept, batch, now)),
       ledger := w.ledger.(overwritten := w.ledger.overwritten + PushedOut(kept, batch, now)))
  }

  function AckStep(w: World, ids: seq<DeliveryId>): World {
    w.(agent := w.agent.(inFlight := AfterAcks(w.agent.inFlight, ids)),
       ledger := w.ledger.(acked := w.ledger.acked + AckedBy(w.agent.inFlight, ids)))
  }

  /** A step that is not enabled does nothing. */
  function Next(w: World, s: Step): World {
    if !Enabled(w, s) then w
    else
      match s
      case Receive(m) => ReceiveStep(w, m)
      case Result =>
        w.(agent := w.agent.(busy := false), control := if w.agent.pending != [] then Delivering else Resting)
      case Eof(reader) => if w.agent.process == Some(reader) then Orphaned(w) else w
      case Watchdog(stuck) => if w.agent.busy && w.agent.process.Some? && stuck then Orphaned(w) else w
      case Reap(now) => ReapStep(w, now)
      case Continue(ok) => ContinueStep(w, ok)
      case Check(now) => CheckStep(w, now)
      case Ack(ids) => AckStep(w, ids)
  }

  function Run(steps: seq<Step>): World {
    if steps == [] then EMPTY else Next(Run(Front(steps)), Last(steps))
  }
}
