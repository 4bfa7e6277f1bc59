/**
 The console capture pipeline: a bounded ring that any number of threads write console output to, one
 worker that drains it into the line assembler, and a queue of flush and close entries that control
 threads place between records. Every atomic access and every section under the queue mutex is one
 step; the copy into a slot is two. One worker lifetime, without emergency stop.

 `claims`, `writes`, `given`, `entries`, `flushes` and `drained` are history: no step reads them.
 */
module CaptureRing {

  const CAPACITY: nat := 256

  /** A console write that was given a slot, with the loss generation it was stamped with and its place
      among all write attempts. */
  datatype Record = Record(tid: nat, payload: nat, stamp: nat, ticket: nat)

  datatype Content = Unused | Partial(tid: nat) | Whole(tid: nat, payload: nat) | Sealed(rec: Record)

  datatype Slot = Slot(sequence: nat, content: Content)

  type Ring = r: seq<Slot> | |r| == CAPACITY witness seq(CAPACITY, (i: nat) => Slot(i, Unused))

  datatype Claim = Claim(tid: nat, payload: nat)

  /** A finished write attempt: dropped, with the generation it created, or accepted, with its stamp and slot
      position. */
  datatype Attempt =
    | Dropped(tid: nat, generation: nat)
    | Accepted(tid: nat, generation: nat, payload: nat, pos: nat)

  datatype Producer =
    | Out
    | Entered(payload: nat, fits: bool)
    | Open(payload: nat, fits: bool)
    | Loaded(payload: nat, pos: nat)
    | Matched(payload: nat, pos: nat)
    | Claimed(payload: nat, pos: nat)
    | Copying(payload: nat, pos: nat)
    | Copied(payload: nat, pos: nat)
    | Stamped(payload: nat, pos: nat, stamp: nat)
    | Dropping
    | Leaving

  datatype Kind = ParseFlush | CloseBoundary

  datatype Entry = Entry(kind: Kind, number: nat, boundary: nat, generation: nat)

  datatype FlushDone = FlushDone(number: nat, boundary: nat, recordsGiven: nat)

  datatype Worker =
    | Idle
    | Choosing
    | HasRecord(pos: nat)
    | Applied(pos: nat)
    | Processed(pos: nat)
    | HasEntry(e: Entry)
    | EntryApplied(e: Entry)
    | EntryDone(e: Entry)
    | Exited

  datatype Life = Running | Draining | Stopping | Stopped

  datatype Request = Flush(wait: bool) | CloseFiles | Stop

  datatype Controller =
    | Free
    | Locked(request: Request)
    | Refused(wait: bool)
    | Pausing(request: Request, was: bool)
    | Paused(request: Request, was: bool)
    | Captured(request: Request, was: bool, boundary: nat)
    | Pushed(request: Request, was: bool, number: nat)
    | Unlocking(request: Request, number: nat)
    | Waiting(request: Request, number: nat)
    | Joining
    | Returned

  datatype Holder = Nobody | ByWorker | ByController(c: nat)

  /** The ring: its slots, its two ends, and who claimed each position so far. */
  datatype Ingress = Ingress(slots: Ring, enqueue: nat, dequeue: nat, claims: seq<Claim>)

  /** The loss generation, and every finished write attempt. */
  datatype Losses = Losses(generation: nat, writes: seq<Attempt>)

  /** The worker's side: the records whose bytes may still be pending, and what it has handled. */
  datatype Reader = Reader(
    worker: Worker, consumed: nat, fragments: seq<Record>, processed: nat, given: seq<Record>, flushes: seq<FlushDone>)

  /** What the queue mutex protects. */
  datatype Desk = Desk(life: Life, mutex: Holder, queue: seq<Entry>, enqueued: nat, entries: seq<Entry>, drained: bool)

  datatype State = State(
    ring: Ingress, loss: Losses, accepting: bool, active: int, producers: map<nat, Producer>,
    reader: Reader, desk: Desk, controllers: map<nat, Controller>)

  datatype Action =
    | Produce(t: nat, payload: nat, fits: bool)
    | Work
    | Control(c: nat, request: Request)

  ghost predicate Init(s: State) {
    && (forall i :: 0 <= i < CAPACITY ==> s.ring.slots[i] == Slot(i, Unused))
    && s.ring.enqueue == s.ring.dequeue == 0 && s.ring.claims == [] && s.loss.writes == [] && s.active == 0
    && (forall t | t in s.producers :: s.producers[t] == Out)
    && (forall c | c in s.controllers :: s.controllers[c] == Free)
    && s.reader == Reader(Idle, s.loss.generation, [], 0, [], [])
    && s.desk == Desk(Running, Nobody, [], 0, [], false)
  }

  function Index(pos: nat): (i: nat)
    ensures i < CAPACITY
  {
    pos % CAPACITY
  }

  function At(slots: Ring, pos: nat): Slot { slots[Index(pos)] }

  function Put(slots: Ring, pos: nat, slot: Slot): Ring { slots[Index(pos) := slot] }

  function Goto(s: State, t: nat, p: Producer): State { s.(producers := s.producers[t := p]) }

  // ----- producers

  function PutIn(s: State, pos: nat, slot: Slot): State {
    s.(ring := s.ring.(slots := Put(s.ring.slots, pos, slot)))
  }

  function ProduceStep(s: State, t: nat, payload: nat, fits: bool): State
    requires t in s.producers
  {
    match s.producers[t]
    case Out => Goto(s.(active := s.active + 1), t, Entered(payload, fits))
    case Entered(d, ok) => Goto(s, t, if s.accepting then Open(d, ok) else Dropping)
    case Open(d, ok) => Goto(s, t, if ok then Loaded(d, s.ring.enqueue) else Dropping)
    case Loaded(d, p) => Goto(s, t, if At(s.ring.slots, p).sequence == p then Matched(d, p) else Dropping)
    case Matched(d, p) =>
      if s.ring.enqueue == p
      then Goto(s.(ring := s.ring.(enqueue := p + 1, claims := s.ring.claims + [Claim(t, d)])), t, Claimed(d, p))
      else Goto(s, t, Dropping)
    case Claimed(d, p) => Goto(PutIn(s, p, At(s.ring.slots, p).(content := Partial(t))), t, Copying(d, p))
    case Copying(d, p) => Goto(PutIn(s, p, At(s.ring.slots, p).(content := Whole(t, d))), t, Copied(d, p))
    case Copied(d, p) => Goto(s, t, Stamped(d, p, s.loss.generation))
    case Stamped(d, p, g) =>
      Goto(PutIn(s, p, Slot(p + 1, Sealed(Record(t, d, g, |s.loss.writes|))))
           .(loss := s.loss.(writes := s.loss.writes + [Accepted(t, g, d, p)])), t, Leaving)
    case Dropping =>
      var g := s.loss.generation + 1;
      Goto(s.(loss := Losses(g, s.loss.writes + [Dropped(t, g)])), t, Leaving)
    case Leaving => Goto(s.(active := s.active - 1), t, Out)
  }

  // ----- the worker

  /** What the worker reads from a slot; a slot that is not sealed would give it garbage. */
  function RecordIn(slot: Slot): Record { if slot.content.Sealed? then slot.content.rec else Record(0, 0, 0, 0) }

  function ApplyLossBoundary(r: Reader, generation: nat): Reader {
    if generation == r.consumed then r else r.(fragments := [], consumed := generation)
  }

  function Act(s: State, w: Worker): State { s.(reader := s.reader.(worker := w)) }

  /** The section under the queue mutex: an entry whose boundary is reached goes before the next record. */
  function ChooseStep(s: State): State {
    var d := s.desk.(mutex := Nobody);
    if s.desk.queue != [] && s.ring.dequeue >= s.desk.queue[0].boundary
    then Act(s.(desk := d.(queue := s.desk.queue[1..])), HasEntry(s.desk.queue[0]))
    else if At(s.ring.slots, s.ring.dequeue).sequence == s.ring.dequeue + 1
    then Act(s.(desk := d), HasRecord(s.ring.dequeue))
    else if s.desk.life == Stopping && s.desk.queue == [] && s.ring.dequeue >= s.ring.enqueue
    then Act(s.(desk := d), Exited)
    else Act(s.(desk := d), Idle)
  }

  /** The release of a slot and the advance of the dequeue position are one step: only the worker reads the position. */
  function WorkStep(s: State): State {
    match s.reader.worker
    case Idle =>
      if s.desk.mutex == Nobody then Act(s.(desk := s.desk.(mutex := ByWorker)), Choosing) else s
    case Choosing => ChooseStep(s)
    case HasRecord(p) =>
      Act(s.(reader := ApplyLossBoundary(s.reader, RecordIn(At(s.ring.slots, p)).stamp)), Applied(p))
    case Applied(p) =>
      var r := RecordIn(At(s.ring.slots, p));
      Act(s.(reader := s.reader.(fragments := s.reader.fragments + [r], given := s.reader.given + [r])), Processed(p))
    case Processed(p) =>
      var slots := Put(s.ring.slots, p, At(s.ring.slots, p).(sequence := p + CAPACITY));
      Act(s.(ring := s.ring.(slots := slots, dequeue := p + 1)), Idle)
    case HasEntry(e) => Act(s.(reader := ApplyLossBoundary(s.reader, e.generation)), EntryApplied(e))
    case EntryApplied(e) =>
      if e.kind == ParseFlush then
        var flushes := s.reader.flushes + [FlushDone(e.number, e.boundary, |s.reader.given|)];
        Act(s.(reader := s.reader.(fragments := [], flushes := flushes)), EntryDone(e))
      else Act(s, EntryDone(e))
    case EntryDone(e) =>
      if s.desk.mutex == Nobody then Act(s.(reader := s.reader.(processed := e.number)), Idle) else s
    case Exited => s
  }

  // ----- control threads

  function Move(s: State, c: nat, k: Controller): State { s.(controllers := s.controllers[c := k]) }

  function Unlock(s: State): State { s.(desk := s.desk.(mutex := Nobody)) }

  function ClearFragments(s: State): State { s.(reader := s.reader.(fragments := [])) }

  /** May this request put entries in the queue in this phase of the worker's life? */
  predicate Admits(life: Life, request: Request) {
    match request
    case Flush(_) => life == Running
    case CloseFiles => life == Running || life == Draining
    case Stop => life == Running
  }

  /** The entries a request queues, numbered from `first`. */
  function EntriesFor(request: Request, first: nat, boundary: nat, generation: nat): seq<Entry> {
    match request
    case Flush(_) => [Entry(ParseFlush, first, boundary, generation)]
    case CloseFiles =>
      [Entry(ParseFlush, first, boundary, generation), Entry(CloseBoundary, first + 1, boundary, generation)]
    case Stop => [Entry(CloseBoundary, first, boundary, generation)]
  }

  function PushEntries(s: State, request: Request, boundary: nat): Desk {
    var es := EntriesFor(request, s.desk.enqueued + 1, boundary, s.loss.generation);
    s.desk.(queue := s.desk.queue + es, entries := s.desk.entries + es, enqueued := s.desk.enqueued + |es|)
  }

  /** The first section of a request under the mutex: refuse it, or close the door and wait for the producers. */
  function AdmitStep(s: State, c: nat, r: Request): State {
    if Admits(s.desk.life, r) then
      var life := if r == Stop then Draining else s.desk.life;
      Move(s.(accepting := false, desk := s.desk.(life := life)), c, Pausing(r, r != Stop && s.accepting))
    else if r.Flush? then Move(Unlock(s), c, Refused(r.wait))
    else if r == CloseFiles then Move(ClearFragments(Unlock(s)).(accepting := false), c, Free)
    else Move(Unlock(s).(accepting := false), c, Free)
  }

  function ControlStep(s: State, c: nat, request: Request): State
    requires c in s.controllers
  {
    match s.controllers[c]
    case Free =>
      if s.desk.mutex == Nobody
      then Move(s.(desk := s.desk.(mutex := ByController(c))), c, Locked(request)) else s
    case Locked(r) => AdmitStep(s, c, r)
    case Refused(wait) =>
      if wait && s.desk.mutex != Nobody then s
      else if wait && s.desk.life != Stopped then Move(s, c, Free)
      else Move(ClearFragments(s), c, Free)
    case Pausing(r, was) =>
      if s.active == 0
      then Move(s.(desk := s.desk.(drained := s.desk.drained || r == Stop)), c, Paused(r, was)) else s
    case Paused(r, was) => Move(s, c, Captured(r, was, s.ring.enqueue))
    case Captured(r, was, b) =>
      var d := PushEntries(s, r, b);
      Move(s.(desk := d), c, Pushed(r, was, d.enqueued))
    case Pushed(r, was, k) => Move(s.(accepting := s.accepting || was), c, Unlocking(r, k))
    case Unlocking(r, k) => Move(Unlock(s), c, if r == Stop || r == Flush(true) then Waiting(r, k) else Free)
    case Waiting(r, k) =>
      if s.desk.mutex != Nobody || s.reader.processed < k then s
      else if r == Stop then Move(s.(desk := s.desk.(life := Stopping)), c, Joining)
      else Move(s, c, Free)
    case Joining =>
      if s.reader.worker == Exited && s.desk.mutex == Nobody
      then Move(s.(accepting := false, desk := s.desk.(life := Stopped, queue := [])), c, Returned) else s
    case Returned => s
  }

  function Next(s: State, a: Action): State
  {
    match a
    case Produce(t, payload, fits) => if t in s.producers then ProduceStep(s, t, payload, fits) else s
    case Work => WorkStep(s)
    case Control(c, request) => if c in s.controllers then ControlStep(s, c, request) else s
  }

  function Exec(s: State, acts: seq<Action>): State
    decreases |acts|
  {
    if acts == [] then s else Exec(Next(s, acts[0]), acts[1..])
  }
}
