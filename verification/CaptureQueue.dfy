/**
 The queue of flush and close entries against the stream of records: each entry is handled once, in the
 order it was queued, and a flush runs when exactly the records before its boundary have been given to the
 assembler. A draining stop returns with nothing left.
 */
module CaptureQueue {
  import opened CaptureRing
  import opened CaptureSlots
  import opened CapturePause

  predicate Handling(w: Worker) { w.HasEntry? || w.EntryApplied? || w.EntryDone? }

  /** How many entries the worker has taken from the queue, and how many it has carried out. */
  function Taken(r: Reader): nat { r.processed + (if Handling(r.worker) then 1 else 0) }

  function Done(r: Reader): nat { r.processed + (if r.worker.EntryDone? then 1 else 0) }

  /** The first position that is not yet the worker's. */
  function Ahead(s: State): nat { s.ring.dequeue + (if Reading(s.reader.worker) then 1 else 0) }

  /** What the flushes among these entries do when each runs exactly at its boundary. */
  function FlushLog(entries: seq<Entry>): seq<FlushDone> {
    if entries == [] then [] else
    var e := entries[|entries| - 1];
    var last := if e.kind == ParseFlush then [FlushDone(e.number, e.boundary, e.boundary)] else [];
    FlushLog(entries[..|entries| - 1]) + last
  }

  predicate Numbered(entries: seq<Entry>) { forall i :: 0 <= i < |entries| ==> entries[i].number == i + 1 }

  predicate Ordered(entries: seq<Entry>, last: nat) {
    && (forall i :: 0 <= i < |entries| ==> entries[i].boundary <= last)
    && (forall i, j :: 0 <= i < j < |entries| ==> entries[i].boundary <= entries[j].boundary)
  }

  predicate EntriesOk(s: State) {
    && s.desk.enqueued == |s.desk.entries| && Taken(s.reader) <= |s.desk.entries|
    && s.desk.queue == s.desk.entries[Taken(s.reader)..]
    && Numbered(s.desk.entries) && Ordered(s.desk.entries, s.ring.enqueue)
    && (forall i :: Taken(s.reader) <= i < |s.desk.entries| ==> Ahead(s) <= s.desk.entries[i].boundary)
  }

  predicate HandlingOk(s: State)
    requires EntriesOk(s)
  {
    Handling(s.reader.worker) ==>
      s.reader.worker.e == s.desk.entries[s.reader.processed] && s.reader.worker.e.boundary == s.ring.dequeue
  }

  predicate FlushesOk(s: State)
    requires EntriesOk(s)
  {
    s.reader.flushes == FlushLog(s.desk.entries[..Done(s.reader)])
  }

  /** The records given to the assembler are the claimed positions, in order, each once. */
  predicate GivenOk(s: State)
    requires Bounds(s) && WorkerOk(s)
  {
    && |s.reader.given| == s.ring.dequeue + (if s.reader.worker.Processed? then 1 else 0)
    && (forall i :: 0 <= i < |s.reader.given| ==> Matches(s.reader.given[i], s.ring.claims[i]))
  }

  predicate ExitOk(s: State) {
    s.reader.worker.Exited? ==>
      && s.desk.queue == [] && s.ring.dequeue == s.ring.enqueue
      && (s.desk.life == Stopping || s.desk.life == Stopped)
  }

  predicate QueueOk(s: State) {
    && Bounds(s) && WorkerOk(s) && EntriesOk(s) && HandlingOk(s) && FlushesOk(s) && GivenOk(s) && ExitOk(s)
    && ReturnedOk(s)
  }

  predicate ReturnedOk(s: State) {
    forall c: nat | c in s.controllers :: s.controllers[c].Returned? ==> s.reader.worker.Exited?
  }

  /** A step that neither queues, takes nor carries out an entry, nor moves the worker to another record. */
  lemma Undisturbed(s: State, n: State)
    requires QueueOk(s) && Bounds(n) && WorkerOk(n) && ExitOk(n) && ReturnedOk(n)
    requires n.ring.dequeue == s.ring.dequeue && s.ring.claims <= n.ring.claims
    requires n.desk.entries == s.desk.entries && n.desk.enqueued == s.desk.enqueued && n.desk.queue == s.desk.queue
    requires Taken(n.reader) == Taken(s.reader) && Done(n.reader) == Done(s.reader) && Ahead(n) == Ahead(s)
    requires n.reader.given == s.reader.given && n.reader.flushes == s.reader.flushes
    requires n.reader.worker.Processed? == s.reader.worker.Processed?
    requires Handling(n.reader.worker) ==>
               && Handling(s.reader.worker) && n.reader.worker.e == s.reader.worker.e
               && n.reader.processed == s.reader.processed
    ensures QueueOk(n)
  {
    hide FlushLog;
    assert EntriesOk(n);
  }

  // ----- producers

  lemma ClaimsGrow(s: State, t: nat, payload: nat, fits: bool)
    requires t in s.producers && Bounds(s)
    ensures s.ring.claims <= ProduceStep(s, t, payload, fits).ring.claims
  {
    hide At, Put;
  }

  lemma ProduceKeepsQueue(s: State, t: nat, payload: nat, fits: bool)
    requires RingOk(s) && ControlOk(s) && QueueOk(s) && t in s.producers
    ensures QueueOk(ProduceStep(s, t, payload, fits))
  {
    var n := ProduceStep(s, t, payload, fits);
    ProduceKeepsRing(s, t, payload, fits);
    ProduceFrame(s, t, payload, fits);
    ClaimsGrow(s, t, payload, fits);
    if s.desk.drained { FrozenStays(s, t, payload, fits); }
    hide ProduceStep, FreeOk, UsedOk, ProducersOk, ControllersOk, Frozen;
    Undisturbed(s, n);
  }

  // ----- control threads

  lemma LogOfPrefix(entries: seq<Entry>, more: seq<Entry>, k: nat)
    requires k <= |entries|
    ensures (entries + more)[..k] == entries[..k]
  {
  }

  lemma EntriesAreNumbered(r: Request, first: nat, boundary: nat, generation: nat)
    ensures forall i :: 0 <= i < |EntriesFor(r, first, boundary, generation)| ==>
              var e := EntriesFor(r, first, boundary, generation)[i];
              e.number == first + i && e.boundary == boundary && e.generation == generation
    ensures var es := EntriesFor(r, first, boundary, generation);
      match r
      case Flush(_) => |es| == 1 && es[0].kind == ParseFlush
      case CloseFiles => |es| == 2 && es[0].kind == ParseFlush && es[1].kind == CloseBoundary
      case Stop => |es| == 1 && es[0].kind == CloseBoundary
  {
  }

  lemma PushFacts(s: State, c: nat, request: Request)
    requires ControlOk(s) && c in s.controllers && s.controllers[c].Captured?
    ensures var n := ControlStep(s, c, request);
            var es := EntriesFor(s.controllers[c].request, s.desk.enqueued + 1, s.ring.enqueue, s.loss.generation);
      && n.desk == s.desk.(entries := s.desk.entries + es, queue := s.desk.queue + es,
                           enqueued := s.desk.enqueued + |es|)
      && n.reader == s.reader && n.ring == s.ring
      && n.controllers == s.controllers[c := n.controllers[c]] && n.controllers[c].Pushed?
    ensures s.desk.life != Stopping && s.desk.life != Stopped
  {
    assert ControllerOk(s, c);
    hide EntriesFor, Frozen, CountOk;
  }

  lemma MoreEntries(before: seq<Entry>, es: seq<Entry>, boundary: nat)
    requires Numbered(before) && Ordered(before, boundary)
    requires forall i :: 0 <= i < |es| ==> es[i].number == |before| + 1 + i && es[i].boundary == boundary
    ensures Numbered(before + es) && Ordered(before + es, boundary)
  {
  }

  lemma PushKeepsQueue(s: State, c: nat, request: Request)
    requires RingOk(s) && ControlOk(s) && QueueOk(s) && c in s.controllers && s.controllers[c].Captured?
    ensures QueueOk(ControlStep(s, c, request))
  {
    var n := ControlStep(s, c, request);
    var es := EntriesFor(s.controllers[c].request, s.desk.enqueued + 1, s.ring.enqueue, s.loss.generation);
    PushFacts(s, c, request);
    EntriesAreNumbered(s.controllers[c].request, s.desk.enqueued + 1, s.ring.enqueue, s.loss.generation);
    hide ControlStep, EntriesFor, FreeOk, UsedOk, ProducersOk, ControlOk, FlushLog;
    MoreKeep(s, n, es, c);
  }

  /** `n` is `s` with these entries queued, at the boundary the ring has now. */
  predicate Queues(s: State, n: State, es: seq<Entry>) {
    && (forall i :: 0 <= i < |es| ==> es[i].number == s.desk.enqueued + 1 + i && es[i].boundary == s.ring.enqueue)
    && n.desk == s.desk.(entries := s.desk.entries + es, queue := s.desk.queue + es,
                         enqueued := s.desk.enqueued + |es|)
    && n.reader == s.reader && n.ring == s.ring
  }

  lemma MoreEntriesOk(s: State, n: State, es: seq<Entry>)
    requires EntriesOk(s) && Bounds(s) && WorkerOk(s) && Queues(s, n, es)
    ensures EntriesOk(n)
  {
    MoreEntries(s.desk.entries, es, s.ring.enqueue);
    hide Numbered, Ordered, At;
    assert n.desk.queue == n.desk.entries[Taken(s.reader)..];
  }

  lemma MoreKeep(s: State, n: State, es: seq<Entry>, c: nat)
    requires QueueOk(s) && c in s.controllers && c in n.controllers && !n.controllers[c].Returned?
    requires Queues(s, n, es) && n.controllers == s.controllers[c := n.controllers[c]]
    requires s.desk.life != Stopping && s.desk.life != Stopped
    ensures QueueOk(n)
  {
    LogOfPrefix(s.desk.entries, es, Done(s.reader));
    MoreEntriesOk(s, n, es);
    hide FlushLog, At, Numbered, Ordered;
    assert HandlingOk(n) && FlushesOk(n);
    hide FlushesOk, HandlingOk, EntriesOk, GivenOk;
  }

  lemma AdmitLeavesQueue(s: State, c: nat, r: Request)
    ensures var d := AdmitStep(s, c, r).desk; d == s.desk.(life := d.life, mutex := d.mutex)
  {
    hide Admits;
  }

  /** Every other control step leaves the entries and the queue alone. */
  lemma OtherControlFrame(s: State, c: nat, request: Request)
    requires c in s.controllers && !s.controllers[c].Captured?
    ensures var n := ControlStep(s, c, request);
      && n.desk.entries == s.desk.entries && n.desk.enqueued == s.desk.enqueued
      && (s.reader.worker.Exited? || n.desk.queue == s.desk.queue)
      && (n.desk.queue == s.desk.queue || n.desk.queue == [])
  {
    if s.controllers[c].Locked? { AdmitLeavesQueue(s, c, s.controllers[c].request); }
    hide EntriesFor, Admits, AdmitStep;
  }

  lemma LifeOnlyAdvances(s: State, c: nat, request: Request)
    requires c in s.controllers && ControllerOk(s, c)
    ensures s.desk.life == Stopping || s.desk.life == Stopped ==>
              (var life := ControlStep(s, c, request).desk.life; life == Stopping || life == Stopped)
  {
    hide EntriesFor, Frozen;
  }

  lemma Returns(s: State, c: nat, request: Request)
    requires c in s.controllers
    ensures var n := ControlStep(s, c, request);
      c in n.controllers && (n.controllers[c].Returned? ==> s.controllers[c].Returned? || s.reader.worker.Exited?)
  {
    hide EntriesFor, Admits, PushEntries, Unlock, ClearFragments;
  }

  lemma ReturnsAfterExit(s: State, c: nat, request: Request)
    requires c in s.controllers && ReturnedOk(s)
    ensures var n := ControlStep(s, c, request);
      forall d: nat :: (d in n.controllers && n.controllers[d].Returned?) ==> s.reader.worker.Exited?
  {
    OnlyMoves(s, c, request);
    Returns(s, c, request);
    hide ControlStep;
  }

  lemma ControlKeepsQueue(s: State, c: nat, request: Request)
    requires RingOk(s) && ControlOk(s) && QueueOk(s) && c in s.controllers
    ensures QueueOk(ControlStep(s, c, request))
  {
    var n := ControlStep(s, c, request);
    if s.controllers[c].Captured? { PushKeepsQueue(s, c, request); return; }
    ControlFrame(s, c, request);
    OtherControlFrame(s, c, request);
    assert ControllerOk(s, c);
    LifeOnlyAdvances(s, c, request);
    ReturnsAfterExit(s, c, request);
    hide ControlStep, FreeOk, UsedOk, ProducersOk, ControlOk, FlushLog;
    Undisturbed(s, n);
  }

  // ----- the worker

  lemma ChooseEntry(s: State)
    requires RingOk(s) && QueueOk(s) && s.reader.worker == Choosing
    requires s.desk.queue != [] && s.ring.dequeue >= s.desk.queue[0].boundary
    ensures QueueOk(WorkStep(s))
  {
    var n := WorkStep(s);
    ChooseKeepsRing(s);
    assert n.ring == s.ring && n.controllers == s.controllers;
    assert n.reader == s.reader.(worker := HasEntry(s.desk.queue[0]));
    assert n.desk == s.desk.(mutex := Nobody, queue := s.desk.queue[1..]);
    hide WorkStep, At, FreeOk, UsedOk, ProducersOk, FlushLog;
    assert n.desk.queue == n.desk.entries[Taken(n.reader)..];
    assert EntriesOk(n);
  }

  lemma ChooseFacts(s: State)
    requires s.reader.worker == Choosing && (s.desk.queue == [] || s.ring.dequeue < s.desk.queue[0].boundary)
    ensures var n := WorkStep(s); var w := n.reader.worker;
      && n.ring == s.ring && n.controllers == s.controllers && n.desk == s.desk.(mutex := Nobody)
      && n.reader == s.reader.(worker := w) && (w.HasRecord? || w.Exited? || w.Idle?)
      && (w.Exited? ==> s.desk.life == Stopping && s.desk.queue == [] && s.ring.dequeue >= s.ring.enqueue)
  {
    hide At;
  }

  lemma ChooseOther(s: State)
    requires RingOk(s) && QueueOk(s) && s.reader.worker == Choosing
    requires s.desk.queue == [] || s.ring.dequeue < s.desk.queue[0].boundary
    ensures QueueOk(WorkStep(s))
  {
    var n := WorkStep(s);
    ChooseKeepsRing(s);
    ChooseFacts(s);
    hide WorkStep, At, FreeOk, UsedOk, ProducersOk, FlushLog;
    assert EntriesOk(n);
  }

  lemma ChooseKeepsQueue(s: State)
    requires RingOk(s) && QueueOk(s) && s.reader.worker == Choosing
    ensures QueueOk(WorkStep(s))
  {
    if s.desk.queue != [] && s.ring.dequeue >= s.desk.queue[0].boundary { ChooseEntry(s); } else { ChooseOther(s); }
  }

  lemma TakeKeepsQueue(s: State)
    requires RingOk(s) && QueueOk(s) && s.reader.worker.Applied?
    ensures QueueOk(WorkStep(s))
  {
    var n := WorkStep(s);
    WorkKeepsRing(s);
    assert Used(s, s.ring.dequeue);
    assert n.reader.given == s.reader.given + [RecordIn(At(s.ring.slots, s.ring.dequeue))];
    WorkFrame(s);
    assert Done(n.reader) == Done(s.reader) && Taken(n.reader) == Taken(s.reader) && Ahead(n) == Ahead(s);
    assert n.desk == s.desk && n.reader.flushes == s.reader.flushes;
    hide WorkStep, At, FreeOk, UsedOk, ProducersOk, FlushLog;
    assert EntriesOk(n);
  }

  lemma ReleaseKeepsQueue(s: State)
    requires RingOk(s) && QueueOk(s) && s.reader.worker.Processed?
    ensures QueueOk(WorkStep(s))
  {
    var n := WorkStep(s);
    WorkKeepsRing(s);
    WorkFrame(s);
    assert Done(n.reader) == Done(s.reader) && Taken(n.reader) == Taken(s.reader) && Ahead(n) == Ahead(s);
    assert n.desk == s.desk && n.reader == s.reader.(worker := Idle) && n.ring.dequeue == s.ring.dequeue + 1;
    hide WorkStep, At, FreeOk, UsedOk, ProducersOk, FlushLog;
    assert EntriesOk(n);
  }

  /** The flush itself: it runs with exactly the records before its boundary given. */
  lemma FlushRuns(s: State)
    requires RingOk(s) && QueueOk(s) && s.reader.worker.EntryApplied?
    ensures QueueOk(WorkStep(s))
  {
    var n := WorkStep(s);
    var done := s.reader.processed;
    WorkKeepsRing(s);
    WorkFrame(s);
    assert s.desk.entries[..done + 1][..done] == s.desk.entries[..done];
    hide At, FreeOk, UsedOk, ProducersOk;
    assert EntriesOk(n);
    assert HandlingOk(n);
    assert FlushesOk(n);
  }

  lemma QuietWorkFacts(s: State)
    requires EntriesOk(s) && HandlingOk(s) && Numbered(s.desk.entries)
    requires var w := s.reader.worker; w.Idle? || w.HasRecord? || w.HasEntry? || w.EntryDone? || w.Exited?
    ensures var n := WorkStep(s); var w := n.reader.worker;
      && n.desk == s.desk.(mutex := n.desk.mutex)
      && n.reader.given == s.reader.given && n.reader.flushes == s.reader.flushes
      && Taken(n.reader) == Taken(s.reader) && Done(n.reader) == Done(s.reader) && Ahead(n) == Ahead(s)
      && (Handling(w) ==>
            Handling(s.reader.worker) && w.e == s.reader.worker.e && n.reader.processed == s.reader.processed)
      && !w.Processed? && w.Exited? == s.reader.worker.Exited?
  {
    hide At, RecordIn, Ordered;
  }

  lemma QuietWorkKeepsQueue(s: State)
    requires RingOk(s) && QueueOk(s)
    requires var w := s.reader.worker; w.Idle? || w.HasRecord? || w.HasEntry? || w.EntryDone? || w.Exited?
    ensures QueueOk(WorkStep(s))
  {
    WorkKeepsRing(s);
    WorkFrame(s);
    QuietWorkFacts(s);
    hide WorkStep, FreeOk, UsedOk, ProducersOk, FlushLog, EntriesOk;
    Undisturbed(s, WorkStep(s));
  }

  lemma WorkKeepsQueue(s: State)
    requires RingOk(s) && QueueOk(s)
    ensures QueueOk(WorkStep(s))
  {
    hide WorkStep, RingOk, QueueOk;
    match s.reader.worker
    case Choosing => ChooseKeepsQueue(s);
    case Applied(_) => TakeKeepsQueue(s);
    case Processed(_) => ReleaseKeepsQueue(s);
    case EntryApplied(_) => FlushRuns(s);
    case _ => QuietWorkKeepsQueue(s);
  }
}
