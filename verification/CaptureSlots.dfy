/**
 Ring safety: whatever the interleaving, a claimed slot belongs to one producer until it is published,
 the worker only opens published slots, and it takes them in claim order, each once.
 */
module CaptureSlots {
  import opened CaptureRing

  /** Has this producer claimed a position that it has not yet published? */
  predicate Owning(p: Producer) { p.Claimed? || p.Copying? || p.Copied? || p.Stamped? }

  predicate Owns(p: Producer, pos: nat) { Owning(p) && p.pos == pos }

  /** What an owner has written so far. */
  predicate Written(p: Producer, t: nat, c: Content) {
    match p
    case Copying(d, _) => c == Partial(t)
    case Copied(d, _) => c == Whole(t, d)
    case Stamped(d, _, _) => c == Whole(t, d)
    case _ => true
  }

  predicate Matches(r: Record, c: Claim) { r.tid == c.tid && r.payload == c.payload }

  predicate Bounds(s: State) {
    s.ring.dequeue <= s.ring.enqueue <= s.ring.dequeue + CAPACITY && |s.ring.claims| == s.ring.enqueue
  }

  predicate Published(slot: Slot, pos: nat, c: Claim) {
    slot.sequence == pos + 1 && slot.content.Sealed? && Matches(slot.content.rec, c)
  }

  predicate OwnedBy(producers: map<nat, Producer>, t: nat, pos: nat) { t in producers && Owns(producers[t], pos) }

  /** A position between the two ends: published, or being written by the thread that claimed it. */
  predicate Used(s: State, pos: nat)
    requires pos < |s.ring.claims|
  {
    var slot := At(s.ring.slots, pos);
    || Published(slot, pos, s.ring.claims[pos])
    || (slot.sequence == pos && OwnedBy(s.producers, s.ring.claims[pos].tid, pos))
  }

  predicate ProducerOk(s: State, t: nat)
    requires t in s.producers && Bounds(s)
  {
    var p := s.producers[t];
    && (p.Loaded? ==> p.pos <= s.ring.enqueue)
    && (p.Matched? ==>
          p.pos <= s.ring.enqueue && (p.pos == s.ring.enqueue ==> s.ring.enqueue < s.ring.dequeue + CAPACITY))
    && (Owning(p) ==>
          && s.ring.dequeue <= p.pos < s.ring.enqueue && At(s.ring.slots, p.pos).sequence == p.pos
          && s.ring.claims[p.pos] == Claim(t, p.payload) && Written(p, t, At(s.ring.slots, p.pos).content))
  }

  /** Is the worker between taking a record and releasing its slot? */
  predicate Reading(w: Worker) { w.HasRecord? || w.Applied? || w.Processed? }

  ghost predicate FreeOk(s: State) {
    forall pos: nat :: s.ring.enqueue <= pos < s.ring.dequeue + CAPACITY ==> At(s.ring.slots, pos).sequence == pos
  }

  ghost predicate UsedOk(s: State)
    requires Bounds(s)
  {
    forall pos: nat :: s.ring.dequeue <= pos < s.ring.enqueue ==> Used(s, pos)
  }

  ghost predicate ProducersOk(s: State)
    requires Bounds(s)
  {
    forall t: nat :: t in s.producers ==> ProducerOk(s, t)
  }

  predicate WorkerOk(s: State) {
    Reading(s.reader.worker) ==>
      && s.reader.worker.pos == s.ring.dequeue < s.ring.enqueue
      && At(s.ring.slots, s.ring.dequeue).sequence == s.ring.dequeue + 1
  }

  ghost predicate RingOk(s: State) {
    Bounds(s) && FreeOk(s) && UsedOk(s) && ProducersOk(s) && WorkerOk(s)
  }

  // ----- who may change what

  predicate WorkLeaves(s: State, n: State) {
    && n.loss == s.loss && n.accepting == s.accepting && n.active == s.active && n.producers == s.producers
    && n.controllers == s.controllers && n.ring.enqueue == s.ring.enqueue && n.ring.claims == s.ring.claims
    && n.desk == s.desk.(mutex := n.desk.mutex, queue := n.desk.queue)
  }

  lemma ChooseFrame(s: State)
    ensures WorkLeaves(s, ChooseStep(s)) && ChooseStep(s).ring == s.ring
  {
    hide At;
  }

  lemma WorkFrame(s: State)
    ensures WorkLeaves(s, WorkStep(s))
    ensures s.reader.worker.Processed? || WorkStep(s).ring == s.ring
  {
    hide At, Put, Index, RecordIn, ChooseStep;
    ChooseFrame(s);
  }

  predicate ControlLeaves(s: State, n: State) {
    && n.ring == s.ring && n.loss == s.loss && n.active == s.active && n.producers == s.producers
    && n.reader == s.reader.(fragments := n.reader.fragments)
  }

  lemma ControlFrame(s: State, c: nat, request: Request)
    requires c in s.controllers
    ensures ControlLeaves(s, ControlStep(s, c, request))
  {
    hide EntriesFor, Admits;
  }

  /** Nobody but `c` moves. */
  predicate OnlyOneMoves(s: State, n: State, c: nat) {
    && n.controllers.Keys == s.controllers.Keys
    && forall d | d in s.controllers && d != c :: n.controllers[d] == s.controllers[d]
  }

  lemma AdmitMoves(s: State, c: nat, r: Request)
    requires c in s.controllers
    ensures OnlyOneMoves(s, AdmitStep(s, c, r), c)
  {
    hide Admits;
  }

  lemma OnlyMoves(s: State, c: nat, request: Request)
    requires c in s.controllers
    ensures OnlyOneMoves(s, ControlStep(s, c, request), c)
  {
    if s.controllers[c].Locked? { AdmitMoves(s, c, s.controllers[c].request); }
    hide AdmitStep, PushEntries;
  }

  predicate ProduceLeaves(s: State, n: State, t: nat) {
    && n.accepting == s.accepting && n.reader == s.reader && n.desk == s.desk && n.controllers == s.controllers
    && n.ring.dequeue == s.ring.dequeue
    && t in n.producers && t in s.producers && n.producers == s.producers[t := n.producers[t]]
  }

  lemma ProduceFrame(s: State, t: nat, payload: nat, fits: bool)
    requires t in s.producers
    ensures ProduceLeaves(s, ProduceStep(s, t, payload, fits), t)
  {
    hide At, Put, Index;
  }

  // ----- the ring

  lemma Distinct(p: nat, q: nat)
    requires p != q && p < q + CAPACITY && q < p + CAPACITY
    ensures Index(p) != Index(q)
  {
    assert p == CAPACITY * (p / CAPACITY) + Index(p);
    assert q == CAPACITY * (q / CAPACITY) + Index(q);
  }

  lemma PutAt(slots: Ring, p: nat, slot: Slot)
    ensures At(Put(slots, p, slot), p) == slot
    ensures forall q: nat | q != p && p < q + CAPACITY && q < p + CAPACITY ::
      At(Put(slots, p, slot), q) == At(slots, q)
  {
    forall q: nat | q != p && p < q + CAPACITY && q < p + CAPACITY
      ensures At(Put(slots, p, slot), q) == At(slots, q)
    {
      Distinct(p, q);
    }
  }

  lemma InitRing(s: State)
    requires Init(s)
    ensures RingOk(s)
  {
    forall pos: nat | s.ring.enqueue <= pos < s.ring.dequeue + CAPACITY ensures At(s.ring.slots, pos).sequence == pos {
      assert Index(pos) == pos;
    }
  }

  lemma OthersMove(s: State, n: State)
    requires RingOk(s)
    requires n.ring == s.ring && n.producers == s.producers && WorkerOk(n)
    ensures RingOk(n)
  {
    forall pos: nat | n.ring.dequeue <= pos < n.ring.enqueue ensures Used(n, pos) { assert Used(s, pos); }
    forall t: nat | t in n.producers ensures ProducerOk(n, t) { assert ProducerOk(s, t); }
  }

  lemma Outsider(s: State, n: State, t: nat)
    requires RingOk(s) && n.ring == s.ring && n.reader.worker == s.reader.worker && t in s.producers
    requires t in n.producers && n.producers == s.producers[t := n.producers[t]]
    requires !Owning(s.producers[t]) && ProducerOk(n, t)
    ensures RingOk(n)
  {
    forall pos: nat | n.ring.dequeue <= pos < n.ring.enqueue ensures Used(n, pos) { assert Used(s, pos); }
    forall u: nat | u in n.producers ensures ProducerOk(n, u) { if u != t { assert ProducerOk(s, u); } }
  }

  /** An owner writes its own slot without publishing it. */
  lemma OwnerWrites(s: State, n: State, t: nat, p: nat)
    requires RingOk(s) && t in s.producers && Owns(s.producers[t], p)
    requires n.ring.slots == Put(s.ring.slots, p, At(n.ring.slots, p)) && At(n.ring.slots, p).sequence == p
    requires n.ring == s.ring.(slots := n.ring.slots) && n.reader.worker == s.reader.worker
    requires t in n.producers && n.producers == s.producers[t := n.producers[t]]
    requires Owns(n.producers[t], p) && n.producers[t].payload == s.producers[t].payload
    requires Written(n.producers[t], t, At(n.ring.slots, p).content)
    ensures RingOk(n)
  {
    assert ProducerOk(s, t);
    PutAt(s.ring.slots, p, At(n.ring.slots, p));
    forall pos: nat | n.ring.dequeue <= pos < n.ring.enqueue ensures Used(n, pos) { assert Used(s, pos); }
    forall u: nat | u in n.producers ensures ProducerOk(n, u) { assert ProducerOk(s, u); }
  }

  lemma OwnerPublishes(s: State, t: nat)
    requires RingOk(s) && t in s.producers && s.producers[t].Stamped?
    ensures RingOk(ProduceStep(s, t, 0, true))
  {
    var n := ProduceStep(s, t, 0, true);
    var p := s.producers[t].pos;
    assert ProducerOk(s, t) && Owns(s.producers[t], p);
    PutAt(s.ring.slots, p, At(n.ring.slots, p));
    forall pos: nat | n.ring.dequeue <= pos < n.ring.enqueue ensures Used(n, pos) { assert Used(s, pos); }
    forall u: nat | u in n.producers ensures ProducerOk(n, u) { assert ProducerOk(s, u); }
  }

  lemma ProducerClaims(s: State, t: nat)
    requires RingOk(s) && t in s.producers && s.producers[t].Matched? && s.producers[t].pos == s.ring.enqueue
    ensures RingOk(ProduceStep(s, t, 0, true))
  {
    var n := ProduceStep(s, t, 0, true);
    assert ProducerOk(s, t);
    forall pos: nat | n.ring.dequeue <= pos < n.ring.enqueue ensures Used(n, pos) {
      if pos < s.ring.enqueue { assert Used(s, pos); } else { assert OwnedBy(n.producers, t, pos); }
    }
    forall u: nat | u in n.producers ensures ProducerOk(n, u) { assert ProducerOk(s, u); }
  }

  lemma ProduceKeepsRing(s: State, t: nat, payload: nat, fits: bool)
    requires RingOk(s) && t in s.producers
    ensures RingOk(ProduceStep(s, t, payload, fits))
  {
    var n := ProduceStep(s, t, payload, fits);
    var was := s.producers[t];
    assert ProducerOk(s, t);
    match was
    case Matched(d, p) => if s.ring.enqueue == p { ProducerClaims(s, t); } else { Outsider(s, n, t); }
    case Claimed(d, p) => OwnStep(s, t, payload, fits, p);
    case Copying(d, p) => OwnStep(s, t, payload, fits, p);
    case Copied(d, p) => OwnStep(s, t, payload, fits, p);
    case Stamped(d, p, g) => OwnerPublishes(s, t);
    case Loaded(d, p) => LoadedStep(s, t, payload, fits);
    case _ => Outsider(s, n, t);
  }

  lemma OwnStep(s: State, t: nat, payload: nat, fits: bool, p: nat)
    requires RingOk(s) && t in s.producers && Owns(s.producers[t], p) && !s.producers[t].Stamped?
    ensures RingOk(ProduceStep(s, t, payload, fits))
  {
    var n := ProduceStep(s, t, payload, fits);
    assert ProducerOk(s, t);
    PutAt(s.ring.slots, p, At(n.ring.slots, p));
    assert n.ring.slots == Put(s.ring.slots, p, At(n.ring.slots, p));
    OwnerWrites(s, n, t, p);
  }

  lemma LoadedStep(s: State, t: nat, payload: nat, fits: bool)
    requires RingOk(s) && t in s.producers && s.producers[t].Loaded?
    ensures RingOk(ProduceStep(s, t, payload, fits))
  {
    var n := ProduceStep(s, t, payload, fits);
    var p := s.producers[t].pos;
    assert ProducerOk(s, t);
    if p == s.ring.enqueue == s.ring.dequeue + CAPACITY {
      assert Used(s, s.ring.dequeue);
      assert Index(p) == Index(s.ring.dequeue);
    }
    Outsider(s, n, t);
  }

  lemma ReleaseKeepsRing(s: State)
    requires RingOk(s) && s.reader.worker.Processed?
    ensures RingOk(WorkStep(s))
  {
    var n := WorkStep(s);
    var p := s.reader.worker.pos;
    PutAt(s.ring.slots, p, At(n.ring.slots, p));
    assert Index(p + CAPACITY) == Index(p);
    assert At(n.ring.slots, p + CAPACITY) == At(n.ring.slots, p);
    forall pos: nat | n.ring.dequeue <= pos < n.ring.enqueue ensures Used(n, pos) { assert Used(s, pos); }
    assert Used(s, p);
    forall u: nat | u in n.producers ensures ProducerOk(n, u) { assert ProducerOk(s, u); }
  }

  lemma ChooseKeepsRing(s: State)
    requires RingOk(s) && s.reader.worker == Choosing
    ensures RingOk(WorkStep(s))
  {
    var n := WorkStep(s);
    assert s.ring.dequeue == s.ring.enqueue ==> At(s.ring.slots, s.ring.dequeue).sequence == s.ring.dequeue;
    OthersMove(s, n);
  }

  lemma OtherWorkKeepsRing(s: State)
    requires RingOk(s) && !s.reader.worker.Choosing? && !s.reader.worker.Processed?
    ensures RingOk(WorkStep(s))
  {
    hide UsedOk, FreeOk, ProducersOk, Bounds, At;
    WorkFrame(s);
    OthersMove(s, WorkStep(s));
  }

  lemma WorkKeepsRing(s: State)
    requires RingOk(s)
    ensures RingOk(WorkStep(s))
  {
    if s.reader.worker.Choosing? {
      ChooseKeepsRing(s);
    } else if s.reader.worker.Processed? {
      ReleaseKeepsRing(s);
    } else {
      OtherWorkKeepsRing(s);
    }
  }

  lemma ControlKeepsRing(s: State, c: nat, request: Request)
    requires RingOk(s) && c in s.controllers
    ensures RingOk(ControlStep(s, c, request))
  {
    ControlFrame(s, c, request);
    hide ControlStep;
    OthersMove(s, ControlStep(s, c, request));
  }
}
