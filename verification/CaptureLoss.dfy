/**
 Loss generations: the records whose bytes may be pending together all carry one stamp, and every accepted
 write is exactly one record, so no pending line joins text from both sides of a write that its thread lost.
 */
module CaptureLoss {
  import opened CaptureRing
  import opened CaptureSlots

  /** The history of write attempts: a drop outdates everything before it, and its own thread's later stamps know
      of it. */
  predicate WritesOk(loss: Losses) {
    && (forall i :: 0 <= i < |loss.writes| ==> loss.writes[i].generation <= loss.generation)
    && (forall i, j :: 0 <= i < j < |loss.writes| && loss.writes[j].Dropped? ==>
          loss.writes[i].generation < loss.writes[j].generation)
    && (forall i, j | 0 <= i < j < |loss.writes| && loss.writes[i].Dropped?
          && loss.writes[i].tid == loss.writes[j].tid ::
          loss.writes[i].generation <= loss.writes[j].generation)
  }

  /** A stamp taken by `t` and not yet published. */
  predicate StampOk(loss: Losses, t: nat, stamp: nat) {
    && stamp <= loss.generation
    && (forall i :: 0 <= i < |loss.writes| && loss.writes[i].Dropped? && loss.writes[i].tid == t ==>
          loss.writes[i].generation <= stamp)
  }

  ghost predicate StampsOk(s: State) {
    && WritesOk(s.loss)
    && forall t: nat | t in s.producers && s.producers[t].Stamped? :: StampOk(s.loss, t, s.producers[t].stamp)
  }

  /** The record of an accepted write at this position. */
  predicate RecordOk(writes: seq<Attempt>, r: Record, pos: nat) {
    r.ticket < |writes| && writes[r.ticket] == Accepted(r.tid, r.stamp, r.payload, pos)
  }

  predicate Genuine(writes: seq<Attempt>, r: Record) {
    && r.ticket < |writes| && writes[r.ticket].Accepted?
    && writes[r.ticket].tid == r.tid && writes[r.ticket].generation == r.stamp
  }

  ghost predicate SealedOk(s: State) {
    forall pos: nat :: s.ring.dequeue <= pos < s.ring.enqueue && At(s.ring.slots, pos).sequence == pos + 1 ==>
      RecordOk(s.loss.writes, RecordIn(At(s.ring.slots, pos)), pos)
  }

  predicate ReadOk(s: State) {
    && (forall i :: 0 <= i < |s.reader.given| ==> RecordOk(s.loss.writes, s.reader.given[i], i))
    && (forall i :: 0 <= i < |s.reader.fragments| ==> Genuine(s.loss.writes, s.reader.fragments[i]))
  }

  /** Everything pending was stamped with the generation the worker consumed last. */
  predicate PendingOk(s: State) {
    && (forall i :: 0 <= i < |s.reader.fragments| ==> s.reader.fragments[i].stamp == s.reader.consumed)
    && (s.reader.worker.Applied? ==> RecordIn(At(s.ring.slots, s.reader.worker.pos)).stamp == s.reader.consumed)
  }

  predicate GivenCount(s: State) {
    |s.reader.given| == s.ring.dequeue + (if s.reader.worker.Processed? then 1 else 0)
  }

  /** The accepted write number `k` is the record at its position: already given, or published and waiting. */
  predicate Kept(s: State, k: nat)
    requires k < |s.loss.writes| && s.loss.writes[k].Accepted?
  {
    var pos := s.loss.writes[k].pos;
    if pos < |s.reader.given| then s.reader.given[pos].ticket == k
    else
      && pos < s.ring.enqueue && At(s.ring.slots, pos).sequence == pos + 1
      && RecordIn(At(s.ring.slots, pos)).ticket == k
  }

  ghost predicate KeptOk(s: State) {
    forall k: nat | k < |s.loss.writes| && s.loss.writes[k].Accepted? :: Kept(s, k)
  }

  ghost predicate LossOk(s: State) {
    StampsOk(s) && SealedOk(s) && ReadOk(s) && PendingOk(s) && GivenCount(s) && KeptOk(s)
  }

  // ----- producers

  lemma DropKeepsWrites(loss: Losses, t: nat)
    requires WritesOk(loss)
    ensures WritesOk(Losses(loss.generation + 1, loss.writes + [Dropped(t, loss.generation + 1)]))
  {
  }

  lemma AcceptKeepsWrites(loss: Losses, t: nat, stamp: nat, payload: nat, pos: nat)
    requires WritesOk(loss) && StampOk(loss, t, stamp)
    ensures WritesOk(loss.(writes := loss.writes + [Accepted(t, stamp, payload, pos)]))
  {
  }

  lemma ProduceKeepsStamps(s: State, t: nat, payload: nat, fits: bool)
    requires StampsOk(s) && t in s.producers
    ensures StampsOk(ProduceStep(s, t, payload, fits))
  {
    var n := ProduceStep(s, t, payload, fits);
    var p := s.producers[t];
    ProduceFrame(s, t, payload, fits);
    ProduceWrites(s, t, payload, fits);
    hide ProduceStep;
    if p.Dropping? { DropKeepsWrites(s.loss, t); }
    if p.Stamped? { AcceptKeepsWrites(s.loss, t, p.stamp, p.payload, p.pos); }
    hide WritesOk;
    forall u: nat | u in n.producers && n.producers[u].Stamped? ensures StampOk(n.loss, u, n.producers[u].stamp) {
      if u != t { assert StampOk(s.loss, u, s.producers[u].stamp); }
    }
  }

  /** What a producer's step does to the history of attempts. */
  lemma ProduceWrites(s: State, t: nat, payload: nat, fits: bool)
    requires t in s.producers
    ensures var n := ProduceStep(s, t, payload, fits); var p := s.producers[t];
      n.loss == if p.Stamped? then s.loss.(writes := s.loss.writes + [Accepted(t, p.stamp, p.payload, p.pos)])
                else if p.Dropping? then
                  Losses(s.loss.generation + 1, s.loss.writes + [Dropped(t, s.loss.generation + 1)])
                else s.loss
    ensures var n := ProduceStep(s, t, payload, fits);
      t in n.producers && (n.producers[t].Stamped? ==> n.producers[t].stamp == s.loss.generation)
  {
    hide At, Put;
  }

  /** Nobody waits at a position that is being written. */
  lemma PublishKeepsRecords(s: State, t: nat)
    requires RingOk(s) && LossOk(s) && t in s.producers && s.producers[t].Stamped?
    ensures var n := ProduceStep(s, t, 0, true); SealedOk(n) && ReadOk(n) && PendingOk(n) && KeptOk(n)
  {
    var n := ProduceStep(s, t, 0, true);
    var p := s.producers[t].pos;
    assert ProducerOk(s, t);
    PutAt(s.ring.slots, p, At(n.ring.slots, p));
    assert n.reader == s.reader && n.ring == s.ring.(slots := Put(s.ring.slots, p, At(n.ring.slots, p)));
    assert At(n.ring.slots, p).sequence == p + 1 && RecordOk(n.loss.writes, RecordIn(At(n.ring.slots, p)), p);
    assert n.loss.writes == s.loss.writes + [Accepted(t, s.producers[t].stamp, s.producers[t].payload, p)];
    assert RecordIn(At(n.ring.slots, p)).ticket == |s.loss.writes|;
    hide ProduceStep, FreeOk, UsedOk, ProducersOk, At;
    assert p >= |s.reader.given|;
    forall k: nat | k < |n.loss.writes| && n.loss.writes[k].Accepted? ensures Kept(n, k) {
      if k < |s.loss.writes| { assert Kept(s, k); }
    }
  }

  /** A step that publishes nothing does not touch a slot that is sealed. */
  lemma WritingKeepsRecords(s: State, n: State, t: nat)
    requires RingOk(s) && LossOk(s) && t in s.producers && Owning(s.producers[t])
    requires var p := s.producers[t].pos;
      n.ring == s.ring.(slots := Put(s.ring.slots, p, At(n.ring.slots, p))) && At(n.ring.slots, p).sequence == p
    requires n.reader == s.reader && n.loss == s.loss
    ensures SealedOk(n) && ReadOk(n) && PendingOk(n) && KeptOk(n)
  {
    var p := s.producers[t].pos;
    assert ProducerOk(s, t);
    PutAt(s.ring.slots, p, At(n.ring.slots, p));
    hide At;
    forall k: nat | k < |n.loss.writes| && n.loss.writes[k].Accepted? ensures Kept(n, k) { assert Kept(s, k); }
  }

  /** Attempts and claims may be added; slots stay. */
  lemma GrowingKeepsRecords(s: State, n: State)
    requires RingOk(s) && LossOk(s) && Bounds(n) && FreeOk(n)
    requires n.ring.slots == s.ring.slots && n.ring.dequeue == s.ring.dequeue && n.reader == s.reader
    requires n.ring.enqueue == s.ring.enqueue ||
             (n.ring.enqueue == s.ring.enqueue + 1 && s.ring.enqueue < s.ring.dequeue + CAPACITY)
    requires s.loss.writes <= n.loss.writes
    requires forall k :: |s.loss.writes| <= k < |n.loss.writes| ==> n.loss.writes[k].Dropped?
    ensures SealedOk(n) && ReadOk(n) && PendingOk(n) && KeptOk(n)
  {
    assert At(s.ring.slots, s.ring.enqueue).sequence == s.ring.enqueue || s.ring.enqueue == s.ring.dequeue + CAPACITY;
    hide At;
    forall k: nat | k < |n.loss.writes| && n.loss.writes[k].Accepted? ensures Kept(n, k) { assert Kept(s, k); }
  }

  lemma ProduceKeepsLoss(s: State, t: nat, payload: nat, fits: bool)
    requires RingOk(s) && LossOk(s) && t in s.producers
    ensures LossOk(ProduceStep(s, t, payload, fits))
  {
    var n := ProduceStep(s, t, payload, fits);
    var p := s.producers[t];
    ProduceKeepsStamps(s, t, payload, fits);
    ProduceKeepsRing(s, t, payload, fits);
    ProduceFrame(s, t, payload, fits);
    ProduceWrites(s, t, payload, fits);
    assert ProducerOk(s, t);
    if p.Stamped? {
      PublishKeepsRecords(s, t);
    } else if Owning(p) {
      PutAt(s.ring.slots, p.pos, At(n.ring.slots, p.pos));
      ProduceSlots(s, t, payload, fits);
      hide ProduceStep, RingOk;
      WritingKeepsRecords(s, n, t);
    } else {
      ProduceSlots(s, t, payload, fits);
      hide ProduceStep, At;
      GrowingKeepsRecords(s, n);
    }
  }

  lemma ProduceSlots(s: State, t: nat, payload: nat, fits: bool)
    requires RingOk(s) && t in s.producers && !s.producers[t].Stamped?
    ensures var n := ProduceStep(s, t, payload, fits); var p := s.producers[t];
      if Owning(p) then
        && n.ring == s.ring.(slots := Put(s.ring.slots, p.pos, At(n.ring.slots, p.pos)))
        && At(n.ring.slots, p.pos).sequence == p.pos
      else
        && n.ring.slots == s.ring.slots
        && (n.ring.enqueue == s.ring.enqueue ||
            (n.ring.enqueue == s.ring.enqueue + 1 && s.ring.enqueue < s.ring.dequeue + CAPACITY))
  {
    assert ProducerOk(s, t);
  }

  // ----- the worker and the control threads

  lemma WorkKeepsLoss(s: State)
    requires RingOk(s) && LossOk(s)
    ensures LossOk(WorkStep(s))
  {
    var n := WorkStep(s);
    WorkFrame(s);
    WorkKeepsRing(s);
    match s.reader.worker
    case Applied(p) => GiveKeepsLoss(s);
    case Processed(p) => ReleaseKeepsLoss(s);
    case _ => QuietWorkKeepsLoss(s);
  }

  lemma GiveKeepsLoss(s: State)
    requires RingOk(s) && LossOk(s) && s.reader.worker.Applied?
    ensures LossOk(WorkStep(s))
  {
    var n := WorkStep(s);
    var p := s.ring.dequeue;
    var r := RecordIn(At(s.ring.slots, p));
    assert RecordOk(s.loss.writes, r, p);
    assert n.ring == s.ring && n.loss == s.loss && n.producers == s.producers;
    assert n.reader.given == s.reader.given + [r] && n.reader.fragments == s.reader.fragments + [r];
    assert n.reader.consumed == s.reader.consumed && n.reader.worker == Processed(p);
    hide WorkStep, At, RecordIn, FreeOk, UsedOk, ProducersOk;
    forall k: nat | k < |n.loss.writes| && n.loss.writes[k].Accepted? ensures Kept(n, k) { assert Kept(s, k); }
  }

  lemma ReleaseKeepsLoss(s: State)
    requires RingOk(s) && LossOk(s) && s.reader.worker.Processed?
    ensures LossOk(WorkStep(s))
  {
    var n := WorkStep(s);
    var p := s.ring.dequeue;
    PutAt(s.ring.slots, p, At(n.ring.slots, p));
    assert n.loss == s.loss && n.producers == s.producers && n.reader == s.reader.(worker := Idle);
    assert n.ring == s.ring.(slots := Put(s.ring.slots, p, At(n.ring.slots, p)), dequeue := p + 1);
    hide WorkStep, At, RecordIn, FreeOk, UsedOk, ProducersOk;
    forall k: nat | k < |n.loss.writes| && n.loss.writes[k].Accepted? ensures Kept(n, k) { assert Kept(s, k); }
  }

  lemma ChooseReads(s: State)
    ensures var w := ChooseStep(s).reader.worker;
      ChooseStep(s).reader == s.reader.(worker := w) && !w.Applied? && !w.Processed?
  {
    hide At;
  }

  lemma QuietWorkReads(s: State)
    requires !s.reader.worker.Applied? && !s.reader.worker.Processed?
    ensures var r := WorkStep(s).reader;
      && r.given == s.reader.given && (r.fragments == s.reader.fragments || r.fragments == [])
      && (r.consumed == s.reader.consumed || r.fragments == []) && !r.worker.Processed?
      && (r.worker.Applied? ==> RecordIn(At(s.ring.slots, r.worker.pos)).stamp == r.consumed)
  {
    ChooseReads(s);
    hide At, RecordIn, ChooseStep;
  }

  lemma QuietWorkKeepsLoss(s: State)
    requires RingOk(s) && LossOk(s) && !s.reader.worker.Applied? && !s.reader.worker.Processed?
    ensures LossOk(WorkStep(s))
  {
    var n := WorkStep(s);
    WorkFrame(s);
    QuietWorkReads(s);
    hide WorkStep, At, RecordIn, FreeOk, UsedOk, ProducersOk;
    forall k: nat | k < |n.loss.writes| && n.loss.writes[k].Accepted? ensures Kept(n, k) { assert Kept(s, k); }
  }

  lemma ControlKeepsLoss(s: State, c: nat, request: Request)
    requires LossOk(s) && c in s.controllers
    ensures LossOk(ControlStep(s, c, request))
  {
    var n := ControlStep(s, c, request);
    ControlFrame(s, c, request);
    assert n.reader.fragments == s.reader.fragments || n.reader.fragments == [] by { hide EntriesFor, Admits; }
    hide ControlStep, At, RecordIn;
    forall k: nat | k < |n.loss.writes| && n.loss.writes[k].Accepted? ensures Kept(n, k) { assert Kept(s, k); }
  }

  /** No two pending records of a thread have a lost write of that thread between them. */
  lemma NothingStraddlesALoss(s: State, a: nat, b: nat, lost: nat)
    requires LossOk(s)
    requires a < |s.reader.fragments| && b < |s.reader.fragments| && lost < |s.loss.writes|
    requires s.loss.writes[lost].Dropped?
    requires s.reader.fragments[a].tid == s.reader.fragments[b].tid == s.loss.writes[lost].tid
    ensures !(s.reader.fragments[a].ticket < lost < s.reader.fragments[b].ticket)
  {
    assert Genuine(s.loss.writes, s.reader.fragments[a]) && Genuine(s.loss.writes, s.reader.fragments[b]);
  }
}
