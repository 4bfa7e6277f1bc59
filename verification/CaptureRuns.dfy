/** What holds of the capture pipeline in every interleaving, from a fresh worker on. */
module CaptureRuns {
  import opened CaptureRing
  import opened CaptureSlots
  import opened CapturePause
  import opened CaptureQueue
  import opened CaptureLoss

  /** Has this request been given the number of its last entry? */
  predicate Asked(k: Controller) { k.Pushed? || k.Unlocking? || k.Waiting? }

  /** A request waits for a number that has been given out. */
  ghost predicate NumbersOk(s: State) {
    forall c: nat | c in s.controllers && Asked(s.controllers[c]) :: s.controllers[c].number <= s.desk.enqueued
  }

  /** A mutex held by a control thread is held by one that is inside its section. */
  predicate HolderOk(s: State) {
    s.desk.mutex.ByController? ==> var c := s.desk.mutex.c; c in s.controllers && Holds(s.controllers[c])
  }

  ghost predicate Inv(s: State) {
    RingOk(s) && ControlOk(s) && QueueOk(s) && LossOk(s) && NumbersOk(s) && HolderOk(s)
  }

  lemma InitInv(s: State)
    requires Init(s)
    ensures Inv(s)
  {
    InitRing(s);
    InitControl(s);
    hide RingOk, ControlOk, QueueOk, LossOk;
    InitQueue(s);
    InitLoss(s);
  }

  lemma InitQueue(s: State)
    requires Init(s)
    ensures QueueOk(s)
  {
    hide At, Index;
    assert EntriesOk(s);
    assert FlushLog([]) == [] && s.desk.entries[..Done(s.reader)] == [];
  }

  lemma InitControl(s: State)
    requires Init(s)
    ensures ControlOk(s)
  {
    hide Index;
    assert Inside(s.producers) == {};
  }

  lemma InitLoss(s: State)
    requires Init(s)
    ensures LossOk(s)
  {
    hide Index, At;
  }

  lemma ControlCounts(s: State, c: nat, request: Request)
    requires c in s.controllers
    ensures s.desk.enqueued <= ControlStep(s, c, request).desk.enqueued
  {
    hide EntriesFor, Admits;
  }

  lemma ControlNumbers(s: State, c: nat, request: Request)
    requires c in s.controllers
    ensures c in ControlStep(s, c, request).controllers
    ensures var n := ControlStep(s, c, request); var k := s.controllers[c]; var m := n.controllers[c];
      Asked(m) ==> (m.number == n.desk.enqueued || (Asked(k) && m.number == k.number))
  {
    hide EntriesFor, Admits, PushEntries, Unlock, ClearFragments;
  }

  lemma ControlKeepsNumbers(s: State, c: nat, request: Request)
    requires NumbersOk(s) && c in s.controllers
    ensures NumbersOk(ControlStep(s, c, request))
  {
    ControlCounts(s, c, request);
    ControlNumbers(s, c, request);
    OnlyMoves(s, c, request);
    hide ControlStep;
  }

  lemma ControlKeepsHolder(s: State, c: nat, request: Request)
    requires HolderOk(s) && ControlOk(s) && c in s.controllers
    ensures HolderOk(ControlStep(s, c, request))
  {
    assert ControllerOk(s, c);
    hide Frozen, CountOk, EntriesFor, Admits, LifeOk;
  }

  lemma WorkerHolds(s: State)
    requires ControlOk(s)
    ensures s.reader.worker == Choosing <==> s.desk.mutex == ByWorker
  {
  }

  lemma NextKeeps(s: State, a: Action)
    requires Inv(s)
    ensures Inv(Next(s, a))
  {
    WorkerHolds(s);
    hide RingOk, ControlOk, QueueOk, LossOk, ProduceStep, WorkStep, ControlStep;
    match a
    case Produce(t, payload, fits) =>
      if t in s.producers {
        ProduceKeepsRing(s, t, payload, fits);
        ProduceKeepsControl(s, t, payload, fits);
        ProduceKeepsQueue(s, t, payload, fits);
        ProduceKeepsLoss(s, t, payload, fits);
        ProduceFrame(s, t, payload, fits);
      }
    case Work =>
      WorkKeepsRing(s);
      WorkKeepsControl(s);
      WorkKeepsQueue(s);
      WorkKeepsLoss(s);
      WorkFrame(s);
      WorkTurns(s);
    case Control(c, request) =>
      if c in s.controllers {
        ControlKeepsRing(s, c, request);
        ControlKeepsControl(s, c, request);
        ControlKeepsQueue(s, c, request);
        ControlKeepsLoss(s, c, request);
        ControlKeepsNumbers(s, c, request);
        ControlKeepsHolder(s, c, request);
      }
  }

  lemma {:induction false} ExecKeeps(s: State, acts: seq<Action>)
    requires Inv(s)
    ensures Inv(Exec(s, acts))
    decreases |acts|
  {
    if acts != [] {
      NextKeeps(s, acts[0]);
      ExecKeeps(Next(s, acts[0]), acts[1..]);
    }
  }

  // ----- ring safety

  /** Writers of different positions use different slots, the worker's slot is published and nobody's. */
  ghost predicate SlotsExclusive(s: State) {
    && (forall t: nat, u: nat | t != u && t in s.producers && u in s.producers
          && Owning(s.producers[t]) && Owning(s.producers[u]) :: Index(s.producers[t].pos) != Index(s.producers[u].pos))
    && (Reading(s.reader.worker) ==>
          && At(s.ring.slots, s.reader.worker.pos).content.Sealed?
          && forall t: nat | t in s.producers && Owning(s.producers[t]) ::
               Index(s.producers[t].pos) != Index(s.reader.worker.pos))
  }

  /** The assembler has been given exactly the first claims, in claim order. */
  predicate ClaimOrder(s: State) {
    && |s.reader.given| <= |s.ring.claims|
    && (forall i :: 0 <= i < |s.reader.given| ==> Matches(s.reader.given[i], s.ring.claims[i]))
  }

  lemma ExclusiveNow(s: State)
    requires Inv(s)
    ensures SlotsExclusive(s) && ClaimOrder(s)
  {
    forall t: nat, u: nat | t != u && t in s.producers && u in s.producers
      && Owning(s.producers[t]) && Owning(s.producers[u])
      ensures Index(s.producers[t].pos) != Index(s.producers[u].pos)
    {
      assert ProducerOk(s, t) && ProducerOk(s, u);
      Distinct(s.producers[t].pos, s.producers[u].pos);
    }
    if Reading(s.reader.worker) {
      assert Used(s, s.ring.dequeue);
      forall t: nat | t in s.producers && Owning(s.producers[t])
        ensures Index(s.producers[t].pos) != Index(s.reader.worker.pos)
      {
        assert ProducerOk(s, t);
        Distinct(s.producers[t].pos, s.reader.worker.pos);
      }
    }
  }

  lemma RingIsSafe(s: State, acts: seq<Action>)
    requires Init(s)
    ensures SlotsExclusive(Exec(s, acts)) && ClaimOrder(Exec(s, acts))
  {
    InitInv(s);
    ExecKeeps(s, acts);
    ExclusiveNow(Exec(s, acts));
  }

  // ----- the pause and the flushes

  /** Between its pause and its resume a control thread sees only published records, and nobody writing. */
  lemma PauseLeavesNothingUnpublished(s: State, acts: seq<Action>, c: nat)
    requires Init(s)
    requires c in Exec(s, acts).controllers
    requires var k := Exec(s, acts).controllers[c]; k.Paused? || k.Captured? || k.Pushed?
    ensures var n := Exec(s, acts);
      && !n.accepting && (forall t: nat | t in n.producers :: !Owning(n.producers[t]))
      && (n.controllers[c].Captured? ==> n.controllers[c].boundary == n.ring.enqueue)
      && forall pos: nat | n.ring.dequeue <= pos < n.ring.enqueue :: At(n.ring.slots, pos).sequence == pos + 1
  {
    InitInv(s);
    ExecKeeps(s, acts);
    var n := Exec(s, acts);
    hide Exec;
    assert ControllerOk(n, c);
    forall pos: nat | n.ring.dequeue <= pos < n.ring.enqueue ensures At(n.ring.slots, pos).sequence == pos + 1 {
      assert Bounds(n);
      FrozenIsPublished(n, pos);
    }
    forall t: nat | t in n.producers ensures !Owning(n.producers[t]) { assert Calm(n.producers[t]); }
  }

  /** The flushes carried out are exactly the queued ones the worker is done with, in order, each at its boundary. */
  lemma FlushesAreExact(s: State, acts: seq<Action>)
    requires Init(s)
    ensures var n := Exec(s, acts);
      && Done(n.reader) <= |n.desk.entries| && n.reader.flushes == FlushLog(n.desk.entries[..Done(n.reader)])
      && Numbered(n.desk.entries) && Ordered(n.desk.entries, |n.ring.claims|)
      && (forall i :: 0 <= i < |n.reader.flushes| ==>
            n.reader.flushes[i].recordsGiven == n.reader.flushes[i].boundary)
      && ClaimOrder(n)
  {
    InitInv(s);
    ExecKeeps(s, acts);
    var n := Exec(s, acts);
    ExclusiveNow(n);
    hide Exec;
    forall i | 0 <= i < |n.reader.flushes|
      ensures n.reader.flushes[i].recordsGiven == n.reader.flushes[i].boundary
    {
      LogEntries(n.desk.entries[..Done(n.reader)], i);
    }
  }

  lemma {:induction false} LogEntries(entries: seq<Entry>, i: nat)
    requires i < |FlushLog(entries)|
    ensures FlushLog(entries)[i].recordsGiven == FlushLog(entries)[i].boundary
    ensures exists j: nat ::
      j < |entries| && entries[j].boundary == FlushLog(entries)[i].boundary && entries[j].kind == ParseFlush
    decreases |entries|
  {
    var shorter := entries[..|entries| - 1];
    if i < |FlushLog(shorter)| {
      LogEntries(shorter, i);
      var j: nat :|
        j < |shorter| && shorter[j].boundary == FlushLog(shorter)[i].boundary && shorter[j].kind == ParseFlush;
      assert entries[j] == shorter[j];
    } else {
      assert entries[|entries| - 1].boundary == FlushLog(entries)[i].boundary;
    }
  }

  // ----- losses

  lemma LossesSeparate(s: State, acts: seq<Action>)
    requires Init(s)
    ensures var n := Exec(s, acts);
      && (forall i :: 0 <= i < |n.reader.fragments| ==> n.reader.fragments[i].stamp == n.reader.consumed)
      && forall a: nat, b: nat, lost: nat |
            a < |n.reader.fragments| && b < |n.reader.fragments| && lost < |n.loss.writes|
            && n.loss.writes[lost].Dropped?
            && n.reader.fragments[a].tid == n.reader.fragments[b].tid == n.loss.writes[lost].tid ::
            !(n.reader.fragments[a].ticket < lost < n.reader.fragments[b].ticket)
  {
    InitInv(s);
    ExecKeeps(s, acts);
    var n := Exec(s, acts);
    hide Exec;
    forall a: nat, b: nat, lost: nat | a < |n.reader.fragments| && b < |n.reader.fragments| && lost < |n.loss.writes|
      && n.loss.writes[lost].Dropped?
      && n.reader.fragments[a].tid == n.reader.fragments[b].tid == n.loss.writes[lost].tid
      ensures !(n.reader.fragments[a].ticket < lost < n.reader.fragments[b].ticket)
    {
      NothingStraddlesALoss(n, a, b, lost);
    }
  }

  // ----- the draining stop

  /** Every write that was accepted has been given to the assembler, as the one record of its position. */
  predicate AllGiven(s: State) {
    forall k :: 0 <= k < |s.loss.writes| && s.loss.writes[k].Accepted? ==>
      s.loss.writes[k].pos < |s.reader.given| && s.reader.given[s.loss.writes[k].pos].ticket == k
  }

  lemma DrainedGivesAll(s: State)
    requires Inv(s) && s.ring.dequeue == s.ring.enqueue
    ensures AllGiven(s)
  {
    hide RingOk, ControlOk, At;
    forall k | 0 <= k < |s.loss.writes| && s.loss.writes[k].Accepted?
      ensures s.loss.writes[k].pos < |s.reader.given| && s.reader.given[s.loss.writes[k].pos].ticket == k
    {
      assert Kept(s, k);
    }
  }

  lemma NobodyWrites(s: State)
    requires Inv(s) && s.reader.worker.Exited?
    ensures !s.accepting && forall t: nat | t in s.producers :: !Owning(s.producers[t])
  {
    hide RingOk, EntriesOk, FlushesOk, GivenOk, LossOk;
    assert s.desk.drained;
    forall t: nat | t in s.producers ensures !Owning(s.producers[t]) { assert Calm(s.producers[t]); }
  }

  lemma ExitFinishesEntries(s: State)
    requires QueueOk(s) && s.reader.worker.Exited?
    ensures s.desk.queue == [] && s.reader.processed == s.desk.enqueued == |s.desk.entries|
    ensures s.reader.flushes == FlushLog(s.desk.entries) && |s.reader.given| == |s.ring.claims|
    ensures s.ring.dequeue == s.ring.enqueue
  {
    hide FlushLog, Numbered, Ordered;
    assert s.desk.entries[..Done(s.reader)] == s.desk.entries;
  }

  /** When a draining stop has returned nothing is left: no record, no entry, no flush. */
  lemma StopLosesNothing(s: State, acts: seq<Action>, c: nat)
    requires Init(s) && c in Exec(s, acts).controllers && Exec(s, acts).controllers[c].Returned?
    ensures var n := Exec(s, acts);
      && |n.reader.given| == |n.ring.claims| && ClaimOrder(n) && AllGiven(n)
      && n.desk.queue == [] && n.reader.processed == n.desk.enqueued == |n.desk.entries|
      && n.reader.flushes == FlushLog(n.desk.entries)
      && !n.accepting && (forall t: nat | t in n.producers :: !Owning(n.producers[t]))
  {
    InitInv(s);
    ExecKeeps(s, acts);
    var n := Exec(s, acts);
    ExclusiveNow(n);
    hide Exec, RingOk, ControlOk, LossOk, EntriesOk, FlushesOk, GivenOk, ClaimOrder, AllGiven, FlushLog;
    assert n.reader.worker.Exited?;
    ExitFinishesEntries(n);
    DrainedGivesAll(n);
    NobodyWrites(n);
  }
}
