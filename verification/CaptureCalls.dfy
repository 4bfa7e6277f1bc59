/**
 What the calls of the capture pipeline achieve when nothing else moves: a write is accepted exactly when the door
 is open, it fits and a slot is free; a request queues its entries at the end of the ring and leaves the door as it
 found it; the worker hands on the next record or carries out the next entry.
 */
module CaptureCalls {
  import opened CaptureRing
  import opened CaptureSlots

  /** The same action over and over, with nothing else moving. */
  function Alone(s: State, a: Action, n: nat): State
    decreases n
  {
    if n == 0 then s else Alone(Next(s, a), a, n - 1)
  }

  lemma {:induction false} AloneConcat(s: State, a: Action, m: nat, n: nat)
    ensures Alone(s, a, m + n) == Alone(Alone(s, a, m), a, n)
    decreases m
  {
    hide Next;
    if m > 0 { AloneConcat(Next(s, a), a, m - 1, n); }
  }

  lemma Steps(s: State, a: Action)
    ensures Alone(s, a, 1) == Next(s, a)
    ensures Alone(s, a, 2) == Next(Next(s, a), a)
    ensures Alone(s, a, 3) == Next(Next(Next(s, a), a), a)
  {
    hide Next;
    var s1 := Next(s, a);
    var s2 := Next(s1, a);
    var s3 := Next(s2, a);
    assert Alone(s, a, 1) == Alone(s1, a, 0);
    assert Alone(s, a, 2) == Alone(s1, a, 1) == Alone(s2, a, 0);
    assert Alone(s, a, 3) == Alone(s1, a, 2) == Alone(s2, a, 1) == Alone(s3, a, 0);
  }

  // ----- a write

  /** Is there a free slot for the next position? */
  predicate HasRoom(s: State) { s.ring.enqueue < s.ring.dequeue + CAPACITY }

  lemma RoomIsFree(s: State)
    requires RingOk(s)
    ensures At(s.ring.slots, s.ring.enqueue).sequence == s.ring.enqueue <==> HasRoom(s)
  {
    if s.ring.enqueue == s.ring.dequeue + CAPACITY {
      assert Used(s, s.ring.dequeue);
      assert Index(s.ring.enqueue) == Index(s.ring.dequeue);
    }
  }

  function AfterAccept(s: State, t: nat, payload: nat): State {
    var e := s.ring.enqueue;
    var r := Record(t, payload, s.loss.generation, |s.loss.writes|);
    s.(ring := s.ring.(slots := Put(s.ring.slots, e, Slot(e + 1, Sealed(r))), enqueue := e + 1,
                       claims := s.ring.claims + [Claim(t, payload)]),
       loss := s.loss.(writes := s.loss.writes + [Accepted(t, s.loss.generation, payload, e)]))
  }

  function AfterDrop(s: State, t: nat): State {
    var g := s.loss.generation + 1;
    s.(loss := Losses(g, s.loss.writes + [Dropped(t, g)]))
  }

  /** The steps of a write that runs alone. */
  function WriteSteps(s: State, fits: bool): nat {
    if !s.accepting then 4 else if !fits then 5 else if !HasRoom(s) then 6 else 10
  }

  /** A write alone: accepted, as the one record of the next position with the current generation, exactly when the
      door is open, it fits and a slot is free; otherwise dropped, which starts a new generation. The thread is out
      again, and nothing else has changed. */
  lemma WriteAlone(s: State, t: nat, payload: nat, fits: bool)
    requires RingOk(s) && t in s.producers && s.producers[t] == Out
    ensures Alone(s, Produce(t, payload, fits), WriteSteps(s, fits)) ==
            if s.accepting && fits && HasRoom(s) then AfterAccept(s, t, payload) else AfterDrop(s, t)
  {
    var a := Produce(t, payload, fits);
    RoomIsFree(s);
    hide RingOk;
    if !s.accepting {
      DoorClosed(s, t, payload, fits);
      DropRuns(s, t, a);
      AloneConcat(s, a, 2, 2);
    } else {
      DoorOpen(s, t, payload, fits);
      if !fits {
        DropRuns(s, t, a);
        AloneConcat(s, a, 3, 2);
      } else if !HasRoom(s) {
        RingFull(s, t, payload, fits);
        DropRuns(s, t, a);
        AloneConcat(s, a, 3, 1);
        AloneConcat(s, a, 4, 2);
      } else {
        Claims(s, t, payload);
        Publishes(s, t, payload);
        AloneConcat(s, a, 3, 3);
        AloneConcat(s, a, 6, 3);
        AloneConcat(s, a, 9, 1);
      }
    }
  }

  /** The state with thread `t` inside a write. */
  function Inside(s: State, t: nat, p: Producer): State { Goto(s.(active := s.active + 1), t, p) }

  lemma DoorClosed(s: State, t: nat, payload: nat, fits: bool)
    requires t in s.producers && s.producers[t] == Out && !s.accepting
    ensures Alone(s, Produce(t, payload, fits), 2) == Inside(s, t, Dropping)
  {
    var a := Produce(t, payload, fits);
    assert Next(s, a) == Inside(s, t, Entered(payload, fits));
    assert Next(Next(s, a), a).producers == s.producers[t := Dropping];
    Steps(s, a);
    hide Alone;
  }

  lemma DoorOpen(s: State, t: nat, payload: nat, fits: bool)
    requires t in s.producers && s.producers[t] == Out && s.accepting
    ensures Alone(s, Produce(t, payload, fits), 3) ==
            Inside(s, t, if fits then Loaded(payload, s.ring.enqueue) else Dropping)
  {
    var a := Produce(t, payload, fits);
    assert Next(s, a) == Inside(s, t, Entered(payload, fits));
    EnteredOpens(s, t, payload, fits);
    hide Next, Inside, Alone;
    Steps(s, a);
  }

  lemma EnteredOpens(s: State, t: nat, payload: nat, fits: bool)
    requires t in s.producers && s.accepting
    ensures var a := Produce(t, payload, fits);
      Next(Next(Inside(s, t, Entered(payload, fits)), a), a) ==
        Inside(s, t, if fits then Loaded(payload, s.ring.enqueue) else Dropping)
  {
    hide At, Put;
    var a := Produce(t, payload, fits);
    var s2 := Next(Inside(s, t, Entered(payload, fits)), a);
    assert s2.producers == s.producers[t := Open(payload, fits)];
    assert Next(s2, a).producers == s.producers[t := if fits then Loaded(payload, s.ring.enqueue) else Dropping];
  }

  lemma RingFull(s: State, t: nat, payload: nat, fits: bool)
    requires t in s.producers && At(s.ring.slots, s.ring.enqueue).sequence != s.ring.enqueue
    ensures Alone(Inside(s, t, Loaded(payload, s.ring.enqueue)), Produce(t, payload, fits), 1) == Inside(s, t, Dropping)
  {
    var a := Produce(t, payload, fits);
    var m := Inside(s, t, Loaded(payload, s.ring.enqueue));
    assert Next(m, a).producers == s.producers[t := Dropping];
    Steps(m, a);
    hide Alone, At;
  }

  lemma DropRuns(s: State, t: nat, a: Action)
    requires t in s.producers && s.producers[t] == Out && a.Produce? && a.t == t
    ensures Alone(Inside(s, t, Dropping), a, 2) == AfterDrop(s, t)
  {
    var m := Inside(s, t, Dropping);
    assert Next(m, a) == AfterDrop(Inside(s, t, Leaving), t);
    assert Next(Next(m, a), a).producers == s.producers;
    Steps(m, a);
    hide Alone;
  }

  /** The state after the claim, with the slot written so far. */
  function Owning(s: State, t: nat, payload: nat, slot: Slot, p: Producer): State {
    var e := s.ring.enqueue;
    Inside(s.(ring := s.ring.(slots := Put(s.ring.slots, e, slot), enqueue := e + 1,
                              claims := s.ring.claims + [Claim(t, payload)])), t, p)
  }

  lemma PutTwice(slots: Ring, pos: nat, a: Slot, b: Slot)
    ensures Put(Put(slots, pos, a), pos, b) == Put(slots, pos, b) && At(Put(slots, pos, a), pos) == a
    ensures Put(slots, pos, At(slots, pos)) == slots
  {
  }

  /** Loaded, matched, claimed, and half of the copy. */
  lemma Claims(s: State, t: nat, payload: nat)
    requires t in s.producers && At(s.ring.slots, s.ring.enqueue).sequence == s.ring.enqueue
    ensures var e := s.ring.enqueue;
      Alone(Inside(s, t, Loaded(payload, e)), Produce(t, payload, true), 3) ==
        Owning(s, t, payload, Slot(e, Partial(t)), Copying(payload, e))
  {
    var e := s.ring.enqueue;
    var a := Produce(t, payload, true);
    var m := Inside(s, t, Loaded(payload, e));
    var m1 := Next(m, a);
    assert m1.producers == s.producers[t := Matched(payload, e)];
    var m2 := Next(m1, a);
    assert m2.producers == s.producers[t := Claimed(payload, e)];
    assert m2.ring == s.ring.(enqueue := e + 1, claims := s.ring.claims + [Claim(t, payload)]);
    var m3 := Next(m2, a);
    assert m3.producers == s.producers[t := Copying(payload, e)];
    Steps(m, a);
    hide Alone;
  }

  /** The rest of the copy, the stamp, the publication, and out. */
  lemma Publishes(s: State, t: nat, payload: nat)
    requires t in s.producers && s.producers[t] == Out
    ensures var e := s.ring.enqueue; var a := Produce(t, payload, true);
      var m := Owning(s, t, payload, Slot(e, Partial(t)), Copying(payload, e));
      && Alone(Alone(m, a, 3), a, 1) == AfterAccept(s, t, payload)
  {
    var e := s.ring.enqueue;
    var a := Produce(t, payload, true);
    var m := Owning(s, t, payload, Slot(e, Partial(t)), Copying(payload, e));
    PutTwice(s.ring.slots, e, Slot(e, Partial(t)), Slot(e, Whole(t, payload)));
    var m1 := Next(m, a);
    assert m1.producers == s.producers[t := Copied(payload, e)];
    assert m1 == Owning(s, t, payload, Slot(e, Whole(t, payload)), Copied(payload, e));
    var m2 := Next(m1, a);
    assert m2.producers == s.producers[t := Stamped(payload, e, s.loss.generation)];
    assert m2 == Owning(s, t, payload, Slot(e, Whole(t, payload)), Stamped(payload, e, s.loss.generation));
    PublishRuns(s, t, payload, m2);
    Steps(m, a);
    Steps(Alone(m, a, 3), a);
    hide Alone, Next, Put, At;
  }

  lemma PublishRuns(s: State, t: nat, payload: nat, m: State)
    requires t in s.producers && s.producers[t] == Out
    requires var e := s.ring.enqueue;
      m == Owning(s, t, payload, Slot(e, Whole(t, payload)), Stamped(payload, e, s.loss.generation))
    ensures var a := Produce(t, payload, true); Next(Next(m, a), a) == AfterAccept(s, t, payload)
  {
    var e := s.ring.enqueue;
    var a := Produce(t, payload, true);
    var r := Record(t, payload, s.loss.generation, |s.loss.writes|);
    PutTwice(s.ring.slots, e, Slot(e, Whole(t, payload)), Slot(e + 1, Sealed(r)));
    var m3 := Next(m, a);
    assert m3.producers == s.producers[t := Leaving];
    assert Next(m3, a).producers == s.producers;
  }

  // ----- a request

  /** The door after an admitted request: as it was, and closed for good by a stop. */
  predicate DoorAfter(s: State, r: Request) { s.accepting && r != Stop }

  function AfterRequest(s: State, c: nat, r: Request): State {
    var es := EntriesFor(r, s.desk.enqueued + 1, s.ring.enqueue, s.loss.generation);
    var number := s.desk.enqueued + |es|;
    s.(accepting := DoorAfter(s, r),
       desk := s.desk.(life := if r == Stop then Draining else s.desk.life, queue := s.desk.queue + es,
                       entries := s.desk.entries + es, enqueued := number, drained := s.desk.drained || r == Stop),
       controllers := s.controllers[c := if r == Stop || r == Flush(true) then Waiting(r, number) else Free])
  }

  /** An admitted request alone, with no write under way: its entries are queued at the end of the ring with the
      current generation, the door is as it was but for a stop, the mutex is free again, and it waits if it must. */
  lemma RequestAlone(s: State, c: nat, r: Request)
    requires c in s.controllers && s.controllers[c] == Free && s.desk.mutex == Nobody && s.active == 0
    requires Admits(s.desk.life, r)
    ensures Alone(s, Control(c, r), 7) == AfterRequest(s, c, r)
  {
    var a := Control(c, r);
    PauseAlone(s, c, r);
    PushAlone(s, c, r);
    AloneConcat(s, a, 3, 3);
    AloneConcat(s, a, 6, 1);
    hide Alone, Next, EntriesFor;
  }

  /** Inside the section, with the door closed and the mutex held. */
  function InSection(s: State, c: nat, r: Request, k: Controller): State {
    s.(accepting := false, controllers := s.controllers[c := k],
       desk := s.desk.(mutex := ByController(c), life := if r == Stop then Draining else s.desk.life,
                       drained := s.desk.drained || (r == Stop && !k.Pausing?)))
  }

  lemma PauseAlone(s: State, c: nat, r: Request)
    requires c in s.controllers && s.controllers[c] == Free && s.desk.mutex == Nobody && s.active == 0
    requires Admits(s.desk.life, r)
    ensures Alone(s, Control(c, r), 3) == InSection(s, c, r, Paused(r, DoorAfter(s, r)))
  {
    var a := Control(c, r);
    hide EntriesFor, Alone;
    var s1 := Next(s, a);
    assert s1.controllers == s.controllers[c := Locked(r)];
    var s2 := Next(s1, a);
    assert s2.controllers == s.controllers[c := Pausing(r, DoorAfter(s, r))];
    var s3 := Next(s2, a);
    assert s3.controllers == s.controllers[c := Paused(r, DoorAfter(s, r))];
    Steps(s, a);
  }

  lemma PushAlone(s: State, c: nat, r: Request)
    requires c in s.controllers && s.desk.mutex == Nobody
    ensures var a := Control(c, r);
      Alone(Alone(InSection(s, c, r, Paused(r, DoorAfter(s, r))), a, 3), a, 1) == AfterRequest(s, c, r)
  {
    var a := Control(c, r);
    var was := DoorAfter(s, r);
    var m := InSection(s, c, r, Paused(r, was));
    var es := EntriesFor(r, s.desk.enqueued + 1, s.ring.enqueue, s.loss.generation);
    hide EntriesFor, Alone;
    assert Next(m, a) == InSection(s, c, r, Captured(r, was, s.ring.enqueue));
    Pushes(s, c, r);
    hide Next, AfterRequest;
    Steps(m, a);
    Steps(Next(Next(Next(m, a), a), a), a);
  }

  lemma Pushes(s: State, c: nat, r: Request)
    requires c in s.controllers && s.desk.mutex == Nobody
    ensures var a := Control(c, r);
      var m := InSection(s, c, r, Captured(r, DoorAfter(s, r), s.ring.enqueue));
      Next(Next(Next(m, a), a), a) == AfterRequest(s, c, r)
  {
    var a := Control(c, r);
    var was := DoorAfter(s, r);
    var m1 := InSection(s, c, r, Captured(r, was, s.ring.enqueue));
    hide EntriesFor, AdmitStep;
    var m2 := Next(m1, a);
    var number := s.desk.enqueued + |EntriesFor(r, s.desk.enqueued + 1, s.ring.enqueue, s.loss.generation)|;
    assert m2.controllers == s.controllers[c := Pushed(r, was, number)];
    var m3 := Next(m2, a);
    assert m3.controllers == s.controllers[c := Unlocking(r, number)];
    var m4 := Next(m3, a);
    assert m4.controllers == AfterRequest(s, c, r).controllers;
  }

  /** A request that comes too late is not queued: a flush without a worker is carried out by its caller, unless it
      waits and there still is one; the others close the door. */
  lemma LateRequestAlone(s: State, c: nat, r: Request)
    requires c in s.controllers && s.controllers[c] == Free && s.desk.mutex == Nobody
    requires !Admits(s.desk.life, r)
    ensures var n := Alone(s, Control(c, r), if r.Flush? then 3 else 2);
      var clears := (r.Flush? && (r.wait ==> s.desk.life == Stopped)) || r == CloseFiles;
      n == s.(accepting := s.accepting && r.Flush?,
              reader := s.reader.(fragments := if clears then [] else s.reader.fragments))
  {
    var a := Control(c, r);
    hide EntriesFor, Alone;
    var s1 := Next(s, a);
    assert s1.controllers == s.controllers[c := Locked(r)];
    var s2 := Next(s1, a);
    if r.Flush? {
      assert s2.controllers == s.controllers[c := Refused(r.wait)];
      assert Next(s2, a).controllers == s.controllers;
    } else {
      assert s2.controllers == s.controllers;
    }
    Steps(s, a);
  }

  // ----- the worker

  /** Is the next entry due? */
  predicate EntryDue(s: State) { s.desk.queue != [] && s.ring.dequeue >= s.desk.queue[0].boundary }

  predicate RecordReady(s: State) { At(s.ring.slots, s.ring.dequeue).sequence == s.ring.dequeue + 1 }

  /** The pending records after a boundary of this generation. */
  function Kept(s: State, generation: nat): seq<Record> {
    if generation == s.reader.consumed then s.reader.fragments else []
  }

  function AfterRecord(s: State): State {
    var r := RecordIn(At(s.ring.slots, s.ring.dequeue));
    var p := s.ring.dequeue;
    s.(ring := s.ring.(slots := Put(s.ring.slots, p, At(s.ring.slots, p).(sequence := p + CAPACITY)), dequeue := p + 1),
       reader := s.reader.(consumed := r.stamp, fragments := Kept(s, r.stamp) + [r], given := s.reader.given + [r]))
  }

  /** With no entry due the worker alone gives the next record, after its loss boundary, and frees its slot. */
  lemma WorkerGives(s: State)
    requires s.reader.worker == Idle && s.desk.mutex == Nobody && !EntryDue(s) && RecordReady(s)
    ensures Alone(s, Work, 5) == AfterRecord(s)
  {
    var p := s.ring.dequeue;
    var r := RecordIn(At(s.ring.slots, p));
    hide Alone, At, Put, RecordIn;
    var s1 := Next(s, Work);
    assert s1 == Act(s.(desk := s.desk.(mutex := ByWorker)), Choosing);
    var s2 := Next(s1, Work);
    assert s2 == Act(s, HasRecord(p));
    var s3 := Next(s2, Work);
    assert s3 == Act(s.(reader := s.reader.(consumed := r.stamp, fragments := Kept(s, r.stamp))), Applied(p));
    var s4 := Next(s3, Work);
    assert s4.reader == AfterRecord(s).reader.(worker := Processed(p)) && s4.ring == s.ring;
    var s5 := Next(s4, Work);
    assert s5 == AfterRecord(s);
    hide Next;
    Steps(s, Work);
    Steps(s3, Work);
    AloneConcat(s, Work, 3, 2);
  }

  function AfterEntry(s: State): State
    requires s.desk.queue != []
  {
    var e := s.desk.queue[0];
    var flush := e.kind == ParseFlush;
    s.(desk := s.desk.(queue := s.desk.queue[1..]),
       reader := s.reader.(consumed := e.generation, processed := e.number,
                           fragments := if flush then [] else Kept(s, e.generation),
                           flushes := s.reader.flushes
                             + (if flush then [FlushDone(e.number, e.boundary, |s.reader.given|)] else [])))
  }

  /** An entry that is due goes first: its loss boundary, its flush if it is one, and its number. */
  lemma WorkerCarriesOut(s: State)
    requires s.reader.worker == Idle && s.desk.mutex == Nobody && EntryDue(s)
    ensures Alone(s, Work, 5) == AfterEntry(s)
  {
    var e := s.desk.queue[0];
    hide Alone, At, Put, RecordIn;
    var s1 := Next(s, Work);
    assert s1 == Act(s.(desk := s.desk.(mutex := ByWorker)), Choosing);
    var s2 := Next(s1, Work);
    assert s2 == Act(s.(desk := s.desk.(queue := s.desk.queue[1..])), HasEntry(e));
    EntryRuns(s, s2, e);
    hide Next, AfterEntry;
    Steps(s, Work);
    Steps(s2, Work);
    AloneConcat(s, Work, 2, 3);
  }

  lemma EntryRuns(s: State, m: State, e: Entry)
    requires s.desk.queue != [] && e == s.desk.queue[0] && s.reader.worker == Idle && s.desk.mutex == Nobody
    requires m == Act(s.(desk := s.desk.(queue := s.desk.queue[1..])), HasEntry(e))
    ensures Next(Next(Next(m, Work), Work), Work) == AfterEntry(s)
  {
    hide At, Put, RecordIn, ChooseStep;
    var m1 := Next(m, Work);
    assert m1.reader ==
      s.reader.(consumed := e.generation, fragments := Kept(s, e.generation), worker := EntryApplied(e));
    var m2 := Next(m1, Work);
    assert m2.reader == AfterEntry(s).reader.(processed := s.reader.processed, worker := EntryDone(e));
  }

  /** With nothing to do it ends exactly when it was told to and the ring and the queue are empty. */
  lemma WorkerRests(s: State)
    requires s.reader.worker == Idle && s.desk.mutex == Nobody && !EntryDue(s) && !RecordReady(s)
    ensures Alone(s, Work, 2) ==
      if s.desk.life == Stopping && s.desk.queue == [] && s.ring.dequeue >= s.ring.enqueue then Act(s, Exited) else s
  {
    hide Alone, At;
    assert Next(s, Work) == Act(s.(desk := s.desk.(mutex := ByWorker)), Choosing);
    Steps(s, Work);
  }
}
