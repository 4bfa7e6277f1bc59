/** A draining stop can always return: what the worker has left goes down, and nobody it waits for can hold it up. */
module CaptureStop {
  import opened CaptureRing
  import opened CaptureSlots
  import opened CapturePause
  import opened CaptureQueue
  import opened CaptureLoss
  import opened CaptureRuns

  /** Records and entries the worker still has to finish. */
  function Left(s: State): int {
    s.ring.enqueue - s.ring.dequeue + |s.desk.queue| + (if Handling(s.reader.worker) then 1 else 0)
  }

  function Stage(w: Worker): nat {
    match w
    case Idle => 4
    case Choosing => 3
    case HasRecord(_) => 2
    case HasEntry(_) => 2
    case Applied(_) => 1
    case EntryApplied(_) => 1
    case _ => 0
  }

  function Rank(s: State): int { 5 * Left(s) + Stage(s.reader.worker) }

  /** After the pause of a stop, with the mutex left to the worker. */
  ghost predicate WorkerAlone(s: State) { Inv(s) && s.desk.drained && !s.desk.mutex.ByController? }

  /** A productive step finishes exactly one record or entry; no other step of the worker changes what is left. */
  lemma ChooseCounts(s: State)
    requires Inv(s) && s.reader.worker == Choosing
    ensures Left(ChooseStep(s)) == Left(s)
  {
    hide At, RingOk, ControlOk, LossOk, NumbersOk, QueueOk;
  }

  lemma WorkCountsDown(s: State)
    requires Inv(s)
    ensures var productive := s.reader.worker.Processed? || (s.reader.worker.EntryDone? && s.desk.mutex == Nobody);
      Left(WorkStep(s)) == Left(s) - (if productive then 1 else 0)
    ensures Left(s) >= 0
  {
    if s.reader.worker == Choosing { ChooseCounts(s); }
    hide At, Put, RecordIn, ControlOk, LossOk, NumbersOk, FreeOk, UsedOk, ProducersOk, QueueOk, ChooseStep;
  }

  lemma DrainedChooses(s: State)
    requires Inv(s) && s.desk.drained && s.reader.worker == Choosing && Left(s) > 0
    ensures WorkStep(s).reader.worker.HasRecord? || WorkStep(s).reader.worker.HasEntry?
  {
    if s.ring.dequeue < s.ring.enqueue { FrozenIsPublished(s, s.ring.dequeue); }
    assert s.desk.queue != [] ==> s.desk.queue[0] == s.desk.entries[Taken(s.reader)];
  }

  lemma AloneStays(s: State)
    requires WorkerAlone(s)
    ensures WorkerAlone(WorkStep(s))
  {
    NextKeeps(s, Work);
    WorkFrame(s);
    WorkTurns(s);
    hide WorkStep, RingOk, QueueOk, LossOk, NumbersOk;
  }

  /** After the pause of a stop every step of the worker makes progress while something is left, except that it
      waits where it needs the mutex and a control thread holds it. */
  lemma WorkProgresses(s: State)
    requires Inv(s) && s.desk.drained && Left(s) > 0
    ensures Rank(WorkStep(s)) < Rank(s) ||
            (s.desk.mutex.ByController? && (s.reader.worker.Idle? || s.reader.worker.EntryDone?) && WorkStep(s) == s)
  {
    WorkCountsDown(s);
    WorkerHolds(s);
    if s.reader.worker == Choosing { DrainedChooses(s); }
    if s.reader.worker.Exited? { ExitLeavesNothing(s); }
    hide At, Put, RecordIn, Inv, Left;
  }

  lemma ExitLeavesNothing(s: State)
    requires Inv(s) && s.reader.worker.Exited?
    ensures Left(s) == 0
  {
  }

  function WorkRun(s: State, steps: nat): State
    decreases steps
  {
    if steps == 0 then s else WorkRun(WorkStep(s), steps - 1)
  }

  /** Left to itself after the pause of a stop, the worker finishes everything within `Rank` steps. */
  lemma {:induction false} DrainFinishes(s: State, steps: nat)
    requires WorkerAlone(s) && steps >= Rank(s)
    ensures WorkerAlone(WorkRun(s, steps)) && Left(WorkRun(s, steps)) == 0
    ensures WorkRun(s, steps).controllers == s.controllers && WorkRun(s, steps).desk.life == s.desk.life
    decreases steps
  {
    hide WorkStep, Inv, Left, Stage;
    WorkCountsDown(s);
    if steps > 0 {
      AloneStays(s);
      WorkCountsDown(WorkStep(s));
      WorkFrame(s);
      if Left(s) > 0 {
        WorkProgresses(s);
        DrainFinishes(WorkStep(s), steps - 1);
      } else {
        IdleStays(s, steps);
      }
    }
  }

  /** With nothing left the worker only takes and releases the mutex. */
  lemma {:induction false} IdleStays(s: State, steps: nat)
    requires WorkerAlone(s) && Left(s) == 0
    ensures WorkerAlone(WorkRun(s, steps)) && Left(WorkRun(s, steps)) == 0
    ensures WorkRun(s, steps).controllers == s.controllers && WorkRun(s, steps).desk.life == s.desk.life
    decreases steps
  {
    hide WorkStep, Inv, Left;
    if steps > 0 {
      AloneStays(s);
      WorkCountsDown(s);
      WorkCountsDown(WorkStep(s));
      WorkFrame(s);
      IdleStays(WorkStep(s), steps - 1);
    }
  }

  /** With nothing left, the requester of a stop wakes, the worker ends, and the requester returns. */
  lemma StopWakes(s: State, c: nat)
    requires WorkerAlone(s) && Left(s) == 0 && s.reader.worker == Idle && s.desk.life == Draining
    requires c in s.controllers && s.controllers[c].Waiting? && s.controllers[c].request == Stop
    ensures var woken := ControlStep(s, c, Stop);
            var ended := WorkStep(WorkStep(woken));
      c in woken.controllers && c in ended.controllers && c in ControlStep(ended, c, Stop).controllers
      && ended.reader.worker == Exited && ControlStep(ended, c, Stop).controllers[c] == Returned
      && ended.desk.life == Stopping && ControlStep(ended, c, Stop).desk.life == Stopped
      && ControlStep(ended, c, Stop).desk.queue == []
  {
    assert s.desk.mutex == Nobody;
    assert s.reader.processed >= s.controllers[c].number by { assert Asked(s.controllers[c]); }
    var woken := ControlStep(s, c, Stop);
    assert woken == s.(desk := s.desk.(life := Stopping), controllers := s.controllers[c := Joining]);
    assert At(s.ring.slots, s.ring.dequeue).sequence == s.ring.dequeue by { assert s.ring.dequeue == s.ring.enqueue; }
    assert s.desk.queue == [];
    hide Inv, At;
    var chosen := WorkStep(woken);
    assert chosen.reader.worker == Choosing && chosen.desk == woken.desk.(mutex := ByWorker);
    var ended := WorkStep(chosen);
    assert ended.reader.worker == Exited && ended.desk.mutex == Nobody;
  }

  function Works(steps: nat): seq<Action> { seq(steps, _ => Work) }

  lemma {:induction false} WorksAreRun(s: State, steps: nat)
    ensures Exec(s, Works(steps)) == WorkRun(s, steps)
    decreases steps
  {
    if steps > 0 {
      assert Works(steps)[1..] == Works(steps - 1);
      WorksAreRun(WorkStep(s), steps - 1);
    }
  }

  lemma {:induction false} ExecConcat(s: State, a: seq<Action>, b: seq<Action>)
    ensures Exec(s, a + b) == Exec(Exec(s, a), b)
    decreases |a|
  {
    if a == [] {
      assert a + b == b;
    } else {
      assert (a + b)[1..] == a[1..] + b;
      ExecConcat(Next(s, a[0]), a[1..], b);
    }
  }

  predicate OnlyWorkerAnd(c: nat, acts: seq<Action>) {
    forall i :: 0 <= i < |acts| ==> acts[i] == Work || (acts[i].Control? && acts[i].c == c)
  }

  /** Reaching an idle worker with nothing left. */
  lemma DrainsToIdle(s: State) returns (steps: nat)
    requires WorkerAlone(s) && s.desk.life == Draining
    ensures var n := Exec(s, Works(steps));
      && WorkerAlone(n) && Left(n) == 0 && n.reader.worker == Idle
      && n.controllers == s.controllers && n.desk.life == Draining
  {
    hide WorkStep, WorkRun, Works, Inv, Left, Exec;
    WorkCountsDown(s);
    steps := Rank(s);
    DrainFinishes(s, steps);
    WorksAreRun(s, steps);
    var m := WorkRun(s, steps);
    NothingLeft(m);
    if m.reader.worker == Choosing {
      AloneStays(m);
      WorkCountsDown(m);
      ChoosesIdle(m);
      ExecOne(m, Work);
      ExecConcat(s, Works(steps), [Work]);
      OneMoreWork(steps);
      steps := steps + 1;
    }
  }

  lemma OneMoreWork(steps: nat)
    ensures Works(steps) + [Work] == Works(steps + 1)
  {
  }

  lemma NothingLeft(s: State)
    requires WorkerAlone(s) && Left(s) == 0 && s.desk.life == Draining
    ensures s.reader.worker == Idle || s.reader.worker == Choosing
  {
    hide ControlOk, LossOk, UsedOk, ProducersOk, FreeOk;
  }

  lemma ChoosesIdle(s: State)
    requires WorkerAlone(s) && Left(s) == 0 && s.reader.worker == Choosing && s.desk.life == Draining
    ensures WorkStep(s).reader.worker == Idle
    ensures WorkStep(s).controllers == s.controllers && WorkStep(s).desk.life == Draining
  {
    assert s.desk.queue == [] && s.ring.dequeue == s.ring.enqueue;
    assert At(s.ring.slots, s.ring.dequeue).sequence == s.ring.dequeue;
    hide Inv, At;
  }

  lemma FourSteps(s: State, a: Action, b: Action, c: Action, d: Action)
    ensures Exec(s, [a, b, c, d]) == Next(Next(Next(Next(s, a), b), c), d)
  {
    hide Next;
    assert [a, b, c, d][1..] == [b, c, d] && [b, c, d][1..] == [c, d] && [c, d][1..] == [d] && [d][1..] == [];
    var s1 := Next(s, a);
    var s2 := Next(s1, b);
    var s3 := Next(s2, c);
    assert Exec(s, [a, b, c, d]) == Exec(s1, [b, c, d]) == Exec(s2, [c, d]) == Exec(s3, [d]);
    assert Exec(s3, [d]) == Exec(Next(s3, d), []);
  }

  lemma WokenReturns(s: State, c: nat)
    requires WorkerAlone(s) && Left(s) == 0 && s.reader.worker == Idle && s.desk.life == Draining
    requires c in s.controllers && s.controllers[c].Waiting? && s.controllers[c].request == Stop
    ensures var n := Exec(s, [Control(c, Stop), Work, Work, Control(c, Stop)]);
      c in n.controllers && n.controllers[c] == Returned
  {
    StopWakes(s, c);
    FourSteps(s, Control(c, Stop), Work, Work, Control(c, Stop));
    hide Exec, WorkStep, ControlStep;
  }

  lemma StopReturnsFrom(s: State, c: nat) returns (more: seq<Action>)
    requires WorkerAlone(s) && s.desk.life == Draining
    requires c in s.controllers && s.controllers[c].Waiting? && s.controllers[c].request == Stop
    ensures OnlyWorkerAnd(c, more) && c in Exec(s, more).controllers && Exec(s, more).controllers[c] == Returned
  {
    var steps := DrainsToIdle(s);
    var last := [Control(c, Stop), Work, Work, Control(c, Stop)];
    hide Exec, Inv, Left;
    WokenReturns(Exec(s, Works(steps)), c);
    ExecConcat(s, Works(steps), last);
    more := Works(steps) + last;
  }

  // ----- those who have begun something finish it

  function StepsLeft(p: Producer): nat {
    match p
    case Entered(_, _) => 3
    case Dropping => 2
    case Leaving => 1
    case _ => 0
  }

  /** Nothing but the producers and their losses differs. */
  predicate OnlyProducersMoved(s: State, n: State) {
    && n.ring == s.ring && n.reader == s.reader && n.desk == s.desk
    && n.controllers == s.controllers && n.accepting == s.accepting
  }

  /** During a pause a thread inside leaves in at most three steps. */
  lemma {:induction false} OneLeaves(s: State, t: nat) returns (acts: seq<Action>)
    requires Inv(s) && Frozen(s) && t in s.producers && s.producers[t] != Out
    ensures var n := Exec(s, acts);
      Inv(n) && OnlyProducersMoved(s, n) && n.producers == s.producers[t := Out]
    ensures forall i :: 0 <= i < |acts| ==> acts[i] == Produce(t, 0, true)
    decreases StepsLeft(s.producers[t])
  {
    hide ProduceStep, Inv, Frozen, Exec, Calm;
    var a := Produce(t, 0, true);
    var n := Next(s, a);
    NextKeeps(s, a);
    FrozenStays(s, t, 0, true);
    ProduceFrame(s, t, 0, true);
    LeavingStep(s, t);
    if n.producers[t] == Out {
      acts := [a];
      ExecOne(s, a);
    } else {
      var rest := OneLeaves(n, t);
      acts := [a] + rest;
      Prepend(s, a, rest);
      assert n.producers[t := Out] == s.producers[t := Out];
    }
  }

  lemma ExecOne(s: State, a: Action)
    ensures Exec(s, [a]) == Next(s, a)
  {
    hide Next;
    assert [a][1..] == [];
  }

  lemma ExecNothing(s: State)
    ensures Exec(s, []) == s
  {
  }

  lemma LeavingStep(s: State, t: nat)
    requires t in s.producers && Frozen(s) && s.producers[t] != Out
    ensures var n := ProduceStep(s, t, 0, true);
      t in n.producers && StepsLeft(n.producers[t]) < StepsLeft(s.producers[t])
  {
    assert Calm(s.producers[t]);
  }

  lemma Prepend(s: State, a: Action, acts: seq<Action>)
    ensures Exec(s, [a] + acts) == Exec(Next(s, a), acts)
  {
    hide Next;
    assert ([a] + acts)[1..] == acts;
  }

  lemma {:induction false} AllLeave(s: State) returns (acts: seq<Action>)
    requires Inv(s) && Frozen(s)
    ensures var n := Exec(s, acts); Inv(n) && OnlyProducersMoved(s, n) && n.active == 0
    ensures forall i :: 0 <= i < |acts| ==> acts[i].Produce? && acts[i].t in Inside(s.producers)
    decreases |Inside(s.producers)|
  {
    hide Exec, Inv, Frozen;
    if Inside(s.producers) != {} {
      var t :| t in Inside(s.producers);
      var first := OneLeaves(s, t);
      var n := Exec(s, first);
      StillFrozen(s, n, t);
      CountChanges(s.producers, t, Out);
      assert forall u :: u in Inside(n.producers) ==> u in Inside(s.producers);
      hide Inside;
      var rest := AllLeave(n);
      acts := first + rest;
      ExecConcat(s, first, rest);
    } else {
      acts := [];
      ExecNothing(s);
      NobodyInside(s);
    }
  }

  lemma NobodyInside(s: State)
    requires Inv(s) && Inside(s.producers) == {}
    ensures s.active == 0
  {
    hide RingOk, QueueOk, LossOk;
  }

  lemma StillFrozen(s: State, n: State, t: nat)
    requires Frozen(s) && OnlyProducersMoved(s, n) && t in s.producers && n.producers == s.producers[t := Out]
    ensures Frozen(n)
  {
    forall u: nat | u in n.producers ensures Calm(n.producers[u]) { assert u == t || Calm(s.producers[u]); }
  }

  function Section(k: Controller): nat {
    match k
    case Locked(_) => 6
    case Pausing(_, _) => 5
    case Paused(_, _) => 4
    case Captured(_, _, _) => 3
    case Pushed(_, _, _) => 2
    case Unlocking(_, _) => 1
    case _ => 0
  }

  lemma SectionStep(s: State, d: nat)
    requires d in s.controllers && Holds(s.controllers[d]) && s.active == 0 && s.desk.life == Draining
    requires s.desk.mutex == ByController(d)
    ensures var n := ControlStep(s, d, Stop);
      && d in n.controllers && Section(n.controllers[d]) < Section(s.controllers[d])
      && n.active == 0 && n.desk.life == Draining && (s.desk.drained ==> n.desk.drained)
      && (n.desk.mutex == Nobody || (n.desk.mutex == ByController(d) && Holds(n.controllers[d])))
  {
    hide EntriesFor;
  }

  /** With no producer inside, the control thread that holds the mutex finishes its section and releases it. */
  lemma {:induction false} HolderReleases(s: State, d: nat) returns (acts: seq<Action>)
    requires Inv(s) && d in s.controllers && Holds(s.controllers[d]) && s.desk.mutex == ByController(d)
    requires s.active == 0 && s.desk.life == Draining && s.desk.drained
    ensures var n := Exec(s, acts);
      && Inv(n) && n.desk.drained && n.desk.life == Draining && n.desk.mutex == Nobody
      && forall c: nat :: c != d && c in s.controllers ==> c in n.controllers && n.controllers[c] == s.controllers[c]
    ensures forall i :: 0 <= i < |acts| ==> acts[i] == Control(d, Stop)
    decreases Section(s.controllers[d])
  {
    hide ControlStep, Inv, Exec;
    var a := Control(d, Stop);
    var n := Next(s, a);
    NextKeeps(s, a);
    SectionStep(s, d);
    OnlyMoves(s, d, Stop);
    if n.desk.mutex == Nobody {
      acts := [a];
      ExecOne(s, a);
    } else {
      var rest := HolderReleases(n, d);
      acts := [a] + rest;
      Prepend(s, a, rest);
    }
  }

  /** Only what is under way is carried on: the worker, the requester `c`, the holder of the mutex, and the
      threads inside a write. Nothing new is begun. */
  ghost predicate CarriesOn(s: State, c: nat, acts: seq<Action>) {
    forall i :: 0 <= i < |acts| ==>
      match acts[i]
      case Work => true
      case Control(d, _) => d == c || s.desk.mutex == ByController(d)
      case Produce(t, _, _) => t in Inside(s.producers)
  }

  /** The mutex becomes free, and the requester still waits. */
  lemma MutexComesFree(s: State, c: nat) returns (acts: seq<Action>)
    requires Inv(s) && s.desk.drained && s.desk.life == Draining
    requires c in s.controllers && s.controllers[c].Waiting? && s.controllers[c].request == Stop
    ensures var n := Exec(s, acts);
      && WorkerAlone(n) && n.desk.life == Draining
      && c in n.controllers && n.controllers[c].Waiting? && n.controllers[c].request == Stop
    ensures CarriesOn(s, c, acts)
  {
    hide Exec, Inv, Frozen;
    if s.desk.mutex.ByController? {
      DrainedIsFrozen(s);
      var first := AllLeave(s);
      var d := s.desk.mutex.c;
      var m := Exec(s, first);
      HolderInside(m);
      var second := HolderReleases(m, d);
      ExecConcat(s, first, second);
      acts := first + second;
    } else {
      acts := [];
      ExecNothing(s);
    }
  }

  lemma HolderInside(s: State)
    requires Inv(s)
    ensures HolderOk(s)
  {
  }

  lemma DrainedIsFrozen(s: State)
    requires Inv(s) && s.desk.drained
    ensures Frozen(s)
  {
    hide RingOk, QueueOk, LossOk;
  }

  lemma WaitingIsDrained(s: State, c: nat)
    requires Inv(s) && c in s.controllers && s.controllers[c].Waiting? && s.controllers[c].request == Stop
    ensures s.desk.drained
  {
    hide RingOk, QueueOk, LossOk;
    assert ControllerOk(s, c);
  }

  lemma WaiterReturns(s: State, c: nat) returns (more: seq<Action>)
    requires Inv(s) && s.desk.life == Draining
    requires c in s.controllers && s.controllers[c].Waiting? && s.controllers[c].request == Stop
    ensures CarriesOn(s, c, more) && c in Exec(s, more).controllers && Exec(s, more).controllers[c] == Returned
  {
    hide Exec, Inv, Left;
    WaitingIsDrained(s, c);
    var first := MutexComesFree(s, c);
    var rest := StopReturnsFrom(Exec(s, first), c);
    ExecConcat(s, first, rest);
    more := first + rest;
  }

  // ----- there is one stop, and the worker's life follows it

  /** A stop between its admission and its wake. */
  predicate StopUnderWay(k: Controller) {
    (k.Pausing? || k.Paused? || k.Captured? || k.Pushed? || k.Unlocking? || k.Waiting?) && k.request == Stop
  }

  predicate StopOver(k: Controller) { k.Joining? || k.Returned? }

  ghost predicate StopsOk(s: State) {
    && (forall c: nat | c in s.controllers && StopUnderWay(s.controllers[c]) :: s.desk.life == Draining)
    && (forall c: nat | c in s.controllers && StopOver(s.controllers[c]) ::
          s.desk.life == Stopping || s.desk.life == Stopped)
    && (forall c: nat, d: nat | c in s.controllers && d in s.controllers
          && StopUnderWay(s.controllers[c]) && StopUnderWay(s.controllers[d]) :: c == d)
  }

  /** How a control step moves the thread and the worker's life. */
  lemma StopStep(s: State, c: nat, request: Request)
    requires c in s.controllers
    requires StopUnderWay(s.controllers[c]) ==> s.desk.life == Draining
    requires StopOver(s.controllers[c]) ==> s.desk.life == Stopping || s.desk.life == Stopped
    ensures c in ControlStep(s, c, request).controllers
    ensures var n := ControlStep(s, c, request);
            var k, m, was, life := s.controllers[c], n.controllers[c], s.desk.life, n.desk.life;
      || (life == was && (StopUnderWay(m) ==> StopUnderWay(k)) && (StopOver(m) ==> StopOver(k)))
      || (was == Running && life == Draining && StopUnderWay(m))
      || (was == Draining && life == Stopping && StopUnderWay(k) && !StopUnderWay(m))
      || (StopOver(k) && life == Stopped && !StopUnderWay(m))
  {
    hide EntriesFor, PushEntries, AdmitStep;
    var k := s.controllers[c];
    if k.Captured? { PushLife(s, k.request, k.boundary); }
    if k.Locked? { AdmitLife(s, c, k.request); }
  }

  lemma AdmitLife(s: State, c: nat, r: Request)
    requires c in s.controllers
    ensures c in AdmitStep(s, c, r).controllers
    ensures var n := AdmitStep(s, c, r); var m := n.controllers[c];
      !StopOver(m) && if StopUnderWay(m) then s.desk.life == Running && n.desk.life == Draining
                      else n.desk.life == s.desk.life
  {
  }

  lemma PushLife(s: State, r: Request, boundary: nat)
    ensures PushEntries(s, r, boundary).life == s.desk.life
  {
    hide EntriesFor;
  }

  lemma ControlKeepsStops(s: State, c: nat, request: Request)
    requires StopsOk(s) && c in s.controllers
    ensures StopsOk(ControlStep(s, c, request))
  {
    assert StopUnderWay(s.controllers[c]) ==> s.desk.life == Draining;
    StopStep(s, c, request);
    OnlyMoves(s, c, request);
    hide ControlStep;
  }

  lemma {:induction false} ExecKeepsStops(s: State, acts: seq<Action>)
    requires StopsOk(s)
    ensures StopsOk(Exec(s, acts))
    decreases |acts|
  {
    if acts != [] {
      NextKeepsStops(s, acts[0]);
      ExecKeepsStops(Next(s, acts[0]), acts[1..]);
    }
  }

  lemma NextKeepsStops(s: State, a: Action)
    requires StopsOk(s)
    ensures StopsOk(Next(s, a))
  {
    hide ProduceStep, WorkStep, ControlStep;
    match a
    case Produce(t, payload, fits) => if t in s.producers { ProduceFrame(s, t, payload, fits); }
    case Work => WorkFrame(s);
    case Control(c, request) => if c in s.controllers { ControlKeepsStops(s, c, request); }
  }

  /** Whatever happened before, a stop that waits for the drain can still return, by nothing more than finishing
      what is under way. */
  lemma StopCanReturn(s: State, acts: seq<Action>, c: nat)
    requires Init(s) && c in Exec(s, acts).controllers
    requires Exec(s, acts).controllers[c].Waiting? && Exec(s, acts).controllers[c].request == Stop
    ensures exists more: seq<Action> ::
      && CarriesOn(Exec(s, acts), c, more)
      && c in Exec(s, acts + more).controllers && Exec(s, acts + more).controllers[c] == Returned
  {
    InitInv(s);
    assert StopsOk(s);
    ExecKeeps(s, acts);
    ExecKeepsStops(s, acts);
    hide Exec, Inv;
    assert StopUnderWay(Exec(s, acts).controllers[c]);
    var more := WaiterReturns(Exec(s, acts), c);
    ExecConcat(s, acts, more);
  }
}
