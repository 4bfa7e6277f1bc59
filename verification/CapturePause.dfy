/**
 Pausing the ingress and the queue of flushes: while a control thread is between its pause and its resume
 no write is between its claim and its publication, and each queued entry is handled once, in order, with
 exactly the records of its boundary given to the assembler.
 */
module CapturePause {
  import Basics
  import opened CaptureRing
  import opened CaptureSlots

  // ----- who is inside

  ghost function Inside(producers: map<nat, Producer>): set<nat> { set t | t in producers && producers[t] != Out }

  ghost predicate CountOk(s: State) { s.active == |Inside(s.producers)| }

  lemma CountChanges(producers: map<nat, Producer>, t: nat, p: Producer)
    requires t in producers
    ensures |Inside(producers[t := p])| ==
            |Inside(producers)| + (if p != Out then 1 else 0) - (if producers[t] != Out then 1 else 0)
  {
    assert Inside(producers) - {t} == Inside(producers[t := p]) - {t};
    Basics.CountDiffers(Inside(producers), Inside(producers[t := p]), t);
  }

  lemma ProduceKeepsCount(s: State, t: nat, payload: nat, fits: bool)
    requires CountOk(s) && t in s.producers
    ensures CountOk(ProduceStep(s, t, payload, fits))
  {
    CountChanges(s.producers, t, ProduceStep(s, t, payload, fits).producers[t]);
  }

  // ----- the pause

  /** Not between passing the accepting check and publishing: will be dropped, has finished, or has not checked yet. */
  predicate Calm(p: Producer) { p.Out? || p.Entered? || p.Dropping? || p.Leaving? }

  ghost predicate Frozen(s: State) { !s.accepting && forall t: nat | t in s.producers :: Calm(s.producers[t]) }

  lemma EmptyIsFrozen(s: State)
    requires CountOk(s) && s.active == 0 && !s.accepting
    ensures Frozen(s)
  {
    assert Inside(s.producers) == {};
    forall t: nat | t in s.producers ensures Calm(s.producers[t]) { assert t !in Inside(s.producers); }
  }

  lemma FrozenStays(s: State, t: nat, payload: nat, fits: bool)
    requires Frozen(s) && t in s.producers
    ensures Frozen(ProduceStep(s, t, payload, fits)) && ProduceStep(s, t, payload, fits).ring == s.ring
  {
    assert Calm(s.producers[t]);
  }

  /** A frozen ring holds published records only. */
  lemma FrozenIsPublished(s: State, pos: nat)
    requires RingOk(s) && Frozen(s) && s.ring.dequeue <= pos < s.ring.enqueue
    ensures Published(At(s.ring.slots, pos), pos, s.ring.claims[pos])
  {
    assert Used(s, pos);
  }

  predicate Holds(k: Controller) {
    k.Locked? || k.Pausing? || k.Paused? || k.Captured? || k.Pushed? || k.Unlocking?
  }

  predicate Asking(k: Controller) { k.Pausing? || k.Paused? || k.Captured? || k.Pushed? }

  /** A stop request that has seen every producer leave. */
  predicate StopDrained(k: Controller) {
    (k.Paused? || k.Captured? || k.Pushed? || k.Unlocking? || k.Waiting?) && k.request == Stop
  }

  ghost predicate ControllerOk(s: State, c: nat)
    requires c in s.controllers
  {
    var k := s.controllers[c];
    && (Holds(k) ==> s.desk.mutex == ByController(c))
    && (Asking(k) ==>
          && !s.accepting && (s.desk.life == Running || s.desk.life == Draining)
          && (k.was ==> s.desk.life == Running) && (k.request == Stop ==> s.desk.life == Draining))
    && (k.Paused? || k.Captured? || k.Pushed? ==> Frozen(s))
    && (k.Captured? ==> k.boundary == s.ring.enqueue)
    && (StopDrained(k) || k.Joining? || k.Returned? ==> s.desk.drained)
  }

  ghost predicate ControllersOk(s: State) { forall c: nat | c in s.controllers :: ControllerOk(s, c) }

  ghost predicate LifeOk(s: State) {
    && (s.desk.life != Running ==> !s.accepting)
    && (s.desk.drained ==> s.desk.life != Running && Frozen(s))
    && (s.desk.life == Stopping || s.desk.life == Stopped ==> s.desk.drained)
    && (s.reader.worker == Choosing <==> s.desk.mutex == ByWorker)
  }

  ghost predicate ControlOk(s: State) { CountOk(s) && ControllersOk(s) && LifeOk(s) }

  lemma ProduceKeepsControl(s: State, t: nat, payload: nat, fits: bool)
    requires ControlOk(s) && t in s.producers
    ensures ControlOk(ProduceStep(s, t, payload, fits))
  {
    var n := ProduceStep(s, t, payload, fits);
    ProduceKeepsCount(s, t, payload, fits);
    ProduceFrame(s, t, payload, fits);
    if Frozen(s) { FrozenStays(s, t, payload, fits); }
    hide ProduceStep, Frozen, CountOk;
    forall c: nat | c in n.controllers ensures ControllerOk(n, c) { assert ControllerOk(s, c); }
  }

  lemma WorkTurns(s: State)
    requires s.reader.worker == Choosing <==> s.desk.mutex == ByWorker
    ensures WorkStep(s).reader.worker == Choosing <==> WorkStep(s).desk.mutex == ByWorker
    ensures s.desk.mutex.ByController? ==> WorkStep(s).desk.mutex == s.desk.mutex
    ensures WorkStep(s).desk.mutex.ByController? ==> s.desk.mutex.ByController?
  {
    ChooseTurns(s);
    hide At, Put, RecordIn, ChooseStep;
  }

  lemma ChooseTurns(s: State)
    ensures ChooseStep(s).reader.worker != Choosing && ChooseStep(s).desk.mutex == Nobody
  {
    hide At;
  }

  lemma WorkKeepsControl(s: State)
    requires ControlOk(s)
    ensures ControlOk(WorkStep(s))
  {
    var n := WorkStep(s);
    WorkFrame(s);
    WorkTurns(s);
    hide WorkStep;
    forall c: nat | c in n.controllers ensures ControllerOk(n, c) { assert ControllerOk(s, c); }
  }

  lemma SameProducers(s: State, n: State)
    requires ControlOk(s) && n.producers == s.producers && n.active == s.active && (!s.accepting ==> !n.accepting)
    ensures CountOk(n) && (Frozen(s) ==> Frozen(n))
  {
  }

  /** What the other control threads rely on when one of them moves. */
  lemma OthersKeep(s: State, n: State, c: nat)
    requires ControlOk(s) && OnlyOneMoves(s, n, c) && c in s.controllers
    requires s.desk.drained ==> n.desk.drained
    requires s.desk.mutex == ByController(c) ||
             (n.desk.mutex == s.desk.mutex && n.accepting == s.accepting && n.desk.life == s.desk.life
              && n.ring == s.ring && n.producers == s.producers)
    ensures forall d: nat | d in n.controllers && d != c :: ControllerOk(n, d)
  {
    forall d: nat | d in n.controllers && d != c ensures ControllerOk(n, d) { assert ControllerOk(s, d); }
  }

  lemma AdmitKeeps(s: State, c: nat, request: Request)
    requires ControlOk(s) && c in s.controllers && s.controllers[c].Locked?
    ensures var n := ControlStep(s, c, request); LifeOk(n) && c in n.controllers && ControllerOk(n, c)
    ensures s.desk.drained ==> ControlStep(s, c, request).desk.drained
  {
    assert ControllerOk(s, c);
  }

  lemma PausedKeeps(s: State, c: nat, request: Request)
    requires ControlOk(s) && c in s.controllers && s.controllers[c].Pausing?
    ensures var n := ControlStep(s, c, request); LifeOk(n) && c in n.controllers && ControllerOk(n, c)
    ensures s.desk.drained ==> ControlStep(s, c, request).desk.drained
  {
    assert ControllerOk(s, c);
    if s.active == 0 { EmptyIsFrozen(s); }
    hide ControllersOk, CountOk;
  }

  lemma SectionKeeps(s: State, c: nat, request: Request)
    requires ControlOk(s) && c in s.controllers
    requires var k := s.controllers[c]; k.Paused? || k.Captured? || k.Pushed? || k.Unlocking?
    ensures var n := ControlStep(s, c, request); LifeOk(n) && c in n.controllers && ControllerOk(n, c)
    ensures s.desk.drained ==> ControlStep(s, c, request).desk.drained
  {
    assert ControllerOk(s, c);
    hide EntriesFor, AdmitStep, ControllersOk, CountOk;
  }

  /** A step of a thread that holds the mutex can only disturb what the others do not rely on. */
  lemma HolderMoves(s: State, c: nat, request: Request)
    requires ControlOk(s) && c in s.controllers && Holds(s.controllers[c])
    ensures ControlOk(ControlStep(s, c, request))
  {
    var n := ControlStep(s, c, request);
    assert ControllerOk(s, c);
    ControlFrame(s, c, request);
    OnlyMoves(s, c, request);
    if s.controllers[c].Locked? { AdmitKeeps(s, c, request); }
    else if s.controllers[c].Pausing? { PausedKeeps(s, c, request); }
    else { SectionKeeps(s, c, request); }
    hide ControlStep, LifeOk;
    OthersKeep(s, n, c);
    assert CountOk(n);
    hide ControllerOk;
  }

  lemma VisitorKeepsLife(s: State, c: nat, request: Request)
    requires ControlOk(s) && c in s.controllers && !Holds(s.controllers[c])
    ensures LifeOk(ControlStep(s, c, request))
  {
    assert ControllerOk(s, c);
    ControlFrame(s, c, request);
    hide Frozen, CountOk, EntriesFor, Admits, AdmitStep, ControllersOk;
    SameProducers(s, ControlStep(s, c, request));
  }

  /** Outside its section a thread changes nothing the others rely on while one of them holds the mutex. */
  lemma VisitorLeaves(s: State, c: nat, request: Request)
    requires ControlOk(s) && c in s.controllers && !Holds(s.controllers[c])
    ensures var n := ControlStep(s, c, request);
      && n.desk.drained == s.desk.drained
      && (s.desk.mutex != Nobody ==>
            n.desk.mutex == s.desk.mutex && n.accepting == s.accepting && n.desk.life == s.desk.life)
  {
    hide Frozen, CountOk, EntriesFor, Admits, AdmitStep, ControllersOk, ControllerOk, LifeOk;
  }

  lemma VisitorOk(s: State, c: nat, request: Request)
    requires ControlOk(s) && c in s.controllers && !Holds(s.controllers[c])
    ensures var n := ControlStep(s, c, request); c in n.controllers && ControllerOk(n, c)
  {
    assert ControllerOk(s, c);
    hide Frozen, CountOk, EntriesFor, Admits, AdmitStep, ControllersOk;
  }

  lemma FreeMutex(s: State, n: State, c: nat)
    requires ControlOk(s) && OnlyOneMoves(s, n, c) && s.desk.mutex == Nobody && n.desk.drained == s.desk.drained
    ensures forall d: nat | d in n.controllers && d != c :: ControllerOk(n, d)
  {
    forall d: nat | d in n.controllers && d != c ensures ControllerOk(n, d) { assert ControllerOk(s, d); }
  }

  lemma VisitorMoves(s: State, c: nat, request: Request)
    requires ControlOk(s) && c in s.controllers && !Holds(s.controllers[c])
    ensures ControlOk(ControlStep(s, c, request))
  {
    var n := ControlStep(s, c, request);
    ControlFrame(s, c, request);
    OnlyMoves(s, c, request);
    VisitorLeaves(s, c, request);
    VisitorOk(s, c, request);
    VisitorKeepsLife(s, c, request);
    hide ControlStep, LifeOk;
    assert CountOk(n);
    if s.desk.mutex == Nobody { FreeMutex(s, n, c); } else { OthersKeep(s, n, c); }
    hide ControllerOk;
  }

  lemma ControlKeepsControl(s: State, c: nat, request: Request)
    requires ControlOk(s) && c in s.controllers
    ensures ControlOk(ControlStep(s, c, request))
  {
    if Holds(s.controllers[c]) { HolderMoves(s, c, request); } else { VisitorMoves(s, c, request); }
  }
}
