/**
 What a flush does to the pending text: after it nothing given before its boundary is pending any more, and a
 record stays pending from its give until the next flush, loss boundary or clearing by a control thread.
 */
module CaptureFlush {
  import opened CaptureRing
  import opened CaptureSlots
  import opened CapturePause
  import opened CaptureQueue
  import opened CaptureLoss
  import opened CaptureRuns

  // ----- one step

  /** A control thread flushes by itself: there is no worker it could ask. */
  predicate FlushesAlone(s: State, c: nat) {
    c in s.controllers &&
    match s.controllers[c]
    case Locked(r) => r == CloseFiles && (s.desk.life == Stopping || s.desk.life == Stopped)
    case Refused(wait) => !wait || (s.desk.mutex == Nobody && s.desk.life == Stopped)
    case _ => false
  }

  /** This step reports or discards what is pending: a flush of the worker, a loss boundary, a control thread. */
  predicate Clears(s: State, a: Action) {
    || Next(s, a).reader.flushes != s.reader.flushes
    || Next(s, a).reader.consumed != s.reader.consumed
    || (a.Control? && FlushesAlone(s, a.c))
  }

  /** What this step gives to the assembler. */
  function GivenBy(s: State, n: State): seq<Record> {
    if |s.reader.given| <= |n.reader.given| then n.reader.given[|s.reader.given|..] else []
  }

  lemma WorkPending(s: State)
    ensures var n := WorkStep(s);
      var clears := n.reader.flushes != s.reader.flushes || n.reader.consumed != s.reader.consumed;
      && s.reader.given <= n.reader.given
      && n.reader.fragments == (if clears then [] else s.reader.fragments) + GivenBy(s, n)
  {
    hide At, Put, RecordIn, ChooseStep;
    if s.reader.worker.Choosing? {
      ChooseReads(s);
    } else if s.reader.worker.Applied? {
      assert WorkStep(s).reader.flushes == s.reader.flushes;
    } else {
      assert WorkStep(s).reader.given == s.reader.given;
    }
  }

  lemma AdmitPending(s: State, c: nat, r: Request)
    requires c in s.controllers && s.controllers[c] == Locked(r)
    ensures AdmitStep(s, c, r).reader == s.reader.(fragments := if FlushesAlone(s, c) then [] else s.reader.fragments)
  {
  }

  lemma ControlPending(s: State, c: nat, request: Request)
    requires c in s.controllers
    ensures var n := ControlStep(s, c, request);
      n.reader == s.reader.(fragments := if FlushesAlone(s, c) then [] else s.reader.fragments)
  {
    hide AdmitStep, EntriesFor;
    if s.controllers[c].Locked? { AdmitPending(s, c, s.controllers[c].request); }
  }

  /** Exactly what is pending after a step: nothing from before if the step clears, and what it gives. */
  lemma PendingStep(s: State, a: Action)
    ensures var n := Next(s, a);
      && s.reader.given <= n.reader.given
      && n.reader.fragments == (if Clears(s, a) then [] else s.reader.fragments) + GivenBy(s, n)
  {
    match a
    case Produce(t, payload, fits) => if t in s.producers { ProduceFrame(s, t, payload, fits); }
    case Work => WorkPending(s);
    case Control(c, request) => if c in s.controllers { ControlPending(s, c, request); }
    hide ProduceStep, WorkStep, ControlStep, FlushesAlone;
  }

  // ----- runs

  /** The pending records are the last ones given, all of them after every flush. */
  ghost predicate PendingIsRecent(r: Reader) {
    && |r.fragments| <= |r.given| && r.fragments == r.given[|r.given| - |r.fragments|..]
    && forall k :: 0 <= k < |r.flushes| ==> r.flushes[k].recordsGiven <= |r.given| - |r.fragments|
  }

  /** A step that logs a flush gives nothing and leaves nothing pending. */
  lemma FlushGivesNothing(s: State, a: Action)
    ensures var r, n := s.reader, Next(s, a).reader;
      || n.flushes == r.flushes
      || (n.given == r.given && |n.flushes| == |r.flushes| + 1 && r.flushes <= n.flushes
          && n.flushes[|r.flushes|].recordsGiven == |r.given|)
  {
    match a
    case Produce(t, payload, fits) => if t in s.producers { ProduceFrame(s, t, payload, fits); }
    case Work => WorkFlushes(s);
    case Control(c, request) => if c in s.controllers { ControlFrame(s, c, request); }
    hide ProduceStep, WorkStep, ControlStep;
  }

  lemma WorkFlushes(s: State)
    ensures var r, n := s.reader, WorkStep(s).reader;
      || n.flushes == r.flushes
      || (n.given == r.given && |n.flushes| == |r.flushes| + 1 && r.flushes <= n.flushes
          && n.flushes[|r.flushes|].recordsGiven == |r.given|)
  {
    hide At, Put, RecordIn, ChooseStep;
    ChooseReads(s);
  }

  lemma RecentStays(s: State, a: Action)
    requires PendingIsRecent(s.reader)
    ensures PendingIsRecent(Next(s, a).reader)
  {
    PendingStep(s, a);
    FlushGivesNothing(s, a);
    hide Next, FlushesAlone;
    var r, n := s.reader, Next(s, a).reader;
    if n.flushes != r.flushes { assert Clears(s, a) && n.fragments == GivenBy(s, Next(s, a)) == []; }
  }

  lemma {:induction false} RunKeepsRecent(s: State, acts: seq<Action>)
    requires PendingIsRecent(s.reader)
    ensures PendingIsRecent(Exec(s, acts).reader) && s.reader.given <= Exec(s, acts).reader.given
    decreases |acts|
  {
    hide Next, PendingIsRecent;
    if acts != [] {
      RecentStays(s, acts[0]);
      PendingStep(s, acts[0]);
      RunKeepsRecent(Next(s, acts[0]), acts[1..]);
    }
  }

  /** The record is of a write that was claimed at or past the boundary of the flush. */
  predicate PastBoundary(n: State, r: Record, f: FlushDone) {
    && r.ticket < |n.loss.writes| && n.loss.writes[r.ticket].Accepted?
    && n.loss.writes[r.ticket].pos >= f.boundary
  }

  /** In every interleaving what is pending is the end of what was given, and every pending record was claimed at or
      past the boundary of every flush carried out: a flush leaves nothing from before its boundary pending. */
  lemma FlushesEmptyPending(s: State, acts: seq<Action>)
    requires Init(s)
    ensures var n := Exec(s, acts); var r := n.reader;
      && |r.fragments| <= |r.given| && r.fragments == r.given[|r.given| - |r.fragments|..]
      && forall i: nat, k: nat | i < |r.fragments| && k < |r.flushes| :: PastBoundary(n, r.fragments[i], r.flushes[k])
  {
    InitInv(s);
    ExecKeeps(s, acts);
    RunKeepsRecent(s, acts);
    FlushesAreExact(s, acts);
    hide Exec, RingOk, ControlOk, QueueOk, FlushLog, NumbersOk, HolderOk;
    PendingPast(Exec(s, acts));
  }

  lemma PendingPast(n: State)
    requires LossOk(n) && PendingIsRecent(n.reader)
    requires forall i :: 0 <= i < |n.reader.flushes| ==>
               n.reader.flushes[i].recordsGiven == n.reader.flushes[i].boundary
    ensures forall i: nat, k: nat | i < |n.reader.fragments| && k < |n.reader.flushes| ::
              PastBoundary(n, n.reader.fragments[i], n.reader.flushes[k])
  {
    var r := n.reader;
    hide StampsOk, SealedOk, PendingOk, KeptOk;
    forall i: nat, k: nat | i < |r.fragments| && k < |r.flushes| ensures PastBoundary(n, r.fragments[i], r.flushes[k]) {
      var pos := |r.given| - |r.fragments| + i;
      assert r.fragments[i] == r.given[pos] && RecordOk(n.loss.writes, r.given[pos], pos);
    }
  }

  /** No step of this run reports or discards what is pending. */
  ghost predicate Undisturbed(s: State, acts: seq<Action>)
    decreases |acts|
  {
    acts != [] ==> !Clears(s, acts[0]) && Undisturbed(Next(s, acts[0]), acts[1..])
  }

  /** A record is pending from its give on for as long as nothing clears: the pending text grows by what is given. */
  lemma {:induction false} PendingUntilCleared(s: State, acts: seq<Action>)
    requires Undisturbed(s, acts)
    ensures s.reader.given <= Exec(s, acts).reader.given
    ensures Exec(s, acts).reader.fragments ==
            s.reader.fragments + Exec(s, acts).reader.given[|s.reader.given|..]
    decreases |acts|
  {
    hide Next, Clears;
    if acts != [] {
      PendingStep(s, acts[0]);
      PendingUntilCleared(Next(s, acts[0]), acts[1..]);
      PendingJoins(s, Next(s, acts[0]), Exec(s, acts));
    }
  }

  lemma PendingJoins(s: State, m: State, n: State)
    requires s.reader.given <= m.reader.given <= n.reader.given
    requires m.reader.fragments == s.reader.fragments + GivenBy(s, m)
    requires n.reader.fragments == m.reader.fragments + n.reader.given[|m.reader.given|..]
    ensures n.reader.fragments == s.reader.fragments + n.reader.given[|s.reader.given|..]
  {
    var a, b := |s.reader.given|, |m.reader.given|;
    assert n.reader.given[a..] == m.reader.given[a..] + n.reader.given[b..];
  }

  // ----- a flush that is waited for

  /** A request that waits for a flush, from its number on. */
  predicate AwaitsFlush(k: Controller) { Asked(k) && k.request.Flush? }

  ghost predicate AwaitedOk(s: State) {
    forall c: nat | c in s.controllers && AwaitsFlush(s.controllers[c]) ::
      && 0 < s.controllers[c].number <= |s.desk.entries|
      && s.desk.entries[s.controllers[c].number - 1].kind == ParseFlush
  }

  lemma EntriesGrow(s: State, a: Action)
    requires Inv(s)
    ensures s.desk.entries <= Next(s, a).desk.entries
  {
    match a
    case Produce(t, payload, fits) => if t in s.producers { ProduceFrame(s, t, payload, fits); }
    case Work => WorkFrame(s);
    case Control(c, request) => if c in s.controllers { ControlGrows(s, c, request); }
    hide ProduceStep, WorkStep, ControlStep, Inv;
  }

  lemma ControlGrows(s: State, c: nat, request: Request)
    requires ControlOk(s) && c in s.controllers
    ensures s.desk.entries <= ControlStep(s, c, request).desk.entries
  {
    if s.controllers[c].Captured? { PushFacts(s, c, request); } else { OtherControlFrame(s, c, request); }
    hide ControlStep, EntriesFor, ControlOk;
  }

  /** How a control step comes by a number. */
  lemma NumberIsPushed(s: State, c: nat, request: Request)
    requires Inv(s) && c in s.controllers
    ensures c in ControlStep(s, c, request).controllers
    ensures var n := ControlStep(s, c, request); var k, m := s.controllers[c], n.controllers[c];
      AwaitsFlush(m) ==>
        || (AwaitsFlush(k) && k.number == m.number)
        || (0 < m.number <= |n.desk.entries| && n.desk.entries[m.number - 1].kind == ParseFlush)
  {
    var k := s.controllers[c];
    if k.Captured? {
      PushFacts(s, c, request);
      EntriesAreNumbered(k.request, s.desk.enqueued + 1, s.ring.enqueue, s.loss.generation);
      assert s.desk.enqueued == |s.desk.entries|;
      var n := ControlStep(s, c, request);
      assert n.controllers[c] == Pushed(k.request, k.was, n.desk.enqueued);
      hide Inv;
    } else {
      NumberIsKept(s, c, request);
    }
    hide ControlStep, EntriesFor, Inv;
  }

  lemma NumberIsKept(s: State, c: nat, request: Request)
    requires c in s.controllers && !s.controllers[c].Captured?
    ensures c in ControlStep(s, c, request).controllers
    ensures var k, m := s.controllers[c], ControlStep(s, c, request).controllers[c];
      AwaitsFlush(m) ==> AwaitsFlush(k) && k.number == m.number
  {
    hide EntriesFor, Admits, PushEntries, Unlock, ClearFragments;
  }

  lemma SameAwaited(s: State, n: State)
    requires AwaitedOk(s) && s.desk.entries <= n.desk.entries && n.controllers == s.controllers
    ensures AwaitedOk(n)
  {
  }

  lemma ControlKeepsAwaited(s: State, c: nat, request: Request)
    requires Inv(s) && AwaitedOk(s) && c in s.controllers
    ensures AwaitedOk(ControlStep(s, c, request))
  {
    var n := ControlStep(s, c, request);
    ControlGrows(s, c, request);
    OnlyMoves(s, c, request);
    NumberIsPushed(s, c, request);
    hide ControlStep, Inv;
    forall d: nat | d in n.controllers && AwaitsFlush(n.controllers[d])
      ensures 0 < n.controllers[d].number <= |n.desk.entries|
      ensures n.desk.entries[n.controllers[d].number - 1].kind == ParseFlush
    {
      if d != c { assert n.controllers[d] == s.controllers[d]; }
    }
  }

  lemma AwaitedStays(s: State, a: Action)
    requires Inv(s) && AwaitedOk(s)
    ensures AwaitedOk(Next(s, a))
  {
    EntriesGrow(s, a);
    hide ProduceStep, WorkStep, ControlStep, Inv, AwaitedOk;
    match a
    case Produce(t, payload, fits) =>
      if t in s.producers { ProduceFrame(s, t, payload, fits); }
      SameAwaited(s, Next(s, a));
    case Work =>
      WorkFrame(s);
      SameAwaited(s, Next(s, a));
    case Control(c, request) => if c in s.controllers { ControlKeepsAwaited(s, c, request); }
  }

  lemma {:induction false} RunKeepsAwaited(s: State, acts: seq<Action>)
    requires Inv(s) && AwaitedOk(s)
    ensures AwaitedOk(Exec(s, acts)) && Inv(Exec(s, acts))
    decreases |acts|
  {
    hide Next, AwaitedOk, Inv;
    if acts != [] {
      AwaitedStays(s, acts[0]);
      NextKeeps(s, acts[0]);
      RunKeepsAwaited(Next(s, acts[0]), acts[1..]);
    }
  }

  lemma {:induction false} FlushIsLogged(entries: seq<Entry>, j: nat)
    requires j < |entries| && entries[j].kind == ParseFlush
    ensures FlushDone(entries[j].number, entries[j].boundary, entries[j].boundary) in FlushLog(entries)
    decreases |entries|
  {
    if j < |entries| - 1 { FlushIsLogged(entries[..|entries| - 1], j); }
  }

  /** Entry number `k` is a flush that has been carried out, and nothing given before its boundary is pending. */
  predicate FlushRan(n: State, k: nat) {
    && 0 < k <= |n.desk.entries| && n.desk.entries[k - 1].kind == ParseFlush
    && var e := n.desk.entries[k - 1];
    && FlushDone(e.number, e.boundary, e.boundary) in n.reader.flushes
    && e.boundary <= |n.reader.given| - |n.reader.fragments|
  }

  /** This step lets thread `c` go on after waiting for its flush. */
  ghost predicate GoesOn(n: State, c: nat, request: Request) {
    && c in n.controllers && n.controllers[c].Waiting? && n.controllers[c].request == Flush(true)
    && Next(n, Control(c, request)).controllers != n.controllers
  }

  /** A caller that waits for its flush goes on only after that flush has been carried out. */
  lemma WaitedFlushHasRun(s: State, acts: seq<Action>, c: nat, request: Request)
    requires Init(s) && GoesOn(Exec(s, acts), c, request)
    ensures FlushRan(Exec(s, acts), Exec(s, acts).controllers[c].number)
  {
    InitInv(s);
    assert AwaitedOk(s);
    RunKeepsAwaited(s, acts);
    RunKeepsRecent(s, acts);
    hide Exec, Inv, AwaitedOk, PendingIsRecent, Next;
    WaitedNow(Exec(s, acts), c, request);
  }

  lemma WaitedNow(n: State, c: nat, request: Request)
    requires Inv(n) && AwaitedOk(n) && PendingIsRecent(n.reader) && GoesOn(n, c, request)
    ensures FlushRan(n, n.controllers[c].number)
  {
    var k := n.controllers[c].number;
    assert AwaitsFlush(n.controllers[c]);
    WaitEnds(n, c, request);
    DoneFlushes(n, k);
    hide Inv, FlushLog, Next, PendingIsRecent, AwaitedOk;
    var e := n.desk.entries[k - 1];
    RecentFlush(n.reader, e.number, e.boundary);
  }

  lemma DoneFlushes(n: State, k: nat)
    requires QueueOk(n) && 0 < k <= n.reader.processed && k <= |n.desk.entries|
    requires n.desk.entries[k - 1].kind == ParseFlush
    ensures var e := n.desk.entries[k - 1]; FlushDone(e.number, e.boundary, e.boundary) in n.reader.flushes
  {
    hide FlushLog, Numbered, Ordered, GivenOk, WorkerOk;
    FlushIsLogged(n.desk.entries[..Done(n.reader)], k - 1);
  }

  lemma WaitEnds(s: State, c: nat, request: Request)
    requires c in s.controllers && s.controllers[c].Waiting? && s.controllers[c].request == Flush(true)
    requires Next(s, Control(c, request)).controllers != s.controllers
    ensures s.reader.processed >= s.controllers[c].number
  {
    assert s.controllers == s.controllers[c := s.controllers[c]];
  }

  lemma RecentFlush(r: Reader, number: nat, boundary: nat)
    requires PendingIsRecent(r) && FlushDone(number, boundary, boundary) in r.flushes
    ensures boundary <= |r.given| - |r.fragments|
  {
  }
}
