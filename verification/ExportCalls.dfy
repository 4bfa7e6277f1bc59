/**
 What the calls around state export achieve: updates run again after a resume, a queued update reaches the
 worker, a suspension with nothing under way succeeds and any other gives up, and the request lock has one
 holder at a time.
 */
module ExportCalls {
  import opened ExportBarrier

  function Times(a: Action, n: nat): (r: seq<Action>)
    ensures |r| == n && forall k :: 0 <= k < n ==> r[k] == a
  {
    seq(n, _ => a)
  }

  /** The same action over and over, by a thread that runs alone. */
  function Alone(p: seq<Word>, s: State, a: Action, n: nat): State
    decreases n
  {
    if n == 0 then s else Alone(p, Next(p, s, a), a, n - 1)
  }

  lemma {:induction false} AloneIsExec(p: seq<Word>, s: State, a: Action, n: nat)
    ensures Exec(p, s, Times(a, n)) == Alone(p, s, a, n)
    decreases n
  {
    hide Next;
    if n > 0 {
      assert Times(a, n)[1..] == Times(a, n - 1);
      AloneIsExec(p, Next(p, s, a), a, n - 1);
    }
  }

  lemma {:induction false} AloneConcat(p: seq<Word>, s: State, a: Action, m: nat, n: nat)
    ensures Alone(p, s, a, m + n) == Alone(p, Alone(p, s, a, m), a, n)
    decreases m
  {
    hide Next;
    if m > 0 { AloneConcat(p, Next(p, s, a), a, m - 1, n); }
  }

  // ----- queueing an update

  lemma TwoSteps(p: seq<Word>, s: State, a: Action)
    ensures Alone(p, s, a, 2) == Next(p, Next(p, s, a), a)
  {
    hide Next;
    assert Alone(p, s, a, 2) == Alone(p, Next(p, s, a), a, 1);
    assert Alone(p, Next(p, s, a), a, 1) == Alone(p, Next(p, Next(p, s, a), a), a, 0);
  }

  /** The first three steps of a queueing thread: counted and checked twice, or turned away. */
  lemma QueueEnters(p: seq<Word>, s: State, t: nat, inline: bool)
    requires t in s.producers && s.producers[t] == Outside && s.mode == Full
    ensures Alone(p, s, Produce(t, inline), 3) == Goto(s.(inFlight := s.inFlight + 1), t, Passed)
  {
    var a := Produce(t, inline);
    var s1 := Next(p, s, a);
    var s2 := Next(p, s1, a);
    assert s1 == Goto(s, t, Checked);
    assert s2.producers == s.producers[t := Counted];
    var s3 := Next(p, s2, a);
    assert s3.producers == s.producers[t := Passed];
    hide Next;
    TwoSteps(p, s, a);
    AloneConcat(p, s, a, 2, 1);
    assert Alone(p, s2, a, 1) == Alone(p, s3, a, 0);
  }

  /** With no worker to hand over to the thread updates on its own, and leaves everything as it was. */
  lemma QueueUpdatesInline(p: seq<Word>, s: State, t: nat)
    requires t in s.producers && s.producers[t] == Outside && s.mode == Full
    ensures var n := Alone(p, s, Produce(t, true), 4);
      t in n.producers && n.producers[t] == Updating && UpdateRunning(n)
    ensures Alone(p, s, Produce(t, true), 6) == s
  {
    var a := Produce(t, true);
    QueueEnters(p, s, t, true);
    var s3 := Alone(p, s, a, 3);
    var s4 := Next(p, s3, a);
    assert s4.producers == s.producers[t := Updating];
    AloneConcat(p, s, a, 3, 1);
    assert Alone(p, s3, a, 1) == Alone(p, s4, a, 0);
    assert s4.producers[t] == Updating;
    var s6 := Next(p, Next(p, s4, a), a);
    assert s6.producers == s.producers;
    AloneConcat(p, s, a, 4, 2);
    TwoSteps(p, s4, a);
  }

  /** With a worker and the lock free the request is published, and the thread is out again. */
  lemma QueuePublishes(p: seq<Word>, s: State, t: nat)
    requires t in s.producers && s.producers[t] == Outside && s.mode == Full && s.lock == Nobody
    ensures Alone(p, s, Produce(t, false), 7) == s.(pending := true)
  {
    var a := Produce(t, false);
    QueueEnters(p, s, t, false);
    var s3 := Alone(p, s, a, 3);
    var s5 := Next(p, Next(p, s3, a), a);
    assert s5 == Goto(s.(inFlight := s.inFlight + 1, pending := true, lock := ByProducer(t)), t, Published);
    var s7 := Next(p, Next(p, s5, a), a);
    assert s7.producers == s.producers;
    assert s7 == s.(pending := true);
    AloneConcat(p, s, a, 3, 2);
    AloneConcat(p, s, a, 5, 2);
    TwoSteps(p, s3, a);
    TwoSteps(p, s5, a);
  }

  /** With the lock taken the request is dropped. */
  lemma QueueDrops(p: seq<Word>, s: State, t: nat)
    requires t in s.producers && s.producers[t] == Outside && s.mode == Full && s.lock != Nobody
    ensures Alone(p, s, Produce(t, false), 5) == s
  {
    var a := Produce(t, false);
    QueueEnters(p, s, t, false);
    var s3 := Alone(p, s, a, 3);
    var s5 := Next(p, Next(p, s3, a), a);
    assert s5.producers == s.producers;
    AloneConcat(p, s, a, 3, 2);
    TwoSteps(p, s3, a);
  }

  /** While updates are suspended nothing is counted, published or run. */
  lemma {:induction false} QueueRefuses(p: seq<Word>, s: State, t: nat, inline: bool, n: nat)
    requires t in s.producers && s.producers[t] == Outside && s.mode == SuspendedHeartbeat
    ensures Alone(p, s, Produce(t, inline), n) == s
  {
    if n > 0 { QueueRefuses(p, s, t, inline, n - 1); }
  }

  // ----- the worker

  /** A waiting worker alone takes a published request and runs the update. */
  lemma WorkerUpdates(p: seq<Word>, s: State)
    requires s.worker == WorkerPc.Waiting && s.pending && s.lock == Nobody
    ensures var n := Alone(p, s, Work(false), 5);
      n == s.(inFlight := s.inFlight + 1, pending := false, worker := UpdatingNow) && UpdateRunning(n)
  {
    var a := Work(false);
    var s2 := Next(p, Next(p, s, a), a);
    assert s2 == s.(inFlight := s.inFlight + 1, worker := CountedIn);
    var s4 := Next(p, Next(p, s2, a), a);
    assert s4 == s2.(pending := false, lock := ByWorker, worker := Copying);
    TwoSteps(p, s, a);
    TwoSteps(p, s2, a);
    AloneConcat(p, s, a, 2, 2);
    AloneConcat(p, s, a, 4, 1);
    assert Alone(p, s4, a, 1) == Alone(p, Next(p, s4, a), a, 0);
  }

  /** After the update it counts itself out and looks for the next request; told to stop it goes back to waiting. */
  lemma WorkerFinishes(p: seq<Word>, s: State, stop: bool)
    requires s.worker == UpdatingNow
    ensures Alone(p, s, Work(stop), 2) ==
            s.(inFlight := s.inFlight - 1, worker := if stop then WorkerPc.Waiting else CountingIn)
  {
    TwoSteps(p, s, Work(stop));
  }

  /** Without a request, or told to stop before it has copied one, it counts itself out again. */
  lemma WorkerFindsNothing(p: seq<Word>, s: State, stop: bool)
    requires s.worker == WorkerPc.Waiting && !s.pending
    ensures Alone(p, s, Work(stop), 4) == s
  {
    var a := Work(stop);
    var s2 := Next(p, Next(p, s, a), a);
    assert s2 == s.(inFlight := s.inFlight + 1, worker := CountedIn);
    TwoSteps(p, s, a);
    TwoSteps(p, s2, a);
    AloneConcat(p, s, a, 2, 2);
  }

  lemma WorkerStops(p: seq<Word>, s: State)
    requires s.worker == Taken
    ensures Alone(p, s, Work(true), 2) == s.(inFlight := s.inFlight - 1, worker := WorkerPc.Waiting)
  {
    TwoSteps(p, s, Work(true));
  }

  /** A heartbeat is published under the lock, only while suspended, and changes nothing. */
  lemma Heartbeats(p: seq<Word>, s: State)
    requires s.worker == WorkerPc.Waiting
    ensures var due := Next(p, s, Beat);
      && due == (if s.mode == SuspendedHeartbeat then s.(worker := HeartbeatDue) else s)
      && (s.mode == SuspendedHeartbeat && s.lock == Nobody ==>
            && Next(p, due, Work(false)).lock == ByWorker
            && Alone(p, due, Work(false), 2) == s)
      && (s.mode == SuspendedHeartbeat && s.lock != Nobody ==> Next(p, due, Work(false)) == due)
  {
    TwoSteps(p, Next(p, s, Beat), Work(false));
  }

  // ----- after a resume

  /** Wherever a run has led to, once updates are resumed a thread that queues one with no worker runs it. */
  lemma ResumedUpdateRuns(p: seq<Word>, s: State, acts: seq<Action>, t: nat)
    requires Exec(p, s, acts).control == Idle
    requires t in Exec(p, s, acts).producers && Exec(p, s, acts).producers[t] == Outside
    ensures var n := Exec(p, s, acts + ([Resume] + Times(Produce(t, true), 4)));
      t in n.producers && n.producers[t] == Updating && UpdateRunning(n)
  {
    var n := Exec(p, s, acts);
    var r := Next(p, n, Resume);
    ResumeOpens(p, n);
    QueueUpdatesInline(p, r, t);
    hide Exec, Next, UpdateRunning;
    RunOn(p, s, acts, Resume, Times(Produce(t, true), 4));
    AloneIsExec(p, r, Produce(t, true), 4);
  }

  /** With a worker the request is handed over, and the worker runs it. */
  lemma ResumedRequestRuns(p: seq<Word>, s: State, acts: seq<Action>, t: nat)
    requires Exec(p, s, acts).control == Idle && Exec(p, s, acts).lock == Nobody
    requires t in Exec(p, s, acts).producers && Exec(p, s, acts).producers[t] == Outside
    requires Exec(p, s, acts).worker == WorkerPc.Waiting
    ensures Exec(p, s, acts + ([Resume] + Times(Produce(t, false), 7))).pending
    ensures var n := Exec(p, s, acts + ([Resume] + Times(Produce(t, false), 7)) + Times(Work(false), 5));
      n.worker == UpdatingNow && !n.pending && UpdateRunning(n)
  {
    var n := Exec(p, s, acts);
    var r := Next(p, n, Resume);
    ResumeOpens(p, n);
    QueuePublishes(p, r, t);
    var q := Alone(p, r, Produce(t, false), 7);
    WorkerUpdates(p, q);
    hide Exec, Next, UpdateRunning;
    RunOn(p, s, acts, Resume, Times(Produce(t, false), 7));
    AloneIsExec(p, r, Produce(t, false), 7);
    ExecConcat(p, s, acts + ([Resume] + Times(Produce(t, false), 7)), Times(Work(false), 5));
    AloneIsExec(p, q, Work(false), 5);
  }

  /** A resume lets updates in again and touches nothing else. */
  lemma ResumeOpens(p: seq<Word>, s: State)
    requires s.control == Idle
    ensures Next(p, s, Resume) == s.(mode := Full, quiet := false)
  {
  }

  lemma RunOn(p: seq<Word>, s: State, acts: seq<Action>, a: Action, more: seq<Action>)
    ensures Exec(p, s, acts + ([a] + more)) == Exec(p, Next(p, Exec(p, s, acts), a), more)
  {
    hide Next;
    ExecConcat(p, s, acts, [a] + more);
    assert ([a] + more)[1..] == more;
  }

  // ----- a suspension

  predicate AllZero(s: State, p: seq<Word>) { forall k :: 0 <= k < |p| ==> IsZero(s, p[k]) }

  lemma {:induction false} SamplesAlone(p: seq<Word>, s: State, giveUp: bool, n: nat)
    requires s.control == Sampling(0, true) && n <= |p|
    ensures Alone(p, s, Sample(giveUp), n) == s.(control := Sampling(n, AllZero(s, p[..n])))
    decreases n
  {
    if n == 0 {
      assert p[..0] == [];
    } else {
      SamplesAlone(p, s, giveUp, n - 1);
      AloneConcat(p, s, Sample(giveUp), n - 1, 1);
      var m := Alone(p, s, Sample(giveUp), n - 1);
      assert Alone(p, m, Sample(giveUp), 1) == Alone(p, Next(p, m, Sample(giveUp)), Sample(giveUp), 0);
      assert p[..n][..n - 1] == p[..n - 1] && p[..n][n - 1] == p[n - 1];
      assert AllZero(s, p[..n]) <==> AllZero(s, p[..n - 1]) && IsZero(s, p[n - 1]) by {
        assert forall k :: 0 <= k < n - 1 ==> p[..n][k] == p[..n - 1][k];
      }
    }
  }

  /** A round of samples with nothing else moving: success exactly when every word read was zero; otherwise another
      round, or a failure once the deadline has passed. Updates stay suspended in either case. */
  lemma RoundAlone(p: seq<Word>, s: State, giveUp: bool)
    requires s.control == Sampling(0, true)
    ensures var n := Alone(p, s, Sample(giveUp), |p| + 1);
      if AllZero(s, p) then n == s.(control := Idle, quiet := true)
      else n == s.(control := if giveUp then Idle else Sampling(0, true))
  {
    SamplesAlone(p, s, giveUp, |p|);
    assert p[..|p|] == p;
    var m := Alone(p, s, Sample(giveUp), |p|);
    AloneConcat(p, s, Sample(giveUp), |p|, 1);
    assert Alone(p, m, Sample(giveUp), 1) == Alone(p, Next(p, m, Sample(giveUp)), Sample(giveUp), 0);
  }

  /** A suspension that finds nothing in flight and nothing pending succeeds at its first round. */
  lemma QuietSuspensionSucceeds(p: seq<Word>, s: State, giveUp: bool)
    requires s.control == Idle && s.lock == Nobody && s.inFlight == 0 && !s.pending
    ensures Alone(p, Next(p, s, Suspend), Sample(giveUp), (if giveUp then 1 else 2) + (|p| + 1))
      == s.(mode := SuspendedHeartbeat, quiet := true)
  {
    var m := Next(p, s, Suspend);
    var a := Sample(giveUp);
    var c := s.(mode := SuspendedHeartbeat, control := Sampling(0, true));
    SuspensionCrosses(p, s, giveUp);
    AloneConcat(p, m, a, if giveUp then 1 else 2, |p| + 1);
    RoundAlone(p, c, giveUp);
  }

  /** With an update in flight it does not, as long as the order reads that word; it reports failure at the deadline. */
  lemma BusySuspensionFails(p: seq<Word>, s: State)
    requires s.control == Idle && s.inFlight != 0 && InFlight in p
    ensures Alone(p, Next(p, s, Suspend), Sample(true), 1 + (|p| + 1)) == s.(mode := SuspendedHeartbeat)
  {
    var m := Next(p, s, Suspend);
    var c := s.(mode := SuspendedHeartbeat, control := Sampling(0, true));
    SuspensionCrosses(p, s, true);
    AloneConcat(p, m, Sample(true), 1, |p| + 1);
    RoundAlone(p, c, true);
    var k :| 0 <= k < |p| && p[k] == InFlight;
    assert !IsZero(c, p[k]);
  }

  /** Setting the mode and crossing the lock; where there is no lock the crossing is left out. */
  lemma SuspensionCrosses(p: seq<Word>, s: State, giveUp: bool)
    requires s.control == Idle && (giveUp || s.lock == Nobody)
    ensures Alone(p, Next(p, s, Suspend), Sample(giveUp), if giveUp then 1 else 2)
      == s.(mode := SuspendedHeartbeat, control := Sampling(0, true))
  {
    var m := Next(p, s, Suspend);
    if giveUp {
      assert Alone(p, m, Sample(true), 1) == Alone(p, Next(p, m, Sample(true)), Sample(true), 0);
    } else {
      TwoSteps(p, m, Sample(false));
    }
  }

  // ----- the request lock

  /** The lock is held by exactly the one thread that is inside a section under it. */
  ghost predicate LockOk(s: State) {
    && (forall t: nat :: s.lock == ByProducer(t) <==>
          t in s.producers && (s.producers[t] == Locked || s.producers[t] == Published))
    && (s.lock == ByWorker <==> s.worker == Copying || s.worker == Heartbeat)
    && (s.lock == ByControl <==> s.control == Crossing)
  }

  lemma ProduceKeepsLock(s: State, t: nat, inline: bool)
    requires LockOk(s) && t in s.producers
    ensures LockOk(ProduceStep(s, t, inline))
  {
    var n := ProduceStep(s, t, inline);
    assert s.lock == ByProducer(t) <==> s.producers[t] == Locked || s.producers[t] == Published;
    assert n.lock == ByProducer(t) <==> n.producers[t] == Locked || n.producers[t] == Published;
    assert n.lock != s.lock ==> n.lock == ByProducer(t) || s.lock == ByProducer(t);
    assert n.producers == s.producers[t := n.producers[t]] && n.worker == s.worker && n.control == s.control;
    assert n.lock == ByProducer(t) || s.lock == ByProducer(t) || n.lock == s.lock;
    hide ProduceStep;
    forall u: nat ensures n.lock == ByProducer(u) <==>
      u in n.producers && (n.producers[u] == Locked || n.producers[u] == Published)
    {
      assert s.lock == ByProducer(u) <==>
        u in s.producers && (s.producers[u] == Locked || s.producers[u] == Published);
    }
  }

  lemma WorkKeepsLock(s: State, stop: bool)
    requires LockOk(s)
    ensures LockOk(WorkStep(s, stop))
  {
    assert WorkStep(s, stop).producers == s.producers;
  }

  lemma SampleKeepsLock(p: seq<Word>, s: State, giveUp: bool)
    requires LockOk(s)
    ensures LockOk(SampleStep(p, s, giveUp))
  {
    hide IsZero;
  }

  lemma NextKeepsLock(p: seq<Word>, s: State, a: Action)
    requires LockOk(s)
    ensures LockOk(Next(p, s, a))
  {
    hide ProduceStep, WorkStep, SampleStep;
    match a
    case Produce(t, inline) => if t in s.producers { ProduceKeepsLock(s, t, inline); }
    case Work(stop) => WorkKeepsLock(s, stop);
    case Sample(giveUp) => SampleKeepsLock(p, s, giveUp);
    case _ =>
  }

  lemma {:induction false} LockIsExclusive(p: seq<Word>, s: State, acts: seq<Action>)
    requires LockOk(s)
    ensures LockOk(Exec(p, s, acts))
    decreases |acts|
  {
    hide LockOk, Next;
    if acts != [] {
      NextKeepsLock(p, s, acts[0]);
      LockIsExclusive(p, Next(p, s, acts[0]), acts[1..]);
    }
  }

  /** In every interleaving no two threads are inside sections of the request lock. */
  lemma SectionsExclude(p: seq<Word>, s: State, acts: seq<Action>)
    requires Init(s)
    ensures LockOk(Exec(p, s, acts))
  {
    LockIsExclusive(p, s, acts);
  }
}
