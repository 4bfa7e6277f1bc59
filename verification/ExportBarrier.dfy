/**
 Suspending state export before the rollback simulation starts. Any number of threads queue
 updates, one worker runs them, and a control thread suspends and resumes them. UpdateNow is an
 activity between two steps. Every access to a shared word is one step.

 The suspender samples two words in a fixed order until all samples of one round are zero. The
 order is a parameter, so that the soundness of a sampling order can be stated and decided.
 `quiet` is history: it is set when a suspension reports success and cleared when updates resume.
 */
module ExportBarrier {
  import Basics

  datatype Mode = Full | SuspendedHeartbeat

  datatype Word = InFlight | Pending

  /** The order the suspender reads the two words in. */
  const SAMPLES: seq<Word> := [InFlight, Pending, InFlight, Pending]

  datatype Holder = Nobody | ByProducer(t: nat) | ByWorker | ByControl

  datatype ProducerPc =
    | Outside
    | Checked       // saw updates not suspended
    | Counted       // counted itself in, before the second check
    | Passed        // second check passed
    | Updating      // inside UpdateNow, no worker to hand over to
    | Locked        // holds the request lock
    | Published     // set the request word, still holds the lock
    | Leaving       // about to count itself out

  datatype WorkerPc =
    | Waiting
    | CountingIn
    | CountedIn
    | Taken         // took the request word
    | Copying       // holds the request lock
    | UpdatingNow   // inside UpdateNow
    | Finished
    | NothingToDo
    | HeartbeatDue
    | Heartbeat     // holds the request lock

  datatype ControlPc =
    | Idle
    | ModeSet
    | Crossing      // holds the request lock
    | Sampling(n: nat, zero: bool)

  datatype State = State(
    mode: Mode, inFlight: int, pending: bool, lock: Holder,
    producers: map<nat, ProducerPc>, worker: WorkerPc, control: ControlPc, quiet: bool)

  datatype Action =
    | Produce(t: nat, inline: bool)   // `inline`: no worker accepts the update
    | Work(stop: bool)                // `stop`: the worker is told to stop, or has no lock to take
    | Beat
    | Suspend
    | Sample(giveUp: bool)            // `giveUp`: the deadline has passed, or there is no lock to cross
    | Resume

  ghost predicate Init(s: State) {
    && s.mode == Full && s.inFlight == 0 && !s.pending && s.lock == Nobody && s.worker == Waiting
    && s.control == Idle && !s.quiet && forall t | t in s.producers :: s.producers[t] == Outside
  }

  function Goto(s: State, t: nat, pc: ProducerPc): State { s.(producers := s.producers[t := pc]) }

  function ProduceStep(s: State, t: nat, inline: bool): State
    requires t in s.producers
  {
    match s.producers[t]
    case Outside => if s.mode == Full then Goto(s, t, Checked) else s
    case Checked => Goto(s.(inFlight := s.inFlight + 1), t, Counted)
    case Counted => Goto(s, t, if s.mode == Full then Passed else Leaving)
    case Passed =>
      if inline then Goto(s, t, Updating)
      else if s.lock == Nobody then Goto(s.(lock := ByProducer(t)), t, Locked)
      else Goto(s, t, Leaving)
    case Updating => Goto(s, t, Leaving)
    case Locked => Goto(s.(pending := true), t, Published)
    case Published => Goto(s.(lock := Nobody), t, Leaving)
    case Leaving => Goto(s.(inFlight := s.inFlight - 1), t, Outside)
  }

  function WorkStep(s: State, stop: bool): State {
    match s.worker
    case Waiting => s.(worker := CountingIn)
    case CountingIn => s.(inFlight := s.inFlight + 1, worker := CountedIn)
    case CountedIn => s.(pending := false, worker := if s.pending then Taken else NothingToDo)
    case Taken =>
      if stop then s.(worker := NothingToDo)
      else if s.lock == Nobody then s.(lock := ByWorker, worker := Copying) else s
    case Copying => s.(lock := Nobody, worker := UpdatingNow)
    case UpdatingNow => s.(worker := Finished)
    case Finished => s.(inFlight := s.inFlight - 1, worker := if stop then Waiting else CountingIn)
    case NothingToDo => s.(inFlight := s.inFlight - 1, worker := Waiting)
    case HeartbeatDue => if s.lock == Nobody then s.(lock := ByWorker, worker := Heartbeat) else s
    case Heartbeat => s.(lock := Nobody, worker := Waiting)
  }

  predicate IsZero(s: State, w: Word) {
    match w
    case InFlight => s.inFlight == 0
    case Pending => !s.pending
  }

  /** The suspender's next step after the mode is set, for the sampling order `p`. */
  function SampleStep(p: seq<Word>, s: State, giveUp: bool): State {
    match s.control
    case Idle => s
    case ModeSet =>
      if giveUp then s.(control := Sampling(0, true))
      else if s.lock == Nobody then s.(lock := ByControl, control := Crossing) else s
    case Crossing => s.(lock := Nobody, control := Sampling(0, true))
    case Sampling(n, zero) =>
      if n < |p| then s.(control := Sampling(n + 1, zero && IsZero(s, p[n])))
      else if zero then s.(control := Idle, quiet := true)
      else s.(control := if giveUp then Idle else Sampling(0, true))
  }

  function Next(p: seq<Word>, s: State, a: Action): State {
    match a
    case Produce(t, inline) => if t in s.producers then ProduceStep(s, t, inline) else s
    case Work(stop) => WorkStep(s, stop)
    case Beat => if s.worker == Waiting && s.mode == SuspendedHeartbeat then s.(worker := HeartbeatDue) else s
    case Suspend => if s.control == Idle then s.(mode := SuspendedHeartbeat, control := ModeSet) else s
    case Sample(giveUp) => SampleStep(p, s, giveUp)
    case Resume => if s.control == Idle then s.(mode := Full, quiet := false) else s
  }

  function Exec(p: seq<Word>, s: State, acts: seq<Action>): State
    decreases |acts|
  {
    if acts == [] then s else Exec(p, Next(p, s, acts[0]), acts[1..])
  }

  /** Some UpdateNow issued by QueueUpdate or by the worker is running. */
  ghost predicate UpdateRunning(s: State) {
    s.worker == UpdatingNow || exists t | t in s.producers :: s.producers[t] == Updating
  }

  // ----- how much a prefix of zero samples establishes

  function Advance(level: nat, w: Word): nat {
    match w
    case InFlight => if level == 0 then 1 else if level == 2 then 3 else level
    case Pending => if level == 1 then 2 else level
  }

  function Level(p: seq<Word>, n: nat): (level: nat)
    requires n <= |p|
    ensures level <= 3
  {
    if n == 0 then 0 else Advance(Level(p, n - 1), p[n - 1])
  }

  /** In-flight, then pending, then in-flight again, in this order and not necessarily adjacent. */
  ghost predicate HasSandwich(p: seq<Word>) {
    exists i, j, k :: 0 <= i < j < k < |p| && p[i] == InFlight && p[j] == Pending && p[k] == InFlight
  }

  ghost predicate HasOne(p: seq<Word>, n: nat)
    requires n <= |p|
  {
    exists i :: 0 <= i < n && p[i] == InFlight
  }

  ghost predicate HasTwo(p: seq<Word>, n: nat)
    requires n <= |p|
  {
    exists j :: 0 <= j < n && p[j] == Pending && HasOne(p, j)
  }

  ghost predicate HasThree(p: seq<Word>, n: nat)
    requires n <= |p|
  {
    exists k :: 0 <= k < n && p[k] == InFlight && HasTwo(p, k)
  }

  lemma {:induction false} LevelMeans(p: seq<Word>, n: nat)
    requires n <= |p|
    ensures Level(p, n) >= 1 <==> HasOne(p, n)
    ensures Level(p, n) >= 2 <==> HasTwo(p, n)
    ensures Level(p, n) >= 3 <==> HasThree(p, n)
  {
    if n > 0 { LevelMeans(p, n - 1); }
  }

  lemma SandwichOf(p: seq<Word>, i: nat, j: nat, k: nat)
    requires i < j < k < |p| && p[i] == InFlight && p[j] == Pending && p[k] == InFlight
    ensures HasThree(p, |p|)
  {
    assert HasOne(p, j);
    assert HasTwo(p, k);
  }

  lemma SandwichIn(p: seq<Word>)
    requires HasThree(p, |p|)
    ensures HasSandwich(p)
  {
    var k :| 0 <= k < |p| && p[k] == InFlight && HasTwo(p, k);
    var j :| 0 <= j < k && p[j] == Pending && HasOne(p, j);
    var i :| 0 <= i < j && p[i] == InFlight;
    hide HasOne, HasTwo, HasThree;
    assert 0 <= i < j < k < |p| && p[i] == InFlight && p[j] == Pending && p[k] == InFlight;
  }

  lemma ThreeIsSandwich(p: seq<Word>)
    ensures Level(p, |p|) >= 3 <==> HasSandwich(p)
  {
    LevelMeans(p, |p|);
    hide HasThree;
    if HasThree(p, |p|) { SandwichIn(p); }
    if HasSandwich(p) {
      var i, j, k :| 0 <= i < j < k < |p| && p[i] == InFlight && p[j] == Pending && p[k] == InFlight;
      SandwichOf(p, i, j, k);
    }
  }

  // ----- the invariant

  predicate IsCounted(pc: ProducerPc) { pc != Outside && pc != Checked }

  predicate WorkerCounted(w: WorkerPc) {
    w == CountedIn || w == Taken || w == Copying || w == UpdatingNow || w == Finished || w == NothingToDo
  }

  function CountedSet(producers: map<nat, ProducerPc>): set<nat> {
    set t | t in producers && IsCounted(producers[t])
  }

  ghost predicate NoneCommitted(s: State) {
    forall t | t in s.producers :: s.producers[t] != Passed && s.producers[t] != Updating && s.producers[t] != Locked
  }

  ghost predicate Holds(level: nat, s: State) {
    && (level >= 1 ==> NoneCommitted(s))
    && (level >= 2 ==> !s.pending)
    && (level >= 3 ==> s.worker != Taken && s.worker != Copying && s.worker != UpdatingNow)
  }

  ghost predicate Inv(p: seq<Word>, s: State) {
    && s.inFlight == |CountedSet(s.producers)| + (if WorkerCounted(s.worker) then 1 else 0)
    && (s.control != Idle || s.quiet ==> s.mode == SuspendedHeartbeat)
    && (s.control.Sampling? ==> s.control.n <= |p| && (s.control.zero ==> Holds(Level(p, s.control.n), s)))
    && (s.quiet ==> Holds(Level(p, |p|), s))
  }

  lemma CountChanges(producers: map<nat, ProducerPc>, t: nat, pc: ProducerPc)
    requires t in producers
    ensures |CountedSet(producers[t := pc])|
      == |CountedSet(producers)| - (if IsCounted(producers[t]) then 1 else 0) + (if IsCounted(pc) then 1 else 0)
  {
    var before, after := CountedSet(producers), CountedSet(producers[t := pc]);
    assert before - {t} == after - {t};
    Basics.CountDiffers(before, after, t);
  }

  /** A zero in-flight word shows that nobody is counted. */
  lemma ZeroMeansNobody(p: seq<Word>, s: State)
    requires Inv(p, s) && s.inFlight == 0
    ensures NoneCommitted(s) && !WorkerCounted(s.worker)
  {
    assert CountedSet(s.producers) == {};
    forall t | t in s.producers ensures !IsCounted(s.producers[t]) {
      assert t !in CountedSet(s.producers);
    }
  }

  lemma ProduceKeepsLevel(s: State, t: nat, inline: bool, level: nat)
    requires t in s.producers && s.mode == SuspendedHeartbeat && Holds(level, s)
    ensures Holds(level, ProduceStep(s, t, inline))
  {
  }

  lemma ProduceKeepsCount(s: State, t: nat, inline: bool)
    requires t in s.producers
    ensures var n := ProduceStep(s, t, inline);
      && n.inFlight - |CountedSet(n.producers)| == s.inFlight - |CountedSet(s.producers)|
      && n.worker == s.worker && n.mode == s.mode && n.control == s.control && n.quiet == s.quiet
  {
    var n := ProduceStep(s, t, inline);
    CountChanges(s.producers, t, n.producers[t]);
    assert n.producers == s.producers[t := n.producers[t]];
  }

  lemma ProduceKeeps(p: seq<Word>, s: State, t: nat, inline: bool)
    requires Inv(p, s) && t in s.producers
    ensures Inv(p, ProduceStep(s, t, inline))
  {
    ProduceKeepsCount(s, t, inline);
    if s.control.Sampling? && s.control.zero { ProduceKeepsLevel(s, t, inline, Level(p, s.control.n)); }
    if s.quiet { ProduceKeepsLevel(s, t, inline, Level(p, |p|)); }
  }

  lemma WorkKeepsLevel(s: State, stop: bool, level: nat)
    requires Holds(level, s)
    ensures Holds(level, WorkStep(s, stop))
  {
    assert WorkStep(s, stop).producers == s.producers;
  }

  lemma WorkKeepsCount(s: State, stop: bool)
    ensures var n := WorkStep(s, stop);
      && n.inFlight - s.inFlight ==
           (if WorkerCounted(n.worker) then 1 else 0) - (if WorkerCounted(s.worker) then 1 else 0)
      && n.producers == s.producers && n.mode == s.mode && n.control == s.control && n.quiet == s.quiet
  {
  }

  lemma WorkKeeps(p: seq<Word>, s: State, stop: bool)
    requires Inv(p, s)
    ensures Inv(p, WorkStep(s, stop))
  {
    WorkKeepsCount(s, stop);
    if s.control.Sampling? && s.control.zero { WorkKeepsLevel(s, stop, Level(p, s.control.n)); }
    if s.quiet { WorkKeepsLevel(s, stop, Level(p, |p|)); }
  }

  /** One more zero sample raises what the samples establish. */
  lemma ZeroRaises(p: seq<Word>, s: State)
    requires Inv(p, s) && s.control.Sampling? && s.control.zero && s.control.n < |p| && IsZero(s, p[s.control.n])
    ensures Holds(Level(p, s.control.n + 1), s)
  {
    if s.inFlight == 0 { ZeroMeansNobody(p, s); }
    hide NoneCommitted, CountedSet;
  }

  lemma SampleKeeps(p: seq<Word>, s: State, giveUp: bool)
    requires Inv(p, s)
    ensures Inv(p, SampleStep(p, s, giveUp))
  {
    if s.control.Sampling? && s.control.zero && s.control.n < |p| && IsZero(s, p[s.control.n]) { ZeroRaises(p, s); }
    hide Level, CountedSet, IsZero, NoneCommitted;
  }

  lemma NextKeeps(p: seq<Word>, s: State, a: Action)
    requires Inv(p, s)
    ensures Inv(p, Next(p, s, a))
  {
    match a
    case Produce(t, inline) => if t in s.producers { ProduceKeeps(p, s, t, inline); }
    case Work(stop) => WorkKeeps(p, s, stop);
    case Sample(giveUp) => SampleKeeps(p, s, giveUp);
    case _ =>
  }

  lemma {:induction false} ExecKeeps(p: seq<Word>, s: State, acts: seq<Action>)
    requires Inv(p, s)
    ensures Inv(p, Exec(p, s, acts))
    decreases |acts|
  {
    if acts != [] {
      NextKeeps(p, s, acts[0]);
      ExecKeeps(p, Next(p, s, acts[0]), acts[1..]);
    }
  }

  lemma InitHolds(p: seq<Word>, s: State)
    requires Init(s)
    ensures Inv(p, s)
  {
    assert CountedSet(s.producers) == {};
  }

  lemma {:induction false} QuietStays(p: seq<Word>, s: State, acts: seq<Action>)
    requires s.quiet && Resume !in acts
    ensures Exec(p, s, acts).quiet
    decreases |acts|
  {
    if acts != [] {
      assert acts[0] in acts;
      QuietStays(p, Next(p, s, acts[0]), acts[1..]);
    }
  }

  lemma {:induction false} ExecConcat(p: seq<Word>, s: State, before: seq<Action>, after: seq<Action>)
    ensures Exec(p, s, before + after) == Exec(p, Exec(p, s, before), after)
    decreases |before|
  {
    if before == [] {
      assert before + after == after;
    } else {
      assert (before + after)[1..] == before[1..] + after;
      ExecConcat(p, Next(p, s, before[0]), before[1..], after);
    }
  }

  // ----- main results

  /** For a sampling order with an in-flight, pending, in-flight sandwich, suspension is a barrier:
      once it has reported success no update runs, and none starts until updates resume. */
  lemma SuspensionIsABarrier(p: seq<Word>, s: State, before: seq<Action>, after: seq<Action>)
    requires Init(s) && HasSandwich(p)
    requires Exec(p, s, before).quiet && Resume !in after
    ensures !UpdateRunning(Exec(p, s, before + after))
  {
    InitHolds(p, s);
    ExecKeeps(p, s, before + after);
    ExecConcat(p, s, before, after);
    QuietStays(p, Exec(p, s, before), after);
    ThreeIsSandwich(p);
  }

  /** The order the code uses qualifies; so do its first three samples alone. */
  lemma CodeSamplesAreSound()
    ensures HasSandwich(SAMPLES) && HasSandwich(SAMPLES[..3])
    ensures !HasSandwich([InFlight, Pending]) && !HasSandwich([Pending, InFlight])
  {
    assert SAMPLES[0] == InFlight && SAMPLES[1] == Pending && SAMPLES[2] == InFlight;
    var q := SAMPLES[..3];
    assert q[0] == InFlight && q[1] == Pending && q[2] == InFlight;
  }

  // ----- every other order is unsound

  const START: State := State(Full, 0, false, Nobody, map[0 := Outside], Waiting, Idle, false)

  /** Where the adversary stands after `n` zero samples that established `level`. */
  function Trap(level: nat, n: nat): State {
    if level == 0 then
      State(SuspendedHeartbeat, 1, false, Nobody, map[0 := Passed], Waiting, Sampling(n, true), false)
    else if level == 1 then
      State(SuspendedHeartbeat, 0, true, Nobody, map[0 := Outside], Waiting, Sampling(n, true), false)
    else
      State(SuspendedHeartbeat, 1, false, Nobody, map[0 := Outside], Taken, Sampling(n, true), false)
  }

  const COMMIT: seq<Action> := [Produce(0, false), Produce(0, false), Produce(0, false)]

  const ASK: seq<Action> := [Suspend, Sample(false), Sample(false)]

  lemma EnterTrap(p: seq<Word>)
    ensures Exec(p, START, COMMIT + ASK) == Trap(0, 0)
  {
    var s1 := Next(p, START, Produce(0, false));
    var s3 := Next(p, Next(p, s1, Produce(0, false)), Produce(0, false));
    assert s3.producers == map[0 := Passed];
    var s4 := Next(p, s3, Suspend);
    var s6 := Next(p, Next(p, s4, Sample(false)), Sample(false));
    assert s6 == Trap(0, 0);
    assert Exec(p, s3, [Suspend, Sample(false), Sample(false)]) == s6 by {
      assert [Suspend, Sample(false), Sample(false)][1..] == [Sample(false), Sample(false)];
      assert [Sample(false), Sample(false)][1..] == [Sample(false)];
      assert Exec(p, s6, []) == s6;
    }
    assert Exec(p, START, [Produce(0, false), Produce(0, false), Produce(0, false)]) == s3 by {
      assert [Produce(0, false), Produce(0, false), Produce(0, false)][1..] == [Produce(0, false), Produce(0, false)];
      assert [Produce(0, false), Produce(0, false)][1..] == [Produce(0, false)];
      assert Exec(p, s3, []) == s3;
    }
    ExecConcat(p, START, COMMIT, ASK);
  }

  lemma OneStep(p: seq<Word>, s: State, a: Action)
    ensures Exec(p, s, [a]) == Next(p, s, a)
  {
    assert Exec(p, Next(p, s, a), []) == Next(p, s, a);
  }

  /** The producer hands its request over and counts itself out. */
  lemma HandOver(p: seq<Word>, n: nat) returns (acts: seq<Action>)
    ensures Exec(p, Trap(0, n), acts) == Trap(1, n)
  {
    var a := Produce(0, false);
    var s0 := Trap(0, n);
    var s1, s2 := Next(p, s0, a), Next(p, Next(p, s0, a), a);
    var s3, s4 := Next(p, s2, a), Next(p, Next(p, s2, a), a);
    assert s4 == Trap(1, n);
    OneStep(p, s0, a); OneStep(p, s1, a); OneStep(p, s2, a); OneStep(p, s3, a);
    ExecConcat(p, s0, [a], [a]); ExecConcat(p, s2, [a], [a]); ExecConcat(p, s0, [a] + [a], [a] + [a]);
    acts := ([a] + [a]) + ([a] + [a]);
  }

  /** The worker counts itself in and takes the request. */
  lemma TakeOver(p: seq<Word>, s: State) returns (acts: seq<Action>)
    requires s.worker == Waiting && s.pending
    ensures Exec(p, s, acts) == s.(inFlight := s.inFlight + 1, pending := false, worker := Taken)
  {
    var a := Work(false);
    var s1, s2 := Next(p, s, a), Next(p, Next(p, s, a), a);
    OneStep(p, s, a); OneStep(p, s1, a); OneStep(p, s2, a);
    ExecConcat(p, s, [a], [a]); ExecConcat(p, s, [a] + [a], [a]);
    acts := ([a] + [a]) + [a];
  }

  /** Without a sandwich the adversary keeps every sample zero. */
  lemma {:induction false} StayInTrap(p: seq<Word>, n: nat) returns (acts: seq<Action>)
    requires n <= |p| && Level(p, n) < 3
    ensures Exec(p, START, acts) == Trap(Level(p, n), n)
  {
    if n == 0 {
      EnterTrap(p);
      acts := COMMIT + ASK;
    } else {
      var level := Level(p, n - 1);
      acts := StayInTrap(p, n - 1);
      var s := Trap(level, n - 1);
      var move := [];
      if level == 0 && p[n - 1] == InFlight {
        move := HandOver(p, n - 1);
      } else if level == 1 && p[n - 1] == Pending {
        move := TakeOver(p, s);
      }
      ExecConcat(p, START, acts, move);
      var moved := Exec(p, s, move);
      OneStep(p, moved, Sample(false));
      ExecConcat(p, START, acts + move, [Sample(false)]);
      acts := acts + move + [Sample(false)];
    }
  }

  /** After the suspender has left, the trapped update runs. */
  lemma SpringTrap(p: seq<Word>, level: nat) returns (acts: seq<Action>)
    requires level < 3
    ensures var s := Exec(p, Trap(level, |p|).(control := Idle, quiet := true), acts); s.quiet && UpdateRunning(s)
  {
    var s := Trap(level, |p|).(control := Idle, quiet := true);
    if level == 0 {
      OneStep(p, s, Produce(0, true));
      acts := [Produce(0, true)];
      assert Exec(p, s, acts).producers[0] == Updating;
    } else {
      var take := [];
      if level == 1 { take := TakeOver(p, s); }
      var t := Exec(p, s, take);
      OneStep(p, t, Work(false));
      OneStep(p, Next(p, t, Work(false)), Work(false));
      ExecConcat(p, t, [Work(false)], [Work(false)]);
      ExecConcat(p, s, take, [Work(false)] + [Work(false)]);
      acts := take + ([Work(false)] + [Work(false)]);
    }
  }

  /** For an order without the sandwich there is a run in which suspension reports success while an
      update runs. */
  lemma OtherOrdersAreUnsound(p: seq<Word>) returns (acts: seq<Action>)
    requires !HasSandwich(p)
    ensures Init(START) && Exec(p, START, acts).quiet && UpdateRunning(Exec(p, START, acts))
  {
    ThreeIsSandwich(p);
    var level := Level(p, |p|);
    acts := StayInTrap(p, |p|);
    var s := Trap(level, |p|);
    OneStep(p, s, Sample(false));
    ExecConcat(p, START, acts, [Sample(false)]);
    var spring := SpringTrap(p, level);
    ExecConcat(p, START, acts + [Sample(false)], spring);
    acts := acts + [Sample(false)] + spring;
  }

  /** In every run a successful suspension keeps updates out until they are resumed. */
  ghost predicate IsBarrier(p: seq<Word>) {
    forall s, before, after {:trigger Exec(p, s, before + after)} ::
      Init(s) && Exec(p, s, before).quiet && Resume !in after ==> !UpdateRunning(Exec(p, s, before + after))
  }

  /** A sampling order is a barrier exactly when it contains the sandwich. */
  lemma BarrierExactlyWithSandwich(p: seq<Word>)
    ensures IsBarrier(p) <==> HasSandwich(p)
  {
    if HasSandwich(p) {
      forall s, before, after | Init(s) && Exec(p, s, before).quiet && Resume !in after
        ensures !UpdateRunning(Exec(p, s, before + after))
      {
        SuspensionIsABarrier(p, s, before, after);
      }
    } else {
      var acts := OtherOrdersAreUnsound(p);
      assert acts + [] == acts;
      assert UpdateRunning(Exec(p, START, acts + []));
    }
  }
}
