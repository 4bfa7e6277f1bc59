/**
 What the calls around control wakes achieve when nothing else moves: a wake is served, a flush raises the served
 counter, prompts and timeouts are published, and the gate releases exactly what is ready. From every reachable
 state two wakes that are read release a pending timeout.
 */
module WakeCalls {
  import opened Basics
  import opened WakeAccounting

  // ----- the serials that are selected

  /** A prompt's transition is the first wake after its captured write; without one the last wake, or the first. */
  lemma TransitionIsNext(snapshot: int, current: nat, v: int)
    ensures var t := SelectPromptTransitionWakeSerial(snapshot, current);
      v >= t <==> if snapshot >= 0 then v > snapshot else v >= current && v >= 1
  {
  }

  /** A requirement is met exactly by the wakes newer than the transition and than the captured write; without a
      write, newer than the transition and not older than the last wake. */
  lemma RequirementIsLeast(snapshot: int, transition: nat, current: nat, v: int)
    ensures v >= SelectTimeoutRequiredWakeSerial(snapshot, transition, current) <==>
              v > transition && (if snapshot >= 0 then v > snapshot else v >= current && v > 0)
  {
  }

  // ----- calls that run alone

  /** A requested wake that has not been served is served by the next read, unless it cannot be copied; another read
      finds nothing to do. */
  lemma ReadAlone(s: State, t: nat, copied: bool)
    requires t in s.pcs && s.pcs[t] == Free
    ensures var n := Next(Next(Next(s, ReaderLoadRequest(t)), ReaderLoadServed(t)), ReaderDeliver(t, copied));
      n == if s.request > s.served && copied then s.(served := s.request, log := s.log + [Served(s.request)]) else s
  {
    var s1 := Next(s, ReaderLoadRequest(t));
    var s2 := Next(s1, ReaderLoadServed(t));
    assert s1.pcs == s.pcs[t := ReaderLoaded(s.request)];
    assert s2.pcs == s.pcs[t := if s.request > s.served then ReaderServing(s.request) else Free];
    assert Next(s2, ReaderDeliver(t, copied)).pcs == s.pcs;
  }

  lemma WriteAlone(s: State, t: nat)
    requires t in s.pcs && s.pcs[t] == Free
    ensures Next(s, WriteWake(t)) == s.(request := s.request + 1, log := s.log + [Requested(s.request + 1)])
    ensures Next(s, CaptureWrite(t)) == s.(log := s.log + [WriteSeen(s.request)])
  {
  }

  /** A flush that the console carries out raises the served counter to what was requested when it began; one that
      fails changes nothing. */
  lemma FlushAlone(s: State, t: nat, succeeded: bool)
    requires t in s.pcs && s.pcs[t] == Free && s.served <= s.request
    ensures var n := Next(Next(Next(s, FlushSnapshot(t)), FlushNative(t, succeeded)), FlushTurn(t));
      && n.served == (if succeeded then s.request else s.served)
      && n == s.(served := n.served, log := n.log)
      && (succeeded ==> |n.log| > |s.log| && n.log[|n.log| - 1] == FlushReturned(s.request, s.request))
      && (!succeeded ==> n == s)
  {
    var s1 := Next(s, FlushSnapshot(t));
    var s2 := Next(s1, FlushNative(t, succeeded));
    assert s1.pcs == s.pcs[t := Flushing(s.request)];
    assert s2.pcs == s.pcs[t := if succeeded then FlushLoop(s.request, s.served) else Free];
    assert Next(s2, FlushTurn(t)).pcs == s.pcs;
  }

  /** A turn of its loop that meets another store goes on with the stored value. */
  lemma FlushTurnRetries(s: State, t: nat)
    requires t in s.pcs && s.pcs[t].FlushLoop? && s.pcs[t].seen < s.pcs[t].snapshot && s.served != s.pcs[t].seen
    ensures Next(s, FlushTurn(t)) == s.(pcs := s.pcs[t := FlushLoop(s.pcs[t].snapshot, s.served)])
  {
  }

  /** A newer prompt is published with its transition; any other serial is ignored. */
  lemma PromptAlone(s: State, t: nat, serial: int, write: Option<nat>)
    requires t in s.pcs && s.pcs[t] == Free && IsWrite(s.log, write)
    ensures var turn := PromptTurn(t);
      var n := Next(Next(Next(Next(s, PromptCheck(t, serial, write)), turn), turn), turn);
      n == if serial > 0 && serial > s.prompt
           then s.(prompt := serial,
                   transition := SelectPromptTransitionWakeSerial(SnapshotOf(s.log, write), s.request))
           else s
  {
    var snapshot := SnapshotOf(s.log, write);
    hide SelectPromptTransitionWakeSerial;
    var s1 := Next(s, PromptCheck(t, serial, write));
    if serial > 0 && serial > s.prompt {
      assert s1.pcs == s.pcs[t := PromptChecked(serial, snapshot)];
      var s2 := Next(s1, PromptTurn(t));
      assert s2.pcs == s.pcs[t := PromptCounted(serial, snapshot, s.request)];
      var s3 := Next(s2, PromptTurn(t));
      assert s3.pcs == s.pcs[t := PromptStored(serial)];
      assert Next(s3, PromptTurn(t)).pcs == s.pcs;
    }
  }

  function Published(s: State, write: Option<nat>): State
    requires IsWrite(s.log, write)
  {
    var required := SelectTimeoutRequiredWakeSerial(SnapshotOf(s.log, write), s.transition, s.request);
    s.(required := required, timeout := s.prompt,
       log := s.log + [TimeoutRequires(s.prompt, write, s.transition, required)])
  }

  /** A timeout is published, its requirement first, exactly when its prompt's reader is held and it is newer. */
  lemma TimeoutAlone(s: State, t: nat, write: Option<nat>, held: bool)
    requires t in s.pcs && s.pcs[t] == Free && IsWrite(s.log, write)
    ensures var turn := TimeoutTurn(t);
      var s2 := Next(Next(s, TimeoutPrompt(t, write)), TimeoutCheck(t, held));
      Next(Next(Next(Next(s2, turn), turn), turn), turn) ==
        if held && s.timeout < s.prompt then Published(s, write) else s
  {
    hide SelectTimeoutRequiredWakeSerial, Published;
    var s1 := Next(s, TimeoutPrompt(t, write));
    assert s1.pcs == s.pcs[t := TimeoutPrompted(s.prompt, write)];
    var s2 := Next(s1, TimeoutCheck(t, held));
    if held && s.timeout < s.prompt {
      assert s2.pcs == s.pcs[t := TimeoutChecked(s.prompt, write)];
      assert s2 == Goto(s, t, TimeoutChecked(s.prompt, write));
      hide Next, Goto;
      TimeoutPublishes(s, t, write);
    } else {
      assert s2.pcs == s.pcs;
    }
  }

  lemma TimeoutPublishes(s: State, t: nat, write: Option<nat>)
    requires t in s.pcs && s.pcs[t] == Free && IsWrite(s.log, write)
    ensures var turn := TimeoutTurn(t); var c := Goto(s, t, TimeoutChecked(s.prompt, write));
      Next(Next(Next(Next(c, turn), turn), turn), turn) == Published(s, write)
  {
    hide SelectTimeoutRequiredWakeSerial;
    var turn := TimeoutTurn(t);
    var s2 := Goto(s, t, TimeoutChecked(s.prompt, write));
    var s3 := Next(s2, turn);
    assert s3.pcs == s.pcs[t := TimeoutLoaded(s.prompt, write, s.transition)];
    var s4 := Next(s3, turn);
    assert s4.pcs == s.pcs[t := TimeoutCounted(s.prompt, write, s.transition, s.request)];
    var s5 := Next(s4, turn);
    assert s5.pcs == s.pcs[t := TimeoutStored(s.prompt)];
    assert Next(s5, turn).pcs == s.pcs;
  }

  /** Is there a timeout to handle? */
  predicate Waits(s: State) { s.timeout > 0 && s.timeout > s.handled }

  /** A tick of the gate alone: a timeout that waits is released, once, exactly when its helper is gone or its
      requirement is met; nothing else happens. */
  lemma GateAlone(s: State, helperAlive: bool)
    requires s.gate == Rest
    ensures var tick := GateTurn(helperAlive); var n := Next(Next(Next(s, tick), tick), tick);
      if !Waits(s) then n == s
      else if helperAlive && (s.required <= 0 || s.served < s.required) then n == s
      else n == s.(handled := s.timeout, log := s.log + [Released(s.timeout, helperAlive, s.required)])
  {
  }

  // ----- two wakes are enough

  /** The serials in use are never far ahead of what was requested. */
  predicate PcNear(s: State, pc: Pc) {
    match pc
    case PromptChecked(_, snapshot) => snapshot <= s.request
    case PromptCounted(_, snapshot, current) => snapshot <= s.request && 0 <= current <= s.request
    case TimeoutLoaded(_, _, transition) => 0 <= transition <= s.request + 1
    case TimeoutCounted(_, _, transition, current) => 0 <= transition <= s.request + 1 && 0 <= current <= s.request
    case TimeoutStored(_) => s.required > 0
    case _ => true
  }

  ghost predicate Near(s: State) {
    && 0 <= s.transition <= s.request + 1 && 0 <= s.required <= s.request + 2 && (s.timeout > 0 ==> s.required > 0)
    && forall t: nat | t in s.pcs :: PcNear(s, s.pcs[t])
  }

  lemma SerialsAreNear(snapshot: int, transition: nat, current: nat, request: int)
    requires snapshot <= request && transition <= request + 1 && current <= request
    ensures 0 <= SelectPromptTransitionWakeSerial(snapshot, current) <= request + 1
    ensures 0 < SelectTimeoutRequiredWakeSerial(snapshot, transition, current) <= request + 2
  {
  }

  lemma SnapshotIsNear(s: State, write: Option<nat>)
    requires LogMatches(s) && IsWrite(s.log, write) && 0 <= s.request
    ensures SnapshotOf(s.log, write) <= s.request
  {
  }

  /** A thread has moved, and the words it may have stored are near. */
  lemma MovedNear(s: State, n: State, t: nat)
    requires Near(s) && t in s.pcs && t in n.pcs && n.pcs == s.pcs[t := n.pcs[t]] && PcNear(n, n.pcs[t])
    requires n.request == s.request && (n.required == s.required || 0 < n.required <= s.request + 2)
    requires 0 <= n.transition <= s.request + 1 && (n.timeout > 0 ==> n.required > 0)
    ensures Near(n)
  {
    forall u: nat | u in n.pcs ensures PcNear(n, n.pcs[u]) { assert PcNear(s, s.pcs[u]); }
  }

  lemma PromptStaysNear(s: State, a: Action)
    requires Near(s) && Inv(s) && (a.PromptCheck? || a.PromptTurn?) && a.t in s.pcs
    ensures Near(Next(s, a))
  {
    assert PcNear(s, s.pcs[a.t]);
    match s.pcs[a.t] {
      case Free => if a.PromptCheck? && IsWrite(s.log, a.write) { SnapshotIsNear(s, a.write); }
      case PromptCounted(_, snapshot, current) => SerialsAreNear(snapshot, 0, current, s.request);
      case _ =>
    }
    hide SelectPromptTransitionWakeSerial, Inv, SnapshotOf, Near;
    assert Next(s, a) == s || Next(s, a).pcs == s.pcs[a.t := Next(s, a).pcs[a.t]];
    NearWords(s);
    if Next(s, a) != s { MovedNear(s, Next(s, a), a.t); }
  }

  lemma NearWords(s: State)
    requires Near(s)
    ensures 0 <= s.transition <= s.request + 1 && 0 <= s.required <= s.request + 2 && (s.timeout > 0 ==> s.required > 0)
  {
  }

  lemma TimeoutStaysNear(s: State, t: nat)
    requires Near(s) && Inv(s) && t in s.pcs
    ensures Near(TimeoutStep(s, t, s.pcs[t]))
  {
    assert PcNear(s, s.pcs[t]);
    if s.pcs[t].TimeoutCounted? && IsWrite(s.log, s.pcs[t].write) {
      SnapshotIsNear(s, s.pcs[t].write);
      SerialsAreNear(SnapshotOf(s.log, s.pcs[t].write), s.pcs[t].transition, s.pcs[t].current, s.request);
    }
    hide SelectTimeoutRequiredWakeSerial, Inv, SnapshotOf, Near;
    var n := TimeoutStep(s, t, s.pcs[t]);
    assert n == s || n.pcs == s.pcs[t := n.pcs[t]];
    NearWords(s);
    if n != s { MovedNear(s, n, t); }
  }

  lemma PublishersStayNear(s: State, a: Action)
    requires Near(s) && Inv(s) && (a.PromptCheck? || a.PromptTurn? || a.TimeoutTurn?) && a.t in s.pcs
    ensures Near(Next(s, a))
  {
    if a.TimeoutTurn? { TimeoutStaysNear(s, a.t); } else { PromptStaysNear(s, a); }
    hide TimeoutStep, PromptStep, Near, Inv;
  }

  lemma OthersStayNear(s: State, a: Action)
    requires Near(s) && 0 <= s.request && !a.PromptCheck? && !a.PromptTurn? && !a.TimeoutTurn?
    ensures Near(Next(s, a))
  {
    hide IsWrite, SnapshotOf, CleanupReady;
    forall t: nat | t in Next(s, a).pcs ensures PcNear(Next(s, a), Next(s, a).pcs[t]) {
      if t in s.pcs { assert PcNear(s, s.pcs[t]); }
    }
  }

  lemma {:induction false} RunStaysNear(s: State, acts: seq<Action>)
    requires Inv(s) && Near(s)
    ensures Inv(Exec(s, acts)) && Near(Exec(s, acts))
    decreases |acts|
  {
    if acts != [] {
      var a := acts[0];
      NextKeeps(s, a);
      assert 0 <= s.request;
      hide Inv, Near, Next;
      if a.PromptCheck? || a.PromptTurn? || a.TimeoutTurn? {
        if a.t in s.pcs { PublishersStayNear(s, a); } else { AbsentIsStill(s, a); }
      } else {
        OthersStayNear(s, a);
      }
      RunStaysNear(Next(s, a), acts[1..]);
    }
  }

  lemma AbsentIsStill(s: State, a: Action)
    requires !a.GateTurn? && a.t !in s.pcs
    ensures Next(s, a) == s
  {
  }

  /** Two wakes, read by one thread, and a tick of the gate. */
  function WakeTwice(s: State, t: nat): State {
    var w := Next(Next(s, WriteWake(t)), WriteWake(t));
    Next(Next(Next(w, ReaderLoadRequest(t)), ReaderLoadServed(t)), ReaderDeliver(t, true))
  }

  function Tick(s: State): State { Next(Next(Next(s, GateTurn(true)), GateTurn(true)), GateTurn(true)) }

  /** A pending timeout is never stuck: wherever a run has led to, two wakes that are read release it. */
  lemma TwoWakesRelease(s: State, acts: seq<Action>, t: nat)
    requires Init(s) && t in Exec(s, acts).pcs && Exec(s, acts).pcs[t] == Free
    requires Exec(s, acts).gate == Rest && Waits(Exec(s, acts))
    ensures var m := Exec(s, acts); var n := Tick(WakeTwice(m, t));
      && n.handled == m.timeout && n.served == n.request == m.request + 2
      && n.log[|n.log| - 1] == Released(m.timeout, true, m.required)
  {
    assert Inv(s) && Near(s);
    RunStaysNear(s, acts);
    var m := Exec(s, acts);
    assert 0 <= m.served <= m.request && 0 < m.required <= m.request + 2;
    hide Inv, Near, Exec;
    WriteAlone(m, t);
    var w := Next(m, WriteWake(t));
    WriteAlone(w, t);
    ReadAlone(Next(w, WriteWake(t)), t, true);
    hide Next;
    GateAlone(WakeTwice(m, t), true);
  }
}
