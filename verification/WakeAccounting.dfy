/**
 Control wakes between the launcher's console and the threads that read it. The shared block holds
 two counters: wakes requested and the newest wake served. Any number of threads write wakes, read
 the console, flush its input and publish prompts and their timeouts; one gate releases a timed-out
 prompt. Every access to the shared block is one step. `log` is history.
 */
module WakeAccounting {
  import opened Basics

  /** -1 stands for a console write made while no shared block was open. */
  const NO_SNAPSHOT: int := -1

  function SelectPromptTransitionWakeSerial(rawWriteSnapshot: int, currentRequest: int): int {
    if rawWriteSnapshot >= 0 then rawWriteSnapshot + 1
    else if currentRequest > 0 then currentRequest else 1
  }

  function SelectTimeoutRequiredWakeSerial(rawWriteSnapshot: int, transition: int, currentRequest: int): int {
    var required :=
      if rawWriteSnapshot >= 0 then rawWriteSnapshot + 1
      else if currentRequest > transition then currentRequest
      else (if transition > 0 then transition else currentRequest) + 1;
    if required <= transition then transition + 1 else required
  }

  predicate CleanupReady(helperAlive: bool, served: int, required: int) {
    !helperAlive || (required > 0 && served >= required)
  }

  datatype Event =
    | Requested(serial: int)
    | WriteSeen(snapshot: int)            // console output captured with this request count
    | Served(serial: int)                 // the served counter was set to this
    | FlushReturned(snapshot: int, level: int)
    | TimeoutRequires(prompt: int, write: Option<nat>, transition: int, required: int)
    | Released(prompt: int, helperAlive: bool, required: int)

  datatype Pc =
    | Free
    | ReaderLoaded(request: int)
    | ReaderServing(request: int)
    | Flushing(snapshot: int)
    | FlushLoop(snapshot: int, seen: int)
    | PromptChecked(serial: int, snapshot: int)
    | PromptCounted(serial: int, snapshot: int, current: int)
    | PromptStored(serial: int)
    | TimeoutPrompted(prompt: int, write: Option<nat>)
    | TimeoutChecked(prompt: int, write: Option<nat>)
    | TimeoutLoaded(prompt: int, write: Option<nat>, transition: int)
    | TimeoutCounted(prompt: int, write: Option<nat>, transition: int, current: int)
    | TimeoutStored(prompt: int)

  /** The gate: between ticks, with a timeout serial to handle, and with the requirement it read. */
  datatype Gate = Rest | Seen(prompt: int) | Armed(prompt: int, required: int)

  /** The shared block's words, the prompt and timeout serials among them, and where each thread is. */
  datatype State = State(
    request: int, served: int, prompt: int, transition: int, timeout: int, required: int, handled: int,
    pcs: map<nat, Pc>, gate: Gate, log: seq<Event>)

  datatype Action =
    | WriteWake(t: nat)
    | CaptureWrite(t: nat)
    | ReaderLoadRequest(t: nat)
    | ReaderLoadServed(t: nat)
    | ReaderDeliver(t: nat, copied: bool)
    | FlushSnapshot(t: nat)
    | FlushNative(t: nat, succeeded: bool)
    | FlushTurn(t: nat)
    | PromptCheck(t: nat, serial: int, write: Option<nat>)
    | PromptTurn(t: nat)
    | TimeoutPrompt(t: nat, write: Option<nat>)
    | TimeoutCheck(t: nat, held: bool)      // `held`: the prompt's reader is still held by the host
    | TimeoutTurn(t: nat)
    | GateTurn(helperAlive: bool)

  ghost predicate Init(s: State) {
    && s.request == s.served == s.prompt == s.transition == s.timeout == s.required == s.handled == 0
    && s.log == [] && s.gate == Rest
    && forall t | t in s.pcs :: s.pcs[t] == Free
  }

  /** The request count a captured write carried. */
  predicate IsWrite(log: seq<Event>, w: Option<nat>) {
    w.Some? ==> w.value < |log| && log[w.value].WriteSeen?
  }

  function SnapshotOf(log: seq<Event>, w: Option<nat>): int
    requires IsWrite(log, w)
  {
    if w.Some? then log[w.value].snapshot else NO_SNAPSHOT
  }

  function Goto(s: State, t: nat, pc: Pc): State { s.(pcs := s.pcs[t := pc]) }

  function Note(s: State, e: Event): State { s.(log := s.log + [e]) }

  function Next(s: State, a: Action): State {
    if a.GateTurn? then GateStep(s, a.helperAlive)
    else if a.t !in s.pcs then s else
    var pc := s.pcs[a.t];
    match a
    case WriteWake(t) => if pc.Free? then Note(s.(request := s.request + 1), Requested(s.request + 1)) else s
    case CaptureWrite(t) => if pc.Free? then Note(s, WriteSeen(s.request)) else s
    case ReaderLoadRequest(t) => if pc.Free? then Goto(s, t, ReaderLoaded(s.request)) else s
    case ReaderLoadServed(t) =>
      if pc.ReaderLoaded? then Goto(s, t, if pc.request > s.served then ReaderServing(pc.request) else Free) else s
    case ReaderDeliver(t, copied) =>
      if !pc.ReaderServing? then s
      else if copied then Note(Goto(s.(served := pc.request), t, Free), Served(pc.request))
      else Goto(s, t, Free)
    case FlushSnapshot(t) => if pc.Free? then Goto(s, t, Flushing(s.request)) else s
    case FlushNative(t, succeeded) =>
      if pc.Flushing? then Goto(s, t, if succeeded then FlushLoop(pc.snapshot, s.served) else Free) else s
    case FlushTurn(t) => if pc.FlushLoop? then FlushStep(s, t, pc) else s
    case PromptCheck(t, serial, write) =>
      if pc.Free? && IsWrite(s.log, write) && serial > 0 && serial > s.prompt
      then Goto(s, t, PromptChecked(serial, SnapshotOf(s.log, write))) else s
    case PromptTurn(t) => PromptStep(s, t, pc)
    case TimeoutPrompt(t, write) =>
      if pc.Free? && IsWrite(s.log, write) then Goto(s, t, TimeoutPrompted(s.prompt, write)) else s
    case TimeoutCheck(t, held) =>
      if !pc.TimeoutPrompted? then s
      else Goto(s, t, if held && s.timeout < pc.prompt then TimeoutChecked(pc.prompt, pc.write) else Free)
    case TimeoutTurn(t) => TimeoutStep(s, t, pc)
    case GateTurn(_) => s
  }

  /** Publishing a prompt: the request count, the transition wake, then the serial. */
  function PromptStep(s: State, t: nat, pc: Pc): State {
    match pc
    case PromptChecked(serial, snapshot) => Goto(s, t, PromptCounted(serial, snapshot, s.request))
    case PromptCounted(serial, snapshot, current) =>
      Goto(s.(transition := SelectPromptTransitionWakeSerial(snapshot, current)), t, PromptStored(serial))
    case PromptStored(serial) => Goto(s.(prompt := serial), t, Free)
    case _ => s
  }

  /** Publishing its timeout: the transition wake, the request count, the requirement, then the serial. */
  function TimeoutStep(s: State, t: nat, pc: Pc): State {
    match pc
    case TimeoutChecked(prompt, write) => Goto(s, t, TimeoutLoaded(prompt, write, s.transition))
    case TimeoutLoaded(prompt, write, transition) => Goto(s, t, TimeoutCounted(prompt, write, transition, s.request))
    case TimeoutCounted(prompt, write, transition, current) =>
      if !IsWrite(s.log, write) then s else
      var required := SelectTimeoutRequiredWakeSerial(SnapshotOf(s.log, write), transition, current);
      Note(Goto(s.(required := required), t, TimeoutStored(prompt)),
           TimeoutRequires(prompt, write, transition, required))
    case TimeoutStored(prompt) => Goto(s.(timeout := prompt), t, Free)
    case _ => s
  }

  /** The gate's tick: a timeout serial that is not handled yet, its requirement, then the decision. */
  function GateStep(s: State, helperAlive: bool): State {
    match s.gate
    case Rest => if s.timeout > 0 && s.timeout > s.handled then s.(gate := Seen(s.timeout)) else s
    case Seen(prompt) => s.(gate := Armed(prompt, s.required))
    case Armed(prompt, required) =>
      if CleanupReady(helperAlive, s.served, required)
      then Note(s.(gate := Rest, handled := prompt), Released(prompt, helperAlive, required))
      else s.(gate := Rest)
  }

  /** One turn of the compare-and-swap loop that completes a flush. */
  function FlushStep(s: State, t: nat, pc: Pc): State
    requires pc.FlushLoop?
  {
    if pc.seen >= pc.snapshot then Note(Goto(s, t, Free), FlushReturned(pc.snapshot, pc.seen))
    else if s.served == pc.seen then
      Note(Note(Goto(s.(served := pc.snapshot), t, Free), Served(pc.snapshot)), FlushReturned(pc.snapshot, pc.snapshot))
    else Goto(s, t, pc.(seen := s.served))
  }

  function Exec(s: State, acts: seq<Action>): State
    decreases |acts|
  {
    if acts == [] then s else Exec(Next(s, acts[0]), acts[1..])
  }

  // ----- what a history must look like

  /** Wake `v` was requested before point `j`, and after point `w`. */
  ghost predicate RequestedBetween(log: seq<Event>, v: int, w: int, j: int) {
    exists i :: w < i < j && 0 <= i < |log| && log[i] == Requested(v)
  }

  ghost predicate ServedBefore(log: seq<Event>, v: int, j: int) {
    exists i :: 0 <= i < j && i < |log| && log[i] == Served(v) && RequestedBetween(log, v, -1, i)
  }

  /** Entry `q` is a requirement published for this prompt. */
  predicate RequiresFor(log: seq<Event>, prompt: int, q: int) {
    0 <= q < |log| && log[q].TimeoutRequires? && log[q].prompt == prompt
  }

  /** The evidence a release of a live helper rests on. Its prompt had a requirement published at `q`; the one it
      met is that one or a later one, published at `p`; and it met it by a served wake `v` newer than the prompt
      transition the publisher read and, if the timeout line was captured with a request count, requested after
      that capture. */
  ghost predicate Evidence(log: seq<Event>, prompt: int, required: int, j: int, q: int, p: int, v: int) {
    && RequiresFor(log, prompt, q) && q <= p < j <= |log|
    && log[p].TimeoutRequires? && log[p].required == required <= v
    && v > log[p].transition && ServedBefore(log, v, j)
    && (log[p].write.Some? ==>
         && log[p].write.value < p && log[log[p].write.value].WriteSeen?
         && RequestedBetween(log, v, log[p].write.value, j))
  }

  ghost predicate GoodRelease(log: seq<Event>, prompt: int, required: int, j: int) {
    exists q, p, v :: Evidence(log, prompt, required, j, q, p, v)
  }

  ghost predicate GoodLog(log: seq<Event>) {
    && (forall j :: 0 <= j < |log| && log[j].Released? && log[j].helperAlive ==>
          GoodRelease(log, log[j].prompt, log[j].required, j))
    && (forall j :: 0 <= j < |log| && log[j].FlushReturned? ==> log[j].level >= log[j].snapshot)
    && (forall j :: 0 <= j < |log| && log[j].Served? ==> RequestedBetween(log, log[j].serial, -1, j))
  }

  /** Each released prompt is newer than the ones released before it. */
  ghost predicate ReleasedOnce(log: seq<Event>) {
    forall i, j :: 0 <= i < j < |log| && log[i].Released? && log[j].Released? ==> log[i].prompt < log[j].prompt
  }

  /** The requirement published last, or -1. */
  function LastRequires(log: seq<Event>): (p: int)
    ensures -1 <= p < |log| && (p >= 0 ==> log[p].TimeoutRequires?)
    ensures forall k :: p < k < |log| ==> !log[k].TimeoutRequires?
  {
    if log == [] then -1
    else if log[|log| - 1].TimeoutRequires? then |log| - 1 else LastRequires(log[..|log| - 1])
  }

  predicate RequiredMatches(required: int, log: seq<Event>) {
    required == (if LastRequires(log) < 0 then 0 else log[LastRequires(log)].required)
  }

  ghost predicate LogMatches(s: State) {
    && (forall v :: 0 < v <= s.request ==> RequestedBetween(s.log, v, -1, |s.log|))
    && (forall i :: 0 <= i < |s.log| && s.log[i].WriteSeen? ==> 0 <= s.log[i].snapshot <= s.request)
    && (forall i :: 0 <= i < |s.log| && s.log[i].Requested? ==> s.log[i].serial <= s.request)
    && (forall w, i :: 0 <= w < |s.log| && 0 <= i < w && s.log[w].WriteSeen? && s.log[i].Requested?
         ==> s.log[i].serial <= s.log[w].snapshot)
    && (s.served > 0 ==> ServedBefore(s.log, s.served, |s.log|))
    && (forall p :: 0 <= p < |s.log| && s.log[p].TimeoutRequires? ==> GoodTimeout(s.log, p))
  }

  ghost predicate GoodTimeout(log: seq<Event>, p: nat)
    requires p < |log| && log[p].TimeoutRequires?
  {
    && log[p].required > log[p].transition
    && (log[p].write.Some? ==>
         && log[p].write.value < p && log[log[p].write.value].WriteSeen?
         && log[p].required > log[log[p].write.value].snapshot)
  }

  ghost predicate PcOk(s: State, pc: Pc) {
    match pc
    case ReaderLoaded(r) => 0 <= r <= s.request
    case ReaderServing(r) => 0 < r <= s.request
    case Flushing(n) => 0 <= n <= s.request
    case FlushLoop(n, seen) => 0 <= n <= s.request && 0 <= seen
    case TimeoutPrompted(_, w) => IsWrite(s.log, w)
    case TimeoutChecked(_, w) => IsWrite(s.log, w)
    case TimeoutLoaded(_, w, _) => IsWrite(s.log, w)
    case TimeoutCounted(_, w, _, _) => IsWrite(s.log, w)
    case TimeoutStored(prompt) => exists q :: RequiresFor(s.log, prompt, q)
    case _ => true
  }

  /** The gate holds a prompt whose requirement was published, and the requirement it read was published no earlier. */
  ghost predicate GateOk(s: State) {
    match s.gate
    case Rest => true
    case Seen(prompt) => prompt > s.handled && exists q :: RequiresFor(s.log, prompt, q)
    case Armed(prompt, required) => prompt > s.handled && ArmedBy(s.log, prompt, required)
  }

  ghost predicate ArmedBy(log: seq<Event>, prompt: int, required: int) {
    exists q, p ::
      && RequiresFor(log, prompt, q) && q <= p < |log|
      && log[p].TimeoutRequires? && log[p].required == required
  }

  /** What the words of prompts and timeouts and the gate have to do with the history. */
  ghost predicate TimeoutOk(s: State) {
    && RequiredMatches(s.required, s.log)
    && (s.timeout > 0 ==> exists q :: RequiresFor(s.log, s.timeout, q))
    && GateOk(s) && ReleasedOnce(s.log)
    && (forall j :: 0 <= j < |s.log| && s.log[j].Released? ==> s.log[j].prompt <= s.handled)
  }

  /** The counters, the threads' places and the history. */
  ghost predicate CountersOk(s: State) {
    && 0 <= s.served <= s.request
    && GoodLog(s.log) && LogMatches(s)
    && forall t | t in s.pcs :: PcOk(s, s.pcs[t])
  }

  ghost predicate Inv(s: State) { CountersOk(s) && TimeoutOk(s) }

  lemma CountersFrame(s: State, n: State)
    requires CountersOk(s) && n.request == s.request && n.served == s.served && n.pcs == s.pcs && n.log == s.log
    ensures CountersOk(n)
  {
    hide GoodLog;
    forall t | t in n.pcs ensures PcOk(n, n.pcs[t]) { assert PcOk(s, s.pcs[t]); }
  }

  // ----- appending to a history keeps what it says

  lemma BetweenStays(log: seq<Event>, e: Event, v: int, w: int, j: int)
    requires RequestedBetween(log, v, w, j) && j <= |log|
    ensures RequestedBetween(log + [e], v, w, j) && RequestedBetween(log + [e], v, w, |log| + 1)
  {
    var i :| w < i < j && 0 <= i < |log| && log[i] == Requested(v);
    assert (log + [e])[i] == Requested(v);
  }

  lemma ServedStays(log: seq<Event>, e: Event, v: int, j: int)
    requires ServedBefore(log, v, j) && j <= |log|
    ensures ServedBefore(log + [e], v, j) && ServedBefore(log + [e], v, |log| + 1)
  {
    var i :| 0 <= i < j && i < |log| && log[i] == Served(v) && RequestedBetween(log, v, -1, i);
    BetweenStays(log, e, v, -1, i);
    assert (log + [e])[i] == Served(v);
  }

  lemma ReleaseStays(log: seq<Event>, e: Event, prompt: int, required: int, j: int)
    requires GoodRelease(log, prompt, required, j) && j <= |log|
    ensures GoodRelease(log + [e], prompt, required, j)
  {
    var q, p, v :| Evidence(log, prompt, required, j, q, p, v);
    ServedStays(log, e, v, j);
    if log[p].write.Some? { BetweenStays(log, e, v, log[p].write.value, j); }
    assert RequiresFor(log + [e], prompt, q);
    assert Evidence(log + [e], prompt, required, j, q, p, v);
  }

  lemma RequiresStays(log: seq<Event>, e: Event, prompt: int)
    requires exists q :: RequiresFor(log, prompt, q)
    ensures exists q :: RequiresFor(log + [e], prompt, q)
  {
    var q :| RequiresFor(log, prompt, q);
    assert RequiresFor(log + [e], prompt, q);
  }

  lemma ArmedStays(log: seq<Event>, e: Event, prompt: int, required: int)
    requires ArmedBy(log, prompt, required)
    ensures ArmedBy(log + [e], prompt, required)
  {
    var q, p :| RequiresFor(log, prompt, q) && q <= p < |log| && log[p].TimeoutRequires? && log[p].required == required;
    assert RequiresFor(log + [e], prompt, q) && (log + [e])[p] == log[p];
  }

  lemma LastStays(log: seq<Event>, e: Event)
    ensures LastRequires(log + [e]) == if e.TimeoutRequires? then |log| else LastRequires(log)
  {
    assert (log + [e])[..|log|] == log;
  }

  /** What the history needs of a new entry; `request` is the counter after the step. */
  ghost predicate Fitting(s: State, request: int, e: Event) {
    && (request == s.request || (request == s.request + 1 && e == Requested(request)))
    && (e.Requested? ==> e.serial == request == s.request + 1)
    && (e.Served? ==> RequestedBetween(s.log, e.serial, -1, |s.log|))
    && (e.FlushReturned? ==> e.level >= e.snapshot)
    && (e.Released? && e.helperAlive ==> GoodRelease(s.log, e.prompt, e.required, |s.log|))
    && (e.WriteSeen? ==> e.snapshot == s.request)
    && (e.TimeoutRequires? ==> GoodTimeout(s.log + [e], |s.log|))
  }

  lemma GoodLogGrows(s: State, request: int, e: Event)
    requires GoodLog(s.log) && Fitting(s, request, e)
    ensures GoodLog(s.log + [e])
  {
    var log := s.log + [e];
    forall j | 0 <= j < |log| && log[j].Released? && log[j].helperAlive
      ensures GoodRelease(log, log[j].prompt, log[j].required, j)
    {
      ReleaseStays(s.log, e, log[j].prompt, log[j].required, j);
    }
    forall j | 0 <= j < |log| && log[j].Served? ensures RequestedBetween(log, log[j].serial, -1, j) {
      BetweenStays(s.log, e, log[j].serial, -1, j);
    }
  }

  lemma MatchGrows(s: State, request: int, e: Event)
    requires 0 <= s.request && LogMatches(s) && Fitting(s, request, e)
    ensures LogMatches(Note(s.(request := request), e))
  {
    var log := s.log + [e];
    assert log[|s.log|] == e;
    forall v | 0 < v <= request ensures RequestedBetween(log, v, -1, |log|) {
      if v <= s.request { BetweenStays(s.log, e, v, -1, |s.log|); }
    }
    if s.served > 0 { ServedStays(s.log, e, s.served, |s.log|); }
    forall p | 0 <= p < |log| && log[p].TimeoutRequires? ensures GoodTimeout(log, p) {
      if p < |s.log| { assert GoodTimeout(s.log, p); }
    }
  }

  lemma PcsGrow(s: State, request: int, e: Event)
    requires s.request <= request && forall t | t in s.pcs :: PcOk(s, s.pcs[t])
    ensures var n := Note(s.(request := request), e); forall t | t in n.pcs :: PcOk(n, n.pcs[t])
  {
    var n := Note(s.(request := request), e);
    forall t | t in s.pcs ensures PcOk(n, n.pcs[t]) {
      var pc := s.pcs[t];
      assert PcOk(s, pc);
      if pc.TimeoutStored? { RequiresStays(s.log, e, pc.prompt); }
    }
  }

  lemma TimeoutGrows(s: State, e: Event)
    requires TimeoutOk(s) && !e.TimeoutRequires? && !e.Released?
    ensures TimeoutOk(s.(log := s.log + [e]))
  {
    LastStays(s.log, e);
    if s.timeout > 0 { RequiresStays(s.log, e, s.timeout); }
    if s.gate.Seen? { RequiresStays(s.log, e, s.gate.prompt); }
    if s.gate.Armed? { ArmedStays(s.log, e, s.gate.prompt, s.gate.required); }
    hide LastRequires;
  }

  lemma CountersNote(s: State, request: int, e: Event)
    requires CountersOk(s) && Fitting(s, request, e)
    ensures CountersOk(Note(s.(request := request), e))
  {
    GoodLogGrows(s, request, e);
    MatchGrows(s, request, e);
    PcsGrow(s, request, e);
    hide GoodLog, LogMatches, PcOk;
  }

  /** A step that appends a fitting entry, counting a request or changing no counter. */
  lemma NoteKeeps(s: State, request: int, e: Event)
    requires Inv(s) && Fitting(s, request, e) && !e.TimeoutRequires? && !e.Released?
    ensures Inv(Note(s.(request := request), e))
  {
    CountersNote(s, request, e);
    TimeoutGrows(s, e);
    hide CountersOk, Fitting;
  }

  lemma ServedMatches(s: State, v: int)
    requires CountersOk(s) && 0 < v <= s.request
    ensures LogMatches(Note(s.(served := v), Served(v)))
  {
    assert RequestedBetween(s.log, v, -1, |s.log|);
    MatchGrows(s, s.request, Served(v));
    var log := s.log + [Served(v)];
    assert log[|s.log|] == Served(v);
    BetweenStays(s.log, Served(v), v, -1, |s.log|);
    assert ServedBefore(log, v, |log|);
    hide GoodLog, GoodTimeout;
  }

  /** Setting the served counter to a requested wake. */
  lemma ServeKeeps(s: State, v: int)
    requires Inv(s) && 0 < v <= s.request
    ensures Inv(Note(s.(served := v), Served(v)))
  {
    assert RequestedBetween(s.log, v, -1, |s.log|);
    ServedMatches(s, v);
    GoodLogGrows(s, s.request, Served(v));
    PcsGrow(s, s.request, Served(v));
    TimeoutGrows(s, Served(v));
    var n := Note(s.(served := v), Served(v));
    hide GoodLog, LogMatches, TimeoutOk, RequestedBetween;
    assert TimeoutOk(n) by { TimeoutFrame(s.(log := n.log), n); }
    forall t | t in n.pcs ensures PcOk(n, n.pcs[t]) { assert PcOk(Note(s, Served(v)), n.pcs[t]); }
  }

  lemma TimeoutFrame(s: State, n: State)
    requires TimeoutOk(s) && n.required == s.required && n.timeout == s.timeout && n.handled == s.handled
    requires n.gate == s.gate && n.log == s.log
    ensures TimeoutOk(n)
  {
  }

  lemma GotoKeeps(s: State, t: nat, pc: Pc)
    requires Inv(s) && PcOk(s, pc)
    ensures Inv(Goto(s, t, pc))
  {
    var n := Goto(s, t, pc);
    forall u | u in n.pcs ensures PcOk(n, n.pcs[u]) {
      if u != t { assert PcOk(s, s.pcs[u]); }
      assert PcOk(s, n.pcs[u]);
    }
  }

  /** A published requirement is newer than the transition it read and than the write it follows. */
  lemma RequirementIsNewer(rawWriteSnapshot: int, transition: int, currentRequest: int)
    ensures var r := SelectTimeoutRequiredWakeSerial(rawWriteSnapshot, transition, currentRequest);
      && r > transition && (rawWriteSnapshot >= 0 || transition >= 0 ==> r > rawWriteSnapshot && r > 0)
      && (rawWriteSnapshot < 0 && currentRequest > transition ==> r == currentRequest)
      && (rawWriteSnapshot < 0 && 0 < currentRequest <= transition ==> r == transition + 1)
  {
  }

  /** Storing a requirement. */
  lemma TimeoutKeeps(s: State, prompt: int, write: Option<nat>, transition: int, current: int)
    requires Inv(s) && IsWrite(s.log, write)
    ensures var r := SelectTimeoutRequiredWakeSerial(SnapshotOf(s.log, write), transition, current);
            var n := Note(s.(required := r), TimeoutRequires(prompt, write, transition, r));
      Inv(n) && exists q :: RequiresFor(n.log, prompt, q)
  {
    var r := SelectTimeoutRequiredWakeSerial(SnapshotOf(s.log, write), transition, current);
    var e := TimeoutRequires(prompt, write, transition, r);
    RequirementIsNewer(SnapshotOf(s.log, write), transition, current);
    assert GoodTimeout(s.log + [e], |s.log|);
    var n := Note(s.(required := r), e);
    hide SelectTimeoutRequiredWakeSerial, GoodRelease;
    CountersNote(s, s.request, e);
    assert n.log[|s.log|] == e && RequiresFor(n.log, prompt, |s.log|);
    RequirementPublished(s, n, e);
    hide CountersOk, TimeoutOk;
    CountersFrame(Note(s, e), n);
  }

  lemma RequirementPublished(s: State, n: State, e: Event)
    requires TimeoutOk(s) && e.TimeoutRequires? && n == Note(s.(required := e.required), e)
    ensures TimeoutOk(n)
  {
    LastStays(s.log, e);
    assert n.log[|s.log|] == e;
    if s.timeout > 0 { RequiresStays(s.log, e, s.timeout); }
    if s.gate.Seen? { RequiresStays(s.log, e, s.gate.prompt); }
    if s.gate.Armed? { ArmedStays(s.log, e, s.gate.prompt, s.gate.required); }
    hide LastRequires;
  }

  /** With a live helper the gate opens only on evidence. */
  lemma ReadyHasEvidence(s: State, prompt: int, required: int)
    requires Inv(s) && required > 0 && ArmedBy(s.log, prompt, required) && s.served >= required
    ensures GoodRelease(s.log, prompt, required, |s.log|)
  {
    var q, p :| RequiresFor(s.log, prompt, q) && q <= p < |s.log|
      && s.log[p].TimeoutRequires? && s.log[p].required == required;
    assert GoodTimeout(s.log, p);
    var v := s.served;
    assert RequestedBetween(s.log, v, -1, |s.log|);
    if s.log[p].write.Some? {
      var w := s.log[p].write.value;
      var i :| -1 < i < |s.log| && s.log[i] == Requested(v);
      assert w <= i;
      assert RequestedBetween(s.log, v, w, |s.log|);
    }
    assert Evidence(s.log, prompt, required, |s.log|, q, p, v);
  }

  lemma WriterKeeps(s: State, a: Action)
    requires Inv(s) && (a.WriteWake? || a.CaptureWrite?)
    ensures Inv(Next(s, a))
  {
    hide Inv, GoodRelease, GoodTimeout;
    if a.t in s.pcs && s.pcs[a.t].Free? {
      if a.WriteWake? {
        NoteKeeps(s, s.request + 1, Requested(s.request + 1));
      } else {
        NoteKeeps(s, s.request, WriteSeen(s.request));
      }
    }
  }

  lemma ReaderKeeps(s: State, a: Action)
    requires Inv(s) && (a.ReaderLoadRequest? || a.ReaderLoadServed? || a.ReaderDeliver?)
    ensures Inv(Next(s, a))
  {
    if a.t in s.pcs {
      var pc := s.pcs[a.t];
      assert PcOk(s, pc);
      match a
      case ReaderLoadRequest(t) => GotoKeeps(s, t, ReaderLoaded(s.request));
      case ReaderLoadServed(t) =>
        if pc.ReaderLoaded? { GotoKeeps(s, t, if pc.request > s.served then ReaderServing(pc.request) else Free); }
      case ReaderDeliver(t, copied) =>
        GotoKeeps(s, t, Free);
        if pc.ReaderServing? && copied { ServeKeeps(Goto(s, t, Free), pc.request); }
    }
  }

  lemma FlushKeeps(s: State, a: Action)
    requires Inv(s) && (a.FlushSnapshot? || a.FlushNative? || a.FlushTurn?)
    ensures Inv(Next(s, a))
  {
    if a.t in s.pcs {
      var pc := s.pcs[a.t];
      assert PcOk(s, pc);
      match a
      case FlushSnapshot(t) => GotoKeeps(s, t, Flushing(s.request));
      case FlushNative(t, ok) =>
        if pc.Flushing? { GotoKeeps(s, t, if ok then FlushLoop(pc.snapshot, s.served) else Free); }
      case FlushTurn(t) => if pc.FlushLoop? { FlushTurnKeeps(s, t, pc); }
    }
  }

  lemma FlushPlaces(s: State, pc: Pc)
    requires Inv(s) && pc.FlushLoop? && PcOk(s, pc)
    ensures 0 <= pc.seen && pc.snapshot <= s.request && PcOk(s, pc.(seen := s.served)) && PcOk(s, Free)
  {
  }

  lemma FlushTurnKeeps(s: State, t: nat, pc: Pc)
    requires Inv(s) && pc.FlushLoop? && PcOk(s, pc)
    ensures Inv(FlushStep(s, t, pc))
  {
    hide Inv, PcOk, GoodRelease, GoodTimeout, RequestedBetween;
    FlushPlaces(s, pc);
    GotoKeeps(s, t, Free);
    var f := Goto(s, t, Free);
    if pc.seen >= pc.snapshot {
      NoteKeeps(f, f.request, FlushReturned(pc.snapshot, pc.seen));
    } else if s.served == pc.seen {
      ServeKeeps(f, pc.snapshot);
      var n := Note(f.(served := pc.snapshot), Served(pc.snapshot));
      NoteKeeps(n, n.request, FlushReturned(pc.snapshot, pc.snapshot));
    } else {
      GotoKeeps(s, t, pc.(seen := s.served));
    }
  }

  /** A change of words that neither the counters nor the threads' places depend on. */
  lemma WordsKeep(s: State, n: State)
    requires Inv(s) && TimeoutOk(n)
    requires n == s.(prompt := n.prompt, transition := n.transition, timeout := n.timeout, gate := n.gate)
    ensures Inv(n)
  {
    hide CountersOk, TimeoutOk;
    CountersFrame(s, n);
  }

  lemma PromptKeeps(s: State, a: Action)
    requires Inv(s) && (a.PromptCheck? || a.PromptTurn?)
    ensures Inv(Next(s, a))
  {
    hide Inv, SelectPromptTransitionWakeSerial;
    if a.t in s.pcs && Next(s, a) != s {
      match a
      case PromptCheck(t, serial, write) => GotoKeeps(s, t, PromptChecked(serial, SnapshotOf(s.log, write)));
      case PromptTurn(t) => PromptStepKeeps(s, t, s.pcs[t]);
    }
  }

  lemma PromptStepKeeps(s: State, t: nat, pc: Pc)
    requires Inv(s) && t in s.pcs
    ensures Inv(PromptStep(s, t, pc))
  {
    hide Inv, SelectPromptTransitionWakeSerial;
    var n := PromptStep(s, t, pc);
    if n != s {
      var m := Goto(s, t, n.pcs[t]);
      GotoKeeps(s, t, n.pcs[t]);
      InvTimeout(m);
      TimeoutFrame(m, n);
      hide TimeoutOk;
      WordsKeep(m, n);
    }
  }

  lemma InvTimeout(s: State)
    requires Inv(s)
    ensures TimeoutOk(s)
  {
  }

  lemma PublisherKeeps(s: State, a: Action)
    requires Inv(s) && (a.TimeoutPrompt? || a.TimeoutCheck? || a.TimeoutTurn?)
    ensures Inv(Next(s, a))
  {
    if a.t in s.pcs && Next(s, a) != s {
      var pc := s.pcs[a.t];
      assert PcOk(s, pc);
      match a
      case TimeoutPrompt(t, write) => GotoKeeps(s, t, TimeoutPrompted(s.prompt, write));
      case TimeoutCheck(t, held) =>
        GotoKeeps(s, t, if held && s.timeout < pc.prompt then TimeoutChecked(pc.prompt, pc.write) else Free);
      case TimeoutTurn(t) => TimeoutStepKeeps(s, t);
    }
  }

  lemma Announced(s: State, prompt: int)
    requires Inv(s) && exists q :: RequiresFor(s.log, prompt, q)
    ensures Inv(s.(timeout := prompt))
  {
    WordsKeep(s, s.(timeout := prompt));
  }

  lemma TimeoutStepKeeps(s: State, t: nat)
    requires Inv(s) && t in s.pcs
    ensures Inv(TimeoutStep(s, t, s.pcs[t]))
  {
    var pc := s.pcs[t];
    assert PcOk(s, pc);
    hide Inv, SelectTimeoutRequiredWakeSerial, RequiresFor;
    match pc
    case TimeoutChecked(prompt, write) => GotoKeeps(s, t, TimeoutLoaded(prompt, write, s.transition));
    case TimeoutLoaded(prompt, write, transition) =>
      GotoKeeps(s, t, TimeoutCounted(prompt, write, transition, s.request));
    case TimeoutCounted(prompt, write, transition, current) =>
      TimeoutKeeps(s, prompt, write, transition, current);
      var r := SelectTimeoutRequiredWakeSerial(SnapshotOf(s.log, write), transition, current);
      GotoKeeps(Note(s.(required := r), TimeoutRequires(prompt, write, transition, r)), t, TimeoutStored(prompt));
    case TimeoutStored(prompt) =>
      GotoKeeps(s, t, Free);
      Announced(Goto(s, t, Free), prompt);
    case _ =>
  }

  lemma GateKeeps(s: State, helperAlive: bool)
    requires Inv(s)
    ensures Inv(GateStep(s, helperAlive))
  {
    match s.gate
    case Rest => WordsKeep(s, GateStep(s, helperAlive));
    case Seen(prompt) =>
      var q :| RequiresFor(s.log, prompt, q);
      assert q <= LastRequires(s.log);
      assert ArmedBy(s.log, prompt, s.required);
      WordsKeep(s, GateStep(s, helperAlive));
    case Armed(prompt, required) =>
      if CleanupReady(helperAlive, s.served, required) {
        ReleaseKeeps(s, helperAlive);
      } else {
        WordsKeep(s, GateStep(s, helperAlive));
      }
  }

  lemma ReleasedTimeouts(s: State, e: Event)
    requires TimeoutOk(s) && s.gate.Armed? && e.Released? && e.prompt == s.gate.prompt
    ensures TimeoutOk(Note(s.(gate := Rest, handled := s.gate.prompt), e))
  {
    LastStays(s.log, e);
    if s.timeout > 0 { RequiresStays(s.log, e, s.timeout); }
    hide LastRequires, ArmedBy;
  }

  lemma ReleaseKeeps(s: State, helperAlive: bool)
    requires Inv(s) && s.gate.Armed? && CleanupReady(helperAlive, s.served, s.gate.required)
    ensures Inv(GateStep(s, helperAlive))
  {
    hide CountersOk, TimeoutOk, GoodRelease, ArmedBy;
    var e := Released(s.gate.prompt, helperAlive, s.gate.required);
    GateArmed(s);
    if helperAlive { ReadyHasEvidence(s, s.gate.prompt, s.gate.required); }
    var n := GateStep(s, helperAlive);
    ReleasedTimeouts(s, e);
    CountersNote(s, s.request, e);
    CountersFrame(Note(s, e), n);
  }

  lemma GateArmed(s: State)
    requires Inv(s) && s.gate.Armed?
    ensures ArmedBy(s.log, s.gate.prompt, s.gate.required)
  {
  }

  lemma NextKeeps(s: State, a: Action)
    requires Inv(s)
    ensures Inv(Next(s, a))
  {
    hide Inv, GateStep, FlushStep, PromptStep, TimeoutStep;
    match a
    case WriteWake(_) => WriterKeeps(s, a);
    case CaptureWrite(_) => WriterKeeps(s, a);
    case ReaderLoadRequest(_) => ReaderKeeps(s, a);
    case ReaderLoadServed(_) => ReaderKeeps(s, a);
    case ReaderDeliver(_, _) => ReaderKeeps(s, a);
    case FlushSnapshot(_) => FlushKeeps(s, a);
    case FlushNative(_, _) => FlushKeeps(s, a);
    case FlushTurn(_) => FlushKeeps(s, a);
    case PromptCheck(_, _, _) => PromptKeeps(s, a);
    case PromptTurn(_) => PromptKeeps(s, a);
    case TimeoutPrompt(_, _) => PublisherKeeps(s, a);
    case TimeoutCheck(_, _) => PublisherKeeps(s, a);
    case TimeoutTurn(_) => PublisherKeeps(s, a);
    case GateTurn(alive) => GateKeeps(s, alive);
  }

  lemma {:induction false} ExecKeeps(s: State, acts: seq<Action>)
    requires Inv(s)
    ensures Inv(Exec(s, acts))
    decreases |acts|
  {
    if acts != [] {
      NextKeeps(s, acts[0]);
      ExecKeeps(Next(s, acts[0]), acts[1..]);
    }
  }

  // ----- main results, over every interleaving

  /** Served never passes requested, a finished flush saw the counter at its snapshot or above, a release of a
      live helper rests on a served wake that is new enough, and no prompt is released twice. */
  lemma WakesAreAccounted(s: State, acts: seq<Action>)
    requires Init(s)
    ensures var n := Exec(s, acts); 0 <= n.served <= n.request && GoodLog(n.log) && ReleasedOnce(n.log)
  {
    ExecKeeps(s, acts);
  }

  /** The only step that lowers the served counter is a reader storing a request it read before a
      newer wake was served; in particular no flush ever lowers it. */
  lemma OnlyLateReadersLower(s: State, a: Action)
    ensures Next(s, a).served < s.served <==>
      a.ReaderDeliver? && a.copied && a.t in s.pcs && s.pcs[a.t].ReaderServing? && s.pcs[a.t].request < s.served
  {
  }

  // ----- when the served counter never goes down

  /** Between loading the request count and delivering it. */
  predicate Reading(pc: Pc) { pc.ReaderLoaded? || pc.ReaderServing? }

  /** Does this step store the served counter? */
  predicate Stores(s: State, a: Action) {
    !a.GateTurn? && a.t in s.pcs &&
    var pc := s.pcs[a.t];
    (a.ReaderDeliver? && a.copied && pc.ReaderServing?)
    || (a.FlushTurn? && pc.FlushLoop? && pc.seen < pc.snapshot && s.served == pc.seen)
  }

  /** No thread stores the counter while another one is reading. */
  ghost predicate Undisturbed(s: State, acts: seq<Action>)
    decreases |acts|
  {
    acts != [] ==>
      && (Stores(s, acts[0]) ==> forall t: nat | t in s.pcs && t != acts[0].t :: !Reading(s.pcs[t]))
      && Undisturbed(Next(s, acts[0]), acts[1..])
  }

  /** A reader that is about to deliver holds a request newer than anything served. */
  ghost predicate ReadersFresh(s: State) {
    forall t: nat | t in s.pcs && s.pcs[t].ReaderServing? :: s.pcs[t].request > s.served
  }

  lemma FreshStays(s: State, a: Action)
    requires ReadersFresh(s)
    requires Stores(s, a) ==> forall t: nat | t in s.pcs && t != a.t :: !Reading(s.pcs[t])
    ensures ReadersFresh(Next(s, a)) && Next(s, a).served >= s.served
  {
    StoringStep(s, a);
    hide Next;
    forall t: nat | t in Next(s, a).pcs && Next(s, a).pcs[t].ReaderServing?
      ensures Next(s, a).pcs[t].request > Next(s, a).served
    {
      if t in s.pcs && s.pcs[t].ReaderServing? { assert s.pcs[t].request > s.served; }
    }
  }

  /** What a step does to the served counter and to who is about to deliver. */
  lemma StoringStep(s: State, a: Action)
    ensures var n := Next(s, a);
      && (!Stores(s, a) ==> n.served == s.served)
      && (forall t: nat :: t in n.pcs && n.pcs[t].ReaderServing? ==>
            (t in s.pcs && s.pcs[t] == n.pcs[t]) || n.pcs[t].request > n.served == s.served)
      && (Stores(s, a) ==>
            && n.pcs == s.pcs[a.t := Free]
            && n.served == if a.ReaderDeliver? then s.pcs[a.t].request else s.pcs[a.t].snapshot)
  {
    hide SelectTimeoutRequiredWakeSerial, SelectPromptTransitionWakeSerial, CleanupReady, IsWrite, SnapshotOf;
  }

  /** In every run in which no thread stores the counter while another is between its load and its delivery,
      the served counter never goes down. */
  lemma {:induction false} UndisturbedNeverLowers(s: State, acts: seq<Action>, i: nat, j: nat)
    requires ReadersFresh(s) && Undisturbed(s, acts) && i <= j <= |acts|
    ensures Exec(s, acts[..i]).served <= Exec(s, acts[..j]).served
    decreases |acts|
  {
    if j == 0 {
      assert acts[..0] == [];
    } else {
      FreshStays(s, acts[0]);
      assert acts[..j][1..] == acts[1..][..j - 1];
      if i > 0 {
        assert acts[..i][1..] == acts[1..][..i - 1];
        UndisturbedNeverLowers(Next(s, acts[0]), acts[1..], i - 1, j - 1);
      } else {
        assert acts[..0] == [] && acts[1..][..0] == [];
        UndisturbedNeverLowers(Next(s, acts[0]), acts[1..], 0, j - 1);
        assert Exec(Next(s, acts[0]), []) == Next(s, acts[0]);
      }
    }
  }

  /** Two overlapping readers break it: one reads request 1, a second wake is written, read and delivered by the
      other, then the first stores 1 over 2. */
  lemma OverlappingReadersLower(s: State) returns (acts: seq<Action>)
    requires Init(s) && s.pcs == map[0 := Free, 1 := Free]
    ensures Exec(s, acts).served == 2 && Exec(s, acts + [ReaderDeliver(0, true)]).served == 1
    ensures !Undisturbed(s, acts + [ReaderDeliver(0, true)])
  {
    var early := [WriteWake(1), ReaderLoadRequest(0), ReaderLoadServed(0)];
    var late := [WriteWake(1), ReaderLoadRequest(1), ReaderLoadServed(1), ReaderDeliver(1, true)];
    acts := early + late;
    EarlyReader(s);
    LateReader(Exec(s, early));
    ExecConcat(s, early, late);
    ExecSnoc(s, acts, ReaderDeliver(0, true));
    var all := acts + [ReaderDeliver(0, true)];
    assert all[..|acts|] == acts && all[..|all|] == all;
    if Undisturbed(s, all) { UndisturbedNeverLowers(s, all, |acts|, |all|); }
  }

  lemma EarlyReader(s: State)
    requires Init(s) && s.pcs == map[0 := Free, 1 := Free]
    ensures var n := Exec(s, [WriteWake(1), ReaderLoadRequest(0), ReaderLoadServed(0)]);
      n.request == 1 && n.served == 0 && n.pcs == map[0 := ReaderServing(1), 1 := Free]
  {
    var a, b, c := WriteWake(1), ReaderLoadRequest(0), ReaderLoadServed(0);
    var s2 := Next(Next(s, a), b);
    assert s2.request == 1 && s2.served == 0 && s2.pcs == map[0 := ReaderLoaded(1), 1 := Free];
    Unfold(s, a, [b, c]);
    Unfold(Next(s, a), b, [c]);
    Unfold(s2, c, []);
  }

  lemma LateReader(s: State)
    requires s.request == 1 && s.served == 0 && s.pcs == map[0 := ReaderServing(1), 1 := Free]
    ensures var n := Exec(s, [WriteWake(1), ReaderLoadRequest(1), ReaderLoadServed(1), ReaderDeliver(1, true)]);
      n.served == 2 && n.pcs == map[0 := ReaderServing(1), 1 := Free]
  {
    var a, b, c, d := WriteWake(1), ReaderLoadRequest(1), ReaderLoadServed(1), ReaderDeliver(1, true);
    var s1 := Next(s, a);
    var s2 := Next(s1, b);
    var s3 := Next(s2, c);
    assert s2.request == 2 && s2.served == 0 && s2.pcs == map[0 := ReaderServing(1), 1 := ReaderLoaded(2)];
    assert s3.pcs == map[0 := ReaderServing(1), 1 := ReaderServing(2)];
    assert Next(s3, d).pcs == map[0 := ReaderServing(1), 1 := Free];
    Unfold(s, a, [b, c, d]);
    Unfold(s1, b, [c, d]);
    Unfold(s2, c, [d]);
    Unfold(s3, d, []);
  }

  lemma Unfold(s: State, a: Action, acts: seq<Action>)
    ensures Exec(s, [a] + acts) == Exec(Next(s, a), acts)
  {
    assert ([a] + acts)[1..] == acts;
  }

  lemma {:induction false} ExecSnoc(s: State, acts: seq<Action>, a: Action)
    ensures Exec(s, acts + [a]) == Next(Exec(s, acts), a)
    decreases |acts|
  {
    hide Next;
    if acts == [] {
      assert [] + [a] == [a] && [a][1..] == [];
      assert Exec(Next(s, a), []) == Next(s, a);
    } else {
      assert (acts + [a])[1..] == acts[1..] + [a];
      ExecSnoc(Next(s, acts[0]), acts[1..], a);
    }
  }

  lemma {:induction false} ExecConcat(s: State, before: seq<Action>, after: seq<Action>)
    ensures Exec(s, before + after) == Exec(Exec(s, before), after)
    decreases |before|
  {
    hide Next;
    if before == [] {
      assert before + after == after;
    } else {
      assert (before + after)[1..] == before[1..] + after;
      ExecConcat(Next(s, before[0]), before[1..], after);
    }
  }
}
