/**
 The lobby's match lifecycle: one atomic phase word, changed by any number of threads through
 compare-and-swap. Every atomic access is one step; between two steps of a call any other thread
 may run. A weak compare-and-swap may also fail for no reason.

 `log`, `epoch` and `done` are history: they are written by the steps that take effect and read by none.
 */
module MatchLifecycle {

  datatype Phase = Idle | Challenging | Connected | Returning | EndingConnected | Ending

  /** What the compare-and-swap that ended a challenge was: the two effective results of BeginEnd,
      or a Reject. */
  datatype Ending = AsChallenge | AsConnected | AsReject(queueEnd: bool)

  datatype Event =
    | Opened(epoch: nat)
    | Ended(epoch: nat, how: Ending)
    | Consumed(epoch: nat)

  datatype Op = Resets | BeginsChallenge | Connects | ConsumesReturn | Rejects(queueEnd: bool) | BeginsEnd

  datatype Answer = Nothing | Yes | No | NoMatch | AlreadyReturning | EndedChallenge | EndedConnected

  /** A call that has taken effect, and what it returns. */
  datatype Effect = Effect(t: nat, op: Op, answer: Answer)

  /** Where a thread is inside a call; `seen` is the local copy of the phase. */
  datatype Call =
    | Free
    | Rejecting(queueEnd: bool, seen: Phase)
    | EndingMatch(seen: Phase)

  datatype State = State(phase: Phase, calls: map<nat, Call>, epoch: nat, log: seq<Event>, done: seq<Effect>)

  datatype Action =
    | Reset(t: nat)
    | BeginChallenge(t: nat)
    | Connect(t: nat)
    | ConsumeReturn(t: nat)
    | RejectLoad(t: nat, queueEnd: bool)
    | RejectSwap(t: nat, spurious: bool)
    | EndLoad(t: nat)
    | EndSwap(t: nat, spurious: bool)

  ghost predicate Init(s: State) {
    s.phase == Idle && s.epoch == 0 && s.log == [] && s.done == [] && forall t | t in s.calls :: s.calls[t] == Free
  }

  predicate Live(p: Phase) { p == Challenging || p == Connected }

  function Did(s: State, t: nat, op: Op, answer: Answer): State { s.(done := s.done + [Effect(t, op, answer)]) }

  /** One atomic step; an action whose thread is elsewhere leaves the state alone. */
  function Next(s: State, a: Action): State {
    if a.t !in s.calls then s else
    var c := s.calls[a.t];
    match a
    case Reset(t) => if c.Free? then Did(s.(phase := Idle), t, Resets, Nothing) else s
    case BeginChallenge(t) => if c.Free? then BeginStep(s, t) else s
    case Connect(t) =>
      if !c.Free? then s
      else if s.phase == Challenging then Did(s.(phase := Connected), t, Connects, Yes)
      else Did(s, t, Connects, if s.phase == Connected then Yes else No)
    case ConsumeReturn(t) => if c.Free? then ConsumeStep(s, t) else s
    case RejectLoad(t, queueEnd) => if c.Free? then RejectSees(s, t, queueEnd) else s
    case RejectSwap(t, spurious) => if c.Rejecting? then RejectStep(s, t, c, spurious) else s
    case EndLoad(t) => if c.Free? then EndSees(s, t) else s
    case EndSwap(t, spurious) => if c.EndingMatch? then EndStep(s, t, c, spurious) else s
  }

  function BeginStep(s: State, t: nat): State {
    if s.phase != Idle then Did(s, t, BeginsChallenge, No)
    else
      Did(s.(phase := Challenging, epoch := s.epoch + 1, log := s.log + [Opened(s.epoch + 1)]),
          t, BeginsChallenge, Yes)
  }

  function ConsumeStep(s: State, t: nat): State {
    if s.phase != Returning then Did(s, t, ConsumesReturn, No)
    else Did(s.(phase := EndingConnected, log := s.log + [Consumed(s.epoch)]), t, ConsumesReturn, Yes)
  }

  /** The loops of Reject and BeginEnd read the phase; if it is not a live one the call takes effect there. */
  function RejectSees(s: State, t: nat, queueEnd: bool): State {
    var n := s.(calls := s.calls[t := Rejecting(queueEnd, s.phase)]);
    if Live(s.phase) then n else Did(n, t, Rejects(queueEnd), Nothing)
  }

  function EndSees(s: State, t: nat): State {
    var n := s.(calls := s.calls[t := EndingMatch(s.phase)]);
    if Live(s.phase) then n else Did(n, t, BeginsEnd, if s.phase == Returning then AlreadyReturning else NoMatch)
  }

  /** One turn of the loop in Reject. */
  function RejectStep(s: State, t: nat, c: Call, spurious: bool): State
    requires c.Rejecting?
  {
    if !Live(c.seen) then s.(calls := s.calls[t := Free])
    else if s.phase == c.seen && !spurious then
      Did(s.(phase := if c.queueEnd then Phase.Ending else Idle,
             calls := s.calls[t := Free],
             log := s.log + [Ended(s.epoch, AsReject(c.queueEnd))]),
          t, Rejects(c.queueEnd), Nothing)
    else RejectSees(s, t, c.queueEnd)
  }

  /** One turn of the loop in BeginEnd. */
  function EndStep(s: State, t: nat, c: Call, spurious: bool): State
    requires c.EndingMatch?
  {
    if !Live(c.seen) then s.(calls := s.calls[t := Free])
    else if s.phase == c.seen && !spurious then
      var challenge := c.seen == Challenging;
      Did(s.(phase := if challenge then Phase.Ending else Returning,
             calls := s.calls[t := Free],
             log := s.log + [Ended(s.epoch, if challenge then AsChallenge else AsConnected)]),
          t, BeginsEnd, if challenge then EndedChallenge else EndedConnected)
    else EndSees(s, t)
  }

  function Exec(s: State, acts: seq<Action>): State
    decreases |acts|
  {
    if acts == [] then s else Exec(Next(s, acts[0]), acts[1..])
  }

  // ----- what the history says

  ghost predicate EndedIn(log: seq<Event>, e: nat) {
    exists i :: 0 <= i < |log| && log[i].Ended? && log[i].epoch == e
  }

  ghost predicate ConsumedIn(log: seq<Event>, e: nat) {
    exists i :: 0 <= i < |log| && log[i] == Consumed(e)
  }

  ghost predicate ConnectedEndBefore(log: seq<Event>, e: nat, j: int) {
    exists i :: 0 <= i < j && i < |log| && log[i] == Ended(e, AsConnected)
  }

  /** At most one effective end and one consumed return for each challenge, the return after the end
      that reported a connected match. */
  ghost predicate ExactlyOnce(log: seq<Event>) {
    && (forall i, j :: 0 <= i < j < |log| && log[i].Ended? && log[j].Ended? ==> log[i].epoch != log[j].epoch)
    && (forall i, j :: 0 <= i < j < |log| && log[i].Consumed? && log[j].Consumed? ==> log[i].epoch != log[j].epoch)
    && (forall j :: 0 <= j < |log| && log[j].Consumed? ==> ConnectedEndBefore(log, log[j].epoch, j))
  }

  ghost predicate Inv(s: State) {
    && ExactlyOnce(s.log)
    && (forall i :: 0 <= i < |s.log| ==> s.log[i].epoch <= s.epoch)
    && (s.phase == Challenging || s.phase == Connected ==> !EndedIn(s.log, s.epoch) && !ConsumedIn(s.log, s.epoch))
    && (s.phase == Returning ==> ConnectedEndBefore(s.log, s.epoch, |s.log|) && !ConsumedIn(s.log, s.epoch))
  }

  lemma EarlierEndStays(log: seq<Event>, x: Event, e: nat, j: nat)
    requires j <= |log| && ConnectedEndBefore(log, e, j)
    ensures ConnectedEndBefore(log + [x], e, j)
  {
    var i :| 0 <= i < j && i < |log| && log[i] == Ended(e, AsConnected);
    assert (log + [x])[i] == log[i];
  }

  lemma AppendEnded(s: State, how: Ending)
    requires Inv(s) && (s.phase == Challenging || s.phase == Connected)
    ensures var log := s.log + [Ended(s.epoch, how)];
      && ExactlyOnce(log) && !ConsumedIn(log, s.epoch)
      && (how == AsConnected ==> ConnectedEndBefore(log, s.epoch, |log|))
  {
    var log := s.log + [Ended(s.epoch, how)];
    assert log[|s.log|] == Ended(s.epoch, how);
    forall j | 0 <= j < |log| && log[j].Consumed? ensures ConnectedEndBefore(log, log[j].epoch, j) {
      EarlierEndStays(s.log, log[|s.log|], s.log[j].epoch, j);
    }
    forall i, j | 0 <= i < j < |log| && log[i].Ended? && log[j].Ended? ensures log[i].epoch != log[j].epoch {
      if j == |s.log| { assert !EndedIn(s.log, s.epoch); }
    }
  }

  lemma AppendConsumed(s: State)
    requires Inv(s) && s.phase == Returning
    ensures ExactlyOnce(s.log + [Consumed(s.epoch)])
  {
    var log := s.log + [Consumed(s.epoch)];
    forall j | 0 <= j < |log| && log[j].Consumed? ensures ConnectedEndBefore(log, log[j].epoch, j) {
      EarlierEndStays(s.log, log[|s.log|], log[j].epoch, j);
    }
    forall i, j | 0 <= i < j < |log| && log[i].Consumed? && log[j].Consumed? ensures log[i].epoch != log[j].epoch {
      if j == |s.log| { assert !ConsumedIn(s.log, s.epoch); }
    }
  }

  lemma AppendOpened(s: State, t: nat)
    requires Inv(s)
    ensures Inv(BeginStep(s, t))
  {
    var log := s.log + [Opened(s.epoch + 1)];
    forall j | 0 <= j < |log| && log[j].Consumed? ensures ConnectedEndBefore(log, log[j].epoch, j) {
      EarlierEndStays(s.log, log[|s.log|], log[j].epoch, j);
    }
  }

  lemma EndedKeeps(s: State, how: Ending, phase: Phase, calls: map<nat, Call>)
    requires Inv(s) && (s.phase == Challenging || s.phase == Connected)
    requires phase == Returning ==> how == AsConnected
    requires phase != Challenging && phase != Connected
    ensures Inv(s.(phase := phase, calls := calls, log := s.log + [Ended(s.epoch, how)]))
  {
    AppendEnded(s, how);
    hide ExactlyOnce, EndedIn, ConsumedIn, ConnectedEndBefore;
  }

  lemma ConsumedKeeps(s: State, t: nat)
    requires Inv(s)
    ensures Inv(ConsumeStep(s, t))
  {
    if s.phase == Returning { AppendConsumed(s); }
    hide ExactlyOnce, EndedIn, ConsumedIn, ConnectedEndBefore;
  }

  lemma RejectKeeps(s: State, t: nat, c: Call, spurious: bool)
    requires Inv(s) && c.Rejecting?
    ensures Inv(RejectStep(s, t, c, spurious))
  {
    if s.phase == Challenging || s.phase == Connected {
      EndedKeeps(s, AsReject(c.queueEnd), if c.queueEnd then Phase.Ending else Idle, s.calls[t := Free]);
    }
    hide ExactlyOnce, EndedIn, ConsumedIn, ConnectedEndBefore;
  }

  lemma EndKeeps(s: State, t: nat, c: Call, spurious: bool)
    requires Inv(s) && c.EndingMatch?
    ensures Inv(EndStep(s, t, c, spurious))
  {
    if s.phase == Challenging || s.phase == Connected {
      var challenge := c.seen == Challenging;
      EndedKeeps(s, if challenge then AsChallenge else AsConnected, if challenge then Phase.Ending else Returning,
        s.calls[t := Free]);
    }
    hide ExactlyOnce, EndedIn, ConsumedIn, ConnectedEndBefore;
  }

  lemma NextKeeps(s: State, a: Action)
    requires Inv(s)
    ensures Inv(Next(s, a))
  {
    hide ExactlyOnce, EndedIn, ConsumedIn, ConnectedEndBefore, RejectStep, EndStep, BeginStep, ConsumeStep;
    if a.t in s.calls {
      var c := s.calls[a.t];
      match a
      case BeginChallenge(t) => AppendOpened(s, t);
      case ConsumeReturn(t) => ConsumedKeeps(s, t);
      case RejectSwap(t, spurious) => if c.Rejecting? { RejectKeeps(s, t, c, spurious); }
      case EndSwap(t, spurious) => if c.EndingMatch? { EndKeeps(s, t, c, spurious); }
      case _ =>
    }
  }

  lemma {:induction false} ExecKeeps(s: State, acts: seq<Action>)
    requires Inv(s)
    ensures Inv(Exec(s, acts))
    decreases |acts|
  {
    if acts != [] {
      NextKeeps(s, acts[0]);
      ExecKeeps(Next(s, acts[0]), acts[1..]);
    }
  }

  /** Every interleaving, with any number of threads and any spurious failures. */
  lemma EndsExactlyOnce(s: State, acts: seq<Action>)
    requires Init(s)
    ensures ExactlyOnce(Exec(s, acts).log)
  {
    ExecKeeps(s, acts);
  }

  // ----- every interleaving is a sequence of whole calls

  /** The lifecycle as a sequential object: what a call does to the phase, and its answer. */
  function Meaning(p: Phase, op: Op): (Phase, Answer) {
    match op
    case Resets => (Idle, Nothing)
    case BeginsChallenge => if p == Idle then (Challenging, Yes) else (p, No)
    case Connects => if Live(p) then (Connected, Yes) else (p, No)
    case ConsumesReturn => if p == Returning then (EndingConnected, Yes) else (p, No)
    case Rejects(queueEnd) => if Live(p) then (if queueEnd then Phase.Ending else Idle, Nothing) else (p, Nothing)
    case BeginsEnd =>
      (match p
       case Challenging => (Phase.Ending, EndedChallenge)
       case Connected => (Returning, EndedConnected)
       case Returning => (p, AlreadyReturning)
       case _ => (p, NoMatch))
  }

  function PhaseAfter(done: seq<Effect>): Phase {
    if done == [] then Idle else Meaning(PhaseAfter(done[..|done| - 1]), done[|done| - 1].op).0
  }

  /** The challenges opened, and what these calls have opened, ended and consumed. */
  function Challenges(done: seq<Effect>): nat {
    if done == [] then 0 else
    var e := done[|done| - 1];
    Challenges(done[..|done| - 1]) + if e.op == BeginsChallenge && e.answer == Yes then 1 else 0
  }

  function Happens(p: Phase, challenge: nat, e: Effect): seq<Event> {
    match e.op
    case BeginsChallenge => if e.answer == Yes then [Opened(challenge + 1)] else []
    case ConsumesReturn => if e.answer == Yes then [Consumed(challenge)] else []
    case Rejects(queueEnd) => if Live(p) then [Ended(challenge, AsReject(queueEnd))] else []
    case BeginsEnd =>
      if e.answer == EndedChallenge then [Ended(challenge, AsChallenge)]
      else if e.answer == EndedConnected then [Ended(challenge, AsConnected)] else []
    case _ => []
  }

  function Happened(done: seq<Effect>): seq<Event> {
    if done == [] then [] else
    var before := done[..|done| - 1];
    Happened(before) + Happens(PhaseAfter(before), Challenges(before), done[|done| - 1])
  }

  ghost predicate Sequential(s: State) {
    && s.phase == PhaseAfter(s.done) && AnswersRight(s.done)
    && s.epoch == Challenges(s.done) && s.log == Happened(s.done)
  }

  /** Each call answers what the object answers after the calls before it. */
  ghost predicate AnswersRight(done: seq<Effect>) {
    forall k :: 0 <= k < |done| ==> done[k].answer == Meaning(PhaseAfter(done[..k]), done[k].op).1
  }

  /** Has this call of a loop already taken effect, so that it only returns? */
  predicate Over(c: Call) { !c.Free? && !Live(c.seen) }

  lemma EffectAppends(done: seq<Effect>, e: Effect)
    requires AnswersRight(done) && e.answer == Meaning(PhaseAfter(done), e.op).1
    ensures AnswersRight(done + [e]) && PhaseAfter(done + [e]) == Meaning(PhaseAfter(done), e.op).0
    ensures Happened(done + [e]) == Happened(done) + Happens(PhaseAfter(done), Challenges(done), e)
    ensures Challenges(done + [e]) == Challenges(done) + if e.op == BeginsChallenge && e.answer == Yes then 1 else 0
  {
    var n := done + [e];
    assert n[..|done|] == done;
    forall k | 0 <= k < |n| ensures n[k].answer == Meaning(PhaseAfter(n[..k]), n[k].op).1 {
      if k < |done| { assert n[..k] == done[..k]; }
    }
  }

  /** A step takes effect as at most one whole call of its own thread. */
  ghost predicate TakesEffect(s: State, n: State, t: nat) {
    || (n.done == s.done && n.phase == s.phase && n.epoch == s.epoch && n.log == s.log)
    || exists op :: IsEffect(s, n, Effect(t, op, Meaning(s.phase, op).1))
  }

  predicate IsEffect(s: State, n: State, e: Effect) {
    && n.done == s.done + [e] && n.phase == Meaning(s.phase, e.op).0
    && n.log == s.log + Happens(s.phase, s.epoch, e)
    && n.epoch == s.epoch + if e.op == BeginsChallenge && e.answer == Yes then 1 else 0
  }

  lemma StepTakesEffect(s: State, a: Action)
    requires a.t in s.calls
    ensures TakesEffect(s, Next(s, a), a.t)
  {
    var n := Next(s, a);
    var op := match a
      case Reset(_) => Resets
      case BeginChallenge(_) => BeginsChallenge
      case Connect(_) => Connects
      case ConsumeReturn(_) => ConsumesReturn
      case RejectLoad(_, queueEnd) => Rejects(queueEnd)
      case RejectSwap(t, _) => if s.calls[t].Rejecting? then Rejects(s.calls[t].queueEnd) else Resets
      case _ => BeginsEnd;
    if n.done != s.done { assert IsEffect(s, n, Effect(a.t, op, Meaning(s.phase, op).1)); }
  }

  lemma StepIsACall(s: State, a: Action)
    requires Sequential(s)
    ensures Sequential(Next(s, a)) && s.done <= Next(s, a).done
  {
    if a.t in s.calls {
      StepTakesEffect(s, a);
      hide Next;
      EffectKeeps(s, Next(s, a), a.t);
    } else {
      assert Next(s, a) == s;
    }
  }

  lemma EffectKeeps(s: State, n: State, t: nat)
    requires Sequential(s) && TakesEffect(s, n, t)
    ensures Sequential(n) && s.done <= n.done
  {
    hide PhaseAfter, AnswersRight, Meaning, Happened, Happens, Challenges;
    if n.done != s.done {
      var op :| IsEffect(s, n, Effect(t, op, Meaning(s.phase, op).1));
      EffectAppends(s.done, Effect(t, op, Meaning(s.phase, op).1));
    }
  }

  /** A call takes effect once: not after it has, and before its thread leaves it. */
  lemma EffectOnce(s: State, a: Action)
    requires a.t in s.calls
    ensures var n := Next(s, a);
      && a.t in n.calls && n.calls == s.calls[a.t := n.calls[a.t]]
      && (Over(s.calls[a.t]) ==> n.done == s.done)
      && (n.done != s.done ==> n.calls[a.t].Free? || Over(n.calls[a.t]))
      && (n.calls[a.t].Free? && !s.calls[a.t].Free? ==> Over(s.calls[a.t]) || n.done != s.done)
  {
    assert s.calls == s.calls[a.t := s.calls[a.t]];
  }

  /** Every interleaving is a sequential run of whole calls, each with the right answer; the history above is what
      these calls have opened, ended and consumed. */
  lemma {:induction false} IsSequential(s: State, acts: seq<Action>)
    requires Sequential(s)
    ensures Sequential(Exec(s, acts)) && s.done <= Exec(s, acts).done
    decreases |acts|
  {
    hide Next, Sequential;
    if acts != [] {
      StepIsACall(s, acts[0]);
      IsSequential(Next(s, acts[0]), acts[1..]);
    }
  }

  lemma RunsAreSequential(s: State, acts: seq<Action>)
    requires Init(s)
    ensures Sequential(Exec(s, acts)) && ExactlyOnce(Happened(Exec(s, acts).done))
  {
    IsSequential(s, acts);
    EndsExactlyOnce(s, acts);
    hide ExactlyOnce, Exec;
  }

  /** Nothing is left behind: from anywhere inside a call at most three undisturbed turns bring the thread back, and
      the call has taken effect. */
  lemma EndFinishes(s: State, t: nat)
    requires t in s.calls && s.calls[t].EndingMatch?
    ensures var turn := EndSwap(t, false); var n := Next(Next(Next(s, turn), turn), turn);
      && n.calls == s.calls[t := Free]
      && n.done == (if Over(s.calls[t]) then s.done
                    else s.done + [Effect(t, BeginsEnd, Meaning(s.phase, BeginsEnd).1)])
  {
  }

  lemma RejectFinishes(s: State, t: nat)
    requires t in s.calls && s.calls[t].Rejecting?
    ensures var turn := RejectSwap(t, false); var n := Next(Next(Next(s, turn), turn), turn);
      && n.calls == s.calls[t := Free]
      && n.done == if Over(s.calls[t]) then s.done else s.done + [Effect(t, Rejects(s.calls[t].queueEnd), Nothing)]
  {
  }

  /** A call made by a thread that is in none takes effect, whatever the others are in. */
  lemma CallsTakeEffect(s: State, t: nat, queueEnd: bool)
    requires t in s.calls && s.calls[t].Free?
    ensures Next(s, Reset(t)).done == s.done + [Effect(t, Resets, Nothing)]
    ensures Next(s, BeginChallenge(t)).done ==
              s.done + [Effect(t, BeginsChallenge, Meaning(s.phase, BeginsChallenge).1)]
    ensures Next(s, Connect(t)).done == s.done + [Effect(t, Connects, Meaning(s.phase, Connects).1)]
    ensures Next(s, ConsumeReturn(t)).done ==
              s.done + [Effect(t, ConsumesReturn, Meaning(s.phase, ConsumesReturn).1)]
    ensures var n := Next(s, EndLoad(t));
      t in n.calls && n.calls[t].EndingMatch? && (Over(n.calls[t]) <==> !Live(s.phase))
    ensures var n := Next(s, RejectLoad(t, queueEnd));
      && t in n.calls && n.calls[t].Rejecting? && n.calls[t].queueEnd == queueEnd
      && (Over(n.calls[t]) <==> !Live(s.phase))
  {
  }

  /** The end of a connected match leaves its return to be consumed, once. */
  lemma ConnectedEndIsConsumed(done: seq<Effect>, k: nat)
    requires AnswersRight(done) && k + 1 < |done| && done[k].answer == EndedConnected
    requires done[k + 1].op == ConsumesReturn
    ensures done[k + 1].answer == Yes
    ensures k + 2 < |done| && done[k + 2].op == ConsumesReturn ==> done[k + 2].answer == No
  {
    assert done[..k + 1][..k] == done[..k] && done[..k + 1][k] == done[k];
    if k + 2 < |done| { assert done[..k + 2][..k + 1] == done[..k + 1]; }
  }
}
