/**
 The ownership word of the frontend return, one atomic access at a time. The game thread begins, advances and
 consumes returns; any number of session-start threads reset the consumed latch in between. The other globals
 are the game thread's own, and their steps are those of FrontendReturn. `done` is history: the operations that
 have taken effect, in order.
 */
module ReturnWord {
  import opened FrontendReturn

  /** An operation on the return that has taken effect. `reset`: a latch reset fell inside the consume. */
  datatype Op =
    | Began(request: Request)
    | Moved(move: Move)
    | ConsumedBy(reset: bool)
    | WasReset

  /** The game thread: between calls, or inside one that touches the word. */
  datatype Game =
    | Rest
    | BeginLoaded(request: Request, prior: Ownership)
    | Titling(move: Move)                          // about to exchange the word for a pending continuation
    | Finishing(move: Move)                        // about to load the word in the release loop
    | FinishLoaded(move: Move, prior: Ownership)
    | ConsumeSeen                                  // saw a pending continuation
    | Claimed                                      // swapped it for a claimed one
    | Releasing                                    // about to load the word in the release loop
    | ReleaseLoaded(prior: Ownership)

  datatype Resetter = Away | Loaded(prior: Ownership)

  /** `ret` holds the globals but the word, which is `word`. */
  datatype State = State(
    word: Ownership, ret: Return, game: Game, resetters: map<nat, Resetter>, done: seq<Op>)

  datatype Action =
    | BeginCall(request: Request)
    | MoveCall(move: Move)
    | ConsumeCall
    | GameTurn
    | ResetTurn(t: nat)

  ghost predicate Init(s: State) {
    && s.word == Inactive && s.ret == INITIAL && s.game == Rest && s.done == []
    && forall t: nat | t in s.resetters :: s.resetters[t] == Away
  }

  // ----- the steps

  function Act(s: State, g: Game): State { s.(game := g) }

  /** The operation takes effect: the globals become those of `r`, the word becomes `word`. */
  function Finish(s: State, word: Ownership, r: Return, op: Op): State {
    s.(word := word, ret := r.(ownership := word), game := Rest, done := s.done + [op])
  }

  /** A tick, a screen's own update or an observed battle update: the load of the word, and what the handlers do
      up to their access of it. */
  function MoveStep(s: State, m: Move): State {
    if !Owned(s.word) then s else
    var r := Step(s.ret.(ownership := s.word), m);
    if r.ownership == s.word then Finish(s, s.word, r, Moved(m))
    else if r.ownership == ContinuationPending then Act(s, Titling(m))
    else Act(s, Finishing(m))
  }

  function GameStep(s: State): State {
    match s.game
    case Rest => s
    case BeginLoaded(q, prior) =>
      if Owned(prior) then Act(s, Rest)
      else if s.word == prior then Finish(s, Active, Started(s.ret, q), Began(q))
      else Act(s, BeginLoaded(q, s.word))
    case Titling(m) => Finish(s, ContinuationPending, Step(s.ret.(ownership := Active), m), Moved(m))
    case Finishing(m) => Act(s, FinishLoaded(m, s.word))
    case FinishLoaded(m, prior) =>
      if s.word == prior then Finish(s, FinishReturn(prior), Step(s.ret.(ownership := Active), m), Moved(m))
      else Act(s, FinishLoaded(m, s.word))
    case ConsumeSeen =>
      if s.word == ContinuationPending then Act(s.(word := ContinuationClaimed), Claimed) else Act(s, Rest)
    case Claimed =>
      if s.ret.continuationTarget == ToNetplayMenu then Act(s.(word := ContinuationClaimedConsumed), Releasing)
      else Act(s, Releasing)
    case Releasing => Act(s, ReleaseLoaded(s.word))
    case ReleaseLoaded(prior) =>
      if s.word == prior
      then Finish(s, FinishReturn(prior), s.ret.(phase := Complete), ConsumedBy(prior == ContinuationClaimed))
      else Act(s, ReleaseLoaded(s.word))
  }

  function SetResetter(s: State, t: nat, p: Resetter): State { s.(resetters := s.resetters[t := p]) }

  /** The latch-reset loop of a session-start thread: the load, then swaps until the word is not consumed. */
  function ResetStep(s: State, t: nat): State
    requires t in s.resetters
  {
    match s.resetters[t]
    case Away => SetResetter(s, t, Loaded(s.word))
    case Loaded(prior) =>
      if !Consumed(prior) then SetResetter(s, t, Away)
      else if s.word != prior then SetResetter(s, t, Loaded(s.word))
      else
        var word := ResetReturnConsumed(prior);
        var done := if prior == ContinuationConsumed then s.done + [WasReset] else s.done;
        SetResetter(s.(word := word, ret := s.ret.(ownership := word), done := done), t, Away)
  }

  function Next(s: State, a: Action): State {
    match a
    case BeginCall(q) => if s.game == Rest then Act(s, BeginLoaded(q, s.word)) else s
    case MoveCall(m) => if s.game == Rest then MoveStep(s, m) else s
    case ConsumeCall =>
      if s.game == Rest && s.word == ContinuationPending then Act(s, ConsumeSeen) else s
    case GameTurn => GameStep(s)
    case ResetTurn(t) => if t in s.resetters then ResetStep(s, t) else s
  }

  function Exec(s: State, acts: seq<Action>): State
    decreases |acts|
  {
    if acts == [] then s else Exec(Next(s, acts[0]), acts[1..])
  }

  // ----- the sequential machine these steps implement

  function Apply(r: Return, op: Op): Return {
    match op
    case Began(q) => Started(r, q)
    case Moved(m) => Step(r, m)
    case ConsumedBy(reset) => Consuming(r, reset)
    case WasReset => LatchReset(r)
  }

  function ApplyAll(r: Return, ops: seq<Op>): Return {
    if ops == [] then r else Apply(ApplyAll(r, ops[..|ops| - 1]), ops[|ops| - 1])
  }

  /** The globals after the operations done so far. */
  function Sequential(s: State): Return { ApplyAll(INITIAL, s.done) }

  function Count(ops: seq<Op>, began: bool): nat {
    if ops == [] then 0 else
    var op := ops[|ops| - 1];
    Count(ops[..|ops| - 1], began) + if (if began then op.Began? else op.ConsumedBy?) then 1 else 0
  }

  /** What the word may be while the game thread is inside a call, given the operations done. */
  predicate WordOk(s: State, seqWord: Ownership) {
    match s.game
    case Rest => s.word == seqWord
    case BeginLoaded(_, prior) => s.word == seqWord && (Owned(prior) ==> s.word == prior)
    case Titling(_) => s.word == seqWord == Active
    case Finishing(_) => s.word == seqWord == Active
    case FinishLoaded(_, prior) => s.word == seqWord == prior == Active
    case ConsumeSeen => s.word == seqWord == ContinuationPending
    case Claimed => s.word == ContinuationClaimed && seqWord == ContinuationPending
    case Releasing =>
      (s.word == ContinuationClaimedConsumed || s.word == ContinuationClaimed) && seqWord == ContinuationPending
    case ReleaseLoaded(prior) =>
      && (s.word == ContinuationClaimedConsumed || s.word == ContinuationClaimed) && seqWord == ContinuationPending
      && (prior == ContinuationClaimedConsumed || prior == ContinuationClaimed)
      && (prior == ContinuationClaimed ==> s.word == prior)
  }

  /** The move the game thread is carrying out, and where it leads. */
  predicate MoveOk(s: State, r: Return) {
    match s.game
    case Titling(m) => Step(r, m).ownership == ContinuationPending
    case Finishing(m) => Step(r, m).ownership == Inactive
    case FinishLoaded(m, _) => Step(r, m).ownership == Inactive
    case _ => true
  }

  /** Begins and consumes, counted. */
  predicate Balanced(done: seq<Op>, r: Return) {
    Count(done, false) + (if Owned(r.ownership) then 1 else 0) <= Count(done, true)
  }

  /** Every begin found the word free. */
  predicate BeginsFree(done: seq<Op>) {
    done == [] ||
    var before := done[..|done| - 1];
    && BeginsFree(before) && WellFormed(ApplyAll(INITIAL, before))
    && (done[|done| - 1].Began? ==> !Owned(ApplyAll(INITIAL, before).ownership))
  }

  ghost predicate Inv(s: State) {
    var r := Sequential(s);
    && BeginsFree(s.done) && WellFormed(r) && s.ret.(ownership := r.ownership) == r
    && WordOk(s, r.ownership) && MoveOk(s, r) && Balanced(s.done, r)
  }

  // ----- every step keeps it

  lemma Appended(done: seq<Op>, op: Op)
    ensures ApplyAll(INITIAL, done + [op]) == Apply(ApplyAll(INITIAL, done), op)
    ensures BeginsFree(done + [op]) <==>
              && BeginsFree(done) && WellFormed(ApplyAll(INITIAL, done))
              && (op.Began? ==> !Owned(ApplyAll(INITIAL, done).ownership))
    ensures forall began: bool :: Count(done + [op], began) ==
              Count(done, began) + if (if began then op.Began? else op.ConsumedBy?) then 1 else 0
  {
    assert (done + [op])[..|done|] == done;
  }

  lemma StepKeeps(r: Return, m: Move)
    requires WellFormed(r)
    ensures WellFormed(Step(r, m)) && Step(r, m).request == r.request
    ensures !Owned(r.ownership) ==> Step(r, m) == r
    ensures r.ownership == Active ==>
              var o := Step(r, m).ownership; o == Active || o == ContinuationPending || o == Inactive
    ensures r.ownership == ContinuationPending ==> Step(r, m).ownership == ContinuationPending
    ensures Sure(r.request) && Owned(r.ownership) ==> Serves(Step(r, m), r.request)
  {
    match m
    case Ticks(i) => AdvanceKeeps(r, i); AdvanceWord(r, i);
    case Updates(update, raw) => UpdatedKeeps(r, update, raw); UpdatedWord(r, update, raw);
    case Observes =>
  }

  lemma ClassifyWord(r: Return, i: Inputs)
    requires r.ownership == Active
    ensures var o := Classify(r, i).ownership; o == Active || o == ContinuationPending || o == Inactive
  {
    if i.ctx.screen == Loading { LoadingWord(r, i, i.later); }
  }

  lemma LoadingWord(r: Return, i: Inputs, now: Basics.Word)
    requires r.ownership == Active && i.ctx.screen == Loading
    ensures var o := OnLoading(r, i, now).ownership; o == Active || o == ContinuationPending || o == Inactive
  {
  }

  lemma AdvanceWord(r: Return, i: Inputs)
    requires WellFormed(r)
    ensures r.ownership == Active ==>
              var o := Advance(r, i).ownership; o == Active || o == ContinuationPending || o == Inactive
    ensures r.ownership == ContinuationPending || !Owned(r.ownership) ==> Advance(r, i) == r
  {
    if r.ownership == Active {
      ClassifyWord(r.(phase := Requested), i);
      if i.ctx.screen == Loading { LoadingWord(r, i, i.now); }
    }
  }

  lemma UpdatedWord(r: Return, update: Screen, raw: nat)
    requires WellFormed(r)
    ensures r.ownership == Active ==>
              var o := Updated(r, update, raw).ownership; o == Active || o == ContinuationPending || o == Inactive
    ensures r.ownership == ContinuationPending || !Owned(r.ownership) ==> Updated(r, update, raw) == r
  {
  }

  /** An operation that takes effect with the word and the globals the sequential machine has after it. */
  lemma FinishKeeps(s: State, word: Ownership, r: Return, op: Op)
    requires Inv(s) && (op.Began? ==> !Owned(Sequential(s).ownership))
    requires var after := Apply(Sequential(s), op);
      WellFormed(after) && after.ownership == word && r.(ownership := word) == after
      && Balanced(s.done + [op], after)
    ensures Inv(Finish(s, word, r, op))
  {
    Appended(s.done, op);
    hide WellFormed, Balanced, ApplyAll, Apply;
  }

  lemma MoveKeeps(s: State, m: Move)
    requires Inv(s) && s.game == Rest
    ensures Inv(MoveStep(s, m))
  {
    var r := Sequential(s);
    assert s.ret.(ownership := s.word) == r;
    StepKeeps(r, m);
    Appended(s.done, Moved(m));
    hide Step, WellFormed, Sequential;
    if Owned(s.word) && Step(r, m).ownership == s.word { FinishKeeps(s, s.word, Step(r, m), Moved(m)); }
  }

  lemma MoveEnds(s: State, m: Move, word: Ownership)
    requires Inv(s) && Sequential(s).ownership == Active && Step(Sequential(s), m).ownership == word
    ensures Inv(Finish(s, word, Step(s.ret.(ownership := Active), m), Moved(m)))
  {
    var r := Sequential(s);
    assert s.ret.(ownership := Active) == r;
    StepKeeps(r, m);
    Appended(s.done, Moved(m));
    hide Step, WellFormed, Sequential;
    FinishKeeps(s, word, Step(r, m), Moved(m));
  }

  lemma BeginKeeps(s: State, q: Request)
    requires Inv(s) && s.game.BeginLoaded? && !Owned(s.word)
    ensures Inv(Finish(s, Active, Started(s.ret, q), Began(q)))
  {
    Appended(s.done, Began(q));
    hide Sequential;
    FinishKeeps(s, Active, Started(s.ret, q), Began(q));
  }

  lemma ReleaseKeeps(s: State)
    requires Inv(s) && s.game.ReleaseLoaded? && s.word == s.game.prior
    ensures Inv(GameStep(s))
  {
    var op := ConsumedBy(s.word == ContinuationClaimed);
    Appended(s.done, op);
    hide Sequential;
    FinishKeeps(s, FinishReturn(s.word), s.ret.(phase := Complete), op);
  }

  lemma GameKeeps(s: State)
    requires Inv(s)
    ensures Inv(GameStep(s))
  {
    hide WellFormed, Step, Balanced, ApplyAll, BeginsFree;
    match s.game
    case BeginLoaded(q, prior) => if !Owned(prior) && s.word == prior { BeginKeeps(s, q); }
    case Titling(m) => MoveEnds(s, m, ContinuationPending);
    case FinishLoaded(m, prior) => MoveEnds(s, m, Inactive);
    case ReleaseLoaded(prior) => if s.word == prior { ReleaseKeeps(s); }
    case _ =>
  }

  lemma LatchResetFacts(r: Return)
    requires WellFormed(r)
    ensures WellFormed(LatchReset(r)) && Owned(LatchReset(r).ownership) == Owned(r.ownership)
    ensures LatchReset(r) == r.(ownership := LatchReset(r).ownership)
    ensures LatchReset(r).ownership == (if r.ownership == ContinuationConsumed then Inactive else r.ownership)
  {
  }

  /** The swap of the reset loop. */
  lemma SwapKeeps(s: State, t: nat)
    requires Inv(s) && t in s.resetters && s.resetters[t].Loaded? && s.word == s.resetters[t].prior && Consumed(s.word)
    ensures Inv(ResetStep(s, t))
  {
    Appended(s.done, WasReset);
    LatchResetFacts(Sequential(s));
    hide WellFormed, Step, ApplyAll, BeginsFree, Count;
  }

  lemma ResetKeeps(s: State, t: nat)
    requires Inv(s) && t in s.resetters
    ensures Inv(ResetStep(s, t))
  {
    hide WellFormed, Step, ApplyAll, BeginsFree, Balanced;
    if s.resetters[t].Loaded? && s.word == s.resetters[t].prior && Consumed(s.word) { SwapKeeps(s, t); }
  }

  lemma NextKeeps(s: State, a: Action)
    requires Inv(s)
    ensures Inv(Next(s, a))
  {
    hide Inv, GameStep, ResetStep, MoveStep;
    match a
    case MoveCall(m) => if s.game == Rest { MoveKeeps(s, m); }
    case GameTurn => GameKeeps(s);
    case ResetTurn(t) => if t in s.resetters { ResetKeeps(s, t); }
    case _ => CallKeeps(s, a);
  }

  lemma CallKeeps(s: State, a: Action)
    requires Inv(s) && (a.BeginCall? || a.ConsumeCall?)
    ensures Inv(Next(s, a))
  {
    hide WellFormed, Step, Balanced, ApplyAll, BeginsFree;
  }

  lemma {:induction false} ExecKeeps(s: State, acts: seq<Action>)
    requires Inv(s)
    ensures Inv(Exec(s, acts))
    decreases |acts|
  {
    if acts != [] {
      NextKeeps(s, acts[0]);
      ExecKeeps(Next(s, acts[0]), acts[1..]);
    }
  }

  lemma InitInv(s: State)
    requires Init(s)
    ensures Inv(s)
  {
  }

  // ----- main results, over every interleaving

  /** A latch reset never changes whether the return is owned, nor any of the game thread's globals. */
  lemma ResetNeverChangesOwner(s: State, t: nat)
    requires t in s.resetters
    ensures Owned(ResetStep(s, t).word) <==> Owned(s.word)
    ensures ResetStep(s, t).ret.(ownership := s.ret.ownership) == s.ret && ResetStep(s, t).game == s.game
  {
  }

  /** A reset between the exchange and the release of a consume takes the latch away: the word ends up inactive. */
  lemma ResetInsideConsume(s: State, t: nat)
    requires s.game == Releasing && s.word == ContinuationClaimedConsumed
    requires t in s.resetters && s.resetters[t] == Loaded(ContinuationClaimedConsumed)
    ensures var n := GameStep(GameStep(ResetStep(s, t)));
      n.game == Rest && n.word == Inactive && n.done == s.done + [ConsumedBy(true)]
  {
  }

  /** Between calls the word and the globals are those of the sequential machine after the operations done: every
      interleaving of atomic accesses is a sequential run, with latch resets between operations or inside a consume. */
  lemma AtRestSequential(s: State, acts: seq<Action>)
    requires Init(s) && Exec(s, acts).game == Rest
    ensures var n := Exec(s, acts); n.ret.(ownership := n.word) == Sequential(n) && WellFormed(Sequential(n))
  {
    InitInv(s);
    ExecKeeps(s, acts);
  }

  /** Consumes never exceed accepted begins, and stay behind them while a return is owned. */
  lemma ConsumesNeverExceedBegins(s: State, acts: seq<Action>)
    requires Init(s)
    ensures var n := Exec(s, acts);
      Count(n.done, false) + (if Owned(n.word) then 1 else 0) <= Count(n.done, true)
  {
    InitInv(s);
    ExecKeeps(s, acts);
    hide Exec, Sequential;
  }

  /** Operation `k` began a sure return, and none after it consumed one. */
  ghost predicate SureInProgress(done: seq<Op>, k: nat) {
    && k < |done| && done[k].Began? && Sure(done[k].request)
    && forall j :: k < j < |done| ==> !done[j].ConsumedBy?
  }

  lemma {:induction false} SureServes(done: seq<Op>, k: nat)
    requires BeginsFree(done) && SureInProgress(done, k)
    ensures Serves(ApplyAll(INITIAL, done), done[k].request)
    decreases |done|
  {
    var before, op := done[..|done| - 1], done[|done| - 1];
    if k < |before| {
      assert SureInProgress(before, k);
      SureServes(before, k);
      if op.Moved? { StepKeeps(ApplyAll(INITIAL, before), op.move); }
    }
    hide Step, WellFormed, Started;
  }

  /** In every interleaving a sure return is owned, with its own request and no other begin accepted, from the swap
      that begins it to the swap that releases its consume. */
  lemma SureReturnStaysOwned(s: State, acts: seq<Action>, k: nat)
    requires Init(s) && SureInProgress(Exec(s, acts).done, k)
    ensures var n := Exec(s, acts);
      Owned(n.word) && n.ret.request == n.done[k].request && forall j :: k < j < |n.done| ==> !n.done[j].Began?
  {
    InitInv(s);
    ExecKeeps(s, acts);
    var n := Exec(s, acts);
    hide Exec;
    SureServes(n.done, k);
    forall j | k < j < |n.done| ensures !n.done[j].Began? { NoOtherBegin(n.done, k, j); }
    hide ApplyAll, WellFormed, MoveOk;
  }

  lemma {:induction false} NoOtherBegin(done: seq<Op>, k: nat, j: nat)
    requires BeginsFree(done) && SureInProgress(done, k) && k < j < |done|
    ensures !done[j].Began?
    decreases |done|
  {
    var before := done[..|done| - 1];
    assert SureInProgress(before, k);
    if j == |done| - 1 { SureServes(before, k); } else { NoOtherBegin(before, k, j); }
  }

  // ----- calls that run alone

  function Turns(s: State, n: nat): State
    decreases n
  {
    if n == 0 then s else Turns(Next(s, GameTurn), n - 1)
  }

  lemma FiveTurns(s: State)
    ensures Turns(s, 1) == GameStep(s) && Turns(s, 3) == GameStep(GameStep(GameStep(s)))
    ensures Turns(s, 5) == GameStep(GameStep(GameStep(GameStep(GameStep(s)))))
  {
    var s1 := GameStep(s);
    var s2 := GameStep(s1);
    hide GameStep;
    var s3 := GameStep(s2);
    var s4 := GameStep(s3);
    assert Turns(s, 1) == Turns(s1, 0);
    assert Turns(s, 3) == Turns(s1, 2) == Turns(s2, 1) == Turns(s3, 0);
    assert Turns(s, 5) == Turns(s1, 4) == Turns(s2, 3) == Turns(s3, 2) == Turns(s4, 1) == Turns(GameStep(s4), 0);
  }

  /** A begin with nobody else at the word is accepted exactly when no return is owned. */
  lemma BeginAlone(s: State, q: Request)
    requires s.game == Rest
    ensures var n := Turns(Next(s, BeginCall(q)), 1);
      if Owned(s.word) then n == s
      else n.game == Rest && n.word == Active && n.done == s.done + [Began(q)] && n.resetters == s.resetters
  {
    FiveTurns(Next(s, BeginCall(q)));
    hide Turns, Started;
  }

  /** A tick or an answer of the game takes effect on an owned return, and only there. */
  lemma MoveAlone(s: State, m: Move)
    requires Inv(s) && s.game == Rest
    ensures var n := Turns(Next(s, MoveCall(m)), 3);
      && n.game == Rest && n.resetters == s.resetters
      && n.done == s.done + (if Owned(s.word) then [Moved(m)] else [])
      && (!Owned(s.word) ==> n == s)
  {
    var r := Sequential(s);
    assert s.ret.(ownership := s.word) == r;
    StepKeeps(r, m);
    FiveTurns(Next(s, MoveCall(m)));
    assert s.done + [] == s.done;
    hide Turns, Step, WellFormed, ApplyAll, BeginsFree, Balanced, MoveOk;
  }

  /** A consume succeeds exactly on a pending continuation, and leaves its latch. */
  lemma ConsumeAlone(s: State)
    requires Inv(s) && s.game == Rest
    ensures var n := Turns(Next(s, ConsumeCall), 5);
      if s.word == ContinuationPending
      then n.game == Rest && n.word == ContinuationConsumed && n.done == s.done + [ConsumedBy(false)]
      else n == s
  {
    var r := Sequential(s);
    assert s.ret.(ownership := s.word) == r;
    assert s.word == ContinuationPending ==> s.ret.continuationTarget == ToNetplayMenu;
    hide Inv, Sequential, Turns;
    FiveTurns(Next(s, ConsumeCall));
  }

  /** A latch reset with nobody else at the word clears the latch, and takes effect only if it was set. */
  lemma ResetAlone(s: State, t: nat)
    requires t in s.resetters && s.resetters[t] == Away
    ensures var n := Next(Next(s, ResetTurn(t)), ResetTurn(t));
      && n.resetters == s.resetters && n.game == s.game && n.word == ResetReturnConsumed(s.word)
      && n.done == s.done + (if s.word == ContinuationConsumed then [WasReset] else [])
      && !Consumed(n.word)
  {
    var m := ResetStep(s, t);
    assert m.resetters == s.resetters[t := Loaded(s.word)];
    assert ResetStep(m, t).resetters == s.resetters;
    assert s.done + [] == s.done;
  }

  /** A swap that meets another store goes on with the stored word. */
  lemma SwapsRetry(s: State, t: nat)
    requires t in s.resetters && s.resetters[t].Loaded? && Consumed(s.resetters[t].prior)
    requires s.word != s.resetters[t].prior
    ensures ResetStep(s, t) == s.(resetters := s.resetters[t := Loaded(s.word)])
    ensures s.game.BeginLoaded? && !Owned(s.game.prior) && s.game.prior != s.word ==>
              GameStep(s) == s.(game := BeginLoaded(s.game.request, s.word))
    ensures s.game.ReleaseLoaded? && s.game.prior != s.word ==> GameStep(s) == s.(game := ReleaseLoaded(s.word))
    ensures s.game.FinishLoaded? && s.game.prior != s.word ==>
              GameStep(s) == s.(game := FinishLoaded(s.game.move, s.word))
  {
  }

  /** How many turns are left of a call, at most. */
  function TurnsLeft(s: State): (r: nat)
    ensures r <= 4
  {
    match s.game
    case Rest => 0
    case BeginLoaded(_, prior) => if Owned(prior) || prior == s.word then 1 else 2
    case Titling(_) => 1
    case Finishing(_) => 2
    case FinishLoaded(_, prior) => if prior == s.word then 1 else 2
    case ConsumeSeen => if s.word == ContinuationPending then 4 else 1
    case Claimed => 3
    case Releasing => 2
    case ReleaseLoaded(prior) => if prior == s.word then 1 else 2
  }

  lemma TurnProgresses(s: State)
    requires s.game != Rest
    ensures TurnsLeft(GameStep(s)) < TurnsLeft(s) && GameStep(s).resetters == s.resetters
  {
    hide Step, Started;
  }

  /** No store of another thread keeps a call from ending: wherever it is, so many undisturbed turns finish it. */
  lemma {:induction false} CallsFinish(s: State, n: nat)
    requires n >= TurnsLeft(s)
    ensures Turns(s, n).game == Rest && Turns(s, n).resetters == s.resetters
    decreases n
  {
    if n > 0 {
      if s.game != Rest { TurnProgresses(s); } else { assert GameStep(s) == s; }
      CallsFinish(GameStep(s), n - 1);
    }
    hide GameStep;
  }
}
