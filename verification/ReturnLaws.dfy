/**
 What a frontend return does on each screen, at each deadline and with each answer of the game, said of whole
 ticks and runs: native exits are taken exactly when they are allowed and possible, loading and native exits have
 their deadlines, and a return that may be forced lands unless the game is cleaning a battle up.
 */
module ReturnLaws {
  import opened Basics
  import opened FrontendReturn

  // ----- the words

  /** The screens by the codes the game uses. */
  lemma ScreensByCode()
    ensures [ScreenFromRaw(0), ScreenFromRaw(1), ScreenFromRaw(2), ScreenFromRaw(3), ScreenFromRaw(4)] ==
            [Title, CharacterSelect, Loading, Battle, Unused4]
    ensures [ScreenFromRaw(5), ScreenFromRaw(6), ScreenFromRaw(7), ScreenFromRaw(8)] ==
            [Result, Settings, StaffRoll, ReplaySelect]
    ensures forall raw: nat :: raw > 8 <==> ScreenFromRaw(raw) == Unknown
  {
  }

  /** A clock reading taken `d` milliseconds after `start` is `d` later, across the wrap of the clock; no time has
      passed since a start that was never taken. */
  lemma ElapsedAcrossWrap(start: Word, d: Word)
    ensures start != 0 ==> Elapsed((start + d) % WORD, start) == d
    ensures Elapsed(d, 0) == 0
  {
    if start != 0 { assert start + d < WORD || (start + d) % WORD == start + d - WORD; }
  }

  /** Is the return under way, with nothing asked of the game yet? */
  predicate Asking(r: Return) { WellFormed(r) && r.ownership == Active && r.phase == Requested }

  /** Where a return is after the title has been reached. */
  predicate Arrived(r: Return, n: Return) {
    if r.request.target == ToNetplayMenu && r.request.enterNetplayMenuAfterTitle then
      && n.phase == NetplayMenuContinuationPending && n.ownership == ContinuationPending
      && n.continuationOwner == r.request.owner && n.continuationTarget == ToNetplayMenu
    else n.phase == Complete && n.ownership == Inactive
  }

  /** Forced if it may be, else failed. */
  predicate ForcedOrFailed(r: Return, n: Return) {
    if r.request.allowForcedFallback then n.phase == ForceTitleFallback && n.ownership == Active
    else n.phase == Failed && n.ownership == Inactive
  }

  // ----- a tick on each screen

  predicate HasExit(s: Screen) { s == CharacterSelect || s == Battle || s == Result }

  predicate ExitPermitted(q: Request, s: Screen) {
    (s == Battle ==> q.allowNativeBattleExit) && (s == Result ==> q.allowNativeResultExit)
  }

  function ObjectOf(c: Context, s: Screen): nat {
    if s == CharacterSelect then c.charselect else if s == Battle then c.battle else c.result
  }

  /** On a screen with an exit of its own the exit is taken exactly when the request permits it, the screen's object
      is there and the write works; otherwise the title is forced, or the return fails. */
  lemma ExitExactlyWhenPermitted(r: Return, i: Inputs)
    requires Asking(r) && HasExit(i.ctx.screen)
    requires !(r.request.target == ToCharacterSelect && i.ctx.screen == CharacterSelect)
    ensures var n := Advance(r, i); var s := i.ctx.screen;
      && (n.phase == WaitingForNativeExit <==> ExitPermitted(r.request, s) && ObjectOf(i.ctx, s) != 0 && i.writeOk)
      && (n.phase == WaitingForNativeExit ==>
            && n.ownership == Active && n.nativeStart == s && n.nativeTick == i.later
            && n.cleanup == (if s == Battle then Prepare(i.patchesRestored) else r.cleanup))
      && (n.phase != WaitingForNativeExit ==> ForcedOrFailed(r, n))
  {
  }

  /** On the other screens: done at character select when that is the target, done at the title and its family, waiting
      while loading, and forced anywhere else. */
  lemma OtherScreens(r: Return, i: Inputs)
    requires Asking(r)
    ensures var n := Advance(r, i);
      match i.ctx.screen
      case CharacterSelect => r.request.target == ToCharacterSelect ==> n.phase == Complete && n.ownership == Inactive
      case Title => Arrived(r, n)
      case Settings => Arrived(r, n)
      case ReplaySelect => Arrived(r, n)
      case Loading => n == r.(phase := LoadingWait, loadingTick := i.later, unblockDone := false)
      case Battle => true
      case Result => true
      case _ => ForcedOrFailed(r, n)
  {
    if i.ctx.screen == Loading {
      var w := EnterLoading(r, i.later);
      assert Elapsed(i.later, w.loadingTick) == 0;
      assert OnLoading(r, i, i.later) == w;
    }
  }

  /** A return that has only been accepted asks in its first tick. */
  lemma StartedAsks(r: Return, q: Request)
    ensures var s := Started(r, q);
      Asking(s) && s.request == q && s.nativeStart == Unknown && s.cleanup == AwaitingUpdate
      && s.loadingTick == 0 == s.nativeTick && !s.unblockDone
  {
  }

  // ----- native exits over a run

  predicate ExitWasPermitted(r: Return) {
    && (r.nativeStart == Battle ==> r.request.allowNativeBattleExit)
    && (r.nativeStart == Result ==> r.request.allowNativeResultExit)
  }

  lemma NativeExitPermitted(r: Return, screen: Screen, i: Inputs)
    requires ExitWasPermitted(r) && ExitPermitted(r.request, screen)
    ensures ExitWasPermitted(NativeExit(r, screen, i))
  {
  }

  lemma ClassifyPermitted(r: Return, i: Inputs)
    requires ExitWasPermitted(r)
    ensures ExitWasPermitted(Classify(r, i))
  {
    hide NativeExit;
    if HasExit(i.ctx.screen) && ExitPermitted(r.request, i.ctx.screen) { NativeExitPermitted(r, i.ctx.screen, i); }
  }

  lemma LoadingPermitted(r: Return, i: Inputs, now: Word)
    requires ExitWasPermitted(r)
    ensures ExitWasPermitted(OnLoading(r, i, now))
  {
    hide Classify;
    ClassifyPermitted(r.(phase := Requested), i);
  }

  lemma StepPermitted(r: Return, m: Move)
    requires ExitWasPermitted(r)
    ensures ExitWasPermitted(Step(r, m))
  {
    hide Classify, OnLoading;
    match m
    case Ticks(i) =>
      ClassifyPermitted(r, i);
      ClassifyPermitted(r.(phase := Requested), i);
      LoadingPermitted(r, i, i.now);
    case _ =>
  }

  lemma {:induction false} RunPermitted(r: Return, moves: seq<Move>)
    requires ExitWasPermitted(r)
    ensures ExitWasPermitted(Run(r, moves))
    decreases |moves|
  {
    hide Step;
    if moves != [] {
      StepPermitted(r, moves[0]);
      RunPermitted(Step(r, moves[0]), moves[1..]);
    }
  }

  /** Whatever the game does, a return never takes an exit that its request forbids. */
  lemma ExitsArePermitted(r: Return, q: Request, moves: seq<Move>)
    ensures var n := Run(Started(r, q), moves);
      && n.request == q && (n.nativeStart == Battle ==> q.allowNativeBattleExit)
      && (n.nativeStart == Result ==> q.allowNativeResultExit)
  {
    StartedAsks(r, q);
    RunPermitted(Started(r, q), moves);
    RunKeeps(Started(r, q), moves);
    hide Started, Run;
  }

  // ----- waiting

  /** A loading screen: nothing for a second and a half; a confirmed disconnect unblocks it once, three seconds in; ten
      seconds in it is forced; until then it waits. */
  lemma LoadingDeadlines(r: Return, i: Inputs)
    requires WellFormed(r) && r.ownership == Active && InLoading(r.phase) && i.ctx.screen == Loading
    ensures var n := Advance(r, i); var e := Elapsed(i.now, r.loadingTick);
      var unblocks := r.request.confirmedDisconnect && !r.unblockDone;
      && (e < 3000 || (e < 10000 && !unblocks) ==> n == r)
      && (e >= 3000 && unblocks ==> n == r.(unblockDone := true, phase := WaitingForLoadingToResolve))
      && (e >= 10000 && !unblocks ==> ForcedOrFailed(r, n))
  {
  }

  /** When loading is over, or a native exit has led to another screen, the tick asks again. */
  lemma WaitingAsksAgain(r: Return, i: Inputs)
    requires WellFormed(r) && r.ownership == Active
    requires (InLoading(r.phase) && i.ctx.screen != Loading)
             || (InNativeExit(r.phase) && i.ctx.screen != r.nativeStart)
    ensures Advance(r, i) == Advance(r.(phase := Requested), i)
  {
    hide Classify;
    if InLoading(r.phase) { LoadingResolves(r, i, i.now); }
    hide OnLoading;
  }

  /** A native exit on a screen that stays: five seconds, then forced unless the battle is cleaning up. */
  lemma ExitDeadline(r: Return, i: Inputs)
    requires WellFormed(r) && r.ownership == Active && InNativeExit(r.phase) && i.ctx.screen == r.nativeStart
    ensures var n := Advance(r, i); var late := Elapsed(i.now, r.nativeTick) >= 5000;
      if !late || (Suppressed(r) && r.request.allowForcedFallback) then n == r else ForcedOrFailed(r, n)
  {
  }

  /** The updates of a battle that was asked to end. */
  function Observing(n: nat): (r: seq<Move>)
    ensures |r| == n && forall k :: 0 <= k < n ==> r[k] == Observes
  {
    seq(n, _ => Observes)
  }

  lemma {:induction false} ObservedRun(r: Return, updates: nat)
    requires Owned(r.ownership) && r.nativeStart == Battle && InNativeExit(r.phase)
    requires r.cleanup == AwaitingUpdate || r.cleanup == AwaitingUpdateWithPatchFailure || updates == 0
             || r.cleanup == Reached || r.cleanup == ReachedWithPatchFailure
    ensures Run(r, Observing(updates)) ==
      if updates == 0 then r
      else r.(cleanup := if r.cleanup == AwaitingUpdate || r.cleanup == Reached then Reached
                         else ReachedWithPatchFailure)
    decreases updates
  {
    if updates > 0 {
      assert Observing(updates)[1..] == Observing(updates - 1);
      ObservedRun(Step(r, Observes), updates - 1);
    }
  }

  /** A disconnect or an accept that leaves a battle: when the exit times out with the battle still there, the title
      is forced exactly if the battle has run no update since, or its patches were not restored. */
  lemma BattleCleansUp(r: Return, i: Inputs, updates: nat, j: Inputs)
    requires Asking(r) && r.request.allowForcedFallback && r.request.allowNativeBattleExit
    requires r.request.owner == DisconnectRecovery || r.request.owner == AsyncHostAccept
    requires i.ctx.screen == j.ctx.screen == Battle && i.ctx.battle != 0 && i.writeOk
    requires Elapsed(j.now, i.later) >= 5000
    ensures var w := Run(Advance(r, i), Observing(updates));
      && w.phase == WaitingForNativeExit
      && (Advance(w, j).phase == ForceTitleFallback <==> updates == 0 || !i.patchesRestored)
      && (updates > 0 && i.patchesRestored ==> Advance(w, j) == w)
  {
    ExitExactlyWhenPermitted(r, i);
    AdvanceKeeps(r, i);
    var w0 := Advance(r, i);
    ObservedRun(w0, updates);
    ExitDeadline(Run(w0, Observing(updates)), j);
    hide Run, Advance;
  }

  // ----- forcing the title

  /** Inside a frame the game is left alone and the return waits for a safe point; a refusal is tried again; otherwise
      the title is reached. */
  lemma ForcingTick(r: Return, i: Inputs)
    requires WellFormed(r) && r.ownership == Active && (r.phase == ForceTitleFallback || r.phase == WaitForSafePoint)
    ensures var n := Advance(r, i);
      if r.phase == WaitForSafePoint && i.ctx.insideFrameTick then n == r
      else if i.insideLater then n == r.(phase := WaitForSafePoint)
      else if !i.forceOk then n == r.(phase := ForceTitleFallback)
      else Arrived(r, n)
  {
  }

  // ----- the screens' own answers

  /** This is what the return asked the screen for. */
  predicate Answers(r: Return, update: Screen, raw: nat) {
    r.phase == WaitingForNativeExit && r.nativeStart == update && ScreenFromRaw(raw) != update
  }

  predicate EndsLoading(r: Return, update: Screen, raw: nat) { update == Loading && raw != 2 && InLoading(r.phase) }

  /** An answer that nobody waits for is passed on; the end of loading makes the return ask again. */
  lemma OtherAnswersPass(r: Return, update: Screen, raw: nat)
    requires WellFormed(r) && !(Owned(r.ownership) && Answers(r, update, raw))
    ensures UpdateResult(r, update, raw) == raw
    ensures Step(r, Updates(update, raw)) ==
      if Owned(r.ownership) && EndsLoading(r, update, raw) then r.(phase := Requested) else r
  {
  }

  /** A disconnect or an accept on its way to the menu: the game must not show what follows a battle or a result. */
  predicate HidesNext(r: Return) {
    && (r.request.owner == DisconnectRecovery || r.request.owner == AsyncHostAccept)
    && r.request.target == ToNetplayMenu && (r.nativeStart == Battle || r.nativeStart == Result)
  }

  /** The answer to the exit: at the title, at its family or at character select a hiding return has arrived and the
      title is shown instead; without hiding, the title family is an arrival unless character select is the target,
      and character select is one if it is; anything else makes the return ask again. */
  lemma ExitAnswer(r: Return, raw: nat)
    requires WellFormed(r) && r.ownership == Active && Answers(r, r.nativeStart, raw)
    ensures var n := Step(r, Updates(r.nativeStart, raw)); var shown := UpdateResult(r, r.nativeStart, raw);
      var titles := raw == 0 || raw == 6 || raw == 8;
      if HidesNext(r) && (raw == 1 || titles) then Arrived(r, n) && shown == 0
      else if titles && r.request.target != ToCharacterSelect then Arrived(r, n) && shown == raw
      else if raw == 1 && r.request.target == ToCharacterSelect
      then n.phase == Complete && n.ownership == Inactive && shown == raw
      else n == r.(phase := Requested) && shown == raw
  {
    ScreensByCode();
  }

  // ----- landing

  /** Outside a frame, and the game does what it is asked. */
  predicate Obeys(i: Inputs) { !i.insideLater && !i.ctx.insideFrameTick && i.forceOk }

  /** A return that is forced lands in one obeyed tick. */
  lemma ForcedLands(r: Return, i: Inputs)
    requires WellFormed(r) && r.ownership == Active && (r.phase == ForceTitleFallback || r.phase == WaitForSafePoint)
    requires Obeys(i)
    ensures Arrived(r, Advance(r, i))
  {
    ForcingTick(r, i);
  }

  /** The clock readings of these ticks are past every deadline of this return. */
  predicate PastDeadlines(r: Return, i: Inputs) {
    && (InLoading(r.phase) ==> Elapsed(i.now, r.loadingTick) >= 10000)
    && (InNativeExit(r.phase) ==> Elapsed(i.now, r.nativeTick) >= 5000)
  }

  /** A waiting return that may be forced, on a screen that stays, lands within three ticks past its deadlines, unless
      the battle it left is cleaning up. */
  lemma WaitingLands(r: Return, i: Inputs, j: Inputs, k: Inputs)
    requires WellFormed(r) && r.ownership == Active && r.request.allowForcedFallback && !Suppressed(r)
    requires (InLoading(r.phase) && i.ctx.screen == j.ctx.screen == Loading)
             || (InNativeExit(r.phase) && i.ctx.screen == r.nativeStart)
    requires PastDeadlines(r, i) && PastDeadlines(r, j) && Obeys(j) && Obeys(k)
    ensures Arrived(r, Advance(Advance(r, i), j)) || Arrived(r, Advance(Advance(Advance(r, i), j), k))
  {
    AdvanceKeeps(r, i);
    var n := Advance(r, i);
    AdvanceKeeps(n, j);
    if InNativeExit(r.phase) {
      ExitDeadline(r, i);
      ForcedLands(n, j);
    } else {
      LoadingDeadlines(r, i);
      if n.phase == ForceTitleFallback {
        ForcedLands(n, j);
      } else {
        LoadingDeadlines(n, j);
        ForcedLands(Advance(n, j), k);
      }
    }
    hide Advance;
  }

  // ----- the end of a return

  /** Consuming a pending continuation ends the return and leaves the latch; resetting clears the latch and frees
      nothing that is owned. */
  lemma LatchWords(o: Ownership)
    ensures Owned(FinishReturn(o)) <==> false
    ensures FinishReturn(o) == ContinuationConsumed <==> Consumed(o)
    ensures !Consumed(ResetReturnConsumed(o)) && (Owned(ResetReturnConsumed(o)) <==> Owned(o))
    ensures !Consumed(o) ==> ResetReturnConsumed(o) == o
    ensures Owned(o) && Consumed(o) <==> o == ContinuationClaimedConsumed
    ensures Owned(o) || Consumed(o) <==> o != Inactive
  {
  }
}
