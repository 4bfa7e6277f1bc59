/**
 Returning from any screen of the game to the title, the netplay menu or character select: thirteen states,
 an ownership word, native screen exits, a loading watchdog and a forced fallback. Screens, clock readings and
 the outcome of calls into the game are inputs. The recursion with asynchronous hosting is in ReturnCycle.
 */
module FrontendReturn {
  import opened Basics

  const LOADING_GRACE_MS := 1500
  const LOADING_CRITICAL_MS := 3000
  const LOADING_FORCE_FALLBACK_MS := 10000
  const NATIVE_EXIT_TIMEOUT_MS := 5000

  datatype Screen =
    | Title | CharacterSelect | Loading | Battle | Unused4 | Result | Settings | StaffRoll | ReplaySelect | Unknown

  datatype Target = ToTitle | ToNetplayMenu | ToCharacterSelect

  datatype Owner = DisconnectRecovery | AsyncHostAccept | UserMenuExit | Diagnostic

  datatype Request = Request(
    target: Target, owner: Owner, preserveHelper: bool, allowNativeBattleExit: bool, allowNativeResultExit: bool,
    allowForcedFallback: bool, enterNetplayMenuAfterTitle: bool, confirmedDisconnect: bool)

  datatype Phase =
    | Idle | Requested | WaitForSafePoint | LoadingWait | LoadingCriticalUnblock | WaitingForLoadingToResolve
    | NativeExitRequested | WaitingForNativeExit | ForceTitleFallback | TitleReached
    | NetplayMenuContinuationPending | Complete | Failed

  datatype Ownership =
    | Inactive | Active | ContinuationPending | ContinuationClaimed | ContinuationClaimedConsumed | ContinuationConsumed

  datatype Cleanup = AwaitingUpdate | AwaitingUpdateWithPatchFailure | Reached | ReachedWithPatchFailure

  /** What a step reads of the game: the current screen, the screens' objects (0 for none), and the frame guard. */
  datatype Context = Context(screen: Screen, charselect: nat, battle: nat, result: nat, insideFrameTick: bool)

  /** The readings of one step: clock and context, a second reading of each, and the outcome of three calls. */
  datatype Inputs = Inputs(
    ctx: Context, now: Word, later: Word, insideLater: bool, patchesRestored: bool, writeOk: bool, forceOk: bool)

  /** The machine's globals, but for those that only feed the log. */
  datatype Return = Return(
    ownership: Ownership, phase: Phase, request: Request, continuationOwner: Owner, continuationTarget: Target,
    nativeStart: Screen, nativeTick: Word, loadingTick: Word, unblockDone: bool, cleanup: Cleanup)

  const NO_REQUEST: Request := Request(ToTitle, Diagnostic, true, false, false, false, false, false)

  const INITIAL: Return :=
    Return(Inactive, Idle, NO_REQUEST, Diagnostic, ToTitle, Unknown, 0, 0, false, AwaitingUpdate)

  // ----- ownership and cleanup words

  predicate Owned(o: Ownership) {
    o == Active || o == ContinuationPending || o == ContinuationClaimed || o == ContinuationClaimedConsumed
  }

  predicate Consumed(o: Ownership) { o == ContinuationClaimedConsumed || o == ContinuationConsumed }

  function FinishReturn(o: Ownership): Ownership { if Consumed(o) then ContinuationConsumed else Inactive }

  function ResetReturnConsumed(o: Ownership): Ownership {
    if o == ContinuationClaimedConsumed then ContinuationClaimed
    else if o == ContinuationConsumed then Inactive else o
  }

  function Prepare(patchesRestored: bool): Cleanup {
    if patchesRestored then AwaitingUpdate else AwaitingUpdateWithPatchFailure
  }

  function ObserveUpdate(c: Cleanup): Cleanup {
    if c == AwaitingUpdateWithPatchFailure || c == ReachedWithPatchFailure then ReachedWithPatchFailure else Reached
  }

  predicate CanSuppressFallback(c: Cleanup) { c == Reached }

  // ----- steps

  function ScreenFromRaw(raw: nat): Screen {
    match raw
    case 0 => Title
    case 1 => CharacterSelect
    case 2 => Loading
    case 3 => Battle
    case 4 => Unused4
    case 5 => Result
    case 6 => Settings
    case 7 => StaffRoll
    case 8 => ReplaySelect
    case _ => Unknown
  }

  predicate IsTitleFamily(s: Screen) { s == Title || s == Settings || s == ReplaySelect }

  predicate InLoading(p: Phase) { p == LoadingWait || p == LoadingCriticalUnblock || p == WaitingForLoadingToResolve }

  predicate InNativeExit(p: Phase) { p == NativeExitRequested || p == WaitingForNativeExit }

  function Elapsed(now: Word, start: Word): Word { if start == 0 then 0 else (now - start) % WORD }

  function Completed(r: Return): Return { r.(phase := Complete, ownership := FinishReturn(r.ownership)) }

  function Lost(r: Return): Return { r.(phase := Failed, ownership := FinishReturn(r.ownership)) }

  /** Is the game already cleaning the battle up on its own, so that the fallback has to wait for it? */
  predicate Suppressed(r: Return) {
    && (r.request.owner == DisconnectRecovery || r.request.owner == AsyncHostAccept)
    && r.nativeStart == Battle && InNativeExit(r.phase) && CanSuppressFallback(r.cleanup)
  }

  function Fallback(r: Return): Return {
    if !r.request.allowForcedFallback then Lost(r)
    else if Suppressed(r) then r
    else r.(phase := ForceTitleFallback)
  }

  function AtTitle(r: Return): Return {
    if r.request.target == ToNetplayMenu && r.request.enterNetplayMenuAfterTitle
    then r.(phase := NetplayMenuContinuationPending, ownership := ContinuationPending,
            continuationOwner := r.request.owner, continuationTarget := r.request.target)
    else Completed(r.(phase := TitleReached))
  }

  function ExitContext(ctx: Context, screen: Screen): nat {
    match screen
    case CharacterSelect => ctx.charselect
    case Battle => ctx.battle
    case Result => ctx.result
    case _ => 0
  }

  function NativeExit(r: Return, screen: Screen, i: Inputs): Return {
    var prepared := if screen == Battle then r.(cleanup := Prepare(i.patchesRestored)) else r;
    if ExitContext(i.ctx, screen) == 0 then (if r.request.allowForcedFallback then Fallback(r) else Lost(r))
    else if !i.writeOk then (if r.request.allowForcedFallback then Fallback(prepared) else Lost(prepared))
    else prepared.(nativeStart := screen, nativeTick := i.later, phase := WaitingForNativeExit)
  }

  /** The recursion through the loading screen ends: the classification asks again only for another screen. */
  function Classify(r: Return, i: Inputs): Return
    decreases if i.ctx.screen == Loading then 1 else 0
  {
    var screen := i.ctx.screen;
    if screen == Unknown then Fallback(r)
    else if r.request.target == ToCharacterSelect && screen == CharacterSelect then Completed(r)
    else if IsTitleFamily(screen) then AtTitle(r)
    else if screen == CharacterSelect then NativeExit(r, CharacterSelect, i)
    else if screen == Loading then OnLoading(r, i, i.later)
    else if screen == Battle then (if r.request.allowNativeBattleExit then NativeExit(r, Battle, i) else Fallback(r))
    else if screen == Result then (if r.request.allowNativeResultExit then NativeExit(r, Result, i) else Fallback(r))
    else Fallback(r)
  }

  function EnterLoading(r: Return, now: Word): Return {
    if InLoading(r.phase) then r else r.(phase := LoadingWait, loadingTick := now, unblockDone := false)
  }

  function OnLoading(r: Return, i: Inputs, now: Word): Return
    decreases if i.ctx.screen == Loading then 0 else 1
  {
    if i.ctx.screen != Loading then Classify(r.(phase := Requested), i) else
    var w := EnterLoading(r, now);
    var elapsed := Elapsed(now, w.loadingTick);
    if elapsed < LOADING_GRACE_MS then w
    else if !w.unblockDone && w.request.confirmedDisconnect && elapsed >= LOADING_CRITICAL_MS
    then w.(unblockDone := true, phase := WaitingForLoadingToResolve)
    else if elapsed >= LOADING_FORCE_FALLBACK_MS
    then (if w.request.allowForcedFallback then Fallback(w) else Lost(w))
    else w
  }

  function NativeWait(r: Return, i: Inputs): Return {
    if r.nativeStart == Unknown then Lost(r)
    else if i.ctx.screen != r.nativeStart then Classify(r.(phase := Requested), i)
    else if Elapsed(i.now, r.nativeTick) >= NATIVE_EXIT_TIMEOUT_MS then Fallback(r)
    else r
  }

  function TryForce(r: Return, i: Inputs): Return {
    if i.insideLater then r.(phase := WaitForSafePoint)
    else if !i.forceOk then r.(phase := ForceTitleFallback)
    else AtTitle(r)
  }

  /** The machine's own part of a tick. */
  function Advance(r: Return, i: Inputs): Return {
    if !Owned(r.ownership) then r else
    match r.phase
    case Idle => Classify(r.(phase := Requested), i)
    case Requested => Classify(r, i)
    case WaitForSafePoint => if i.ctx.insideFrameTick then r else TryForce(r.(phase := ForceTitleFallback), i)
    case ForceTitleFallback => TryForce(r, i)
    case TitleReached => AtTitle(r)
    case NetplayMenuContinuationPending => r
    case Complete => r
    case Failed => r
    case p => if InLoading(p) then OnLoading(r, i, i.now) else NativeWait(r, i)
  }

  /** What an accepted begin writes before its tick. */
  function Started(r: Return, request: Request): Return {
    r.(ownership := Active, request := request, nativeTick := 0, loadingTick := 0, unblockDone := false,
       nativeStart := Unknown, cleanup := Prepare(true), phase := Requested)
  }

  /** The battle screen ran an update of its own. */
  function Observed(r: Return): Return {
    if Owned(r.ownership) && r.nativeStart == Battle && InNativeExit(r.phase)
    then r.(cleanup := ObserveUpdate(r.cleanup)) else r
  }

  /** Does a native result lead to a title-like screen that the game itself must not show? */
  predicate Redirects(r: Return, update: Screen, result: Screen) {
    && (r.request.owner == DisconnectRecovery || r.request.owner == AsyncHostAccept)
    && r.request.target == ToNetplayMenu && (update == Battle || update == Result)
    && result != Title && (result == CharacterSelect || IsTitleFamily(result))
  }

  predicate ExitAnswered(r: Return, update: Screen, raw: nat) {
    r.phase == WaitingForNativeExit && r.nativeStart == update && ScreenFromRaw(raw) != update
  }

  /** A screen's own update returned `raw`, the screen it wants next. */
  function Updated(r: Return, update: Screen, raw: nat): Return {
    var result := ScreenFromRaw(raw);
    if !Owned(r.ownership) then r
    else if update == Loading && raw != 2 && InLoading(r.phase) then r.(phase := Requested)
    else if !ExitAnswered(r, update, raw) then r
    else if Redirects(r, update, result) then AtTitle(r)
    else if r.request.target != ToCharacterSelect && IsTitleFamily(result) then AtTitle(r)
    else if r.request.target == ToCharacterSelect && result == CharacterSelect then Completed(r)
    else r.(phase := Requested)
  }

  /** The screen the game is told to show next: the title when the result is redirected. */
  function UpdateResult(r: Return, update: Screen, raw: nat): nat {
    if Owned(r.ownership) && !(update == Loading && raw != 2 && InLoading(r.phase))
       && ExitAnswered(r, update, raw) && Redirects(r, update, ScreenFromRaw(raw))
    then 0 else raw
  }

  function Consume(r: Return): Return {
    if r.ownership != ContinuationPending then r
    else Completed(r.(ownership :=
                       if r.continuationTarget == ToNetplayMenu then ContinuationClaimedConsumed
                       else ContinuationClaimed))
  }

  function LatchReset(r: Return): Return {
    if Consumed(r.ownership) then r.(ownership := ResetReturnConsumed(r.ownership)) else r
  }

  /** A consume into which a latch reset of another thread falls or not; if it does, the latch is gone. */
  function Consuming(r: Return, reset: bool): Return {
    if r.ownership != ContinuationPending then r
    else if reset then LatchReset(Consume(r)) else Consume(r)
  }

  // ----- the globals and the handlers that update them

  class Frontend {
    var ownership: Ownership
    var phase: Phase
    var request: Request
    var continuationOwner: Owner
    var continuationTarget: Target
    var nativeStart: Screen
    var nativeTick: Word
    var loadingTick: Word
    var unblockDone: bool
    var cleanup: Cleanup

    function View(): Return
      reads this
    {
      Return(ownership, phase, request, continuationOwner, continuationTarget, nativeStart, nativeTick, loadingTick,
             unblockDone, cleanup)
    }

    constructor ()
      ensures View() == INITIAL
    {
      ownership, phase, request := Inactive, Idle, NO_REQUEST;
      continuationOwner, continuationTarget := Diagnostic, ToTitle;
      nativeStart, nativeTick, loadingTick, unblockDone, cleanup := Unknown, 0, 0, false, AwaitingUpdate;
    }

    method CompleteReturn()
      modifies this
      ensures View() == Completed(old(View()))
    {
      phase := Complete;
      ownership := FinishReturn(ownership);
    }

    method FailReturn()
      modifies this
      ensures View() == Lost(old(View()))
    {
      phase := Failed;
      ownership := FinishReturn(ownership);
    }

    method RequestForceTitleFallback()
      modifies this
      ensures View() == Fallback(old(View()))
    {
      if !request.allowForcedFallback {
        FailReturn();
        return;
      }
      if (request.owner == DisconnectRecovery || request.owner == AsyncHostAccept) && nativeStart == Battle
         && (phase == NativeExitRequested || phase == WaitingForNativeExit) && cleanup == Reached
      {
        return;
      }
      phase := ForceTitleFallback;
    }

    method HandleTitleReached()
      modifies this
      ensures View() == AtTitle(old(View()))
    {
      phase := TitleReached;
      if request.target == ToNetplayMenu && request.enterNetplayMenuAfterTitle {
        continuationOwner, continuationTarget := request.owner, request.target;
        ownership := ContinuationPending;
        phase := NetplayMenuContinuationPending;
        return;
      }
      CompleteReturn();
    }

    method RequestNativeExit(screen: Screen, i: Inputs)
      modifies this
      ensures View() == NativeExit(old(View()), screen, i)
    {
      var target := ExitContext(i.ctx, screen);
      if target == 0 {
        if request.allowForcedFallback { RequestForceTitleFallback(); } else { FailReturn(); }
        return;
      }
      if screen == Battle { cleanup := Prepare(i.patchesRestored); }
      if !i.writeOk {
        if request.allowForcedFallback { RequestForceTitleFallback(); } else { FailReturn(); }
        return;
      }
      nativeStart := screen;
      nativeTick := i.later;
      phase := NativeExitRequested;
      phase := WaitingForNativeExit;
    }

    method ClassifyAndAdvance(i: Inputs)
      modifies this
      ensures View() == Classify(old(View()), i)
      decreases if i.ctx.screen == Loading then 1 else 0
    {
      if i.ctx.screen == Unknown {
        RequestForceTitleFallback();
        return;
      }
      if request.target == ToCharacterSelect {
        if i.ctx.screen == CharacterSelect {
          CompleteReturn();
          return;
        }
      } else if IsTitleFamily(i.ctx.screen) {
        HandleTitleReached();
        return;
      }
      match i.ctx.screen {
        case Title => HandleTitleReached();
        case Settings => HandleTitleReached();
        case ReplaySelect => HandleTitleReached();
        case CharacterSelect => RequestNativeExit(CharacterSelect, i);
        case Loading => HandleLoading(i, i.later);
        case Battle =>
          if request.allowNativeBattleExit { RequestNativeExit(Battle, i); } else { RequestForceTitleFallback(); }
        case Result =>
          if request.allowNativeResultExit { RequestNativeExit(Result, i); } else { RequestForceTitleFallback(); }
        case Unused4 => RequestForceTitleFallback();
        case StaffRoll => RequestForceTitleFallback();
      }
    }

    method EnterLoadingWait(now: Word)
      modifies this
      ensures View() == EnterLoading(old(View()), now)
    {
      if phase != LoadingWait && phase != LoadingCriticalUnblock && phase != WaitingForLoadingToResolve {
        loadingTick := now;
        unblockDone := false;
        phase := LoadingWait;
      }
    }

    method PerformLoadingCriticalUnblock()
      modifies this
      ensures View() == (if old(unblockDone) then old(View())
                         else old(View()).(unblockDone := true, phase := WaitingForLoadingToResolve))
    {
      if unblockDone { return; }
      unblockDone := true;
      phase := LoadingCriticalUnblock;
      phase := WaitingForLoadingToResolve;
    }

    method HandleLoading(i: Inputs, now: Word)
      modifies this
      ensures View() == OnLoading(old(View()), i, now)
      decreases if i.ctx.screen == Loading then 0 else 1
    {
      if i.ctx.screen != Loading {
        phase := Requested;
        ClassifyAndAdvance(i);
        return;
      }
      EnterLoadingWait(now);
      var elapsed := Elapsed(now, loadingTick);
      if elapsed < LOADING_GRACE_MS { return; }
      if !unblockDone && request.confirmedDisconnect && elapsed >= LOADING_CRITICAL_MS {
        PerformLoadingCriticalUnblock();
        return;
      }
      if elapsed >= LOADING_FORCE_FALLBACK_MS {
        if request.allowForcedFallback { RequestForceTitleFallback(); } else { FailReturn(); }
      }
    }

    method HandleNativeWait(i: Inputs)
      modifies this
      ensures View() == NativeWait(old(View()), i)
    {
      if nativeStart == Unknown {
        FailReturn();
        return;
      }
      if i.ctx.screen != nativeStart {
        phase := Requested;
        ClassifyAndAdvance(i);
        return;
      }
      if Elapsed(i.now, nativeTick) >= NATIVE_EXIT_TIMEOUT_MS { RequestForceTitleFallback(); }
    }

    method TryForceTitleFallback(i: Inputs)
      modifies this
      ensures View() == TryForce(old(View()), i)
    {
      if i.insideLater {
        phase := WaitForSafePoint;
        return;
      }
      if !i.forceOk {
        phase := ForceTitleFallback;
        return;
      }
      HandleTitleReached();
    }

    /** The part of TickFrontendReturn after the two nested ticks. */
    method AdvanceReturn(i: Inputs)
      modifies this
      ensures View() == Advance(old(View()), i)
    {
      if !Owned(ownership) { return; }
      match phase {
        case Idle =>
          phase := Requested;
          ClassifyAndAdvance(i);
        case Requested => ClassifyAndAdvance(i);
        case WaitForSafePoint =>
          if i.ctx.insideFrameTick { return; }
          phase := ForceTitleFallback;
          TryForceTitleFallback(i);
        case LoadingWait => HandleLoading(i, i.now);
        case LoadingCriticalUnblock => HandleLoading(i, i.now);
        case WaitingForLoadingToResolve => HandleLoading(i, i.now);
        case NativeExitRequested => HandleNativeWait(i);
        case WaitingForNativeExit => HandleNativeWait(i);
        case ForceTitleFallback => TryForceTitleFallback(i);
        case TitleReached => HandleTitleReached();
        case _ =>
      }
    }

    /** The part of BeginReturnToFrontend between winning the ownership word and the nested tick. */
    method AcceptBegin(r: Request)
      modifies this
      ensures View() == Started(old(View()), r)
    {
      ownership := Active;
      request := r;
      nativeTick, loadingTick, unblockDone := 0, 0, false;
      nativeStart := Unknown;
      cleanup := Prepare(true);
      phase := Requested;
    }

    method ObserveBattleUpdate()
      modifies this
      ensures View() == Observed(old(View()))
    {
      if Owned(ownership) && nativeStart == Battle && (phase == NativeExitRequested || phase == WaitingForNativeExit) {
        cleanup := ObserveUpdate(cleanup);
      }
    }

    method HandleNativeUpdateReturn(update: Screen, raw: nat) returns (shown: nat)
      modifies this
      ensures View() == Updated(old(View()), update, raw)
      ensures shown == UpdateResult(old(View()), update, raw)
    {
      var result := ScreenFromRaw(raw);
      if !Owned(ownership) { return raw; }
      if update == Loading && raw != 2 && InLoading(phase) {
        phase := Requested;
        return raw;
      }
      if phase != WaitingForNativeExit || nativeStart != update || result == update { return raw; }
      if Redirects(View(), update, result) {
        HandleTitleReached();
        return 0;
      }
      if (request.target == ToTitle || request.target == ToNetplayMenu) && IsTitleFamily(result) {
        HandleTitleReached();
        return raw;
      }
      if request.target == ToCharacterSelect && result == CharacterSelect {
        CompleteReturn();
        return raw;
      }
      phase := Requested;
      return raw;
    }

    method ConsumeTitleContinuation() returns (ok: bool, owner: Owner, target: Target)
      modifies this
      ensures View() == Consume(old(View()))
      ensures ok <==> old(ownership) == ContinuationPending
      ensures owner == old(continuationOwner) && target == old(continuationTarget)
    {
      owner, target := continuationOwner, continuationTarget;
      if ownership != ContinuationPending { return false, owner, target; }
      ownership := ContinuationClaimed;
      if continuationTarget == ToNetplayMenu { ownership := ContinuationClaimedConsumed; }
      CompleteReturn();
      return true, owner, target;
    }

    method ResetConsumedContinuationLatch()
      modifies this
      ensures View() == LatchReset(old(View()))
    {
      if Consumed(ownership) { ownership := ResetReturnConsumed(ownership); }
    }
  }

  // ----- what every step keeps

  /** Between calls: an owned return is on its way or waits at the title, and a finished one is finished. */
  predicate WellFormed(r: Return) {
    && (Owned(r.ownership) ==> r.ownership == Active || r.ownership == ContinuationPending)
    && (r.ownership == Active ==>
          r.phase != Idle && r.phase != TitleReached && r.phase != NetplayMenuContinuationPending
          && r.phase != Complete && r.phase != Failed && (InNativeExit(r.phase) ==> r.nativeStart != Unknown))
    && (r.ownership == ContinuationPending ==>
          r.phase == NetplayMenuContinuationPending && r.request.target == ToNetplayMenu
          && r.request.enterNetplayMenuAfterTitle
          && r.continuationOwner == r.request.owner && r.continuationTarget == ToNetplayMenu)
    && (!Owned(r.ownership) ==> r.phase == Idle || r.phase == Complete || r.phase == Failed)
  }

  /** The request is still the one that is being served. */
  predicate Serves(r: Return, request: Request) {
    (r.ownership == Active || r.ownership == ContinuationPending) && r.request == request
  }

  /** A return that may force its way to the title and goes on to the netplay menu. */
  predicate Sure(request: Request) {
    request.target == ToNetplayMenu && request.enterNetplayMenuAfterTitle && request.allowForcedFallback
  }

  lemma AtTitleKeeps(r: Return)
    requires WellFormed(r) && r.ownership == Active
    ensures WellFormed(AtTitle(r)) && AtTitle(r).request == r.request && AtTitle(r).phase != Failed
    ensures Sure(r.request) ==> Serves(AtTitle(r), r.request)
  {
  }

  lemma FallbackKeeps(r: Return)
    requires WellFormed(r) && r.ownership == Active
    ensures WellFormed(Fallback(r)) && Fallback(r).request == r.request
    ensures r.request.allowForcedFallback ==> Fallback(r).ownership == Active && Fallback(r).phase != Failed
  {
  }

  lemma ClassifyKeeps(r: Return, i: Inputs)
    requires WellFormed(r) && r.ownership == Active && r.phase == Requested
    ensures WellFormed(Classify(r, i)) && Classify(r, i).request == r.request
    ensures r.request.allowForcedFallback ==> Classify(r, i).phase != Failed
    ensures Sure(r.request) ==> Serves(Classify(r, i), r.request)
  {
    if i.ctx.screen == Loading { LoadingKeeps(r, i, i.later); }
  }

  lemma LoadingKeeps(r: Return, i: Inputs, now: Word)
    requires WellFormed(r) && r.ownership == Active && i.ctx.screen == Loading
    ensures WellFormed(OnLoading(r, i, now)) && OnLoading(r, i, now).request == r.request
    ensures r.request.allowForcedFallback ==> OnLoading(r, i, now).phase != Failed
    ensures Sure(r.request) ==> Serves(OnLoading(r, i, now), r.request)
  {
  }

  lemma LoadingResolves(r: Return, i: Inputs, now: Word)
    requires i.ctx.screen != Loading
    ensures OnLoading(r, i, now) == Classify(r.(phase := Requested), i)
  {
  }

  /** What a handler may do with an active return. */
  predicate KeptBy(r: Return, n: Return) {
    && WellFormed(n) && n.request == r.request
    && (r.request.allowForcedFallback ==> n.phase != Failed)
    && (Sure(r.request) ==> Serves(n, r.request))
  }

  lemma AnyLoadingKeeps(r: Return, i: Inputs)
    requires WellFormed(r) && r.ownership == Active && InLoading(r.phase)
    ensures KeptBy(r, OnLoading(r, i, i.now))
  {
    if i.ctx.screen == Loading {
      LoadingKeeps(r, i, i.now);
    } else {
      LoadingResolves(r, i, i.now);
      ClassifyKeeps(r.(phase := Requested), i);
    }
    hide OnLoading, Classify;
  }

  lemma NativeWaitKeeps(r: Return, i: Inputs)
    requires WellFormed(r) && r.ownership == Active && InNativeExit(r.phase)
    ensures KeptBy(r, NativeWait(r, i))
  {
    hide Classify, Fallback;
    ClassifyKeeps(r.(phase := Requested), i);
    FallbackKeeps(r);
  }

  lemma TryForceKeeps(r: Return, i: Inputs)
    requires WellFormed(r) && r.ownership == Active && r.phase == ForceTitleFallback
    ensures KeptBy(r, TryForce(r, i))
  {
    hide AtTitle;
    AtTitleKeeps(r);
  }

  lemma AdvanceKeeps(r: Return, i: Inputs)
    requires WellFormed(r)
    ensures WellFormed(Advance(r, i)) && Advance(r, i).request == r.request
    ensures r.request.allowForcedFallback && r.phase != Failed ==> Advance(r, i).phase != Failed
    ensures Sure(r.request) && Owned(r.ownership) ==> Serves(Advance(r, i), r.request)
  {
    if r.ownership == Active {
      hide Classify, OnLoading, NativeWait, TryForce, AtTitle;
      match r.phase
      case Requested => ClassifyKeeps(r, i);
      case WaitForSafePoint => TryForceKeeps(r.(phase := ForceTitleFallback), i);
      case ForceTitleFallback => TryForceKeeps(r, i);
      case p => if InLoading(p) { AnyLoadingKeeps(r, i); } else { NativeWaitKeeps(r, i); }
    }
  }

  lemma UpdatedKeeps(r: Return, update: Screen, raw: nat)
    requires WellFormed(r)
    ensures WellFormed(Updated(r, update, raw)) && Updated(r, update, raw).request == r.request
    ensures Updated(r, update, raw).phase == Failed ==> r.phase == Failed
    ensures Sure(r.request) && Owned(r.ownership) ==> Serves(Updated(r, update, raw), r.request)
  {
  }

  // ----- runs of one return

  datatype Move = Ticks(i: Inputs) | Updates(update: Screen, raw: nat) | Observes

  function Step(r: Return, m: Move): Return {
    match m
    case Ticks(i) => Advance(r, i)
    case Updates(update, raw) => Updated(r, update, raw)
    case Observes => Observed(r)
  }

  function Run(r: Return, moves: seq<Move>): Return
    decreases |moves|
  {
    if moves == [] then r else Run(Step(r, moves[0]), moves[1..])
  }

  lemma {:induction false} RunKeeps(r: Return, moves: seq<Move>)
    requires WellFormed(r)
    ensures WellFormed(Run(r, moves)) && Run(r, moves).request == r.request
    ensures r.request.allowForcedFallback && r.phase != Failed ==> Run(r, moves).phase != Failed
    ensures Sure(r.request) && Owned(r.ownership) ==> Serves(Run(r, moves), r.request)
    decreases |moves|
  {
    if moves != [] {
      match moves[0] {
        case Ticks(i) => AdvanceKeeps(r, i);
        case Updates(update, raw) => UpdatedKeeps(r, update, raw);
        case Observes =>
      }
      RunKeeps(Step(r, moves[0]), moves[1..]);
    }
  }

  /** Whatever the game, the clock and the patches do. */
  ghost predicate NeverDropped(r: Return) { forall moves: seq<Move> :: Serves(Run(r, moves), r.request) }

  ghost predicate NeverFails(r: Return) { forall moves: seq<Move> :: Run(r, moves).phase != Failed }

  const CALM: Inputs := Inputs(Context(Unknown, 0, 0, 0, false), 0, 0, false, true, true, true)

  function Showing(screen: Screen): Inputs { CALM.(ctx := CALM.ctx.(screen := screen)) }

  lemma RunOne(r: Return, m: Move)
    ensures Run(r, [m]) == Step(r, m)
  {
    assert Run(Step(r, m), [m][1..]) == Step(r, m);
  }

  /** A begun return is kept until somebody consumes its continuation exactly when its request is a sure one. */
  lemma HeldExactlyWhenSure(r: Return, request: Request)
    ensures NeverDropped(Started(r, request)) <==> Sure(request)
  {
    var s := Started(r, request);
    if Sure(request) {
      forall moves: seq<Move> ensures Serves(Run(s, moves), s.request) { RunKeeps(s, moves); }
    } else if !request.allowForcedFallback {
      RunOne(s, Ticks(Showing(Unknown)));
      assert !Serves(Run(s, [Ticks(Showing(Unknown))]), request);
    } else {
      RunOne(s, Ticks(Showing(Title)));
      assert !Serves(Run(s, [Ticks(Showing(Title))]), request);
    }
  }

  /** Target and fallback are not enough: without the menu entry after the title the return ends at the title. */
  lemma MenuTargetAloneIsNotHeld(r: Return, request: Request)
    requires request.target == ToNetplayMenu && request.allowForcedFallback && !request.enterNetplayMenuAfterTitle
    ensures var n := Run(Started(r, request), [Ticks(Showing(Title))]);
      n.phase == Complete && n.ownership == Inactive && !NeverDropped(Started(r, request))
  {
    RunOne(Started(r, request), Ticks(Showing(Title)));
    assert !Serves(Run(Started(r, request), [Ticks(Showing(Title))]), request);
  }

  lemma FailsOnlyWithoutFallback(r: Return, request: Request)
    ensures NeverFails(Started(r, request)) <==> request.allowForcedFallback
  {
    var s := Started(r, request);
    if request.allowForcedFallback {
      forall moves: seq<Move> ensures Run(s, moves).phase != Failed { RunKeeps(s, moves); }
    } else {
      RunOne(s, Ticks(Showing(Unknown)));
      assert Run(s, [Ticks(Showing(Unknown))]).phase == Failed;
    }
  }

  // ----- the fallback lands, and what can hold it up

  /** Outside a frame, a fallback that the game carries out brings a sure return to its continuation. */
  lemma FallbackLands(r: Return, i: Inputs)
    requires WellFormed(r) && r.ownership == Active && Sure(r.request)
    requires r.phase == ForceTitleFallback || (r.phase == WaitForSafePoint && !i.ctx.insideFrameTick)
    ensures Advance(r, i).ownership == (if !i.insideLater && i.forceOk then ContinuationPending else Active)
    ensures Advance(r, i).ownership == ContinuationPending ==>
              Advance(r, i).continuationOwner == r.request.owner && Advance(r, i).continuationTarget == r.request.target
  {
  }

  /** A loading screen that never ends is left by force: two ticks past the limit are enough. */
  lemma StuckLoadingIsForced(r: Return, i: Inputs, j: Inputs)
    requires r.ownership == Active && InLoading(r.phase) && r.request.allowForcedFallback
    requires i.ctx.screen == Loading && j.ctx.screen == Loading
    requires Elapsed(i.now, r.loadingTick) >= LOADING_FORCE_FALLBACK_MS
    requires Elapsed(j.now, r.loadingTick) >= LOADING_FORCE_FALLBACK_MS
    ensures Advance(r, i).phase == ForceTitleFallback ||
            (r.request.confirmedDisconnect && !r.unblockDone && Advance(Advance(r, i), j).phase == ForceTitleFallback)
  {
  }

  /** A native exit that times out is forced, except exactly when the battle is already cleaning up. */
  lemma TimeoutForcesUnlessSuppressed(r: Return, i: Inputs)
    requires WellFormed(r) && r.ownership == Active && r.phase == WaitingForNativeExit && r.request.allowForcedFallback
    requires i.ctx.screen == r.nativeStart && Elapsed(i.now, r.nativeTick) >= NATIVE_EXIT_TIMEOUT_MS
    ensures Advance(r, i).phase == ForceTitleFallback <==> !Suppressed(r)
    ensures Suppressed(r) ==> Advance(r, i) == r
  {
  }

  /** The game shows the battle and stays in it. */
  predicate StaysInBattle(m: Move) {
    match m
    case Ticks(i) => i.ctx.screen == Battle
    case Updates(update, raw) => update == Battle && ScreenFromRaw(raw) == Battle
    case Observes => true
  }

  /** A suppressed fallback has no deadline: as long as the battle goes on the return goes on waiting for it. */
  lemma {:induction false} SuppressedWaitsForTheGame(r: Return, moves: seq<Move>)
    requires WellFormed(r) && r.ownership == Active && r.phase == WaitingForNativeExit
    requires Suppressed(r) && r.request.allowForcedFallback
    requires forall k :: 0 <= k < |moves| ==> StaysInBattle(moves[k])
    ensures Run(r, moves) == r
    decreases |moves|
  {
    if moves != [] {
      assert StaysInBattle(moves[0]);
      assert Step(r, moves[0]) == r;
      SuppressedWaitsForTheGame(r, moves[1..]);
    }
  }

  // ----- the cleanup word over any calls

  datatype CleanupCall = Prepares(patchesRestored: bool) | Saw

  function CleanupAfter(calls: seq<CleanupCall>): Cleanup {
    if calls == [] then AwaitingUpdate else
    match calls[|calls| - 1]
    case Prepares(ok) => Prepare(ok)
    case Saw => ObserveUpdate(CleanupAfter(calls[..|calls| - 1]))
  }

  /** The position of the last preparation, or -1. */
  function LastPrepare(calls: seq<CleanupCall>): int {
    if calls == [] then -1
    else if calls[|calls| - 1].Prepares? then |calls| - 1 else LastPrepare(calls[..|calls| - 1])
  }

  /** The fallback may wait exactly when an update was seen since the last preparation and that one restored the
      patches. */
  lemma {:induction false} SuppressesExactlyAfterUpdate(calls: seq<CleanupCall>)
    ensures -1 <= LastPrepare(calls) < |calls|
    ensures var p := LastPrepare(calls); p >= 0 ==> calls[p].Prepares?
    ensures var p := LastPrepare(calls); var ok := p >= 0 ==> calls[p].patchesRestored;
            CleanupAfter(calls) ==
              if p == |calls| - 1 then (if ok then AwaitingUpdate else AwaitingUpdateWithPatchFailure)
              else (if ok then Reached else ReachedWithPatchFailure)
    ensures CanSuppressFallback(CleanupAfter(calls)) <==>
            LastPrepare(calls) < |calls| - 1 && (LastPrepare(calls) >= 0 ==> calls[LastPrepare(calls)].patchesRestored)
    decreases |calls|
  {
    if calls != [] { SuppressesExactlyAfterUpdate(calls[..|calls| - 1]); }
  }
}
