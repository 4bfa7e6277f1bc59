/**
 Whole episodes of the cycle between the frontend return and background hosting: a press that returns to the menu,
 a disconnect from a battle up to its consumed continuation, a peer that is held, accepted and handed over.
 */
module CycleLaws {
  import opened Basics
  import opened FrontendReturn
  import opened AsyncHost
  import opened AsyncEpisodes
  import opened ReturnCycle
  import opened ReturnLaws
  import H = HostLaws

  // ----- ticks without a press

  /** All of the host but its key. */
  predicate SameButKey(a: Host, b: Host) {
    && a.state == b.state && a.origin == b.origin && a.challengeEnded == b.challengeEnded
    && a.promptSerial == b.promptSerial && a.listener == b.listener && a.cooldown == b.cooldown
    && a.peerWasAlive == b.peerWasAlive && a.past == b.past
  }

  lemma NoPress(h: Host, k: KeyInputs, returning: bool)
    requires !k.down
    ensures !KeyEdge(h, k, returning).1 && SameButKey(KeyEdge(h, k, returning).0, h)
  {
  }

  lemma ResetIgnoresKey(a: Host, b: Host, why: Happening)
    requires SameButKey(a, b)
    ensures SameButKey(ResetHost(a, why), ResetHost(b, why))
  {
    assert a.Note(why).past == b.Note(why).past;
  }

  lemma PeerTickIgnoresKey(a: Host, b: Host, i: TickInputs)
    requires SameButKey(a, b)
    ensures SameButKey(TickAfter(a, i), TickAfter(b, i))
  {
    if a.state == Accepted { ResetIgnoresKey(a, b, Released); }
    hide ResetHost;
    if a.state == Hosting { assert a.Note(Prompted(i.promptSerial)).past == b.Note(Prompted(i.promptSerial)).past; }
  }

  /** With the key up a host tick is the tick of the host, and touches nothing of the return. */
  lemma QuietHostTick(w: World, e: Environment, n: nat)
    requires !e(n).host.key.down
    ensures var r := HostTick(w, e, n); var (h, on) := TickBefore(w.host, e(n).host);
      && r == w.(host := r.host)
      && SameButKey(r.host, if on then TickAfter(h, e(n).host) else h)
  {
    var (h, on) := TickBefore(w.host, e(n).host);
    hide TickBefore, TickAfter, KeyEdge;
    NoPress(h, e(n).host.key, Owned(w.ret.ownership));
    if on { PeerTickIgnoresKey(KeyEdge(h, e(n).host.key, Owned(w.ret.ownership)).0, h, e(n).host); }
  }

  /** With the key up a lobby tick tells the end of a challenge and ends an abandoned one. */
  lemma QuietLobbyTick(w: World, e: Environment, n: nat)
    requires !e(n).lobby.key.down
    ensures var r := LobbyTick(w, e, n); var i := e(n).lobby;
      && r == w.(host := r.host)
      && (!i.runs ==> r == w)
      && (i.runs ==> !r.host.challengeEnded)
      && (i.runs && i.abandoned ==> r.host.state == NotHosting && r.host.past.log == w.host.past.log + [Ended])
      && (i.runs && !i.abandoned ==> SameButKey(r.host, ChallengeEndConsumed(w.host)))
  {
    var i := e(n).lobby;
    hide KeyEdge;
    if i.runs {
      var drained := ChallengeEndConsumed(w.host);
      var h := if i.abandoned then ResetHost(drained, Ended) else drained;
      NoPress(h, i.key, Owned(w.ret.ownership));
    }
  }

  /** The key is up, and the lobby has nothing to tell. */
  predicate Quiet(i: CallInputs) {
    !i.host.key.down && (i.lobby.runs ==> !i.lobby.abandoned) && !i.lobby.key.down
  }

  /** A quiet tick of the return: the host's tick, and the return's own. */
  lemma QuietTick(w: World, e: Environment)
    requires Quiet(e(0))
    ensures var r := Next(w, FrontendTicks(e)); var (h, on) := TickBefore(w.host, e(0).host);
      && r == w.(host := r.host, ret := Advance(w.ret, e(0).own))
      && SameButKey(r.host.(challengeEnded := false),
                    (if on then TickAfter(h, e(0).host) else h).(challengeEnded := false))
  {
    QuietHostTick(w, e, 0);
    QuietLobbyTick(HostTick(w, e, 0), e, 0);
    hide HostTick, LobbyTick, TickBefore, TickAfter, Advance;
  }

  // ----- the press

  /** Whatever the nested calls bring, a press in the background accepts one return to the menu, which is owned
      afterwards with the key's request, and the key is pending. */
  lemma PressReturns(w: World, e: Environment)
    requires Inv(w) && !Owned(w.ret.ownership) && w.host.state == NotHosting
    requires var i := e(0).lobby; i.runs && !i.abandoned && KeyEdge(ChallengeEndConsumed(w.host), i.key, false).1
    ensures var r := Next(w, LobbyTicks(e));
      && r.accepted == w.accepted + 1 && r.consumed == w.consumed && Serves(r.ret, KEY_REQUEST) && r.host.key.pending
  {
    var i := e(0).lobby;
    var drained := ChallengeEndConsumed(w.host);
    assert HostOk(drained);
    KeyKeepsHost(drained, i.key, false);
    var p := w.(host := KeyEdge(drained, i.key, false).0);
    BeginKeeps(p, KEY_REQUEST, e, 2);
    hide Begin, HostOk, KeyEdge, WellFormed;
    assert LobbyTick(w, e, 0) == PollReturnKey(w.(host := drained), i.key, e, 2);
    assert PollReturnKey(w.(host := drained), i.key, e, 2).host == KeyBegun(Begin(p, KEY_REQUEST, e, 2).host);
  }

  /** A press while hosting does so too, before the rest of the host's tick. */
  lemma PressWhileHosting(w: World, e: Environment)
    requires Inv(w) && !Owned(w.ret.ownership)
    requires var (h, on) := TickBefore(w.host, e(0).host); on && KeyEdge(h, e(0).host.key, false).1
    ensures var r := Next(w, HostTicks(e));
      r.accepted == w.accepted + 1 && r.consumed == w.consumed && Serves(r.ret, KEY_REQUEST)
  {
    var h := TickBefore(w.host, e(0).host).0;
    TickBeforeKeeps(w.host, e(0).host);
    KeyKeepsHost(h, e(0).host.key, false);
    var p := w.(host := KeyEdge(h, e(0).host.key, false).0);
    BeginKeeps(p, KEY_REQUEST, e, 1);
    hide Begin, HostOk, KeyEdge, WellFormed, TickBefore, TickAfter;
    assert PollReturnKey(w.(host := h), e(0).host.key, e, 1).ret == Begin(p, KEY_REQUEST, e, 1).ret;
  }

  // ----- a disconnect in a battle

  /** A disconnect that leaves a battle for the menu. */
  predicate LeavesBattle(q: Request) { Sure(q) && q.owner == DisconnectRecovery && q.allowNativeBattleExit }

  predicate BattleThere(i: Inputs) { i.ctx.screen == Battle && i.ctx.battle != 0 && i.writeOk }

  /** The begin asks the battle to end at once, whatever else its first tick calls. */
  lemma BeginLeavesBattle(w: World, q: Request, e: Environment)
    requires Inv(w) && !Owned(w.ret.ownership) && LeavesBattle(q) && BattleThere(e(0).own)
    ensures var b := Next(w, Begins(q, e));
      && Inv(b) && b.accepted == w.accepted + 1 && b.ret.ownership == Active && b.ret.request == q
      && b.ret.phase == WaitingForNativeExit && b.ret.nativeStart == Battle && b.ret.nativeTick == e(0).own.later
      && b.ret.cleanup == Prepare(e(0).own.patchesRestored)
  {
    var s := w.(ret := FrontendReturn.Started(w.ret, q), accepted := w.accepted + 1);
    StartedWorld(w, q);
    StartedAsks(w.ret, q);
    FrontendTickKeeps(s, e, 0);
    ExitExactlyWhenPermitted(s.ret, e(0).own);
    AdvanceKeeps(s.ret, e(0).own);
    hide FrontendTick, Advance, FrontendReturn.Started, HostOk;
  }

  /** The battle's own answer, character select, is not shown; the continuation is pending, is consumed once, and its
      latch is cleared by the next session. */
  lemma DisconnectIsConsumed(w: World, q: Request, e: Environment)
    requires Inv(w) && !Owned(w.ret.ownership) && LeavesBattle(q) && BattleThere(e(0).own)
    ensures var b := Next(w, Begins(q, e)); var p := Next(b, ScreenReturns(Battle, 1));
      var c := Next(p, Consumes(false)); var l := Next(c, LatchResets);
      && UpdateResult(b.ret, Battle, 1) == 0
      && p.ret.ownership == ContinuationPending && p.ret.continuationOwner == DisconnectRecovery
      && c.consumed == p.consumed + 1 && c.ret.ownership == ContinuationConsumed && l.ret.ownership == Inactive
  {
    BeginLeavesBattle(w, q, e);
    var b := Next(w, Begins(q, e));
    hide Begin;
    ExitAnswer(b.ret, 1);
    hide UpdateResult;
    assert ScreenFromRaw(1) == CharacterSelect;
    assert Next(b, ScreenReturns(Battle, 1)).ret == FrontendReturn.Step(b.ret, Updates(Battle, 1));
    hide Updated;
  }

  /** If instead the battle goes on running, its first update makes the timeout wait for it; without one the title is
      forced. */
  lemma DisconnectWaitsForBattle(w: World, q: Request, e: Environment, later: Environment, updated: bool)
    requires Inv(w) && !Owned(w.ret.ownership) && LeavesBattle(q) && BattleThere(e(0).own)
    requires e(0).own.patchesRestored && Quiet(later(0)) && later(0).own.ctx.screen == Battle
    requires Elapsed(later(0).own.now, e(0).own.later) >= 5000
    ensures var b := Next(w, Begins(q, e)); var u := if updated then Next(b, BattleUpdates) else b;
      var t := Next(u, FrontendTicks(later));
      t.ret == if updated then u.ret else b.ret.(phase := ForceTitleFallback)
  {
    BeginLeavesBattle(w, q, e);
    var b := Next(w, Begins(q, e));
    hide Begin;
    var u := if updated then Next(b, BattleUpdates) else b;
    assert u.ret == b.ret.(cleanup := if updated then Reached else AwaitingUpdate);
    QuietTick(u, later);
    ForcedAtDeadline(u.ret, later(0).own);
  }

  lemma ForcedAtDeadline(r: Return, i: Inputs)
    requires WellFormed(r) && r.ownership == Active && r.phase == WaitingForNativeExit && r.nativeStart == Battle
    requires i.ctx.screen == Battle && Elapsed(i.now, r.nativeTick) >= 5000 && r.request.allowForcedFallback
    ensures Advance(r, i) == if Suppressed(r) then r else r.(phase := ForceTitleFallback)
  {
    hide Classify;
  }

  // ----- hosting

  /** A peer that is found is held, the user accepts it, and the next tick hands the episode over. */
  lemma PeerIsHandedOver(w: World, e: Environment, f: Environment)
    requires var h, i := w.host, e(0).host;
      && h.state == Hosting && h.listener.state == Ready && i.promptSerial != 0 && i.promptSerial != h.promptSerial
      && !H.Fatal(i) && !H.Lost(h, i) && i.phase != NoSession
    requires Quiet(e(0)) && Quiet(f(0)) && !H.Fatal(f(0).host)
    ensures var held := Next(w, FrontendTicks(e)); var accepted := Next(held, UserAccepts);
      var n := Next(accepted, FrontendTicks(f));
      && held.host.state == PeerFoundHeld && accepted.host.state == Accepted && n.host.state == NotHosting
      && n.host.past.log == w.host.past.log + [Prompted(e(0).host.promptSerial), UserAccepted, Released]
  {
    var i, j := e(0).host, f(0).host;
    H.ReadyTick(w.host, i);
    H.PeerTick(H.Counted(w.host, i), i);
    QuietTick(w, e);
    hide TickBefore, TickAfter, FrontendTick;
    var held := Next(w, FrontendTicks(e));
    var a := Next(held, UserAccepts);
    assert a.host == AcceptRequested(held.host);
    H.SettledTick(a.host, j);
    H.PeerTick(H.Counted(a.host, j), j);
    QuietTick(a, f);
    assert w.host.past.log + [Prompted(i.promptSerial)] + [UserAccepted] + [Released] ==
           w.host.past.log + [Prompted(i.promptSerial), UserAccepted, Released];
  }

  predicate IsHostCall(v: Event) {
    v.HostStarts? || v.ListenerObserved? || v.UserAccepts? || v.UserCancels? || v.HostResets? || v.PresenceArms?
    || v.ArrivalConsumes? || v.MenuRestores? || v.ChallengeEndConsumes?
  }

  /** What a call on the host leaves there. */
  ghost predicate HostCalled(h: Host, v: Event, n: Host) {
    match v
    case HostStarts(now, defer, baseline, origin) =>
      n.state == Hosting && n.origin == origin && n.listener.waitTick == now
    case ListenerObserved(o) => H.IsOurs(o) ==> n.listener.state == Ready
    case UserAccepts => h.state == PeerFoundHeld ==> n.state == Accepted
    case UserCancels => n.state == NotHosting
    case HostResets => n.state == NotHosting
    case PresenceArms => n.keyBound
    case ArrivalConsumes => !n.key.pending
    case MenuRestores => !n.key.pending
    case ChallengeEndConsumes => !n.challengeEnded
    case _ => true
  }

  lemma CallsOnHost(w: World, v: Event)
    requires IsHostCall(v)
    ensures HostCalled(w.host, v, OnHost(w, v))
  {
  }

  /** The calls on the host reach the host, and leave the return alone. */
  lemma HostCalls(w: World, v: Event)
    requires IsHostCall(v)
    ensures Next(w, v) == w.(host := Next(w, v).host) && HostCalled(w.host, v, Next(w, v).host)
  {
    CallsOnHost(w, v);
    hide OnHost, HostCalled, FrontendTick, HostTick, LobbyTick, Begin;
  }
}
