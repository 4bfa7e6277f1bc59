/**
 The cycle between the frontend return and background hosting: a tick of the return ticks the host and the
 lobby, both poll the return key, a press begins a return, and a begun return ticks at once. The readings of
 nested calls come from an environment indexed by call: call `n` reads entry `n`, and the calls nested in its
 host tick and its lobby tick read entries `2 * n + 1` and `2 * n + 2`.
 */
module ReturnCycle {
  import opened Basics
  import opened FrontendReturn
  import opened AsyncHost
  import opened AsyncEpisodes

  /** The lobby tick: does it run, was the outgoing challenge abandoned, and the keys. */
  datatype LobbyInputs = LobbyInputs(runs: bool, abandoned: bool, key: KeyInputs)

  datatype CallInputs = CallInputs(host: TickInputs, lobby: LobbyInputs, own: Inputs)

  type Environment = nat -> CallInputs

  /** Both sets of globals. `accepted` and `consumed` count accepted begins and consumed continuations; no step
      reads them. */
  datatype World = World(ret: Return, host: Host, accepted: nat, consumed: nat)

  const START: World := World(INITIAL, NO_HOST, 0, 0)

  /** The request the return key makes. */
  const KEY_REQUEST: Request := Request(ToNetplayMenu, AsyncHostAccept, true, true, true, true, true, false)

  function Rank(w: World): nat { if Owned(w.ret.ownership) then 0 else 1 }

  // ----- the cycle

  function FrontendTick(w: World, e: Environment, n: nat): World
    decreases Rank(w), 3
  {
    var h := HostTick(w, e, n);
    var l := LobbyTick(h, e, n);
    l.(ret := Advance(l.ret, e(n).own))
  }

  function HostTick(w: World, e: Environment, n: nat): (r: World)
    ensures Owned(w.ret.ownership) ==> r.ret == w.ret
    decreases Rank(w), 2
  {
    var before := TickBefore(w.host, e(n).host);
    var b := w.(host := before.0);
    if !before.1 then b else
    var p := PollReturnKey(b, e(n).host.key, e, 2 * n + 1);
    p.(host := TickAfter(p.host, e(n).host))
  }

  function LobbyTick(w: World, e: Environment, n: nat): (r: World)
    ensures Owned(w.ret.ownership) ==> r.ret == w.ret
    decreases Rank(w), 2
  {
    var i := e(n).lobby;
    if !i.runs then w else
    var drained := ChallengeEndConsumed(w.host);
    var h := if i.abandoned then ResetHost(drained, Ended) else drained;
    if h.state != NotHosting then w.(host := h) else PollReturnKey(w.(host := h), i.key, e, 2 * n + 2)
  }

  function PollReturnKey(w: World, k: KeyInputs, e: Environment, child: nat): (r: World)
    ensures Owned(w.ret.ownership) ==> r.ret == w.ret
    decreases Rank(w), 1
  {
    var edge := KeyEdge(w.host, k, Owned(w.ret.ownership));
    var p := w.(host := edge.0);
    if !edge.1 then p else
    var b := Begin(p, KEY_REQUEST, e, child);
    if !Owned(p.ret.ownership) || Owned(b.ret.ownership) then b.(host := KeyBegun(b.host)) else b
  }

  function Begin(w: World, q: Request, e: Environment, child: nat): World
    decreases Rank(w), 0
  {
    if Owned(w.ret.ownership) then w
    else FrontendTick(w.(ret := FrontendReturn.Started(w.ret, q), accepted := w.accepted + 1), e, child)
  }

  /** The functions of both files, over their globals. */
  class Bridge {
    const frontend: Frontend
    const hosting: BackgroundHost
    ghost var accepted: nat
    ghost var consumed: nat

    ghost function View(): World
      reads this, frontend, hosting
    {
      World(frontend.View(), hosting.View(), accepted, consumed)
    }

    constructor ()
      ensures View() == START && fresh(frontend) && fresh(hosting)
    {
      frontend := new Frontend();
      hosting := new BackgroundHost();
      accepted, consumed := 0, 0;
    }

    method TickFrontendReturn(e: Environment, n: nat)
      modifies this, frontend, hosting
      ensures View() == FrontendTick(old(View()), e, n)
      decreases if Owned(frontend.ownership) then 0 else 1, 3
    {
      TickHost(e, n);
      TickBackgroundLobby(e, n);
      frontend.AdvanceReturn(e(n).own);
    }

    method TickHost(e: Environment, n: nat)
      modifies this, frontend, hosting
      ensures View() == HostTick(old(View()), e, n)
      decreases if Owned(frontend.ownership) then 0 else 1, 2
    {
      var on := hosting.BeginTick(e(n).host);
      if !on { return; }
      PollKey(e(n).host.key, e, 2 * n + 1);
      hosting.EndTick(e(n).host);
    }

    method TickBackgroundLobby(e: Environment, n: nat)
      modifies this, frontend, hosting
      ensures View() == LobbyTick(old(View()), e, n)
      decreases if Owned(frontend.ownership) then 0 else 1, 2
    {
      if !e(n).lobby.runs { return; }
      var _ := hosting.ConsumeChallengeEnded();
      if e(n).lobby.abandoned { hosting.Reset(Ended); }
      if hosting.state == NotHosting { PollKey(e(n).lobby.key, e, 2 * n + 2); }
    }

    method PollKey(k: KeyInputs, e: Environment, child: nat)
      modifies this, frontend, hosting
      ensures View() == PollReturnKey(old(View()), k, e, child)
      decreases if Owned(frontend.ownership) then 0 else 1, 1
    {
      var begin := hosting.PollKeyEdge(k, Owned(frontend.ownership));
      if !begin { return; }
      var ok, pending := BeginReturnToFrontend(KEY_REQUEST, e, child);
      if ok || pending { hosting.KeyAccepted(); }
    }

    method BeginReturnToFrontend(q: Request, e: Environment, child: nat) returns (ok: bool, pending: bool)
      modifies this, frontend, hosting
      ensures View() == Begin(old(View()), q, e, child)
      ensures ok <==> !old(Owned(frontend.ownership))
      ensures pending <==> Owned(frontend.ownership)
      decreases if Owned(frontend.ownership) then 0 else 1, 0
    {
      if Owned(frontend.ownership) { return false, true; }
      frontend.AcceptBegin(q);
      accepted := accepted + 1;
      TickFrontendReturn(e, child);
      return true, Owned(frontend.ownership);
    }
  }

  // ----- what a call of the cycle does

  function Holding(w: World): nat { if Owned(w.ret.ownership) then 1 else 0 }

  ghost predicate Inv(w: World) { WellFormed(w.ret) && HostOk(w.host) && w.consumed + Holding(w) <= w.accepted }

  /** A nested call accepts nothing while the return is owned, and at most the key's request, which it then serves. */
  ghost predicate Nested(w: World, r: World) {
    && Inv(r) && r.consumed == w.consumed
    && ((r.ret == w.ret && r.accepted == w.accepted)
        || (!Owned(w.ret.ownership) && r.accepted == w.accepted + 1 && Serves(r.ret, KEY_REQUEST)))
  }

  lemma AdvancedWorld(w: World, i: Inputs)
    requires Inv(w)
    ensures Inv(w.(ret := Advance(w.ret, i)))
    ensures Sure(w.ret.request) && Owned(w.ret.ownership) ==> Serves(Advance(w.ret, i), w.ret.request)
    ensures !Owned(w.ret.ownership) ==> Advance(w.ret, i) == w.ret
  {
    AdvanceKeeps(w.ret, i);
  }

  lemma {:induction false} FrontendTickKeeps(w: World, e: Environment, n: nat)
    requires Inv(w)
    ensures var r := FrontendTick(w, e, n);
      && Inv(r) && r.consumed == w.consumed
      && (Owned(w.ret.ownership) ==> r.ret == Advance(w.ret, e(n).own) && r.accepted == w.accepted)
      && (!Owned(w.ret.ownership) ==> Nested(w, r))
    decreases Rank(w), 3
  {
    HostTickKeeps(w, e, n);
    var h := HostTick(w, e, n);
    LobbyTickKeeps(h, e, n);
    AdvancedWorld(LobbyTick(h, e, n), e(n).own);
  }

  lemma {:induction false} HostTickKeeps(w: World, e: Environment, n: nat)
    requires Inv(w)
    ensures Nested(w, HostTick(w, e, n))
    decreases Rank(w), 2
  {
    var before := TickBefore(w.host, e(n).host);
    TickBeforeKeeps(w.host, e(n).host);
    var b := w.(host := before.0);
    hide TickBefore, HostOk;
    if before.1 {
      PollKeeps(b, e(n).host.key, e, 2 * n + 1);
      TickAfterKeeps(PollReturnKey(b, e(n).host.key, e, 2 * n + 1).host, e(n).host);
    }
  }

  lemma {:induction false} LobbyTickKeeps(w: World, e: Environment, n: nat)
    requires Inv(w)
    ensures Nested(w, LobbyTick(w, e, n))
    decreases Rank(w), 2
  {
    var i := e(n).lobby;
    if i.runs {
      var drained := ChallengeEndConsumed(w.host);
      assert HostOk(drained);
      ResetKeeps(drained, Ended);
      hide HostOk, ChallengeEndConsumed, ResetHost;
      var h := if i.abandoned then ResetHost(drained, Ended) else drained;
      if h.state == NotHosting { PollKeeps(w.(host := h), i.key, e, 2 * n + 2); }
    }
  }

  lemma KeyKeepsHost(h: Host, k: KeyInputs, returning: bool)
    requires HostOk(h)
    ensures HostOk(KeyEdge(h, k, returning).0) && HostOk(KeyBegun(h))
    ensures returning ==> !KeyEdge(h, k, returning).1
  {
  }

  lemma {:induction false} PollKeeps(w: World, k: KeyInputs, e: Environment, child: nat)
    requires Inv(w)
    ensures Nested(w, PollReturnKey(w, k, e, child))
    decreases Rank(w), 1
  {
    var edge := KeyEdge(w.host, k, Owned(w.ret.ownership));
    KeyKeepsHost(w.host, k, Owned(w.ret.ownership));
    var p := w.(host := edge.0);
    hide KeyEdge, HostOk, KeyBegun;
    if edge.1 {
      BeginKeeps(p, KEY_REQUEST, e, child);
      KeyKeepsHost(Begin(p, KEY_REQUEST, e, child).host, k, true);
    }
  }

  lemma StartedWorld(w: World, q: Request)
    requires Inv(w) && !Owned(w.ret.ownership)
    ensures var b := w.(ret := FrontendReturn.Started(w.ret, q), accepted := w.accepted + 1);
      Inv(b) && Owned(b.ret.ownership) && b.ret.request == q
  {
    hide HostOk;
  }

  lemma {:induction false} BeginKeeps(w: World, q: Request, e: Environment, child: nat)
    requires Inv(w)
    ensures var r := Begin(w, q, e, child);
      && Inv(r) && r.consumed == w.consumed
      && (Owned(w.ret.ownership) ==> r == w)
      && (!Owned(w.ret.ownership) ==> r.accepted == w.accepted + 1 && (Sure(q) ==> Serves(r.ret, q)))
    decreases Rank(w), 0
  {
    hide Inv, FrontendTick, Advance, Serves, FrontendReturn.Started;
    if !Owned(w.ret.ownership) {
      var b := w.(ret := FrontendReturn.Started(w.ret, q), accepted := w.accepted + 1);
      StartedWorld(w, q);
      FrontendTickKeeps(b, e, child);
      AdvancedWorld(b, e(child).own);
    }
  }

  // ----- runs

  datatype Event =
    | FrontendTicks(e: Environment)
    | HostTicks(e: Environment)
    | LobbyTicks(e: Environment)
    | Begins(q: Request, e: Environment)
    | BattleUpdates
    | ScreenReturns(update: Screen, raw: nat)
    | Consumes(reset: bool)     // `reset`: the latch reset of a session start falls inside
    | LatchResets
    | HostStarts(now: Word, defer: bool, baseline: int, origin: Origin)
    | ListenerObserved(o: Observation)
    | UserAccepts
    | UserCancels
    | HostResets
    | PresenceArms
    | ArrivalConsumes
    | MenuRestores
    | ChallengeEndConsumes

  function OnHost(w: World, v: Event): Host {
    match v
    case HostStarts(now, defer, baseline, origin) => HostStarted(w.host, now, defer, baseline, origin)
    case ListenerObserved(o) => Notified(w.host, o)
    case UserAccepts => AcceptRequested(w.host)
    case UserCancels => CancelRequested(w.host)
    case HostResets => ResetHost(w.host, Ended)
    case PresenceArms => PresenceArmed(w.host)
    case ArrivalConsumes => ArrivalConsumed(w.host)
    case MenuRestores => MenuRestored(w.host)
    case ChallengeEndConsumes => ChallengeEndConsumed(w.host)
    case _ => w.host
  }

  function Next(w: World, v: Event): World {
    match v
    case FrontendTicks(e) => FrontendTick(w, e, 0)
    case HostTicks(e) => HostTick(w, e, 0)
    case LobbyTicks(e) => LobbyTick(w, e, 0)
    case Begins(q, e) => Begin(w, q, e, 0)
    case BattleUpdates => w.(ret := Observed(w.ret))
    case ScreenReturns(update, raw) => w.(ret := Updated(w.ret, update, raw))
    case Consumes(reset) =>
      w.(ret := Consuming(w.ret, reset),
         consumed := w.consumed + if w.ret.ownership == ContinuationPending then 1 else 0)
    case LatchResets => w.(ret := LatchReset(w.ret))
    case _ => w.(host := OnHost(w, v))
  }

  ghost function Run(w: World, events: seq<Event>): World
    decreases |events|
  {
    if |events| == 0 then w else Run(Next(w, events[0]), events[1..])
  }

  lemma OnHostKeeps(w: World, v: Event)
    requires HostOk(w.host)
    ensures HostOk(OnHost(w, v))
  {
    match v
    case HostStarts(now, defer, baseline, origin) => StartKeeps(w.host, now, defer, baseline, origin);
    case UserAccepts => AcceptKeeps(w.host);
    case UserCancels => ResetKeeps(w.host, Ended);
    case HostResets => ResetKeeps(w.host, Ended);
    case ListenerObserved(o) => NotifiedKeeps(w.host, o);
    case _ =>
  }

  /** One event: everything well formed stays so, begins are counted one at a time, a sure return is kept. */
  lemma NextKeeps(w: World, v: Event)
    requires Inv(w)
    ensures Inv(Next(w, v))
    ensures w.accepted <= Next(w, v).accepted <= w.accepted + 1
    ensures Owned(w.ret.ownership) ==> Next(w, v).accepted == w.accepted
    ensures Next(w, v).consumed + Holding(Next(w, v)) - Next(w, v).accepted <= w.consumed + Holding(w) - w.accepted
    ensures Sure(w.ret.request) && Owned(w.ret.ownership) && !v.Consumes? ==>
              Serves(Next(w, v).ret, w.ret.request) && Next(w, v).consumed == w.consumed
  {
    hide HostOk, FrontendTick, HostTick, LobbyTick, Begin, OnHost, Updated;
    match v
    case FrontendTicks(e) =>
      FrontendTickKeeps(w, e, 0);
      AdvancedWorld(w, e(0).own);
    case HostTicks(e) => HostTickKeeps(w, e, 0);
    case LobbyTicks(e) => LobbyTickKeeps(w, e, 0);
    case Begins(q, e) => BeginKeeps(w, q, e, 0);
    case BattleUpdates =>
    case ScreenReturns(update, raw) =>
      UpdatedKeeps(w.ret, update, raw);
      UpdatedUnowned(w.ret, update, raw);
    case Consumes(_) =>
    case LatchResets =>
    case _ => OnHostKeeps(w, v);
  }

  lemma UpdatedUnowned(r: Return, update: Screen, raw: nat)
    ensures !Owned(r.ownership) ==> Updated(r, update, raw) == r
  {
  }

  lemma {:induction false} RunKeeps(w: World, events: seq<Event>)
    requires Inv(w)
    ensures Inv(Run(w, events)) && w.accepted <= Run(w, events).accepted
    ensures Run(w, events).consumed + Holding(Run(w, events)) - Run(w, events).accepted
            <= w.consumed + Holding(w) - w.accepted
    decreases |events|
  {
    if |events| > 0 {
      NextKeeps(w, events[0]);
      RunKeeps(Next(w, events[0]), events[1..]);
    }
  }

  /** In no call, however its nested calls go, is more than one begin accepted; in a begun return none is. */
  lemma OneBeginPerCall(events: seq<Event>, v: Event)
    ensures var w := Run(START, events);
      && w.accepted <= Next(w, v).accepted <= w.accepted + 1
      && (Owned(w.ret.ownership) ==> Next(w, v).accepted == w.accepted)
      && (v.Begins? && !Owned(w.ret.ownership) ==> Next(w, v).accepted == w.accepted + 1)
  {
    RunKeeps(START, events);
    NextKeeps(Run(START, events), v);
    if v.Begins? { BeginKeeps(Run(START, events), v.q, v.e, 0); }
  }

  /** A sure return is neither lost nor replaced, whatever else is called, until its continuation is consumed. */
  lemma {:induction false} SureReturnIsHeld(w: World, events: seq<Event>)
    requires Inv(w) && Owned(w.ret.ownership) && Sure(w.ret.request)
    requires forall k :: 0 <= k < |events| ==> !events[k].Consumes?
    ensures var r := Run(w, events);
      Serves(r.ret, w.ret.request) && r.accepted == w.accepted && r.consumed == w.consumed && Inv(r)
    decreases |events|
  {
    if |events| > 0 {
      NextKeeps(w, events[0]);
      SureReturnIsHeld(Next(w, events[0]), events[1..]);
    }
  }

  /** Consuming succeeds exactly at the title, hands over the request's owner and target, and ends the return;
      without another accepted begin nothing is consumed again. */
  lemma ConsumedOncePerBegin(w: World, reset: bool, more: seq<Event>)
    requires Inv(w)
    ensures var c := Next(w, Consumes(reset)); var r := Run(c, more);
      && (c.consumed == w.consumed + 1 <==> w.ret.ownership == ContinuationPending)
      && (w.ret.ownership == ContinuationPending ==>
            && w.ret.continuationOwner == w.ret.request.owner && w.ret.continuationTarget == w.ret.request.target
            && !Owned(c.ret.ownership) && c.ret.ownership == (if reset then Inactive else ContinuationConsumed)
            && (r.accepted == c.accepted ==> r.consumed == c.consumed))
      && (w.ret.ownership != ContinuationPending ==> c == w)
      && r.consumed - w.consumed <= r.accepted - w.accepted + Holding(w)
  {
    NextKeeps(w, Consumes(reset));
    RunKeeps(Next(w, Consumes(reset)), more);
    RunConsumes(Next(w, Consumes(reset)), more);
  }

  lemma {:induction false} RunConsumes(w: World, events: seq<Event>)
    requires Inv(w)
    ensures w.consumed <= Run(w, events).consumed
    decreases |events|
  {
    if |events| > 0 {
      NextKeeps(w, events[0]);
      NextConsumes(w, events[0]);
      RunConsumes(Next(w, events[0]), events[1..]);
    }
  }

  lemma NextConsumes(w: World, v: Event)
    requires Inv(w)
    ensures w.consumed <= Next(w, v).consumed
  {
    hide Inv, FrontendTick, HostTick, LobbyTick, Begin, OnHost;
    match v
    case FrontendTicks(e) => FrontendTickKeeps(w, e, 0);
    case HostTicks(e) => HostTickKeeps(w, e, 0);
    case LobbyTicks(e) => LobbyTickKeeps(w, e, 0);
    case Begins(q, e) => BeginKeeps(w, q, e, 0);
    case _ =>
  }

  /** The history of background hosting in any run of both files. */
  lemma HostingOverAnyRun(events: seq<Event>)
    ensures TraceOk(Run(START, events).host.past.log)
    ensures ReleasesEarned(Run(START, events).host.past.log)
    ensures RestartsEarned(Run(START, events).host.past.log)
  {
    RunKeeps(START, events);
    TracesAreEarned(Run(START, events).host.past.log);
  }
}
