/**
 Hosting in the background: an episode waits for a peer, holds it at the delay prompt until the user accepts,
 and restarts its listener when the peer is lost. Session status, prompts, keys and the clock are inputs.
 A tick is split at its poll of the return key, which may begin a frontend return and so tick again;
 ReturnCycle puts the parts together.
 */
module AsyncHost {
  import opened Basics
  import opened FrontendReturn

  const KEY_LOAD_LOCKOUT_MS := 1500
  const LISTENER_ACK_TIMEOUT_MS := 15000
  const STABLE_MS := 100
  const KEY_TIMEOUT_TICKS := 1200
  const REHOST_COOLDOWN_TICKS := 96

  datatype SessionPhase = NoSession | Connecting | DelaySetup | Connected | SessionFailed | SessionEnded

  datatype HostState = NotHosting | Hosting | PeerFoundHeld | Accepted | TimedOut

  datatype Origin = Direct | LobbyChallenge

  datatype ListenerState = NotListening | Waiting | Stabilizing | Ready | ListenerFailed

  datatype Mismatch = Disabled | Available | Deferred

  datatype Observation = Observation(
    serial: Word, available: bool, portMatches: bool, expectedProcessKnown: bool, processMatches: bool,
    expectedFamilyKnown: bool, familyMatches: bool)

  // ----- the startup of a listener

  datatype Listener = Listener(
    state: ListenerState, mismatch: Mismatch, acknowledged: Word, candidate: Word, candidateTick: Word, waitTick: Word)
  {
    function Observe(serial: Word, now: Word): Listener {
      if candidate != serial then this.(candidate := serial, candidateTick := now, state := Stabilizing) else this
    }

    predicate Stable(serial: Word, now: Word) { candidate == serial && (now - candidateTick) % WORD >= STABLE_MS }

    function Acknowledge(serial: Word): Listener {
      this.(state := Ready, acknowledged := serial, waitTick := 0, mismatch := Disabled)
    }

    function Fail(): Listener { this.(state := ListenerFailed) }
  }

  const NO_LISTENER: Listener := Listener(NotListening, Disabled, 0, 0, 0, 0)

  function Listening(now: Word, defer: bool): Listener {
    NO_LISTENER.(state := Waiting, waitTick := now, mismatch := if defer then Available else Disabled)
  }

  // ----- the return key

  datatype ReturnKey = ReturnKey(pending: bool, ticks: nat)
  {
    function Advance(): ReturnKey {
      if !pending then this.(ticks := 0)
      else if ticks + 1 <= KEY_TIMEOUT_TICKS then this.(ticks := ticks + 1)
      else ReturnKey(false, 0)
    }
  }

  // ----- the host

  /** What happened to an episode. `acks` counts acknowledged listeners, `tick` counts ticks. */
  datatype Happening =
    | Started(origin: Origin, baseline: int, acks: nat)
    | Restarted(baseline: int, tick: nat, acks: nat)
    | Prompted(serial: int)
    | UserAccepted
    | Released
    | GaveUp
    | Ended

  /** History; no step reads it. */
  datatype Past = Past(ticks: nat, acks: nat, log: seq<Happening>)

  datatype Host = Host(
    state: HostState, origin: Origin, challengeEnded: bool, promptSerial: int, keyBound: bool, keyWasDown: bool,
    key: ReturnKey, lastLoadingTick: Word, listener: Listener, cooldown: nat, peerWasAlive: bool, past: Past)
  {
    function Note(h: Happening): Host { this.(past := past.(log := past.log + [h])) }
  }

  const NO_HOST: Host :=
    Host(NotHosting, Direct, false, 0, false, false, ReturnKey(false, 0), 0, NO_LISTENER, 0, false, Past(0, 0, []))

  datatype KeyInputs = KeyInputs(loading: bool, now: Word, down: bool, inNetplayMenu: bool)

  /** The readings of one tick, in the order they are taken. */
  datatype TickInputs = TickInputs(
    phase: SessionPhase, unsupportedProfile: bool, peerAlive: bool, observation: Option<Observation>, observedAt: Word,
    checkedAt: Word, rehostAt: Word, rehostOk: bool, rehostSerial: int, key: KeyInputs, promptSerial: int)

  function ResetHost(h: Host, why: Happening): Host {
    h.Note(why).(state := NotHosting, origin := Direct, promptSerial := 0, key := h.key.(pending := false),
                 keyWasDown := false, peerWasAlive := false, listener := NO_LISTENER)
  }

  function HostStarted(h: Host, now: Word, defer: bool, baseline: int, origin: Origin): Host {
    h.Note(Started(origin, baseline, h.past.acks)).(
      state := Hosting, origin := origin, challengeEnded := false, listener := Listening(now, defer), cooldown := 0,
      key := h.key.(pending := false), keyWasDown := false, peerWasAlive := false, keyBound := true,
      promptSerial := baseline)
  }

  predicate Acceptable(o: Observation) {
    && o.available && o.portMatches && (o.expectedProcessKnown ==> o.processMatches)
    && (o.expectedFamilyKnown ==> o.familyMatches)
  }

  /** NotifyHostListenerReady: acknowledges an acceptable observation, unless it is the one already acknowledged. */
  function Notified(h: Host, o: Observation): Host {
    if Acceptable(o) && (h.listener.state != Ready || h.listener.acknowledged != o.serial)
    then h.(listener := h.listener.Acknowledge(o.serial), past := h.past.(acks := h.past.acks + 1))
    else h
  }

  function GiveUp(h: Host): Host { h.Note(GaveUp).(listener := h.listener.Fail(), state := TimedOut) }

  function AutoRehost(h: Host, i: TickInputs): Host {
    if h.origin == LobbyChallenge then ResetHost(h.(challengeEnded := true), Ended) else
    var serial := if i.rehostOk then i.rehostSerial else h.promptSerial;
    h.Note(Restarted(serial, h.past.ticks, h.past.acks)).(
      listener := Listening(i.rehostAt, false), peerWasAlive := false, key := h.key.(pending := false),
      cooldown := REHOST_COOLDOWN_TICKS, promptSerial := serial, state := Hosting)
  }

  /** A tick up to the observation of the listener; the flag says whether the tick goes on. */
  function Watch(h: Host, i: TickInputs): (Host, bool) {
    var a := h.(cooldown := if h.cooldown > 0 then h.cooldown - 1 else 0, peerWasAlive := h.peerWasAlive || i.peerAlive,
                past := h.past.(ticks := h.past.ticks + 1));
    var live := i.phase != SessionFailed && i.phase != SessionEnded && i.phase != NoSession && i.peerAlive;
    if h.listener.state == Ready || !live || i.observation.None? then (a, true) else
    var o := i.observation.value;
    var b := a.(listener := a.listener.Observe(o.serial, i.observedAt));
    if a.listener.candidate != o.serial || !b.listener.Stable(o.serial, i.observedAt) then (b, true)
    else if Acceptable(o) then (Notified(b, o), true)
    else if !o.expectedFamilyKnown || (o.familyMatches && o.portMatches) then (b, true)
    else if o.portMatches && !o.familyMatches && b.listener.mismatch == Available
    then (b.(listener := b.listener.(mismatch := Deferred)), false)
    else (GiveUp(b), false)
  }

  /** The rest of a tick up to the poll of the return key. */
  function Decide(h: Host, i: TickInputs): (Host, bool) {
    var over := i.phase == SessionFailed || i.phase == SessionEnded;
    var l := h.listener;
    if i.phase == SessionFailed && i.unsupportedProfile then (ResetHost(h, Ended), false)
    else if l.state != Ready && l.state != ListenerFailed && over then (GiveUp(h), false)
    else if l.state != Ready && l.waitTick != 0 && i.phase != NoSession
            && (i.checkedAt - l.waitTick) % WORD >= LISTENER_ACK_TIMEOUT_MS then (GiveUp(h), false)
    else if l.state == Ready && h.cooldown == 0 && (h.state == Hosting || h.state == PeerFoundHeld) then
      if (!i.peerAlive && h.peerWasAlive) || over then (AutoRehost(h, i), false)
      else if i.phase == NoSession then (ResetHost(h, Ended), false)
      else (h, true)
    else (h, true)
  }

  /** A tick up to the poll of the return key. */
  function TickBefore(h: Host, i: TickInputs): (Host, bool) {
    if h.state == NotHosting then (h, false) else
    var w := Watch(h, i);
    if w.1 then Decide(w.0, i) else w
  }

  /** A tick after the poll of the return key. */
  function TickAfter(h: Host, i: TickInputs): Host {
    match h.state
    case Hosting =>
      if i.promptSerial != 0 && i.promptSerial != h.promptSerial
      then h.Note(Prompted(i.promptSerial)).(promptSerial := i.promptSerial, state := PeerFoundHeld) else h
    case Accepted => ResetHost(h, Released)
    case _ => h
  }

  /** The poll of the return key up to its decision to begin a return. */
  function KeyEdge(h: Host, k: KeyInputs, returning: bool): (Host, bool) {
    var a := h.(lastLoadingTick := if k.loading then k.now else h.lastLoadingTick, key := h.key.Advance());
    if !h.keyBound then (a, false) else
    var b := a.(keyWasDown := k.down);
    var pressed := k.down && !h.keyWasDown;
    var lockedOut := b.lastLoadingTick != 0 && (k.now - b.lastLoadingTick) % WORD < KEY_LOAD_LOCKOUT_MS;
    (b, pressed && !b.key.pending && !returning && !lockedOut && !k.inNetplayMenu)
  }

  function KeyBegun(h: Host): Host { h.(key := h.key.(pending := true)) }

  function AcceptRequested(h: Host): Host {
    if h.state == PeerFoundHeld then h.Note(UserAccepted).(state := Accepted) else h
  }

  function CancelRequested(h: Host): Host { if h.state == NotHosting then h else ResetHost(h, Ended) }

  function PresenceArmed(h: Host): Host { h.(keyBound := true, keyWasDown := false, key := h.key.(pending := false)) }

  function ArrivalConsumed(h: Host): Host {
    if h.key.pending then h.(key := h.key.(pending := false), keyWasDown := false) else h
  }

  function MenuRestored(h: Host): Host { h.(key := h.key.(pending := false)) }

  function ChallengeEndConsumed(h: Host): Host { h.(challengeEnded := false) }

  // ----- the globals and the functions that update them

  class BackgroundHost {
    var state: HostState
    var origin: Origin
    var challengeEnded: bool
    var promptSerial: int
    var keyBound: bool
    var keyWasDown: bool
    var key: ReturnKey
    var lastLoadingTick: Word
    var listener: Listener
    var cooldown: nat
    var peerWasAlive: bool
    ghost var past: Past

    ghost function View(): Host
      reads this
    {
      Host(state, origin, challengeEnded, promptSerial, keyBound, keyWasDown, key, lastLoadingTick, listener, cooldown,
           peerWasAlive, past)
    }

    constructor ()
      ensures View() == NO_HOST
    {
      state, origin, challengeEnded, promptSerial := NotHosting, Direct, false, 0;
      keyBound, keyWasDown, key, lastLoadingTick := false, false, ReturnKey(false, 0), 0;
      listener, cooldown, peerWasAlive, past := NO_LISTENER, 0, false, Past(0, 0, []);
    }

    ghost method Note(h: Happening)
      modifies this`past
      ensures past == old(past).(log := old(past).log + [h])
    {
      past := past.(log := past.log + [h]);
    }

    method Reset(ghost why: Happening)
      modifies this
      ensures View() == ResetHost(old(View()), why)
    {
      Note(why);
      origin := Direct;
      promptSerial := 0;
      key := key.(pending := false);
      keyWasDown := false;
      peerWasAlive := false;
      listener := NO_LISTENER;
      state := NotHosting;
    }

    method OnHostStarted(now: Word, defer: bool, baseline: int, from: Origin)
      modifies this
      ensures View() == HostStarted(old(View()), now, defer, baseline, from)
    {
      hide Listening;
      Note(Started(from, baseline, past.acks));
      challengeEnded := false;
      listener := Listening(now, defer);
      cooldown := 0;
      key := key.(pending := false);
      keyWasDown := false;
      peerWasAlive := false;
      keyBound := true;
      promptSerial := baseline;
      state := Hosting;
      origin := from;
    }

    method NotifyHostListenerReady(o: Observation) returns (ok: bool)
      modifies this
      ensures View() == Notified(old(View()), o)
      ensures ok <==> Acceptable(o)
    {
      if !o.available || !o.portMatches || (o.expectedProcessKnown && !o.processMatches)
         || (o.expectedFamilyKnown && !o.familyMatches)
      {
        return false;
      }
      if listener.state != Ready || listener.acknowledged != o.serial {
        listener := listener.Acknowledge(o.serial);
        past := past.(acks := past.acks + 1);
      }
      return true;
    }

    method FailListener()
      modifies this
      ensures View() == GiveUp(old(View()))
    {
      Note(GaveUp);
      listener := listener.Fail();
      state := TimedOut;
    }

    method Rehost(i: TickInputs)
      modifies this
      ensures View() == AutoRehost(old(View()), i)
    {
      if origin == LobbyChallenge {
        challengeEnded := true;
        Reset(Ended);
        return;
      }
      Note(Restarted(if i.rehostOk then i.rehostSerial else promptSerial, past.ticks, past.acks));
      listener := Listening(i.rehostAt, false);
      peerWasAlive := false;
      key := key.(pending := false);
      cooldown := REHOST_COOLDOWN_TICKS;
      if i.rehostOk { promptSerial := i.rehostSerial; }
      state := Hosting;
    }

    /** The observation of the listener in a tick; false ends the tick. */
    method WatchListener(i: TickInputs) returns (on: bool)
      modifies this
      ensures (View(), on) == Watch(old(View()), i)
    {
      past := past.(ticks := past.ticks + 1);
      if cooldown > 0 { cooldown := cooldown - 1; }
      if i.peerAlive { peerWasAlive := true; }
      var live := i.phase != SessionFailed && i.phase != SessionEnded && i.phase != NoSession && i.peerAlive;
      if listener.state == Ready || !live || i.observation.None? { return true; }
      var o := i.observation.value;
      var known := listener.candidate == o.serial;
      listener := listener.Observe(o.serial, i.observedAt);
      if !known || !listener.Stable(o.serial, i.observedAt) { return true; }
      var ready := NotifyHostListenerReady(o);
      if ready { return true; }
      if o.expectedFamilyKnown && (!o.familyMatches || !o.portMatches) {
        if o.portMatches && !o.familyMatches && listener.mismatch == Available {
          listener := listener.(mismatch := Deferred);
          return false;
        }
        FailListener();
        return false;
      }
      return true;
    }

    /** A tick up to its poll of the return key; false ends the tick. */
    method BeginTick(i: TickInputs) returns (on: bool)
      modifies this
      ensures (View(), on) == TickBefore(old(View()), i)
    {
      if state == NotHosting { return false; }
      on := WatchListener(i);
      if !on { return false; }
      if i.phase == SessionFailed && i.unsupportedProfile {
        Reset(Ended);
        return false;
      }
      var over := i.phase == SessionFailed || i.phase == SessionEnded;
      if listener.state != Ready && listener.state != ListenerFailed && over {
        FailListener();
        return false;
      }
      if listener.state != Ready && listener.waitTick != 0 && i.phase != NoSession
         && (i.checkedAt - listener.waitTick) % WORD >= LISTENER_ACK_TIMEOUT_MS
      {
        FailListener();
        return false;
      }
      if listener.state == Ready && cooldown == 0 && (state == HostState.Hosting || state == PeerFoundHeld) {
        if (!i.peerAlive && peerWasAlive) || over {
          Rehost(i);
          return false;
        }
        if i.phase == NoSession {
          Reset(Ended);
          return false;
        }
      }
      return true;
    }

    /** A tick after its poll of the return key. */
    method EndTick(i: TickInputs)
      modifies this
      ensures View() == TickAfter(old(View()), i)
    {
      match state {
        case Hosting =>
          if i.promptSerial != 0 && i.promptSerial != promptSerial {
            Note(Prompted(i.promptSerial));
            promptSerial := i.promptSerial;
            state := PeerFoundHeld;
          }
        case Accepted => Reset(Released);
        case _ =>
      }
    }

    /** The poll of the return key up to its decision to begin a return. */
    method PollKeyEdge(k: KeyInputs, returning: bool) returns (begin: bool)
      modifies this
      ensures (View(), begin) == KeyEdge(old(View()), k, returning)
    {
      if k.loading { lastLoadingTick := k.now; }
      key := key.Advance();
      if !keyBound { return false; }
      var pressed := k.down && !keyWasDown;
      keyWasDown := k.down;
      if !pressed || key.pending || returning { return false; }
      if lastLoadingTick != 0 && (k.now - lastLoadingTick) % WORD < KEY_LOAD_LOCKOUT_MS { return false; }
      return !k.inNetplayMenu;
    }

    method KeyAccepted()
      modifies this
      ensures View() == KeyBegun(old(View()))
    {
      key := key.(pending := true);
    }

    method RequestAccept()
      modifies this
      ensures View() == AcceptRequested(old(View()))
    {
      if state == PeerFoundHeld {
        Note(UserAccepted);
        state := Accepted;
      }
    }

    method RequestCancel()
      modifies this
      ensures View() == CancelRequested(old(View()))
    {
      if state != NotHosting { Reset(Ended); }
    }

    method ConsumeChallengeEnded() returns (ended: bool)
      modifies this
      ensures View() == ChallengeEndConsumed(old(View())) && ended == old(challengeEnded)
    {
      ended := challengeEnded;
      challengeEnded := false;
    }
  }
}
