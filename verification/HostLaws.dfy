/**
 What background hosting does in each situation, said of whole ticks and of runs of ticks: when a listener is
 acknowledged, given up or restarted, when a peer is held and released, and when the key begins a return.
 */
module HostLaws {
  import opened Basics
  import opened FrontendReturn
  import opened AsyncHost

  // ----- the situation of a tick

  predicate Over(i: TickInputs) { i.phase == SessionFailed || i.phase == SessionEnded }

  predicate Fatal(i: TickInputs) { i.phase == SessionFailed && i.unsupportedProfile }

  /** The session runs and its peer process is there. */
  predicate Live(i: TickInputs) {
    i.peerAlive && (i.phase == Connecting || i.phase == DelaySetup || i.phase == Connected)
  }

  /** The peer has gone, or the session is over. */
  predicate Lost(h: Host, i: TickInputs) { (h.peerWasAlive && !i.peerAlive) || Over(i) }

  /** A tick's own counting. */
  function Counted(h: Host, i: TickInputs): Host {
    h.(cooldown := if h.cooldown == 0 then 0 else h.cooldown - 1, peerWasAlive := h.peerWasAlive || i.peerAlive,
       past := h.past.(ticks := h.past.ticks + 1))
  }

  /** The episode is over, and nothing of it is left. */
  predicate Closed(h: Host, n: Host, why: Happening) {
    && n.state == NotHosting && n.origin == Direct && n.promptSerial == 0 && !n.key.pending && !n.keyWasDown
    && !n.peerWasAlive && n.listener == NO_LISTENER && n.past.log == h.past.log + [why]
  }

  /** The listener has been started again: its wait begins now, the family is not tried again, and no restart can
      follow for 96 ticks. */
  predicate RestartedAt(h: Host, n: Host, i: TickInputs) {
    var serial := if i.rehostOk then i.rehostSerial else h.promptSerial;
    && n.state == Hosting && n.promptSerial == serial && n.cooldown == 96 && !n.peerWasAlive && !n.key.pending
    && n.listener == Listener(Waiting, Disabled, 0, 0, 0, i.rehostAt)
    && n.past.log == h.past.log + [Restarted(serial, h.past.ticks + 1, h.past.acks)]
  }

  // ----- a tick with a listener that is ready

  /** While a peer is awaited or held: a fatal failure ends the episode; once the cooldown is over a lost peer restarts
      a direct listener and ends a challenge, and a session that is gone ends the episode; otherwise the tick goes
      on. */
  lemma ReadyTick(h: Host, i: TickInputs)
    requires h.listener.state == Ready && (h.state == Hosting || h.state == PeerFoundHeld)
    ensures var (n, on) := TickBefore(h, i);
      if Fatal(i) then !on && Closed(h, n, Ended)
      else if h.cooldown > 1 || (!Lost(h, i) && i.phase != NoSession) then on && n == Counted(h, i)
      else if !Lost(h, i) then !on && Closed(h, n, Ended)
      else if h.origin == LobbyChallenge then !on && Closed(h, n, Ended) && n.challengeEnded
      else !on && RestartedAt(h, n, i) && n.origin == h.origin
  {
  }

  /** An accepted episode, and one that was given up with its listener ready, only wait. */
  lemma SettledTick(h: Host, i: TickInputs)
    requires h.listener.state == Ready && (h.state == Accepted || h.state == TimedOut)
    ensures var (n, on) := TickBefore(h, i);
      if Fatal(i) then !on && Closed(h, n, Ended) else on && n == Counted(h, i)
  {
  }

  lemma IdleTick(h: Host, i: TickInputs)
    requires h.state == NotHosting
    ensures TickBefore(h, i) == (h, false)
  {
  }

  // ----- a tick with a listener that is not

  /** The same listener has been seen for a tenth of a second. */
  predicate SeenLongEnough(l: Listener, o: Observation, now: Word) {
    l.candidate == o.serial && (now - l.candidateTick) % WORD >= 100
  }

  /** It is the one that was started. */
  predicate IsOurs(o: Observation) {
    && o.available && o.portMatches && (o.expectedProcessKnown ==> o.processMatches)
    && (o.expectedFamilyKnown ==> o.familyMatches)
  }

  /** It is another one: the wrong family, or the wrong port. */
  predicate IsOther(o: Observation) { o.expectedFamilyKnown && (!o.familyMatches || !o.portMatches) }

  /** The first family mismatch on the right port is left to the title flow. */
  predicate IsDeferred(h: Host, o: Observation) {
    o.portMatches && !o.familyMatches && h.listener.mismatch == Available
  }

  /** What is remembered of a listener that was not there before. */
  function FirstSeen(h: Host, o: Observation, now: Word): Listener {
    if h.listener.candidate == o.serial then h.listener
    else h.listener.(candidate := o.serial, candidateTick := now, state := Stabilizing)
  }

  function Acknowledged(l: Listener, o: Observation): Listener {
    l.(state := Ready, acknowledged := o.serial, waitTick := 0, mismatch := Disabled)
  }

  /** The observation of one tick: a listener is acknowledged exactly when it has been seen long enough and is the
      one that was started; another one is left to the title flow once, and then given up. */
  lemma ObservingTick(h: Host, i: TickInputs)
    requires h.listener.state != Ready
    ensures var (n, on) := Watch(h, i);
      if !Live(i) || i.observation.None? then on && n == Counted(h, i)
      else
        var o := i.observation.value;
        if !SeenLongEnough(h.listener, o, i.observedAt)
        then on && n == Counted(h, i).(listener := FirstSeen(h, o, i.observedAt))
        else if IsOurs(o) then
          && on && n.listener == Acknowledged(h.listener, o)
          && n == Counted(h, i).(listener := n.listener, past := Counted(h, i).past.(acks := h.past.acks + 1))
        else if !IsOther(o) then on && n == Counted(h, i)
        else if IsDeferred(h, o)
        then !on && n == Counted(h, i).(listener := h.listener.(mismatch := Deferred))
        else
          && !on && n.state == TimedOut && n.listener == h.listener.(state := ListenerFailed)
          && n.past.log == h.past.log + [GaveUp]
  {
  }

  /** Past the observation: a session that is over before its listener was ready is given up, and so is a listener
      that was not acknowledged within fifteen seconds; otherwise the tick goes on. */
  lemma UnreadyDecision(h: Host, i: TickInputs)
    requires h.state != NotHosting && h.listener.state != Ready
    ensures var (n, on) := Decide(h, i);
      var waited := (i.checkedAt - h.listener.waitTick) % WORD;
      var late := h.listener.waitTick != 0 && i.phase != NoSession && waited >= 15000;
      if Fatal(i) then !on && Closed(h, n, Ended)
      else if (Over(i) && h.listener.state != ListenerFailed) || late then
        && !on && n.state == TimedOut && n.listener == h.listener.(state := ListenerFailed)
        && n.past.log == h.past.log + [GaveUp]
      else on && n == h
  {
  }

  /** The two halves of a tick. */
  lemma TickIsBoth(h: Host, i: TickInputs)
    requires h.state != NotHosting
    ensures TickBefore(h, i) == if Watch(h, i).1 then Decide(Watch(h, i).0, i) else Watch(h, i)
  {
  }

  /** An acceptable listener that stays is ready after two ticks a tenth of a second apart, and not before. */
  lemma ListenerStartsUp(h: Host, i: TickInputs, j: TickInputs)
    requires h.state == Hosting && h.listener == Listener(Waiting, h.listener.mismatch, 0, 0, 0, h.listener.waitTick)
    requires Live(i) && Live(j) && i.observation == j.observation && i.observation.Some?
    requires IsOurs(i.observation.value) && i.observation.value.serial != 0
    requires h.listener.waitTick != 0 ==> (i.checkedAt - h.listener.waitTick) % WORD < 15000
    ensures var (a, on) := TickBefore(h, i); var (b, goesOn) := TickBefore(a, j);
      && on && a.state == Hosting && a.listener.state == Stabilizing
      && (b.listener.state == Ready <==> (j.observedAt - i.observedAt) % WORD >= 100)
      && (b.listener.state == Ready ==>
            && goesOn && b.state == Hosting && b.listener.acknowledged == i.observation.value.serial
            && b.past.acks == h.past.acks + 1 && b.past.log == h.past.log)
  {
    hide Watch, Decide, TickBefore;
    TickIsBoth(h, i);
    ObservingTick(h, i);
    UnreadyDecision(Watch(h, i).0, i);
    var a := TickBefore(h, i).0;
    TickIsBoth(a, j);
    ObservingTick(a, j);
    var w := Watch(a, j).0;
    if w.listener.state == Ready { LiveDecision(w, j); } else { UnreadyDecision(w, j); }
  }

  lemma LiveDecision(h: Host, i: TickInputs)
    requires Live(i) && h.listener.state == Ready
    ensures Decide(h, i) == (h, true)
  {
  }

  // ----- the peer

  /** A new prompt while a peer is awaited holds the peer; an accepted episode is released; nothing else happens. */
  lemma PeerTick(h: Host, i: TickInputs)
    ensures var n := TickAfter(h, i); var isNew := i.promptSerial != 0 && i.promptSerial != h.promptSerial;
      if h.state == Hosting && isNew then
        && n == h.(promptSerial := i.promptSerial, state := PeerFoundHeld, past := n.past)
        && n.past == h.past.(log := h.past.log + [Prompted(i.promptSerial)])
      else if h.state == Accepted then Closed(h, n, Released)
      else n == h
  {
  }

  /** Only a held peer is accepted. */
  lemma AcceptsTheHeld(h: Host)
    ensures var n := AcceptRequested(h);
      && (n.state == Accepted <==> h.state == PeerFoundHeld || h.state == Accepted)
      && (h.state == PeerFoundHeld ==>
            n == h.(state := Accepted, past := n.past) && n.past == h.past.(log := h.past.log + [UserAccepted]))
      && (h.state != PeerFoundHeld ==> n == h)
  {
  }

  /** From a ready listener to the hand-over: a new prompt, the user's accept, the next tick. */
  lemma PromptToRelease(h: Host, i: TickInputs, j: TickInputs)
    requires h.state == Hosting && h.listener.state == Ready && i.promptSerial != 0 && i.promptSerial != h.promptSerial
    requires !Fatal(i) && !Lost(h, i) && i.phase != NoSession && !Fatal(j)
    ensures var held := TickAfter(TickBefore(h, i).0, i);
      var n := TickAfter(TickBefore(AcceptRequested(held), j).0, j);
      && TickBefore(h, i).1 && held.state == PeerFoundHeld && TickBefore(AcceptRequested(held), j).1
      && n.state == NotHosting && n.past.log == h.past.log + [Prompted(i.promptSerial), UserAccepted, Released]
  {
    ReadyTick(h, i);
    var a := Counted(h, i);
    PeerTick(a, i);
    var held := TickAfter(a, i);
    AcceptsTheHeld(held);
    var b := AcceptRequested(held);
    SettledTick(b, j);
    PeerTick(Counted(b, j), j);
    hide TickBefore, TickAfter, AcceptRequested;
    assert h.past.log + [Prompted(i.promptSerial)] + [UserAccepted] + [Released] ==
           h.past.log + [Prompted(i.promptSerial), UserAccepted, Released];
  }

  // ----- the key

  /** A press begins a return exactly when the key is bound and was up, no return of it is pending or under way, no
      loading screen was seen in the last second and a half, and the netplay menu is not open. */
  lemma KeyBegins(h: Host, k: KeyInputs, returning: bool)
    ensures var (n, begins) := KeyEdge(h, k, returning);
      var loadedAt := if k.loading then k.now else h.lastLoadingTick;
      var waiting := h.key.pending && h.key.ticks < 1200;
      && n.lastLoadingTick == loadedAt && n.key.pending == waiting
      && n == h.(lastLoadingTick := loadedAt, key := n.key, keyWasDown := if h.keyBound then k.down else h.keyWasDown)
      && (begins <==>
            && h.keyBound && k.down && !h.keyWasDown && !waiting && !returning
            && (loadedAt != 0 ==> (k.now - loadedAt) % WORD >= 1500) && !k.inNetplayMenu)
  {
  }

  function Polls(h: Host, k: KeyInputs, n: nat): Host {
    if n == 0 then h else KeyEdge(Polls(h, k, n - 1), k, true).0
  }

  /** A return that the key began and that never arrives is forgotten after 1200 polls, and not before. */
  lemma {:induction false} KeyIsForgotten(h: Host, k: KeyInputs, n: nat)
    requires h.key == ReturnKey(true, 0)
    ensures Polls(h, k, n).key.pending <==> n <= 1200
    ensures n <= 1200 ==> Polls(h, k, n).key.ticks == n
  {
    hide KeyEdge;
    if n > 0 {
      KeyIsForgotten(h, k, n - 1);
      KeyAges(Polls(h, k, n - 1), k);
    }
  }

  lemma KeyAges(h: Host, k: KeyInputs)
    ensures var key := KeyEdge(h, k, true).0.key;
      key == if !h.key.pending then ReturnKey(false, 0)
             else if h.key.ticks >= 1200 then ReturnKey(false, 0) else ReturnKey(true, h.key.ticks + 1)
  {
  }

  /** The arrival at the menu takes a pending key back; its restoring does so silently. */
  lemma KeyArrives(h: Host)
    ensures !ArrivalConsumed(h).key.pending && !MenuRestored(h).key.pending && KeyBegun(h).key.pending
    ensures h.key.pending ==> !ArrivalConsumed(h).keyWasDown
    ensures !h.key.pending ==> ArrivalConsumed(h) == h
    ensures ArrivalConsumed(h).state == MenuRestored(h).state == KeyBegun(h).state == h.state
    ensures MenuRestored(h).keyWasDown == KeyBegun(h).keyWasDown == h.keyWasDown
  {
  }

  // ----- the episode

  /** A start awaits a peer: a fresh listener, a bound key, the prompts counted from here, no cooldown. */
  lemma StartAwaits(h: Host, now: Word, defer: bool, baseline: int, origin: Origin)
    ensures var n := HostStarted(h, now, defer, baseline, origin);
      && n.state == Hosting && n.origin == origin && !n.challengeEnded && n.promptSerial == baseline && n.cooldown == 0
      && n.keyBound && !n.key.pending && !n.keyWasDown && !n.peerWasAlive
      && n.listener == Listener(Waiting, if defer then Available else Disabled, 0, 0, 0, now)
      && n.past.log == h.past.log + [Started(origin, baseline, h.past.acks)]
  {
  }

  /** Cancelling ends what there is; the end of a challenge is told once; presence arms the key. */
  lemma EpisodeCalls(h: Host)
    ensures if h.state == NotHosting then CancelRequested(h) == h else Closed(h, CancelRequested(h), Ended)
    ensures !ChallengeEndConsumed(h).challengeEnded
    ensures ChallengeEndConsumed(h).(challengeEnded := h.challengeEnded) == h
    ensures var n := PresenceArmed(h);
      n.keyBound && !n.keyWasDown && !n.key.pending && n.state == h.state && n.listener == h.listener
  {
  }

  /** An observation that is not ours is refused; one that is makes the listener ready, and counts unless it has. */
  lemma NotifyAcknowledges(h: Host, o: Observation)
    ensures var n := Notified(h, o); var known := h.listener.state == Ready && h.listener.acknowledged == o.serial;
      && (!IsOurs(o) || known ==> n == h)
      && (IsOurs(o) && !known ==>
            && n.past.acks == h.past.acks + 1 && n.past.log == h.past.log && n.state == h.state
            && n.listener == Acknowledged(h.listener, o))
  {
  }
}
