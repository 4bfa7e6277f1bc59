/** The history of background hosting: what each happening may follow, kept by every function of the host. */
module AsyncEpisodes {
  import opened Basics
  import opened FrontendReturn
  import opened AsyncHost

  /** An open episode: where it came from, the prompt serial it counts from, the listeners acknowledged before
      its listener was started, and the tick of its last restart. */
  datatype Episode = Episode(origin: Origin, baseline: int, acks: nat, lastRestart: Option<nat>)

  function EpisodeOf(log: seq<Happening>): Option<Episode> {
    if log == [] then None else
    var before := log[..|log| - 1];
    match log[|log| - 1]
    case Started(o, b, a) => Some(Episode(o, b, a, None))
    case Restarted(b, t, a) =>
      var e := EpisodeOf(before);
      if e.None? then None else Some(e.value.(baseline := b, acks := a, lastRestart := Some(t)))
    case Released => None
    case Ended => None
    case _ => EpisodeOf(before)
  }

  function StateAfter(log: seq<Happening>): HostState {
    if log == [] then NotHosting else
    match log[|log| - 1]
    case Started(_, _, _) => Hosting
    case Restarted(_, _, _) => Hosting
    case Prompted(_) => PeerFoundHeld
    case UserAccepted => Accepted
    case GaveUp => TimedOut
    case _ => NotHosting
  }

  /** May `h` follow these happenings? */
  predicate MayFollow(log: seq<Happening>, h: Happening) {
    var e := EpisodeOf(log);
    match h
    case Prompted(s) => StateAfter(log) == Hosting && e.Some? && s != 0 && s != e.value.baseline
    case UserAccepted => StateAfter(log) == PeerFoundHeld
    case Released => StateAfter(log) == Accepted
    case Restarted(_, t, a) =>
      && (StateAfter(log) == Hosting || StateAfter(log) == PeerFoundHeld)
      && e.Some? && e.value.origin == Direct && a > e.value.acks
      && (e.value.lastRestart.Some? ==> t >= e.value.lastRestart.value + REHOST_COOLDOWN_TICKS)
    case _ => true
  }

  ghost predicate TraceOk(log: seq<Happening>) {
    forall k :: 0 <= k < |log| ==> MayFollow(log[..k], log[k])
  }

  ghost predicate HostOk(h: Host) {
    var e := EpisodeOf(h.past.log);
    && TraceOk(h.past.log) && h.state == StateAfter(h.past.log)
    && (h.state != NotHosting ==> e.Some? && h.origin == e.value.origin)
    && (h.state == Hosting ==> e.Some? && h.promptSerial == e.value.baseline)
    && (e.Some? ==>
          && e.value.acks <= h.past.acks && (h.listener.state == Ready ==> e.value.acks < h.past.acks)
          && (e.value.lastRestart.Some? ==>
                e.value.lastRestart.value + REHOST_COOLDOWN_TICKS <= h.past.ticks + h.cooldown))
  }

  lemma Noted(log: seq<Happening>, h: Happening)
    requires TraceOk(log) && MayFollow(log, h)
    ensures TraceOk(log + [h])
    ensures (log + [h])[..|log + [h]| - 1] == log
  {
    var n := log + [h];
    forall k | 0 <= k < |n| ensures MayFollow(n[..k], n[k]) {
      if k < |log| { assert n[..k] == log[..k]; } else { assert n[..k] == log; }
    }
  }

  lemma ResetKeeps(h: Host, why: Happening)
    requires HostOk(h) && (why == Ended || (why == Released && h.state == Accepted))
    ensures HostOk(ResetHost(h, why))
  {
    Noted(h.past.log, why);
  }

  lemma StartKeeps(h: Host, now: Word, defer: bool, baseline: int, origin: Origin)
    requires HostOk(h)
    ensures HostOk(HostStarted(h, now, defer, baseline, origin))
  {
    Noted(h.past.log, Started(origin, baseline, h.past.acks));
  }

  lemma GiveUpKeeps(h: Host)
    requires HostOk(h) && h.state != NotHosting
    ensures HostOk(GiveUp(h))
  {
    Noted(h.past.log, GaveUp);
  }

  lemma RestartKeeps(h: Host, n: Host, serial: int)
    requires HostOk(h) && (h.state == Hosting || h.state == PeerFoundHeld) && h.origin == Direct
    requires h.listener.state == Ready && h.cooldown == 0
    requires n.past == h.past.(log := h.past.log + [Restarted(serial, h.past.ticks, h.past.acks)])
    requires n.state == Hosting && n.origin == Direct && n.promptSerial == serial
    requires n.listener.state != Ready && n.cooldown == REHOST_COOLDOWN_TICKS
    ensures HostOk(n)
  {
    Noted(h.past.log, Restarted(serial, h.past.ticks, h.past.acks));
    hide TraceOk, MayFollow;
  }

  lemma AutoRehostKeeps(h: Host, i: TickInputs)
    requires HostOk(h) && (h.state == Hosting || h.state == PeerFoundHeld)
    requires h.listener.state == Ready && h.cooldown == 0
    ensures HostOk(AutoRehost(h, i))
  {
    if h.origin == LobbyChallenge {
      assert HostOk(h.(challengeEnded := true));
      ResetKeeps(h.(challengeEnded := true), Ended);
    } else {
      hide HostOk;
      RestartKeeps(h, AutoRehost(h, i), if i.rehostOk then i.rehostSerial else h.promptSerial);
    }
  }

  lemma ListenerMoves(h: Host, l: Listener)
    requires HostOk(h) && l.state != Ready
    ensures HostOk(h.(listener := l))
  {
  }

  lemma NotifiedKeeps(h: Host, o: Observation)
    requires HostOk(h)
    ensures HostOk(Notified(h, o))
  {
  }

  lemma TickCounted(h: Host, alive: bool)
    requires HostOk(h)
    ensures HostOk(h.(cooldown := if h.cooldown > 0 then h.cooldown - 1 else 0, peerWasAlive := h.peerWasAlive || alive,
                      past := h.past.(ticks := h.past.ticks + 1)))
  {
  }

  lemma WatchKeeps(h: Host, i: TickInputs)
    requires HostOk(h) && h.state != NotHosting
    ensures HostOk(Watch(h, i).0) && (Watch(h, i).1 ==> Watch(h, i).0.state == h.state)
  {
    hide HostOk, GiveUp, Acceptable;
    TickCounted(h, i.peerAlive);
    if i.observation.Some? && h.listener.state != Ready {
      var o := i.observation.value;
      var a := h.(cooldown := if h.cooldown > 0 then h.cooldown - 1 else 0,
                  peerWasAlive := h.peerWasAlive || i.peerAlive,
                  past := h.past.(ticks := h.past.ticks + 1));
      var b := a.(listener := a.listener.Observe(o.serial, i.observedAt));
      ListenerMoves(a, b.listener);
      ListenerMoves(b, b.listener.(mismatch := Deferred));
      NotifiedKeeps(b, o);
      GiveUpKeeps(b);
    }
  }

  lemma DecideKeeps(h: Host, i: TickInputs)
    requires HostOk(h) && h.state != NotHosting
    ensures HostOk(Decide(h, i).0)
  {
    hide HostOk, GiveUp, ResetHost, AutoRehost;
    ResetKeeps(h, Ended);
    GiveUpKeeps(h);
    if h.listener.state == Ready && h.cooldown == 0 && (h.state == Hosting || h.state == PeerFoundHeld) {
      AutoRehostKeeps(h, i);
    }
  }

  lemma TickBeforeKeeps(h: Host, i: TickInputs)
    requires HostOk(h)
    ensures HostOk(TickBefore(h, i).0)
  {
    hide HostOk, Watch, Decide;
    if h.state != NotHosting {
      WatchKeeps(h, i);
      if Watch(h, i).1 { DecideKeeps(Watch(h, i).0, i); }
    }
  }

  lemma PromptKeeps(h: Host, serial: int)
    requires HostOk(h) && h.state == Hosting && serial != 0 && serial != h.promptSerial
    ensures HostOk(h.Note(Prompted(serial)).(promptSerial := serial, state := PeerFoundHeld))
  {
    Noted(h.past.log, Prompted(serial));
    hide TraceOk, MayFollow;
  }

  lemma TickAfterKeeps(h: Host, i: TickInputs)
    requires HostOk(h)
    ensures HostOk(TickAfter(h, i))
  {
    hide HostOk, ResetHost;
    if h.state == Hosting && i.promptSerial != 0 && i.promptSerial != h.promptSerial {
      PromptKeeps(h, i.promptSerial);
    }
    if h.state == Accepted { ResetKeeps(h, Released); }
  }

  lemma AcceptKeeps(h: Host)
    requires HostOk(h)
    ensures HostOk(AcceptRequested(h))
  {
    if h.state == PeerFoundHeld {
      Noted(h.past.log, UserAccepted);
      hide TraceOk, MayFollow;
    }
  }

  /** An episode is handed to the delay flow only as start, new prompt, accept, release, with nothing in between. */
  lemma ReleaseFollowsAccept(log: seq<Happening>, k: nat)
    requires TraceOk(log) && k < |log| && log[k] == Released
    ensures k >= 3 && log[k - 1] == UserAccepted && log[k - 2].Prompted? && log[k - 2].serial != 0
    ensures (log[k - 3].Started? || log[k - 3].Restarted?) && log[k - 3].baseline != log[k - 2].serial
  {
    assert MayFollow(log[..k], log[k]);
    assert MayFollow(log[..k - 1], log[k - 1]);
    assert log[..k][k - 1] == log[k - 1] && log[..k - 1][k - 2] == log[k - 2];
    assert MayFollow(log[..k - 2], log[k - 2]);
    var early := log[..k - 2];
    assert StateAfter(early) == Hosting && early[|early| - 1] == log[k - 3];
  }

  /** Between these two restarts the episode neither ended nor began again. */
  predicate SameEpisode(log: seq<Happening>, i: nat, j: nat)
    requires i < j < |log|
  {
    forall k :: i < k < j ==> !log[k].Started? && log[k] != Released && log[k] != Ended
  }

  lemma {:induction false} StartRemembered(log: seq<Happening>, i: nat, j: nat)
    requires TraceOk(log) && i < j < |log| && (log[i].Started? || log[i].Restarted?) && SameEpisode(log, i, j)
    ensures var e := EpisodeOf(log[..j]);
            e.Some? && e.value.acks >= log[i].acks &&
            (log[i].Restarted? ==> e.value.lastRestart.Some? && e.value.lastRestart.value >= log[i].tick)
    decreases j
  {
    var upTo := log[..j];
    assert upTo[..|upTo| - 1] == log[..j - 1] && upTo[|upTo| - 1] == log[j - 1];
    assert MayFollow(log[..j - 1], log[j - 1]);
    if i < j - 1 { StartRemembered(log, i, j - 1); }
  }

  /** An automatic restart needs a listener acknowledged since the start or restart before it, and 96 ticks since
      that restart. */
  lemma RestartsAreSpaced(log: seq<Happening>, i: nat, j: nat)
    requires TraceOk(log) && i < j < |log| && log[j].Restarted? && SameEpisode(log, i, j)
    requires log[i].Started? || log[i].Restarted?
    ensures log[j].acks > log[i].acks
    ensures log[i].Restarted? ==> log[j].tick >= log[i].tick + REHOST_COOLDOWN_TICKS
  {
    StartRemembered(log, i, j);
    assert MayFollow(log[..j], log[j]);
  }

  lemma {:induction false} ChallengeRemembered(log: seq<Happening>, i: nat, j: nat)
    requires TraceOk(log) && i < j < |log| && log[i].Started? && SameEpisode(log, i, j)
    ensures EpisodeOf(log[..j]).Some? && EpisodeOf(log[..j]).value.origin == log[i].origin
    decreases j
  {
    var upTo := log[..j];
    assert upTo[..|upTo| - 1] == log[..j - 1] && upTo[|upTo| - 1] == log[j - 1];
    if i < j - 1 { ChallengeRemembered(log, i, j - 1); }
  }

  lemma ChallengesAreNeverRestarted(log: seq<Happening>, i: nat, j: nat)
    requires TraceOk(log) && i < j < |log| && log[i].Started? && log[i].origin == LobbyChallenge
    requires SameEpisode(log, i, j)
    ensures !log[j].Restarted?
  {
    ChallengeRemembered(log, i, j);
    assert MayFollow(log[..j], log[j]);
  }

  /** Every hand-over to the delay flow: start, a new prompt, the user's accept, the release. */
  ghost predicate ReleasesEarned(log: seq<Happening>) {
    forall k: nat | k < |log| && log[k] == Released ::
      && k >= 3 && log[k - 1] == UserAccepted && log[k - 2].Prompted? && log[k - 2].serial != 0
      && (log[k - 3].Started? || log[k - 3].Restarted?) && log[k - 3].baseline != log[k - 2].serial
  }

  /** Every automatic restart: not of a challenge, a listener acknowledged since the last start, 96 ticks since the
      last restart. */
  ghost predicate RestartsEarned(log: seq<Happening>) {
    forall i: nat, j: nat | i < j < |log| && log[j].Restarted? && SameEpisode(log, i, j)
      && (log[i].Started? || log[i].Restarted?) ::
      && log[j].acks > log[i].acks && !(log[i].Started? && log[i].origin == LobbyChallenge)
      && (log[i].Restarted? ==> log[j].tick >= log[i].tick + REHOST_COOLDOWN_TICKS)
  }

  lemma TracesAreEarned(log: seq<Happening>)
    requires TraceOk(log)
    ensures ReleasesEarned(log) && RestartsEarned(log)
  {
    hide TraceOk;
    forall k: nat | k < |log| && log[k] == Released
      ensures k >= 3 && log[k - 1] == UserAccepted && log[k - 2].Prompted? && log[k - 2].serial != 0
      ensures (log[k - 3].Started? || log[k - 3].Restarted?) && log[k - 3].baseline != log[k - 2].serial
    {
      ReleaseFollowsAccept(log, k);
    }
    forall i: nat, j: nat | i < j < |log| && log[j].Restarted? && SameEpisode(log, i, j)
      && (log[i].Started? || log[i].Restarted?)
      ensures log[j].acks > log[i].acks && !(log[i].Started? && log[i].origin == LobbyChallenge)
      ensures log[i].Restarted? ==> log[j].tick >= log[i].tick + REHOST_COOLDOWN_TICKS
    {
      RestartsAreSpaced(log, i, j);
      if log[i].Started? && log[i].origin == LobbyChallenge { ChallengesAreNeverRestarted(log, i, j); }
    }
  }
}
