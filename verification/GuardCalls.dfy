/**
 What the calls on the guard achieve: an acquire gets the marker exactly when a guard is published and, if asked
 for, delivery is on; an installation publishes a guard; a cleanup takes it back and closes or defers its parts.
 */
module GuardCalls {
  import opened Basics
  import opened GuardReclaim

  /** The same action over and over, with nothing else moving. */
  function Alone(s: State, a: Action, n: nat): State
    decreases n
  {
    if n == 0 then s else Alone(Next(s, a), a, n - 1)
  }

  lemma {:induction false} AloneConcat(s: State, a: Action, m: nat, n: nat)
    ensures Alone(s, a, m + n) == Alone(Alone(s, a, m), a, n)
    decreases m
  {
    hide Next;
    if m > 0 { AloneConcat(Next(s, a), a, m - 1, n); }
  }

  lemma OneStep(s: State, a: Action)
    ensures Alone(s, a, 1) == Next(s, a)
  {
    hide Next;
    assert Alone(s, a, 1) == Alone(Next(s, a), a, 0);
  }

  lemma MoreSteps(s: State, a: Action, m: nat)
    ensures Alone(s, a, m + 1) == Next(Alone(s, a, m), a)
  {
    hide Next;
    AloneConcat(s, a, m, 1);
    OneStep(Alone(s, a, m), a);
  }

  lemma {:induction false} AloneKeeps(s: State, a: Action, n: nat)
    requires Inv(s)
    ensures Inv(Alone(s, a, n))
    decreases n
  {
    hide Inv, Next;
    if n > 0 {
      NextKeeps(s, a);
      AloneKeeps(Next(s, a), a, n - 1);
    }
  }

  lemma Reached(s: State, acts: seq<Action>)
    requires Init(s)
    ensures Inv(Exec(s, acts))
  {
    assert CountedSet(s.threads) == {};
    ExecKeeps(s, acts);
  }

  // ----- acquiring and releasing the marker

  /** Is there a marker for a reader with this demand? */
  predicate Available(s: State, requireDelivery: bool) { s.role == Child && (requireDelivery ==> s.delivery) }

  /** From its entry on, a reader that runs alone: it holds the published marker, or it is out again. */
  lemma AcquireRuns(s: State, t: nat, req: bool)
    requires t in s.threads && s.threads[t] == Out && (s.role == Child ==> s.live.Some?)
    ensures var n := Alone(Next(s, Enter(t, req)), Read(t, false), if req then 4 else 3);
      if Available(s, req)
      then n == Goto(s.(readers := s.readers + 1, asked := s.asked[t := req]), t, Holding(s.live.value))
      else n == s.(asked := s.asked[t := req])
  {
    var a := Read(t, false);
    var s0 := Next(s, Enter(t, req));
    var s1 := Next(s0, a);
    var s2 := Next(s1, a);
    var s3 := Next(s2, a);
    OneStep(s0, a);
    MoreSteps(s0, a, 1);
    MoreSteps(s0, a, 2);
    MoreSteps(s0, a, 3);
    assert s0.threads == s.threads[t := In(req)];
    if s.role == Child {
      assert s1.threads == s.threads[t := RoleSeen(req)];
      if Available(s, req) {
        assert s2.threads == s.threads[t := MayLoad(req)];
        assert s3.threads == s.threads[t := if req then Recheck(s.live.value) else Holding(s.live.value)];
        assert Next(s3, a).threads == s.threads[t := Holding(s.live.value)] || !req;
      } else {
        assert s2.threads == s.threads[t := Leaving];
        assert s3.threads == s.threads;
      }
    } else {
      assert s1.threads == s.threads[t := Leaving];
      assert s2.threads == s.threads;
      assert s3 == s2;
    }
    hide Alone;
  }

  /** After any run that has come to rest, an acquire that runs alone gets the published marker exactly when there is
      one for its demand, and otherwise leaves no trace. */
  lemma AcquireAlone(s: State, acts: seq<Action>, t: nat, req: bool)
    requires Init(s) && Exec(s, acts).control == Idle
    requires t in Exec(s, acts).threads && Exec(s, acts).threads[t] == Out
    ensures var m := Exec(s, acts); var n := Alone(Next(m, Enter(t, req)), Read(t, false), if req then 4 else 3);
      && t in n.threads
      && (Available(m, req) ==>
            && m.live.Some? && n.threads[t] == Holding(m.live.value) && Marker(m.live.value) in n.open
            && n.readers == m.readers + 1)
      && (!Available(m, req) ==> n == m.(asked := m.asked[t := req]))
  {
    Reached(s, acts);
    var m := Exec(s, acts);
    hide Exec, Parts, NoRepeats, ReadersOk;
    AcquireRuns(m, t, req);
    hide Alone, Next;
    if Available(m, req) { assert Owner(m) == m.live; }
  }

  /** A reader that holds the marker counts itself out with its release, the parent handle used or not. */
  lemma ReleaseAlone(s: State, t: nat)
    requires t in s.threads && s.threads[t].Holding?
    ensures Next(s, Read(t, false)) == Goto(s.(readers := s.readers - 1), t, Out)
    ensures var u := Next(s, Read(t, true));
      && u == Goto(s, t, Using(s.threads[t].m, s.parent))
      && Next(u, Read(t, false)) == Goto(s.(readers := s.readers - 1), t, Out)
  {
    var u := Next(s, Read(t, true));
    assert Next(u, Read(t, false)).threads == s.threads[t := Out];
  }

  // ----- a retired guard signals nothing

  /** What a reader on its way in asked for. */
  predicate AskedOk(s: State, t: nat)
    requires t in s.threads
  {
    match s.threads[t]
    case In(req) => t in s.asked && s.asked[t] == req
    case RoleSeen(req) => t in s.asked && s.asked[t] == req
    case MayLoad(req) => t in s.asked && s.asked[t] == req
    case Recheck(_) => t in s.asked && s.asked[t]
    case _ => true
  }

  ghost predicate AllAskedOk(s: State) { forall t: nat | t in s.threads :: AskedOk(s, t) }

  lemma {:induction false} AskedStays(s: State, acts: seq<Action>)
    requires AllAskedOk(s)
    ensures AllAskedOk(Exec(s, acts))
    decreases |acts|
  {
    hide AllAskedOk, Next;
    if acts != [] {
      NextKeepsAsked(s, acts[0]);
      AskedStays(Next(s, acts[0]), acts[1..]);
    }
  }

  /** Neither the readers nor what they asked for. */
  predicate SameReaders(s: State, n: State) { n.threads == s.threads && n.asked == s.asked }

  lemma DrainLeavesReaders(s: State)
    ensures SameReaders(s, DrainStep(s))
  {
    hide Parts, PartList, Drained;
  }

  lemma InstallLeavesReaders(s: State, fails: bool)
    ensures SameReaders(s, InstallStep(s, fails))
  {
    hide Parts, PartList;
  }

  lemma CleanupLeavesReaders(s: State)
    ensures SameReaders(s, CleanupStep(s))
  {
    hide Parts, PartList;
  }

  lemma ControlLeavesReaders(s: State, a: Action)
    requires a.Begin? || a.Proceed?
    ensures Next(s, a).threads == s.threads && Next(s, a).asked == s.asked
  {
    DrainLeavesReaders(s);
    if a.Proceed? { InstallLeavesReaders(s, a.fails); }
    CleanupLeavesReaders(s);
    hide DrainStep, InstallStep, CleanupStep, ReadStep;
  }

  lemma ReadKeepsAsked(s: State, t: nat, useParent: bool)
    requires t in s.threads && AskedOk(s, t)
    ensures var n := ReadStep(s, t, useParent); t in n.threads && AskedOk(n, t) && n.asked == s.asked
  {
  }

  lemma NextKeepsAsked(s: State, a: Action)
    requires AllAskedOk(s)
    ensures AllAskedOk(Next(s, a))
  {
    match a
    case Enter(t, req) =>
      forall u: nat | u in Next(s, a).threads ensures AskedOk(Next(s, a), u) {
        assert u in s.threads ==> AskedOk(s, u);
      }
    case Read(t, useParent) =>
      if t in s.threads {
        assert AskedOk(s, t);
        ReadKeepsAsked(s, t, useParent);
        ReadFrame(s, t, useParent);
        hide ReadStep;
        forall u: nat | u in Next(s, a).threads ensures AskedOk(Next(s, a), u) { assert AskedOk(s, u); }
      }
    case _ =>
      ControlLeavesReaders(s, a);
      hide Next;
      forall u: nat | u in Next(s, a).threads ensures AskedOk(Next(s, a), u) { assert AskedOk(s, u); }
  }

  /** This step makes `t` hold the marker. */
  predicate Acquires(s: State, a: Action, t: nat) {
    && t in s.threads && !s.threads[t].Holding?
    && t in Next(s, a).threads && Next(s, a).threads[t].Holding?
  }

  /** In every interleaving a reader comes to hold the marker only by its own step, and one that asked for delivery
      only in a state in which delivery is on. */
  lemma DeliveryIsChecked(s: State, acts: seq<Action>, a: Action, t: nat)
    requires Init(s) && Acquires(Exec(s, acts), a, t)
    ensures a.Read? && a.t == t && t in Exec(s, acts).asked
    ensures Exec(s, acts).asked[t] ==> Exec(s, acts).delivery
  {
    AskedStays(s, acts);
    var n := Exec(s, acts);
    hide Exec;
    assert AskedOk(n, t);
    if a.Begin? || a.Proceed? { ControlLeavesReaders(n, a); }
  }

  /** No installation is under way that would turn delivery on. */
  predicate NotInstalling(c: Control) {
    !InInstall(c) && !(InDrain(c) && c.why == BeforeInstall)
  }

  lemma {:induction false} DeliveryStaysOff(s: State, acts: seq<Action>)
    requires !s.delivery && NotInstalling(s.control) && Begin(Install) !in acts
    ensures !Exec(s, acts).delivery && NotInstalling(Exec(s, acts).control)
    decreases |acts|
  {
    if acts != [] {
      assert acts[0] in acts;
      NoInstall(s, acts[0]);
      hide NotInstalling, Next;
      DeliveryStaysOff(Next(s, acts[0]), acts[1..]);
    }
  }

  lemma ReadersLeaveControl(s: State, a: Action)
    requires a.Enter? || a.Read?
    ensures Next(s, a).control == s.control && Next(s, a).delivery == s.delivery
  {
    hide ReadStep;
    if a.Read? && a.t in s.threads { ReadFrame(s, a.t, a.useParent); }
  }

  lemma DrainsOn(s: State)
    requires InDrain(s.control)
    ensures var n := DrainStep(s);
      && n.delivery == s.delivery
      && ((InDrain(n.control) && n.control.why == s.control.why)
          || exists ok :: n.control == Drained(s.control.why, ok))
  {
    hide Parts, PartList, Drained;
    assert forall ok :: Drained(s.control.why, ok) == Drained(s.control.why, ok);
  }

  lemma ClosingLeaves(s: State, b: Bundle)
    ensures Close(s, b).delivery == s.delivery
  {
  }

  lemma CleansOn(s: State)
    requires !InDrain(s.control) && !InInstall(s.control)
    ensures var n := CleanupStep(s);
      && (n.delivery ==> s.delivery) && !InInstall(n.control)
      && (InDrain(n.control) ==> n.control.why == AfterDefer)
  {
    hide Close, Parts, PartList;
    if s.control.ReleaseClose? {
      ClosingLeaves(s, s.control.bundle);
      assert CleanupStep(s).control == CleanRole;
    } else if s.control.DeferAgain? {
      assert CleanupStep(s).delivery == s.delivery;
    } else {
      assert !InDrain(CleanupStep(s).control);
    }
  }

  lemma NoInstallProceeds(s: State, fails: bool)
    requires !s.delivery && NotInstalling(s.control)
    ensures !Next(s, Proceed(fails)).delivery && NotInstalling(Next(s, Proceed(fails)).control)
  {
    hide DrainStep, CleanupStep, InstallStep;
    if InDrain(s.control) { DrainsOn(s); } else { CleansOn(s); }
  }

  lemma NoInstall(s: State, a: Action)
    requires !s.delivery && NotInstalling(s.control) && a != Begin(Install)
    ensures !Next(s, a).delivery && NotInstalling(Next(s, a).control)
  {
    match a
    case Begin(_) => hide DrainStep, InstallStep, CleanupStep, ReadStep;
    case Proceed(fails) => NoInstallProceeds(s, fails);
    case _ => ReadersLeaveControl(s, a);
    hide DrainStep, InstallStep, CleanupStep, ReadStep;
  }

  /** Between a Retire and the next installation no reader that asked for delivery comes to hold the marker. */
  lemma RetireSilences(s: State, before: seq<Action>, after: seq<Action>, a: Action, t: nat)
    requires Init(s) && Exec(s, before).control == Idle && Begin(Install) !in after
    requires Acquires(Exec(s, before + ([Begin(Retire)] + after)), a, t)
    ensures var n := Exec(s, before + ([Begin(Retire)] + after)); t in n.asked && !n.asked[t]
  {
    var m := Exec(s, before);
    var r := Next(m, Begin(Retire));
    assert !r.delivery && r.control == Idle;
    ExecConcat(s, before, [Begin(Retire)] + after);
    Unfold(m, Begin(Retire), after);
    DeliveryStaysOff(r, after);
    DeliveryIsChecked(s, before + ([Begin(Retire)] + after), a, t);
    hide Exec, Next, Acquires;
  }

  // ----- the control plane

  /** Retiring turns delivery off and touches nothing else. */
  lemma RetireAlone(s: State)
    requires s.control == Idle
    ensures Next(s, Begin(Retire)) == s.(delivery := false)
  {
  }

  function AfterDrain(s: State, why: Why): State {
    s.(deferred := EMPTY, deferredState := Nothing, control := Drained(why, true),
       open := s.open - Parts(s.deferred), closes := s.closes + PartList(s.deferred))
  }

  /** A drain on its way out of a call, at rest with no reader counted: what was deferred is closed. */
  lemma DrainAlone(s: State, why: Why)
    requires s.control == DrainCheck(why) && s.readers == 0 && (NothingDeferred(s) || SomethingDeferred(s))
    ensures Alone(s, Proceed(false), if SomethingDeferred(s) then 5 else 2) == AfterDrain(s, why)
  {
    var p := Proceed(false);
    hide Parts, PartList, Alone;
    var s1 := Next(s, p);
    assert s1 == s.(control := DrainClaim(why));
    if SomethingDeferred(s) {
      ClaimCloses(s1);
    } else {
      assert Next(s1, p) == s.(control := Drained(why, true));
      NothingCloses(s);
    }
    hide Next;
    FiveSteps(s, p);
  }

  lemma NothingCloses(s: State)
    ensures s.open - Parts(EMPTY) == s.open && s.closes + PartList(EMPTY) == s.closes
  {
  }

  lemma ClaimCloses(s: State)
    requires s.control.DrainClaim? && s.deferredState == Ready
    ensures var p := Proceed(false); Next(Next(Next(Next(s, p), p), p), p) == AfterDrain(s, s.control.why)
  {
    var p := Proceed(false);
    var why := s.control.why;
    hide Parts, PartList;
    var s2 := Next(s, p);
    assert s2 == s.(deferredState := Claimed, control := DrainTake(why));
    var s3 := Next(s2, p);
    assert s3 == s2.(deferred := EMPTY, control := DrainClose(why, s.deferred));
  }

  lemma FiveSteps(s: State, a: Action)
    ensures Alone(s, a, 2) == Next(Next(s, a), a)
    ensures Alone(s, a, 5) == Next(Next(Next(Next(Next(s, a), a), a), a), a)
  {
    hide Next, Alone;
    OneStep(s, a);
    MoreSteps(s, a, 1);
    MoreSteps(s, a, 2);
    MoreSteps(s, a, 3);
    MoreSteps(s, a, 4);
  }

  /** While a reader is counted nothing is drained, and nothing is installed. */
  lemma ReadersBlockDrain(s: State, why: Why)
    requires s.control == DrainCheck(why) && s.readers != 0
    ensures Next(s, Proceed(false)) == s.(control := Drained(why, false))
  {
  }

  function AfterInstall(s: State): State {
    var b := s.installed;
    s.(installed := b + 1, open := s.open + Parts(Whole(b)), handles := Some(b), parent := Some(b),
       delivery := true, live := Some(b), role := Child, control := Idle)
  }

  /** The installation itself: a new guard is mapped, stored and published, delivery on, the role last. */
  lemma InstallRuns(s: State)
    requires s.control == InstallCheck && s.role == NoRole && s.live == None
    ensures Alone(s, Proceed(false), 6) == AfterInstall(s)
  {
    var p := Proceed(false);
    InstallMaps(s);
    InstallPublishes(Next(Next(Next(s, p), p), p));
    hide Next, Alone, AfterInstall;
    SixSteps(s, p);
  }

  function AfterMaps(s: State): State {
    var b := s.installed;
    s.(installed := b + 1, open := s.open + Parts(Whole(b)), handles := Some(b), parent := Some(b),
       control := InstallDelivery(b))
  }

  lemma InstallMaps(s: State)
    requires s.control == InstallCheck && s.role == NoRole && s.live == None
    ensures var p := Proceed(false); Next(Next(Next(s, p), p), p) == AfterMaps(s)
    ensures AfterMaps(s).control.InstallDelivery? && Published(AfterMaps(s)) == AfterInstall(s)
  {
    var p := Proceed(false);
    var b := s.installed;
    hide Parts, PartList;
    var s1 := Next(s, p);
    assert s1 == s.(installed := b + 1, open := s.open + Parts(Whole(b)), control := InstallHandles(b));
    var s2 := Next(s1, p);
    assert s2 == s1.(handles := Some(b), control := InstallParent(b));
  }

  function Published(s: State): State
    requires s.control.InstallDelivery?
  {
    s.(delivery := true, live := Some(s.control.b), role := Child, control := Idle)
  }

  lemma InstallPublishes(s: State)
    requires s.control.InstallDelivery?
    ensures var p := Proceed(false); Next(Next(Next(s, p), p), p) == Published(s)
  {
    var p := Proceed(false);
    var b := s.control.b;
    hide Parts, PartList;
    var s1 := Next(s, p);
    assert s1 == s.(delivery := true, control := InstallLive(b));
    var s2 := Next(s1, p);
    assert s2 == s1.(live := Some(b), control := InstallRole(b));
  }

  lemma SixSteps(s: State, a: Action)
    ensures Alone(s, a, 3) == Next(Next(Next(s, a), a), a)
    ensures Alone(s, a, 4) == Next(Next(Next(Next(s, a), a), a), a)
    ensures Alone(s, a, 6) == Next(Next(Next(Next(Next(Next(s, a), a), a), a), a), a)
  {
    hide Next, Alone;
    OneStep(s, a);
    MoreSteps(s, a, 1);
    MoreSteps(s, a, 2);
    MoreSteps(s, a, 3);
    MoreSteps(s, a, 4);
    MoreSteps(s, a, 5);
  }

  /** A failing call of the operating system, or a guard that is already there, ends it at its check. */
  lemma InstallRefused(s: State, fails: bool)
    requires s.control == InstallCheck && (fails || s.role != NoRole || s.live != None)
    ensures Next(s, Proceed(fails)) == s.(control := Idle)
  {
  }

  /** At rest without a guard the open parts are the deferred ones. */
  lemma RestOpens(m: State)
    requires Inv(m) && m.control == Idle && m.role == NoRole
    ensures Unpublished(m) && (NothingDeferred(m) || SomethingDeferred(m)) && m.open - Parts(m.deferred) == {}
  {
    hide ReadersOk, NoRepeats;
  }

  lemma CallsBegin(m: State)
    requires m.control == Idle
    ensures Next(m, Begin(Install)) == m.(control := DrainCheck(BeforeInstall))
    ensures m.role == Child ==> Next(m, Begin(Cleanup)) == m.(role := ChildClosing, control := CleanDelivery)
  {
    hide Parts, PartList, DrainStep, InstallStep, CleanupStep, ReadStep;
  }

  /** At rest with no guard and no reader, an installation publishes the one open guard, with delivery. */
  lemma InstallAlone(s: State, acts: seq<Action>) returns (steps: nat)
    requires Init(s) && Exec(s, acts).control == Idle
    requires Exec(s, acts).role == NoRole && Exec(s, acts).readers == 0
    ensures var m := Exec(s, acts);
      && Installed(Alone(Next(m, Begin(Install)), Proceed(false), steps), m.installed)
      && Alone(Next(m, Begin(Install)), Proceed(false), steps).threads == m.threads
  {
    Reached(s, acts);
    RestOpens(Exec(s, acts));
    hide Inv, Exec;
    steps := InstallFrom(Exec(s, acts));
  }

  /** Guard `b` is published, with delivery, and is all that is open. */
  ghost predicate Installed(n: State, b: nat) {
    && n.control == Idle && n.role == Child && n.delivery && PublishedAs(n, b) && n.installed == b + 1
    && n.open == Parts(Whole(b)) && NothingDeferred(n)
  }

  lemma InstallFrom(m: State) returns (steps: nat)
    requires m.control == Idle && m.role == NoRole && m.readers == 0
    requires Unpublished(m) && (NothingDeferred(m) || SomethingDeferred(m)) && m.open - Parts(m.deferred) == {}
    ensures Installed(Alone(Next(m, Begin(Install)), Proceed(false), steps), m.installed)
    ensures Alone(Next(m, Begin(Install)), Proceed(false), steps).threads == m.threads
  {
    CallsBegin(m);
    InstallWhole(m);
    hide Alone, Parts, PartList, Next, AfterDrain, AfterInstall, Installed, Unpublished;
    steps := InstallRun(Next(m, Begin(Install)));
  }

  lemma InstallRun(c: State) returns (steps: nat)
    requires c.control == DrainCheck(BeforeInstall) && c.readers == 0 && (NothingDeferred(c) || SomethingDeferred(c))
    requires var d := AfterDrain(c, BeforeInstall); d.control == InstallCheck && d.role == NoRole && d.live == None
    ensures Alone(c, Proceed(false), steps) == AfterInstall(AfterDrain(c, BeforeInstall))
  {
    var p := Proceed(false);
    hide Alone, Parts, PartList, Next, AfterDrain, AfterInstall;
    var first := if SomethingDeferred(c) then 5 else 2;
    DrainAlone(c, BeforeInstall);
    hide NothingDeferred, SomethingDeferred;
    InstallRuns(AfterDrain(c, BeforeInstall));
    AloneConcat(c, p, first, 6);
    steps := first + 6;
  }

  lemma InstallWhole(m: State)
    requires m.control == Idle && m.role == NoRole && m.readers == 0
    requires Unpublished(m) && (NothingDeferred(m) || SomethingDeferred(m)) && m.open - Parts(m.deferred) == {}
    ensures var d := AfterDrain(m.(control := DrainCheck(BeforeInstall)), BeforeInstall);
      && d.control == InstallCheck && d.role == NoRole && d.live == None
      && Installed(AfterInstall(d), m.installed) && AfterInstall(d).threads == m.threads
  {
    hide Parts, PartList;
    assert {} + Parts(Whole(m.installed)) == Parts(Whole(m.installed));
  }

  lemma RestPublishes(m: State)
    requires Inv(m) && m.control == Idle && m.role == Child
    ensures m.live.Some? && PublishedAs(m, m.live.value) && NothingDeferred(m) && m.open == Parts(Whole(m.live.value))
  {
    hide ReadersOk, NoRepeats, Parts;
  }

  /** With a reader counted an installation changes nothing. */
  lemma InstallWaitsForReaders(s: State)
    requires s.control == Idle && s.readers != 0
    ensures Alone(Next(s, Begin(Install)), Proceed(false), 1) == s
  {
    OneStep(Next(s, Begin(Install)), Proceed(false));
  }

  function AfterUnpublish(s: State): State {
    s.(delivery := false, live := None, parent := None, handles := None,
       control := Release(Bundle(s.live, s.handles, s.parent)))
  }

  /** The first half of a cleanup takes the guard back, delivery first. */
  lemma CleanupUnpublishes(s: State)
    requires s.control == CleanDelivery
    ensures Alone(s, Proceed(false), 4) == AfterUnpublish(s)
  {
    var p := Proceed(false);
    UnpublishHalf(s);
    var m := s.(delivery := false, live := None, control := CleanParent(s.live));
    ParentAndHandles(m);
    hide Next, Alone;
    SixSteps(s, p);
  }

  lemma UnpublishHalf(s: State)
    requires s.control == CleanDelivery
    ensures var p := Proceed(false);
      Next(Next(s, p), p) == s.(delivery := false, live := None, control := CleanParent(s.live))
  {
    hide Close, Parts, PartList;
    assert Next(s, Proceed(false)) == s.(delivery := false, control := CleanLive);
  }

  lemma ParentAndHandles(s: State)
    requires s.control.CleanParent?
    ensures var p := Proceed(false);
      Next(Next(s, p), p)
        == s.(parent := None, handles := None, control := Release(Bundle(s.control.marker, s.handles, s.parent)))
  {
    hide Close, Parts, PartList;
    assert Next(s, Proceed(false)) == s.(parent := None, control := CleanHandles(s.control.marker, s.parent));
  }

  /** With no reader counted its parts are closed. */
  lemma CleanupCloses(s: State)
    requires s.control.Release? && s.control.bundle != EMPTY && s.readers == 0
    ensures Alone(s, Proceed(false), 3) == AfterRelease(s, s.control.bundle)
  {
    var p := Proceed(false);
    var b := s.control.bundle;
    hide Close, Parts, PartList, Alone;
    assert Next(s, p) == s.(control := ReleaseClose(b));
    ClosesAndEnds(s.(control := ReleaseClose(b)));
    hide Next, AfterRelease;
    SixSteps(s, p);
  }

  lemma ClosesAndEnds(s: State)
    requires s.control.ReleaseClose?
    ensures var p := Proceed(false);
      Next(Next(s, p), p) == Close(s, s.control.bundle).(role := NoRole, control := Idle)
  {
    hide Parts, PartList;
    assert Next(s, Proceed(false)) == Close(s, s.control.bundle).(control := CleanRole);
    hide Close;
  }

  /** With a reader counted they are kept for a later drain, nothing being deferred yet. */
  lemma CleanupDefers(s: State)
    requires s.control.Release? && s.control.bundle != EMPTY && s.readers != 0 && s.deferredState == Nothing
    ensures Alone(s, Proceed(false), 6) == AfterRelease(s, s.control.bundle)
  {
    var p := Proceed(false);
    DeferStores(s);
    DeferEnds(Next(Next(Next(s, p), p), p));
    hide Next, Alone, AfterRelease;
    SixSteps(s, p);
  }

  lemma DeferStores(s: State)
    requires s.control.Release? && s.control.bundle != EMPTY && s.readers != 0 && s.deferredState == Nothing
    ensures var p := Proceed(false);
      Next(Next(Next(s, p), p), p) == s.(deferred := s.control.bundle, control := DeferReady)
    ensures Deferred(s.(deferred := s.control.bundle, control := DeferReady)) == AfterRelease(s, s.control.bundle)
  {
    var p := Proceed(false);
    var b := s.control.bundle;
    hide Close, Parts, PartList;
    assert Next(s, p) == s.(control := DeferCheck(b));
    assert Next(Next(s, p), p) == s.(control := DeferStore(b));
  }

  function Deferred(s: State): State { s.(deferredState := Ready, role := NoRole, control := Idle) }

  lemma DeferEnds(s: State)
    requires s.control == DeferReady && s.readers != 0
    ensures var p := Proceed(false); Next(Next(Next(s, p), p), p) == Deferred(s)
  {
    var p := Proceed(false);
    hide Close, Parts, PartList;
    assert Next(s, p) == s.(deferredState := Ready, control := DeferAgain);
    assert Next(Next(s, p), p) == s.(deferredState := Ready, control := CleanRole);
  }

  /** The guard of `m` is taken back: closed, or kept for the readers still counted. */
  ghost predicate TakenBack(m: State, n: State) {
    && m.live.Some? && n.control == Idle && n.role == NoRole && Unpublished(n) && !n.delivery
    && n.threads == m.threads && n.readers == m.readers
    && (m.readers == 0 ==> n.open == {} && NothingDeferred(n))
    && (m.readers != 0 ==> n.open == m.open && n.deferredState == Ready && n.deferred == Whole(m.live.value))
  }

  /** A whole cleanup of a published guard: it is taken back, and its parts are closed if no reader is counted and
      otherwise deferred, still open. */
  lemma CleanupAlone(s: State, acts: seq<Action>)
    requires Init(s) && Exec(s, acts).control == Idle && Exec(s, acts).role == Child
    ensures var m := Exec(s, acts);
      TakenBack(m, Alone(Next(m, Begin(Cleanup)), Proceed(false), if m.readers == 0 then 7 else 10))
  {
    Reached(s, acts);
    RestPublishes(Exec(s, acts));
    hide Inv, Exec;
    CleanupFrom(Exec(s, acts));
  }

  function AfterRelease(s: State, b: Bundle): State {
    if s.readers == 0 then Close(s, b).(role := NoRole, control := Idle)
    else s.(deferred := b, deferredState := Ready, role := NoRole, control := Idle)
  }

  lemma CleanupFrom(m: State)
    requires m.control == Idle && m.role == Child
    requires m.live.Some? && PublishedAs(m, m.live.value) && NothingDeferred(m) && m.open == Parts(Whole(m.live.value))
    ensures TakenBack(m, Alone(Next(m, Begin(Cleanup)), Proceed(false), if m.readers == 0 then 7 else 10))
  {
    CallsBegin(m);
    CleanupWhole(m);
    hide Alone, Parts, PartList, Next, AfterUnpublish, AfterRelease, TakenBack, Close, Unpublished;
    CleanupRun(Next(m, Begin(Cleanup)), Whole(m.live.value));
  }

  lemma CleanupRun(c: State, b: Bundle)
    requires c.control == CleanDelivery && b != EMPTY
    requires var r := AfterUnpublish(c); r.control == Release(b) && r.readers == c.readers && r.deferredState == Nothing
    ensures Alone(c, Proceed(false), if c.readers == 0 then 7 else 10) == AfterRelease(AfterUnpublish(c), b)
  {
    hide Alone, Next, AfterUnpublish, AfterRelease;
    CleanupUnpublishes(c);
    ReleaseRuns(AfterUnpublish(c), b);
    AloneConcat(c, Proceed(false), 4, if c.readers == 0 then 3 else 6);
  }

  lemma ReleaseRuns(s: State, b: Bundle)
    requires s.control == Release(b) && b != EMPTY && s.deferredState == Nothing
    ensures Alone(s, Proceed(false), if s.readers == 0 then 3 else 6) == AfterRelease(s, b)
  {
    hide Alone, Next, AfterRelease;
    if s.readers == 0 { CleanupCloses(s); } else { CleanupDefers(s); }
  }

  lemma CleanupWhole(m: State)
    requires m.control == Idle && m.role == Child
    requires m.live.Some? && PublishedAs(m, m.live.value) && NothingDeferred(m) && m.open == Parts(Whole(m.live.value))
    ensures var c := m.(role := ChildClosing, control := CleanDelivery);
      var b := Whole(m.live.value);
      && AfterUnpublish(c).control == Release(b) && b != EMPTY && AfterUnpublish(c).readers == m.readers
      && AfterUnpublish(c).deferredState == Nothing && TakenBack(m, AfterRelease(AfterUnpublish(c), b))
  {
    hide Parts, PartList;
    assert m.open - Parts(Whole(m.live.value)) == {};
  }

  /** Without a published guard a cleanup is a drain. */
  lemma CleanupIsDrain(s: State)
    requires s.control == Idle && s.role != Child
    ensures Next(s, Begin(Cleanup)) == Next(s, Begin(Drain)) == s.(control := DrainCheck(Why.Alone))
  {
  }

}
