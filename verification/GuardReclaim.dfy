/**
 Reclaiming the external-launcher guard. The child maps a marker shared with its parent launcher and
 publishes it; reader threads count themselves in, load the marker and count themselves out. Cleanup
 unpublishes the marker and either closes its resources at once or, while readers are counted,
 defers them to a later drain. Nobody ever waits for a reader.

 Control-plane calls (install, retire delivery, drain, cleanup) run one after another; readers
 interleave with every step of them. `closes`, `abandoned` and `asked`, what each reader asked for when it
 last entered, are history.
 */
module GuardReclaim {
  import opened Basics

  datatype Role = NoRole | Child | ChildClosing

  datatype DeferredState = Nothing | Ready | Claimed

  /** What is mapped or opened for one installed guard, by the number of the installation. */
  datatype Part = Marker(id: nat) | Handles(id: nat) | Parent(id: nat)

  /** The parts a cleanup hands over, each of which may be null. */
  datatype Bundle = Bundle(marker: Option<nat>, handles: Option<nat>, parent: Option<nat>)

  const EMPTY: Bundle := Bundle(None, None, None)

  function Whole(b: nat): Bundle { Bundle(Some(b), Some(b), Some(b)) }

  datatype Reader =
    | Out
    | In(requireDelivery: bool)
    | RoleSeen(requireDelivery: bool)
    | MayLoad(requireDelivery: bool)
    | Recheck(m: nat)
    | Holding(m: nat)
    | Using(m: nat, parent: Option<nat>)
    | Leaving

  datatype Why = Alone | BeforeInstall | AfterDefer

  datatype Control =
    | Idle
    | DrainCheck(why: Why) | DrainClaim(why: Why) | DrainTake(why: Why)
    | DrainClose(why: Why, bundle: Bundle) | DrainDone(why: Why)
    | InstallCheck | InstallHandles(b: nat) | InstallParent(b: nat) | InstallDelivery(b: nat)
    | InstallLive(b: nat) | InstallRole(b: nat)
    | CleanDelivery | CleanLive | CleanParent(marker: Option<nat>)
    | CleanHandles(marker: Option<nat>, parent: Option<nat>)
    | Release(bundle: Bundle) | ReleaseClose(bundle: Bundle)
    | DeferCheck(bundle: Bundle) | DeferStore(bundle: Bundle) | DeferReady | DeferAgain
    | CleanRole

  datatype State = State(
    role: Role, delivery: bool, live: Option<nat>, handles: Option<nat>, parent: Option<nat>,
    readers: int, deferred: Bundle, deferredState: DeferredState,
    threads: map<nat, Reader>, control: Control,
    installed: nat, open: set<Part>, closes: seq<Part>, abandoned: seq<Bundle>, asked: map<nat, bool>)

  datatype Call = Install | Retire | Drain | Cleanup

  datatype Action =
    | Enter(t: nat, requireDelivery: bool)
    | Read(t: nat, useParent: bool)
    | Begin(call: Call)
    | Proceed(fails: bool)   // `fails`: an operating-system call of the installation fails

  ghost predicate Init(s: State) {
    && s.role == NoRole && s.live == None && s.handles == None && s.parent == None && s.readers == 0
    && s.deferred == EMPTY && s.deferredState == Nothing && s.control == Idle
    && s.installed == 0 && s.open == {} && s.closes == [] && s.abandoned == []
    && forall t | t in s.threads :: s.threads[t] == Out
  }

  function Goto(s: State, t: nat, r: Reader): State { s.(threads := s.threads[t := r]) }

  function ReadStep(s: State, t: nat, useParent: bool): State
    requires t in s.threads
  {
    match s.threads[t]
    case Out => s
    case In(req) => Goto(s, t, if s.role == Child then RoleSeen(req) else Leaving)
    case RoleSeen(req) => Goto(s, t, if !req || s.delivery then MayLoad(req) else Leaving)
    case MayLoad(req) =>
      Goto(s, t, if s.live == None then Leaving else if req then Recheck(s.live.value) else Holding(s.live.value))
    case Recheck(m) => Goto(s, t, if s.delivery then Holding(m) else Leaving)
    case Holding(m) =>
      if useParent then Goto(s, t, Using(m, s.parent)) else Goto(s.(readers := s.readers - 1), t, Out)
    case Using(m, _) => Goto(s.(readers := s.readers - 1), t, Out)
    case Leaving => Goto(s.(readers := s.readers - 1), t, Out)
  }

  function Parts(b: Bundle): set<Part> {
    (if b.marker.Some? then {Marker(b.marker.value)} else {})
    + (if b.handles.Some? then {Handles(b.handles.value)} else {})
    + (if b.parent.Some? then {Parent(b.parent.value)} else {})
  }

  function PartList(b: Bundle): seq<Part> {
    (if b.marker.Some? then [Marker(b.marker.value)] else [])
    + (if b.handles.Some? then [Handles(b.handles.value)] else [])
    + (if b.parent.Some? then [Parent(b.parent.value)] else [])
  }

  /** CloseChildGuardResources: every non-null part is unmapped or closed. */
  function Close(s: State, b: Bundle): State { s.(open := s.open - Parts(b), closes := s.closes + PartList(b)) }

  /** Where a drain goes on when it reports `ok`. */
  function Drained(why: Why, ok: bool): Control {
    match why
    case Alone => Idle
    case BeforeInstall => if ok then InstallCheck else Idle
    case AfterDefer => CleanRole
  }

  function DrainStep(s: State): State {
    match s.control
    case DrainCheck(why) => s.(control := if s.readers != 0 then Drained(why, false) else DrainClaim(why))
    case DrainClaim(why) =>
      (match s.deferredState
       case Nothing => s.(control := Drained(why, true))
       case Claimed => s.(control := Drained(why, false))
       case Ready => s.(deferredState := Claimed, control := DrainTake(why)))
    case DrainTake(why) => s.(deferred := EMPTY, control := DrainClose(why, s.deferred))
    case DrainClose(why, b) => Close(s, b).(control := DrainDone(why))
    case DrainDone(why) => s.(deferredState := Nothing, control := Drained(why, true))
    case _ => s
  }

  function InstallStep(s: State, fails: bool): State {
    match s.control
    case InstallCheck =>
      if s.role != NoRole || s.live != None || fails then s.(control := Idle)
      else s.(installed := s.installed + 1, open := s.open + Parts(Whole(s.installed)),
              control := InstallHandles(s.installed))
    case InstallHandles(b) => s.(handles := Some(b), control := InstallParent(b))
    case InstallParent(b) => s.(parent := Some(b), control := InstallDelivery(b))
    case InstallDelivery(b) => s.(delivery := true, control := InstallLive(b))
    case InstallLive(b) => s.(live := Some(b), control := InstallRole(b))
    case InstallRole(_) => s.(role := Child, control := Idle)
    case _ => s
  }

  function CleanupStep(s: State): State {
    match s.control
    case CleanDelivery => s.(delivery := false, control := CleanLive)
    case CleanLive => s.(live := None, control := CleanParent(s.live))
    case CleanParent(m) => s.(parent := None, control := CleanHandles(m, s.parent))
    case CleanHandles(m, p) => s.(handles := None, control := Release(Bundle(m, s.handles, p)))
    case Release(b) =>
      if b == EMPTY then s.(control := CleanRole)
      else s.(control := if s.readers == 0 then ReleaseClose(b) else DeferCheck(b))
    case ReleaseClose(b) => Close(s, b).(control := CleanRole)
    case DeferCheck(b) =>
      if s.deferredState != Nothing then s.(abandoned := s.abandoned + [b], control := CleanRole)
      else s.(control := DeferStore(b))
    case DeferStore(b) => s.(deferred := b, control := DeferReady)
    case DeferReady => s.(deferredState := Ready, control := DeferAgain)
    case DeferAgain => s.(control := if s.readers == 0 then DrainCheck(AfterDefer) else CleanRole)
    case CleanRole => s.(role := NoRole, control := Idle)
    case _ => s
  }

  predicate InDrain(c: Control) {
    c.DrainCheck? || c.DrainClaim? || c.DrainTake? || c.DrainClose? || c.DrainDone?
  }

  predicate InInstall(c: Control) {
    c.InstallCheck? || c.InstallHandles? || c.InstallParent? || c.InstallDelivery? || c.InstallLive? || c.InstallRole?
  }

  function Next(s: State, a: Action): State {
    match a
    case Enter(t, req) =>
      if t in s.threads && s.threads[t] == Out
      then Goto(s.(readers := s.readers + 1, asked := s.asked[t := req]), t, In(req)) else s
    case Read(t, useParent) => if t in s.threads then ReadStep(s, t, useParent) else s
    case Begin(call) =>
      if s.control != Idle then s else
      (match call
       case Install => s.(control := DrainCheck(BeforeInstall))
       case Retire => s.(delivery := false)
       case Drain => s.(control := DrainCheck(Alone))
       case Cleanup =>
         if s.role == Child then s.(role := ChildClosing, control := CleanDelivery)
         else s.(control := DrainCheck(Alone)))
    case Proceed(fails) =>
      if InDrain(s.control) then DrainStep(s)
      else if InInstall(s.control) then InstallStep(s, fails)
      else CleanupStep(s)
  }

  function Exec(s: State, acts: seq<Action>): State
    decreases |acts|
  {
    if acts == [] then s else Exec(Next(s, acts[0]), acts[1..])
  }

  // ----- the invariant

  predicate IsCounted(r: Reader) { r != Out }

  function CountedSet(threads: map<nat, Reader>): set<nat> { set t | t in threads && IsCounted(threads[t]) }

  /** No reader has seen the child role and not yet left. */
  ghost predicate Clear(s: State) {
    forall t | t in s.threads :: s.threads[t] == Out || s.threads[t].In? || s.threads[t] == Leaving
  }

  /** The one installed guard whose parts are still open. */
  function Owner(s: State): Option<nat> {
    if s.handles.Some? then s.handles else
    match s.control
    case InstallHandles(b) => Some(b)
    case Release(b) => b.marker
    case ReleaseClose(b) => b.marker
    case DeferCheck(b) => b.marker
    case DeferStore(b) => b.marker
    case DrainClose(_, b) => b.marker
    case _ => s.deferred.marker
  }

  ghost predicate Unpublished(s: State) { s.live == None && s.handles == None && s.parent == None }

  ghost predicate PublishedAs(s: State, b: nat) { s.live == s.handles == s.parent == Some(b) }

  ghost predicate NothingDeferred(s: State) { s.deferredState == Nothing && s.deferred == EMPTY }

  ghost predicate SomethingDeferred(s: State) {
    s.deferredState == Ready && s.deferred.marker.Some? && s.deferred == Whole(s.deferred.marker.value)
  }

  ghost predicate WholeBundle(b: Bundle) { b.marker.Some? && b == Whole(b.marker.value) }

  /** Between control-plane calls: a guard is published and nothing is deferred, or nothing is published. */
  ghost predicate Rest(s: State) {
    || (s.role == Child && s.live.Some? && PublishedAs(s, s.live.value) && NothingDeferred(s))
    || (s.role == NoRole && Unpublished(s) && (NothingDeferred(s) || SomethingDeferred(s)))
  }

  ghost predicate DrainShape(s: State, why: Why) {
    if why == AfterDefer then s.role == ChildClosing && Unpublished(s) else s.role == NoRole && Unpublished(s)
  }

  ghost predicate Shape(s: State) {
    match s.control
    case Idle => Rest(s)
    case DrainCheck(why) => if why == AfterDefer then DrainShape(s, why) && SomethingDeferred(s) else Rest(s)
    case DrainClaim(why) =>
      && (if why == AfterDefer then DrainShape(s, why) && SomethingDeferred(s) else Rest(s))
      && (s.role != Child ==> Clear(s))
    case DrainTake(why) =>
      DrainShape(s, why) && s.deferredState == Claimed && WholeBundle(s.deferred) && Clear(s)
    case DrainClose(why, b) =>
      DrainShape(s, why) && s.deferredState == Claimed && s.deferred == EMPTY && WholeBundle(b) && Clear(s)
    case DrainDone(why) => DrainShape(s, why) && s.deferredState == Claimed && s.deferred == EMPTY && Clear(s)
    case InstallCheck => Rest(s) && NothingDeferred(s) && (s.role == NoRole ==> Clear(s))
    case InstallHandles(_) => s.role == NoRole && Unpublished(s) && NothingDeferred(s) && Clear(s)
    case InstallParent(b) =>
      s.role == NoRole && s.live == None && s.handles == Some(b) && s.parent == None && NothingDeferred(s) && Clear(s)
    case InstallDelivery(b) =>
      s.role == NoRole && s.live == None && s.handles == s.parent == Some(b) && NothingDeferred(s) && Clear(s)
    case InstallLive(b) =>
      s.role == NoRole && s.live == None && s.handles == s.parent == Some(b) && NothingDeferred(s) && Clear(s)
    case InstallRole(b) => s.role == NoRole && PublishedAs(s, b) && NothingDeferred(s) && Clear(s)
    case CleanDelivery => s.role == ChildClosing && s.live.Some? && PublishedAs(s, s.live.value) && NothingDeferred(s)
    case CleanLive => s.role == ChildClosing && s.live.Some? && PublishedAs(s, s.live.value) && NothingDeferred(s)
    case CleanParent(m) =>
      s.role == ChildClosing && m.Some? && s.live == None && s.handles == s.parent == m && NothingDeferred(s)
    case CleanHandles(m, p) =>
      s.role == ChildClosing && m.Some? && s.live == s.parent == None && s.handles == p == m && NothingDeferred(s)
    case Release(b) => s.role == ChildClosing && Unpublished(s) && WholeBundle(b) && NothingDeferred(s)
    case ReleaseClose(b) => s.role == ChildClosing && Unpublished(s) && WholeBundle(b) && NothingDeferred(s) && Clear(s)
    case DeferCheck(b) => s.role == ChildClosing && Unpublished(s) && WholeBundle(b) && NothingDeferred(s)
    case DeferStore(b) => s.role == ChildClosing && Unpublished(s) && WholeBundle(b) && NothingDeferred(s)
    case DeferReady =>
      s.role == ChildClosing && Unpublished(s) && WholeBundle(s.deferred) && s.deferredState == Nothing
    case DeferAgain => s.role == ChildClosing && Unpublished(s) && SomethingDeferred(s)
    case CleanRole => s.role == ChildClosing && Unpublished(s) && (NothingDeferred(s) || SomethingDeferred(s))
  }

  /** A reader past its load holds the owner's marker and, if any, the owner's parent handle. */
  ghost predicate ReaderOk(s: State, r: Reader) {
    match r
    case Recheck(m) => Owner(s) == Some(m)
    case Holding(m) => Owner(s) == Some(m)
    case Using(m, p) => Owner(s) == Some(m) && (p == None || p == Some(m))
    case _ => true
  }

  ghost predicate ReadersOk(s: State) { forall t | t in s.threads :: ReaderOk(s, s.threads[t]) }

  function OwnerParts(o: Option<nat>): set<Part> { if o.Some? then Parts(Whole(o.value)) else {} }

  ghost predicate NoRepeats(closes: seq<Part>) {
    forall i, j :: 0 <= i < j < |closes| ==> closes[i] != closes[j]
  }

  ghost predicate Accounts(s: State) {
    && s.open == OwnerParts(Owner(s))
    && (Owner(s).Some? ==> Owner(s).value < s.installed)
    && NoRepeats(s.closes) && (forall c | c in s.closes :: c.id < s.installed && c !in s.open)
    && (forall c: Part :: c.id < s.installed ==> c in s.open || c in s.closes)
    && s.abandoned == []
  }

  ghost predicate Inv(s: State) {
    && s.readers == |CountedSet(s.threads)|
    && Shape(s) && ReadersOk(s) && Accounts(s)
  }

  // ----- readers

  lemma CountChanges(threads: map<nat, Reader>, t: nat, r: Reader)
    requires t in threads
    ensures |CountedSet(threads[t := r])|
      == |CountedSet(threads)| - (if IsCounted(threads[t]) then 1 else 0) + (if IsCounted(r) then 1 else 0)
  {
    var before, after := CountedSet(threads), CountedSet(threads[t := r]);
    assert before - {t} == after - {t};
    CountDiffers(before, after, t);
  }

  lemma NobodyCounted(s: State)
    requires Inv(s) && s.readers == 0
    ensures forall t | t in s.threads :: s.threads[t] == Out
  {
    assert CountedSet(s.threads) == {};
    forall t | t in s.threads ensures s.threads[t] == Out { assert t !in CountedSet(s.threads); }
  }

  lemma ReadFrame(s: State, t: nat, useParent: bool)
    requires t in s.threads
    ensures var n := ReadStep(s, t, useParent);
      && n == s.(readers := n.readers, threads := n.threads)
      && t in n.threads && n.threads == s.threads[t := n.threads[t]]
      && n.readers - s.readers ==
           (if IsCounted(n.threads[t]) then 1 else 0) - (if IsCounted(s.threads[t]) then 1 else 0)
  {
  }

  /** While no guard is published a reader that has not passed the role test can only leave. */
  lemma ReadLeaves(s: State, t: nat, useParent: bool)
    requires t in s.threads && s.role != Child && Clear(s)
    ensures var n := ReadStep(s, t, useParent);
      t in n.threads && (n.threads[t] == Out || n.threads[t] == Leaving)
  {
  }

  /** What a reader's step may do to it in a state of this shape. */
  lemma ReadMove(s: State, t: nat, useParent: bool)
    requires Inv(s) && t in s.threads
    ensures var n := ReadStep(s, t, useParent);
      && t in n.threads && ReaderOk(s, n.threads[t])
      && (s.role != Child && Clear(s) ==> n.threads[t] == Out || n.threads[t] == Leaving)
  {
    hide Inv, Owner, Clear;
    HeldIsOwned(s, t);
    LiveIsOwned(s);
    if s.role != Child && Clear(s) { ReadLeaves(s, t, useParent); }
  }

  lemma HeldIsOwned(s: State, t: nat)
    requires Inv(s) && t in s.threads
    ensures ReaderOk(s, s.threads[t])
  {
    hide Shape, Accounts, ReaderOk;
  }

  /** The published marker and parent handle are the owner's. */
  lemma LiveIsOwned(s: State)
    requires Inv(s)
    ensures s.live.Some? ==> Owner(s) == s.live
    ensures s.parent.Some? && Owner(s).Some? ==> s.parent == Owner(s)
  {
    hide Accounts, ReadersOk, Clear;
  }

  lemma ReadKeeps(s: State, t: nat, useParent: bool)
    requires Inv(s) && t in s.threads
    ensures Inv(ReadStep(s, t, useParent))
  {
    var n := ReadStep(s, t, useParent);
    ReadFrame(s, t, useParent);
    ReadMove(s, t, useParent);
    hide ReadStep;
    CountChanges(s.threads, t, n.threads[t]);
    ReaderMoveKeeps(s, n, t);
  }

  lemma ReaderMoveKeeps(s: State, n: State, t: nat)
    requires Shape(s) && ReadersOk(s) && Accounts(s) && t in s.threads && t in n.threads
    requires n == s.(readers := n.readers, threads := s.threads[t := n.threads[t]], asked := n.asked)
    requires ReaderOk(s, n.threads[t])
    requires s.role != Child && Clear(s) ==> n.threads[t] == Out || n.threads[t] == Leaving || n.threads[t].In?
    ensures Shape(n) && ReadersOk(n) && Accounts(n)
  {
    assert Owner(n) == Owner(s);
    forall u | u in n.threads ensures ReaderOk(n, n.threads[u]) {
      assert ReaderOk(s, n.threads[u]);
    }
    if s.role != Child && Clear(s) { assert Clear(n); }
  }

  lemma EnterKeeps(s: State, t: nat, req: bool)
    requires Inv(s) && t in s.threads && s.threads[t] == Out
    ensures Inv(Goto(s.(readers := s.readers + 1, asked := s.asked[t := req]), t, In(req)))
  {
    var n := Goto(s.(readers := s.readers + 1, asked := s.asked[t := req]), t, In(req));
    CountChanges(s.threads, t, In(req));
    ReaderMoveKeeps(s, n, t);
  }

  // ----- the control plane

  /** Steps that leave the owner, the readers and the accounts alone. */
  lemma SameOwner(s: State, n: State)
    requires Inv(s) && Shape(n)
    requires n.readers == s.readers && n.threads == s.threads && Owner(n) == Owner(s)
    requires n.installed == s.installed && n.open == s.open && n.closes == s.closes && n.abandoned == s.abandoned
    ensures Inv(n)
  {
    forall t | t in n.threads ensures ReaderOk(n, n.threads[t]) { assert ReaderOk(s, s.threads[t]); }
  }

  /** The accounts after the owner's parts were closed. */
  lemma ClosedAccounts(s: State, b: Bundle, n: State)
    requires Accounts(s) && WholeBundle(b) && Owner(s) == b.marker && Owner(n) == None
    requires n.open == s.open - Parts(b) && n.closes == s.closes + PartList(b)
    requires n.installed == s.installed && n.abandoned == s.abandoned
    ensures Accounts(n)
  {
    var id := b.marker.value;
    assert PartList(b) == [Marker(id), Handles(id), Parent(id)];
    assert Parts(b) == {Marker(id), Handles(id), Parent(id)} == s.open;
    assert n.open == {};
    ClosesGrow(s.closes, id);
    hide Parts, PartList, Owner, NoRepeats;
    forall p: Part | p.id < n.installed ensures p in n.closes {
      if p !in s.closes { assert p in s.open; }
    }
  }

  lemma ClosesGrow(closes: seq<Part>, id: nat)
    requires NoRepeats(closes)
    requires Marker(id) !in closes && Handles(id) !in closes && Parent(id) !in closes
    ensures NoRepeats(closes + [Marker(id), Handles(id), Parent(id)])
  {
    var n := closes + [Marker(id), Handles(id), Parent(id)];
    forall i, j | 0 <= i < j < |n| ensures n[i] != n[j] {
      if i < |closes| && j >= |closes| { assert closes[i] in closes; }
    }
  }

  /** Closing the owner's parts while no reader can hold them. */
  lemma CloseKeeps(s: State, b: Bundle, c: Control)
    requires Inv(s) && Clear(s) && WholeBundle(b) && Owner(s) == b.marker && Shape(Close(s, b).(control := c))
    requires Owner(Close(s, b).(control := c)) == None
    ensures Inv(Close(s, b).(control := c))
  {
    var n := Close(s, b).(control := c);
    hide Shape, Accounts, Parts, PartList;
    ClosedAccounts(s, b, n);
    forall t | t in n.threads ensures ReaderOk(n, n.threads[t]) {}
  }

  lemma DrainCheckKeeps(s: State)
    requires Inv(s) && s.control.DrainCheck?
    ensures Inv(DrainStep(s))
  {
    if s.readers == 0 { NobodyCounted(s); }
    SameOwner(s, DrainStep(s));
  }

  lemma DrainClaimShape(s: State)
    requires Shape(s) && s.control.DrainClaim?
    ensures Shape(DrainStep(s)) && Owner(DrainStep(s)) == Owner(s)
  {
  }

  lemma DrainClaimKeeps(s: State)
    requires Inv(s) && s.control.DrainClaim?
    ensures Inv(DrainStep(s))
  {
    hide Shape, Owner, Accounts, ReadersOk;
    DrainClaimShape(s);
    SameOwner(s, DrainStep(s));
  }

  lemma DrainTakeKeeps(s: State)
    requires Inv(s) && s.control.DrainTake?
    ensures Inv(DrainStep(s))
  {
    hide Accounts, ReadersOk;
    SameOwner(s, DrainStep(s));
  }

  lemma DrainDoneKeeps(s: State)
    requires Inv(s) && s.control.DrainDone?
    ensures Inv(DrainStep(s))
  {
    hide Accounts, ReadersOk;
    SameOwner(s, DrainStep(s));
  }

  lemma DrainCloseKeeps(s: State)
    requires Inv(s) && s.control.DrainClose?
    ensures Inv(DrainStep(s))
  {
    CloseKeeps(s, s.control.bundle, DrainDone(s.control.why));
  }

  lemma DrainKeeps(s: State)
    requires Inv(s) && InDrain(s.control)
    ensures Inv(DrainStep(s))
  {
    match s.control
    case DrainCheck(_) => DrainCheckKeeps(s);
    case DrainClaim(_) => DrainClaimKeeps(s);
    case DrainTake(_) => DrainTakeKeeps(s);
    case DrainClose(_, _) => DrainCloseKeeps(s);
    case DrainDone(_) => DrainDoneKeeps(s);
  }

  /** A new guard, while nothing is published or deferred and no reader is past the role test. */
  lemma FreshGuardAccounts(s: State, n: State)
    requires Accounts(s) && Owner(s) == None && Owner(n) == Some(s.installed)
    requires n.installed == s.installed + 1 && n.open == s.open + Parts(Whole(s.installed))
    requires n.closes == s.closes && n.abandoned == s.abandoned
    ensures Accounts(n)
  {
    assert s.open == {};
    forall p: Part | p.id < n.installed ensures p in n.open || p in n.closes {
      if p.id < s.installed { assert p in s.closes; }
    }
  }

  lemma FreshGuardReaders(s: State, n: State)
    requires Clear(s) && n.threads == s.threads
    ensures Clear(n) && ReadersOk(n)
  {
    forall t | t in n.threads ensures ReaderOk(n, n.threads[t]) {}
  }

  lemma InstallMapsKeeps(s: State)
    requires Inv(s) && s.control == InstallCheck && InstallStep(s, false).control != Idle
    ensures Inv(InstallStep(s, false))
  {
    var n := InstallStep(s, false);
    hide NoRepeats, ReadersOk, Clear, Accounts;
    InstallMapsShape(s);
    FreshGuardReaders(s, n);
    hide Shape;
    FreshGuardAccounts(s, n);
  }

  lemma InstallMapsShape(s: State)
    requires Inv(s) && s.control == InstallCheck && InstallStep(s, false).control != Idle
    ensures var n := InstallStep(s, false);
      Clear(s) && Owner(s) == None && Owner(n) == Some(s.installed) && (Clear(n) ==> Shape(n))
  {
    hide Accounts, ReadersOk, Clear;
  }

  lemma InstallCheckKeeps(s: State, fails: bool)
    requires Inv(s) && s.control == InstallCheck
    ensures Inv(InstallStep(s, fails))
  {
    var n := InstallStep(s, fails);
    hide Accounts, ReadersOk, Clear;
    if n.control != Idle { InstallMapsKeeps(s); } else { SameOwner(s, n); }
  }

  lemma InstallStoreKeeps(s: State)
    requires Inv(s) && (s.control.InstallHandles? || s.control.InstallParent?)
    ensures Inv(InstallStep(s, false))
  {
    hide Accounts, ReadersOk;
    SameOwner(s, InstallStep(s, false));
  }

  lemma InstallPublishKeeps(s: State)
    requires Inv(s) && (s.control.InstallDelivery? || s.control.InstallLive? || s.control.InstallRole?)
    ensures Inv(InstallStep(s, false))
  {
    hide Accounts, ReadersOk;
    SameOwner(s, InstallStep(s, false));
  }

  lemma InstallKeeps(s: State, fails: bool)
    requires Inv(s) && InInstall(s.control)
    ensures Inv(InstallStep(s, fails))
  {
    match s.control
    case InstallCheck => InstallCheckKeeps(s, fails);
    case InstallHandles(_) => InstallStoreKeeps(s);
    case InstallParent(_) => InstallStoreKeeps(s);
    case InstallDelivery(_) => InstallPublishKeeps(s);
    case InstallLive(_) => InstallPublishKeeps(s);
    case InstallRole(_) => InstallPublishKeeps(s);
  }

  lemma UnpublishKeeps(s: State)
    requires Inv(s)
    requires var c := s.control; c.CleanDelivery? || c.CleanLive? || c.CleanParent? || c.CleanHandles?
    ensures Inv(CleanupStep(s))
  {
    hide Accounts, ReadersOk;
    SameOwner(s, CleanupStep(s));
  }

  lemma ReleaseKeeps(s: State)
    requires Inv(s) && (s.control.Release? || s.control.ReleaseClose?)
    ensures Inv(CleanupStep(s))
  {
    hide Accounts, ReadersOk, NoRepeats;
    if s.control.ReleaseClose? {
      CloseKeeps(s, s.control.bundle, CleanRole);
    } else {
      if s.readers == 0 { NobodyCounted(s); }
      SameOwner(s, CleanupStep(s));
    }
  }

  lemma DeferReadyKeeps(s: State)
    requires Inv(s) && s.control.DeferReady?
    ensures Inv(CleanupStep(s))
  {
    hide Accounts, ReadersOk, Clear;
    SameOwner(s, CleanupStep(s));
  }

  lemma DeferStoreKeeps(s: State)
    requires Inv(s) && s.control.DeferStore?
    ensures Inv(CleanupStep(s))
  {
    hide Accounts, ReadersOk, Clear;
    SameOwner(s, CleanupStep(s));
  }

  lemma DeferKeeps(s: State)
    requires Inv(s) && (s.control.DeferCheck? || s.control.DeferStore? || s.control.DeferReady?)
    ensures Inv(CleanupStep(s))
    ensures CleanupStep(s).abandoned == []
  {
    if s.control.DeferReady? {
      DeferReadyKeeps(s);
    } else if s.control.DeferStore? {
      DeferStoreKeeps(s);
    } else {
      hide ReadersOk, Clear;
      assert s.abandoned == [];
      hide Accounts;
      SameOwner(s, CleanupStep(s));
    }
  }

  lemma CleanupEndKeeps(s: State)
    requires Inv(s) && (s.control.DeferAgain? || s.control.CleanRole? || s.control.Idle?)
    ensures Inv(CleanupStep(s))
  {
    hide Accounts, ReadersOk;
    SameOwner(s, CleanupStep(s));
  }

  lemma CleanupKeeps(s: State)
    requires Inv(s) && !InDrain(s.control) && !InInstall(s.control)
    ensures Inv(CleanupStep(s))
  {
    var c := s.control;
    if c.CleanDelivery? || c.CleanLive? || c.CleanParent? || c.CleanHandles? { UnpublishKeeps(s); }
    else if c.Release? || c.ReleaseClose? { ReleaseKeeps(s); }
    else if c.DeferCheck? || c.DeferStore? || c.DeferReady? { DeferKeeps(s); }
    else { CleanupEndKeeps(s); }
  }

  lemma BeginKeeps(s: State, call: Call)
    requires Inv(s) && s.control == Idle
    ensures Inv(Next(s, Begin(call)))
  {
    hide Accounts, ReadersOk;
    SameOwner(s, Next(s, Begin(call)));
  }

  lemma NextKeeps(s: State, a: Action)
    requires Inv(s)
    ensures Inv(Next(s, a))
  {
    match a
    case Enter(t, req) => if t in s.threads && s.threads[t] == Out { EnterKeeps(s, t, req); }
    case Read(t, useParent) => if t in s.threads { ReadKeeps(s, t, useParent); }
    case Begin(call) => if s.control == Idle { BeginKeeps(s, call); }
    case Proceed(fails) =>
      if InDrain(s.control) { DrainKeeps(s); }
      else if InInstall(s.control) { InstallKeeps(s, fails); }
      else { CleanupKeeps(s); }
  }

  lemma {:induction false} ExecKeeps(s: State, acts: seq<Action>)
    requires Inv(s)
    ensures Inv(Exec(s, acts))
    decreases |acts|
  {
    if acts != [] {
      NextKeeps(s, acts[0]);
      ExecKeeps(Next(s, acts[0]), acts[1..]);
    }
  }

  // ----- main results, over every interleaving

  /** What a reader holds between acquire and release is mapped, and the parent handle it uses is the
      open one of the same installation. */
  ghost predicate ReaderSafe(s: State, r: Reader) {
    && (r.Holding? || r.Using? ==> Marker(r.m) in s.open)
    && (r.Using? && r.parent.Some? ==> r.parent.value == r.m && Parent(r.m) in s.open)
  }

  lemma ReadersAreSafe(s: State, acts: seq<Action>)
    requires Init(s)
    ensures var n := Exec(s, acts); forall t | t in n.threads :: ReaderSafe(n, n.threads[t])
  {
    assert CountedSet(s.threads) == {};
    ExecKeeps(s, acts);
    var n := Exec(s, acts);
    forall t | t in n.threads ensures ReaderSafe(n, n.threads[t]) { assert ReaderOk(n, n.threads[t]); }
  }

  /** Every part of every installed guard is open or was closed, never both and never closed twice;
      nothing is abandoned, so the branch that leaks a bundle is never taken. */
  lemma ClosedOnceNeverAbandoned(s: State, acts: seq<Action>)
    requires Init(s)
    ensures var n := Exec(s, acts);
      && n.abandoned == [] && NoRepeats(n.closes)
      && (forall c: Part :: c.id < n.installed ==> (c in n.open <==> c !in n.closes))
  {
    assert CountedSet(s.threads) == {};
    ExecKeeps(s, acts);
  }

  /** A whole drain call. */
  const DRAIN: seq<Action> :=
    [Begin(Drain), Proceed(false), Proceed(false), Proceed(false), Proceed(false), Proceed(false)]

  /** At rest with no reader counted, a drain leaves at most the published guard open. */
  lemma DrainReclaims(s: State, acts: seq<Action>)
    requires Init(s) && Exec(s, acts).control == Idle && Exec(s, acts).readers == 0
    ensures var n := Exec(s, acts + DRAIN);
      n.role == NoRole ==> n.open == {}
  {
    assert CountedSet(s.threads) == {};
    ExecConcat(s, acts, DRAIN);
    ExecKeeps(s, acts);
    DrainRuns(Exec(s, acts));
  }

  lemma Unfold(s: State, a: Action, acts: seq<Action>)
    ensures Exec(s, [a] + acts) == Exec(Next(s, a), acts)
  {
    assert ([a] + acts)[1..] == acts;
  }

  lemma DrainRuns(s: State)
    requires Inv(s) && s.control == Idle && s.readers == 0
    ensures var n := Exec(s, DRAIN);
      n.role == NoRole ==> n.open == {}
  {
    var p := Proceed(false);
    var acts := [Begin(Drain), p, p, p, p, p];
    var s2 := Next(Next(s, Begin(Drain)), p);
    assert s2 == s.(control := DrainClaim(Alone));
    var s4 := Next(Next(s2, p), p);
    var s6 := Next(Next(s4, p), p);
    DrainEnds(s, s2, s4, s6);
    ExecKeeps(s, acts);
    assert acts == [Begin(Drain)] + ([p] + ([p] + ([p] + ([p] + ([p] + [])))));
    Unfold(s, Begin(Drain), [p] + ([p] + ([p] + ([p] + ([p] + [])))));
    Unfold(Next(s, Begin(Drain)), p, [p] + ([p] + ([p] + ([p] + []))));
    Unfold(s2, p, [p] + ([p] + ([p] + [])));
    Unfold(Next(s2, p), p, [p] + ([p] + []));
    Unfold(s4, p, [p] + []);
    Unfold(Next(s4, p), p, []);
  }

  lemma DrainEnds(s: State, s2: State, s4: State, s6: State)
    requires s.control == Idle && (NothingDeferred(s) || SomethingDeferred(s)) && s2 == s.(control := DrainClaim(Alone))
    requires s4 == Next(Next(s2, Proceed(false)), Proceed(false))
    requires s6 == Next(Next(s4, Proceed(false)), Proceed(false))
    ensures s6.control == Idle && s6.role == s.role && s6.handles == s.handles && s6.deferred == EMPTY
  {
    var p := Proceed(false);
    if NothingDeferred(s) {
      assert Next(s2, p) == s;
      assert Next(s, p) == s;
    } else {
      var s3 := s.(deferredState := Claimed, control := DrainTake(Alone));
      assert Next(s2, p) == s3;
      assert s4 == s3.(deferred := EMPTY, control := DrainClose(Alone, s.deferred));
      assert Next(s4, p) == Close(s4, s.deferred).(control := DrainDone(Alone));
    }
  }

  lemma {:induction false} ExecConcat(s: State, before: seq<Action>, after: seq<Action>)
    ensures Exec(s, before + after) == Exec(Exec(s, before), after)
    decreases |before|
  {
    if before == [] {
      assert before + after == after;
    } else {
      assert (before + after)[1..] == before[1..] + after;
      ExecConcat(Next(s, before[0]), before[1..], after);
    }
  }
}
