/**
 The gate between a Direct3D device reset and the overlay backend drawing on that device.
 Devices and threads are non-null pointers and identifiers in the source; 0 stands for none.
 Epochs are 32-bit and compared modulo 2^32.
 */
module ResetGate {
  import opened Basics

  const HALF: int := 0x8000_0000

  datatype Phase = Idle | Pending | BackendInvalidated

  datatype Result = Ok | InvalidArgument | WrongThread | Busy

  datatype Gate = Gate(
    boundDevice: nat, ownerThread: Word, resetDevice: nat, resetThread: Word, epoch: Word, phase: Phase)
  {
    predicate IsResetPending() { phase != Idle }

    predicate PendingFor(device: nat) { IsResetPending() && resetDevice == device }

    predicate CanRender(device: nat, thread: Word) {
      device != 0 && thread != 0 && !PendingFor(device) && (boundDevice == 0 || ownerThread == thread)
    }

    /** The phase once the backend that was invalidated is no longer the bound one. */
    function Forget(): Phase { if phase == BackendInvalidated then Pending else phase }

    /** Serial-number order: `e` is behind the epoch on record. */
    predicate Stale(e: Word) { e != epoch && (e - epoch) % WORD >= HALF }

    function BeforeResult(device: nat, e: Word, thread: Word): Result {
      if device == 0 || e == 0 || thread == 0 then InvalidArgument
      else if boundDevice == device && ownerThread != thread then WrongThread
      else if IsResetPending() && resetDevice != device then Busy
      else if IsResetPending() && resetThread != thread then WrongThread
      else if IsResetPending() && Stale(e) then InvalidArgument
      else Ok
    }

    function AfterResult(device: nat, e: Word, thread: Word, ready: Word): Result {
      if device == 0 || e == 0 || thread == 0 || ready > 1 || !PendingFor(device) || epoch != e then InvalidArgument
      else if resetThread != thread || (boundDevice == device && ownerThread != thread) then WrongThread
      else if ready == 1 && boundDevice == device && phase != BackendInvalidated then Busy
      else Ok
    }
  }

  const INITIAL: Gate := Gate(0, 0, 0, 0, 0, Idle)

  datatype Call =
    | Bind(device: nat, thread: Word)
    | Unbind
    | Before(device: nat, epoch: Word, thread: Word)
    | DidInvalidate
    | After(device: nat, epoch: Word, thread: Word, ready: Word)

  /** The state a call leaves behind. */
  function Step(g: Gate, c: Call): Gate {
    match c
    case Bind(d, t) => if g.CanRender(d, t) then g.(boundDevice := d, ownerThread := t, phase := g.Forget()) else g
    case Unbind => g.(boundDevice := 0, ownerThread := 0, phase := g.Forget())
    case Before(d, e, t) =>
      if g.BeforeResult(d, e, t) == Ok
      then g.(phase := if g.phase == Idle then Pending else g.phase, resetDevice := d, resetThread := t, epoch := e)
      else g
    case DidInvalidate =>
      if g.PendingFor(g.boundDevice) then g.(phase := BackendInvalidated) else g
    case After(d, e, t, ready) =>
      if g.AfterResult(d, e, t, ready) == Ok && ready == 1
      then g.(phase := Idle, resetDevice := 0, resetThread := 0, epoch := 0)
      else g
  }

  /** The object the overlay holds; each method runs under the try-acquired access flag. */
  class EfzOverlayResetGate {
    var boundDevice: nat
    var ownerThread: Word
    var resetDevice: nat
    var resetThread: Word
    var epoch: Word
    var phase: Phase

    function View(): Gate
      reads this
    {
      Gate(boundDevice, ownerThread, resetDevice, resetThread, epoch, phase)
    }

    constructor ()
      ensures View() == INITIAL
    {
      boundDevice, ownerThread, resetDevice, resetThread, epoch, phase := 0, 0, 0, 0, 0, Idle;
    }

    method BindBackend(device: nat, thread: Word) returns (bound: bool)
      modifies this
      ensures bound <==> old(View().CanRender(device, thread))
      ensures View() == Step(old(View()), Bind(device, thread))
    {
      if !View().CanRender(device, thread) { return false; }
      boundDevice := device;
      ownerThread := thread;
      if phase == BackendInvalidated { phase := Pending; }
      return true;
    }

    method UnbindBackend()
      modifies this
      ensures View() == Step(old(View()), Unbind)
    {
      boundDevice := 0;
      ownerThread := 0;
      if phase == BackendInvalidated { phase := Pending; }
    }

    method BeforeReset(device: nat, e: Word, thread: Word) returns (r: Result, invalidate: bool)
      modifies this
      ensures r == old(View().BeforeResult(device, e, thread))
      ensures View() == Step(old(View()), Before(device, e, thread))
      ensures invalidate <==> r == Ok && boundDevice == device && phase != BackendInvalidated
    {
      invalidate := false;
      if device == 0 || e == 0 || thread == 0 { return InvalidArgument, false; }
      if boundDevice == device && ownerThread != thread { return WrongThread, false; }
      if phase != Idle {
        if resetDevice != device { return Busy, false; }
        if resetThread != thread { return WrongThread, false; }
        if e != epoch && (e - epoch) % WORD > 0x7fff_ffff { return InvalidArgument, false; }
      }
      if phase == Idle { phase := Pending; }
      resetDevice := device;
      resetThread := thread;
      epoch := e;
      invalidate := boundDevice == device && phase != BackendInvalidated;
      return Ok, invalidate;
    }

    method DidInvalidateBackend()
      modifies this
      ensures View() == Step(old(View()), DidInvalidate)
    {
      if phase != Idle && boundDevice == resetDevice { phase := BackendInvalidated; }
    }

    method AfterReset(device: nat, e: Word, thread: Word, ready: Word) returns (r: Result)
      modifies this
      ensures r == old(View().AfterResult(device, e, thread, ready))
      ensures View() == Step(old(View()), After(device, e, thread, ready))
    {
      if device == 0 || e == 0 || thread == 0 || ready > 1 || phase == Idle || resetDevice != device || epoch != e {
        return InvalidArgument;
      }
      if resetThread != thread || (boundDevice == device && ownerThread != thread) { return WrongThread; }
      if ready != 0 && boundDevice == device && phase != BackendInvalidated { return Busy; }
      if ready != 0 {
        phase := Idle;
        resetDevice := 0;
        resetThread := 0;
        epoch := 0;
      }
      return Ok;
    }
  }

  // ----- runs

  /** The gate after the first `n` calls. */
  function GateAt(calls: seq<Call>, n: nat): Gate
    requires n <= |calls|
  {
    if n == 0 then INITIAL else Step(GateAt(calls, n - 1), calls[n - 1])
  }

  predicate AcceptedAt(calls: seq<Call>, i: nat)
    requires i < |calls|
  {
    var c := calls[i];
    c.Before? && GateAt(calls, i).BeforeResult(c.device, c.epoch, c.thread) == Ok
  }

  predicate CompletedAt(calls: seq<Call>, i: nat)
    requires i < |calls|
  {
    var c := calls[i];
    c.After? && c.ready == 1 && GateAt(calls, i).AfterResult(c.device, c.epoch, c.thread, c.ready) == Ok
  }

  predicate RebindsAt(calls: seq<Call>, i: nat)
    requires i < |calls|
  {
    calls[i].Unbind? || (calls[i].Bind? && GateAt(calls, i).CanRender(calls[i].device, calls[i].thread))
  }

  /** Call `j` is the last accepted request before point `n`, and no completion came between. */
  ghost predicate OpenRequest(calls: seq<Call>, n: nat, j: nat)
    requires n <= |calls|
  {
    j < n && AcceptedAt(calls, j) && forall m :: j < m < n ==> !AcceptedAt(calls, m) && !CompletedAt(calls, m)
  }

  /** The backend of `device` was reported invalidated at call `k` and has stayed bound since. */
  ghost predicate InvalidatedSince(calls: seq<Call>, n: nat, k: nat, device: nat)
    requires n <= |calls|
  {
    && k < n && calls[k].DidInvalidate? && GateAt(calls, k).boundDevice == device
    && GateAt(calls, k).PendingFor(device)
    && forall m :: k < m < n ==> !RebindsAt(calls, m) && !CompletedAt(calls, m)
  }

  /** The last request still open before point `n` asked for this device, epoch and thread. */
  ghost predicate Requested(calls: seq<Call>, n: nat, device: nat, e: Word, thread: Word)
    requires n <= |calls|
  {
    exists j: nat :: OpenRequest(calls, n, j) && calls[j] == Before(device, e, thread)
  }

  ghost predicate BackendReleased(calls: seq<Call>, n: nat, device: nat)
    requires n <= |calls|
  {
    exists k: nat :: InvalidatedSince(calls, n, k, device)
  }

  ghost predicate GoodAt(calls: seq<Call>, n: nat)
    requires n <= |calls|
  {
    var g := GateAt(calls, n);
    && (g.IsResetPending() ==> Requested(calls, n, g.resetDevice, g.epoch, g.resetThread))
    && (g.IsResetPending() ==> g.resetDevice != 0 && g.resetThread != 0 && g.epoch != 0)
    && (g.phase == BackendInvalidated ==>
         g.boundDevice == g.resetDevice && BackendReleased(calls, n, g.resetDevice))
  }

  lemma RequestStays(calls: seq<Call>, n: nat)
    requires n < |calls| && GoodAt(calls, n) && GateAt(calls, n + 1).IsResetPending()
    ensures var g := GateAt(calls, n + 1); Requested(calls, n + 1, g.resetDevice, g.epoch, g.resetThread)
  {
    var g, h := GateAt(calls, n), GateAt(calls, n + 1);
    if AcceptedAt(calls, n) {
      assert OpenRequest(calls, n + 1, n);
    } else {
      assert g.IsResetPending() && !CompletedAt(calls, n);
      var j: nat :| OpenRequest(calls, n, j) && calls[j] == Before(g.resetDevice, g.epoch, g.resetThread);
      assert OpenRequest(calls, n + 1, j);
    }
  }

  lemma InvalidationStays(calls: seq<Call>, n: nat)
    requires n < |calls| && GoodAt(calls, n) && GateAt(calls, n + 1).phase == BackendInvalidated
    ensures var g := GateAt(calls, n + 1);
      g.boundDevice == g.resetDevice && BackendReleased(calls, n + 1, g.resetDevice)
  {
    var g, h := GateAt(calls, n), GateAt(calls, n + 1);
    if calls[n].DidInvalidate? && g.PendingFor(g.boundDevice) {
      assert InvalidatedSince(calls, n + 1, n, h.resetDevice);
    } else {
      assert g.phase == BackendInvalidated && !RebindsAt(calls, n) && !CompletedAt(calls, n);
      var k: nat :| InvalidatedSince(calls, n, k, g.resetDevice);
      assert InvalidatedSince(calls, n + 1, k, h.resetDevice);
    }
  }

  lemma {:induction false} RunIsGood(calls: seq<Call>, n: nat)
    requires n <= |calls|
    ensures GoodAt(calls, n)
  {
    if n > 0 {
      RunIsGood(calls, n - 1);
      if GateAt(calls, n).IsResetPending() { RequestStays(calls, n - 1); }
      if GateAt(calls, n).phase == BackendInvalidated { InvalidationStays(calls, n - 1); }
    }
  }

  /** Over any run an invalidated backend is the bound one and belongs to the resetting device. */
  lemma InvalidatedIsBound(calls: seq<Call>, n: nat)
    requires n <= |calls| && GateAt(calls, n).phase == BackendInvalidated
    ensures GateAt(calls, n).boundDevice == GateAt(calls, n).resetDevice != 0
  {
    RunIsGood(calls, n);
  }

  /** A ready completion answers the last accepted request, and if that device is still bound its
      backend was invalidated after the request's device began resetting and not rebound since. */
  lemma CompletionIsEarned(calls: seq<Call>, n: nat)
    requires n < |calls| && CompletedAt(calls, n)
    ensures Requested(calls, n, calls[n].device, calls[n].epoch, calls[n].thread)
    ensures GateAt(calls, n).boundDevice == calls[n].device ==> BackendReleased(calls, n, calls[n].device)
    ensures !GateAt(calls, n + 1).IsResetPending()
  {
    RunIsGood(calls, n);
  }

  /** Only a ready completion returns the gate to idle, and until then the device, its thread and the
      ban on binding that device stay. */
  lemma {:induction false} PendingHolds(calls: seq<Call>, i: nat, n: nat)
    requires i <= n <= |calls| && GateAt(calls, i).IsResetPending()
    requires forall m :: i <= m < n ==> !CompletedAt(calls, m)
    ensures var g, h := GateAt(calls, i), GateAt(calls, n);
      && h.IsResetPending() && h.resetDevice == g.resetDevice && h.resetThread == g.resetThread
      && (forall t: Word :: !h.CanRender(g.resetDevice, t))
      && (g.boundDevice != g.resetDevice ==> h.boundDevice != h.resetDevice)
  {
    RunIsGood(calls, i);
    if i < n {
      PendingHolds(calls, i, n - 1);
      assert !CompletedAt(calls, n - 1);
    }
  }

  /** Within one pending reset an accepted epoch never moves back in 32-bit serial order. */
  lemma AcceptedEpochMovesForward(g: Gate, c: Call)
    requires c.Before? && g.IsResetPending() && g.BeforeResult(c.device, c.epoch, c.thread) == Ok
    ensures (Step(g, c).epoch - g.epoch) % WORD < HALF
  {
    if c.epoch == g.epoch { assert (c.epoch - g.epoch) % WORD == 0; }
  }
}
