/**
 What the calls of the reset gate decide and what a whole device reset does: who may draw, whose requests and
 completions are accepted and why the others are refused, and which backend is bound after any run.
 */
module GateLaws {
  import opened Basics
  import opened ResetGate

  // ----- serial numbers

  /** A stale epoch lies up to 2^31 behind the one on record, across the wrap. */
  lemma StaleIsBehind(g: Gate, e: Word)
    ensures g.Stale(e) <==> exists k: nat :: 0 < k <= 0x8000_0000 && Later(e, k) == g.epoch
  {
    if g.Stale(e) {
      var k := (g.epoch - e) % WORD;
      assert Later(e, k) == g.epoch;
    }
    if k: nat :| 0 < k <= 0x8000_0000 && Later(e, k) == g.epoch {
      assert e + k == g.epoch || e + k == g.epoch + WORD;
    }
  }

  function Later(e: Word, k: nat): Word { (e + k) % WORD }

  // ----- who may draw

  predicate Resetting(g: Gate, device: nat) { g.phase != Idle && g.resetDevice == device }

  /** A device may be drawn on and bound exactly when it is one, it is not being reset, and no other thread owns the
      backend; a null device or thread never may. */
  lemma DrawsExactlyWhen(g: Gate, device: nat, thread: Word)
    ensures !g.CanRender(0, thread) && !g.CanRender(device, 0)
    ensures device > 0 && thread > 0 ==>
              (g.CanRender(device, thread) <==>
                 !Resetting(g, device) && (g.boundDevice != 0 ==> g.ownerThread == thread))
  {
  }

  /** Binding takes the device for its thread, unbinding leaves none; an invalidation is forgotten by both, and the
      reset on record is not. */
  lemma BindingMoves(g: Gate, device: nat, thread: Word)
    ensures var b := Step(g, Bind(device, thread)); var u := Step(g, Unbind);
      && (if g.CanRender(device, thread) then b.boundDevice == device && b.ownerThread == thread else b == g)
      && u.boundDevice == 0 && u.ownerThread == 0
      && (g.CanRender(device, thread) ==> (b.phase == Idle <==> g.phase == Idle) && b.phase != BackendInvalidated)
      && (u.phase == Idle <==> g.phase == Idle) && u.phase != BackendInvalidated
      && b == g.(boundDevice := b.boundDevice, ownerThread := b.ownerThread, phase := b.phase)
      && u == g.(boundDevice := 0, ownerThread := 0, phase := u.phase)
  {
  }

  // ----- requests and completions

  /** The backend of this device belongs to another thread. */
  predicate OwnedElsewhere(g: Gate, device: nat, thread: Word) { g.boundDevice == device && g.ownerThread != thread }

  predicate Null(device: nat, e: Word, thread: Word) { device == 0 || e == 0 || thread == 0 }

  /** A request is accepted exactly when nothing is null, its thread owns the device's backend if that is bound, and a
      reset under way is of the same device and thread and not ahead of it; each refusal has its reason. */
  lemma RequestsExactlyWhen(g: Gate, device: nat, e: Word, thread: Word)
    ensures var r := g.BeforeResult(device, e, thread);
      && (r == Ok <==>
            && !Null(device, e, thread) && !OwnedElsewhere(g, device, thread)
            && (g.phase != Idle ==> g.resetDevice == device && g.resetThread == thread && !g.Stale(e)))
      && (r == Busy <==>
            && !Null(device, e, thread) && !OwnedElsewhere(g, device, thread)
            && g.phase != Idle && g.resetDevice != device)
      && (r == WrongThread <==>
            && !Null(device, e, thread)
            && (OwnedElsewhere(g, device, thread) || (Resetting(g, device) && g.resetThread != thread)))
      && (Null(device, e, thread) ==> r == InvalidArgument)
  {
  }

  /** An accepted request is the reset on record, under way; any other changes nothing. */
  lemma RequestsAreRecorded(g: Gate, device: nat, e: Word, thread: Word)
    ensures var n := Step(g, Before(device, e, thread));
      if g.BeforeResult(device, e, thread) != Ok then n == g
      else n == Gate(g.boundDevice, g.ownerThread, device, thread, e, if g.phase == Idle then Pending else g.phase)
  {
  }

  /** An invalidation counts exactly while the bound device is the one being reset. */
  lemma InvalidationsCount(g: Gate)
    ensures Step(g, DidInvalidate) ==
            if Resetting(g, g.boundDevice) then g.(phase := BackendInvalidated) else g
  {
  }

  /** A completion is accepted exactly for the reset on record, from its thread and the owner of its backend, and when
      it is ready only with that backend invalidated; each refusal has its reason. */
  lemma CompletionsExactlyWhen(g: Gate, device: nat, e: Word, thread: Word, ready: Word)
    ensures var r := g.AfterResult(device, e, thread, ready);
      var asked := !Null(device, e, thread) && ready in {0, 1} && Resetting(g, device) && g.epoch == e;
      var allowed := g.resetThread == thread && !OwnedElsewhere(g, device, thread);
      var held := ready == 1 && g.boundDevice == device && g.phase == Pending;
      && (r == InvalidArgument <==> !asked)
      && (r == WrongThread <==> asked && !allowed)
      && (r == Busy <==> asked && allowed && held)
      && (r == Ok <==> asked && allowed && !held)
  {
  }

  /** A ready completion that is accepted clears the reset and keeps the backend; any other changes nothing. */
  lemma CompletionsClear(g: Gate, device: nat, e: Word, thread: Word, ready: Word)
    ensures Step(g, After(device, e, thread, ready)) ==
      if g.AfterResult(device, e, thread, ready) == Ok && ready == 1
      then Gate(g.boundDevice, g.ownerThread, 0, 0, 0, Idle) else g
  {
  }

  /** A whole reset by the thread that may ask for it: request, invalidation, completion. It is accepted at each stage,
      nobody can draw on the device in between, and afterwards the gate is as before. */
  lemma WholeReset(g: Gate, device: nat, e: Word, thread: Word)
    requires g.phase == Idle && g.resetDevice == 0 && g.resetThread == 0 && g.epoch == 0
    requires !Null(device, e, thread) && !OwnedElsewhere(g, device, thread)
    ensures g.BeforeResult(device, e, thread) == Ok
    ensures var a := Step(g, Before(device, e, thread)); var b := Step(a, DidInvalidate);
      && (forall t: Word :: !a.CanRender(device, t) && !b.CanRender(device, t))
      && (g.boundDevice == device <==> a.AfterResult(device, e, thread, 1) == Busy)
      && b.AfterResult(device, e, thread, 1) == Ok
      && Step(b, After(device, e, thread, 1)) == g
  {
  }

  // ----- which backend is bound

  /** Call `j` bound this device for this thread, and nothing was bound or unbound since. */
  ghost predicate BoundSince(calls: seq<Call>, n: nat, j: nat, device: nat, thread: Word)
    requires n <= |calls|
  {
    && j < n && RebindsAt(calls, j) && calls[j] == Bind(device, thread)
    && forall m :: j < m < n ==> !RebindsAt(calls, m)
  }

  /** Since call `j`, or since the start, nothing is bound. */
  ghost predicate FreeSince(calls: seq<Call>, n: nat)
    requires n <= |calls|
  {
    || (forall m :: 0 <= m < n ==> !RebindsAt(calls, m))
    || exists j: nat :: j < n && calls[j].Unbind? && forall m :: j < m < n ==> !RebindsAt(calls, m)
  }

  /** After any run the bound device and its owner are those of the last bind that was granted, unless an unbind came
      after it; then, and before the first, there is none. */
  lemma {:induction false} BoundByLastBind(calls: seq<Call>, n: nat)
    requires n <= |calls|
    ensures var g := GateAt(calls, n);
      && (g.boundDevice == 0 ==> g.ownerThread == 0 && FreeSince(calls, n))
      && (g.boundDevice != 0 ==> exists j: nat :: BoundSince(calls, n, j, g.boundDevice, g.ownerThread))
  {
    if n > 0 {
      BoundByLastBind(calls, n - 1);
      var g, h := GateAt(calls, n - 1), GateAt(calls, n);
      if RebindsAt(calls, n - 1) {
        if calls[n - 1].Bind? { assert BoundSince(calls, n, n - 1, h.boundDevice, h.ownerThread); }
      } else {
        KeepsBound(g, calls[n - 1]);
        if g.boundDevice != 0 {
          var j: nat :| BoundSince(calls, n - 1, j, g.boundDevice, g.ownerThread);
          assert BoundSince(calls, n, j, h.boundDevice, h.ownerThread);
        }
      }
    }
  }

  lemma KeepsBound(g: Gate, c: Call)
    requires !c.Unbind? && !(c.Bind? && g.CanRender(c.device, c.thread))
    ensures Step(g, c).boundDevice == g.boundDevice && Step(g, c).ownerThread == g.ownerThread
  {
  }
}
