/**
 Code patches over the game's memory and the log that undoes them. Memory is an array of bytes and
 an address is an index into it; a page-protection failure is an input of each write.
 */
module PatchLog {

  type Byte = x: int | 0 <= x < 256

  datatype PatchRecord = PatchRecord(address: nat, originalBytes: seq<Byte>)

  /** One call of ApplyPatch; `protectOk` is whether the page could be made writable. */
  datatype Call = Call(address: nat, expected: seq<Byte>, patched: seq<Byte>, protectOk: bool)

  predicate InRange(mem: seq<Byte>, address: nat, size: nat) { address + size <= |mem| }

  predicate Covers(r: PatchRecord, a: nat) { r.address <= a < r.address + |r.originalBytes| }

  function Overwrite(mem: seq<Byte>, address: nat, data: seq<Byte>): (r: seq<Byte>)
    requires InRange(mem, address, |data|)
    ensures |r| == |mem|
    ensures forall a :: 0 <= a < |mem| ==>
      r[a] == if address <= a < address + |data| then data[a - address] else mem[a]
  {
    mem[..address] + data + mem[address + |data|..]
  }

  /** The call changes memory: it has bytes to write, they replace what was expected, and the write works. */
  predicate Effective(mem: seq<Byte>, c: Call)
    requires InRange(mem, c.address, |c.patched|)
  {
    && c.patched != []
    && (c.expected != [] ==> c.expected == mem[c.address..c.address + |c.patched|])
    && c.protectOk
  }

  class Patcher {
    const mem: array<Byte>
    var records: seq<PatchRecord>

    constructor (mem: array<Byte>)
      ensures this.mem == mem && records == []
    {
      this.mem := mem;
      records := [];
    }

    method WriteProcessMemoryLocal(address: nat, data: seq<Byte>, protectOk: bool) returns (ok: bool)
      requires InRange(mem[..], address, |data|)
      modifies mem
      ensures ok == protectOk
      ensures mem[..] == if ok then Overwrite(old(mem[..]), address, data) else old(mem[..])
    {
      if !protectOk { return false; }
      for i := 0 to |data|
        invariant forall k :: 0 <= k < mem.Length ==>
          mem[k] == if address <= k < address + i then data[k - address] else old(mem[k])
      {
        mem[address + i] := data[i];
      }
      return true;
    }

    /** `hasLog` is false when the caller passes no record list. */
    method ApplyPatch(hasLog: bool, address: nat, expected: seq<Byte>, patched: seq<Byte>, protectOk: bool)
      returns (ok: bool)
      requires InRange(mem[..], address, |patched|)
      modifies this, mem
      ensures var c := Call(address, expected, patched, protectOk);
        var took := hasLog && Effective(old(mem[..]), c);
        && (ok <==> hasLog && (patched == [] || took))
        && mem[..] == (if took then Overwrite(old(mem[..]), address, patched) else old(mem[..]))
        && records == old(records)
            + (if took then [PatchRecord(address, old(mem[address..address + |patched|]))] else [])
    {
      if !hasLog { return false; }
      if patched == [] { return true; }
      var currentBytes := mem[address..address + |patched|];
      assert currentBytes == old(mem[..])[address..address + |patched|];
      if expected != [] && expected != currentBytes { return false; }
      var wrote := WriteProcessMemoryLocal(address, patched, protectOk);
      if !wrote { return false; }
      records := records + [PatchRecord(address, currentBytes)];
      return true;
    }

    /** `protectOk[i]` is whether the write that restores record `i` works. */
    method RestorePatches(protectOk: seq<bool>)
      requires |protectOk| == |records| && Fits(mem.Length, records)
      modifies this, mem
      ensures mem[..] == Undo(old(mem[..]), old(records), protectOk)
      ensures records == []
    {
      var n := |records|;
      assert records[..n] == records && protectOk[..n] == protectOk;
      ghost var goal := Undo(mem[..], records, protectOk);
      while n > 0
        invariant 0 <= n <= |records| && records == old(records)
        invariant Undo(mem[..], records[..n], protectOk[..n]) == goal
      {
        n := n - 1;
        assert records[..n + 1][..n] == records[..n] && protectOk[..n + 1][..n] == protectOk[..n];
        var _ := WriteProcessMemoryLocal(records[n].address, records[n].originalBytes, protectOk[n]);
      }
      records := [];
    }
  }

  ghost predicate Fits(size: nat, records: seq<PatchRecord>) {
    forall r | r in records :: r.address + |r.originalBytes| <= size
  }

  /** Memory after restoring the records from the last to the first. */
  function Undo(mem: seq<Byte>, records: seq<PatchRecord>, protectOk: seq<bool>): (r: seq<Byte>)
    requires |protectOk| == |records| && Fits(|mem|, records)
    ensures |r| == |mem|
    decreases |records|
  {
    if records == [] then mem else
    var n := |records| - 1;
    var r := records[n];
    Undo(if protectOk[n] then Overwrite(mem, r.address, r.originalBytes) else mem, records[..n], protectOk[..n])
  }

  // ----- sequences of calls

  ghost predicate Valid(size: nat, calls: seq<Call>) {
    forall c | c in calls :: c.address + |c.patched| <= size
  }

  /** Memory and log after a sequence of calls, most recent last. */
  function After(mem: seq<Byte>, calls: seq<Call>): (r: (seq<Byte>, seq<PatchRecord>))
    requires Valid(|mem|, calls)
    ensures |r.0| == |mem| && Fits(|mem|, r.1)
  {
    if calls == [] then (mem, []) else
    var n := |calls| - 1;
    var c := calls[n];
    var (m, records) := After(mem, calls[..n]);
    if Effective(m, c)
    then (Overwrite(m, c.address, c.patched),
          records + [PatchRecord(c.address, m[c.address..c.address + |c.patched|])])
    else (m, records)
  }

  /** The bytes that were expected, if any were, are there. */
  predicate AsExpected(mem: seq<Byte>, c: Call)
    requires c.address + |c.patched| <= |mem|
  {
    |c.expected| == 0 ||
    (|c.expected| == |c.patched| && forall i :: 0 <= i < |c.patched| ==> c.expected[i] == mem[c.address + i])
  }

  /** A call takes effect exactly when it has bytes to write, the expected ones are there and the page can be
      written. */
  lemma EffectiveByByte(mem: seq<Byte>, c: Call)
    requires c.address + |c.patched| <= |mem|
    ensures Effective(mem, c) <==> |c.patched| > 0 && AsExpected(mem, c) && c.protectOk
  {
    var there := mem[c.address..c.address + |c.patched|];
    if |c.expected| == |c.patched| {
      assert c.expected == there <==> forall i :: 0 <= i < |there| ==> c.expected[i] == there[i];
      assert forall i :: 0 <= i < |there| ==> there[i] == mem[c.address + i];
    }
  }

  function Patched(mem: seq<Byte>, c: Call): (seq<Byte>, seq<PatchRecord>)
    requires c.address + |c.patched| <= |mem|
  {
    if Effective(mem, c)
    then (Overwrite(mem, c.address, c.patched), [PatchRecord(c.address, mem[c.address..c.address + |c.patched|])])
    else (mem, [])
  }

  lemma OneCall(mem: seq<Byte>, calls: seq<Call>)
    requires |calls| == 1 && calls[0].address + |calls[0].patched| <= |mem|
    ensures Valid(|mem|, calls) && After(mem, calls) == Patched(mem, calls[0])
  {
    hide Effective, Overwrite;
    assert Valid(|mem|, calls);
    assert calls[..0] == [] && After(mem, calls[..0]) == (mem, []);
    assert forall r: PatchRecord :: [] + [r] == [r];
  }

  /** What a call that takes effect leaves at byte `a`, and the one record of it. */
  predicate Written(mem: seq<Byte>, c: Call, a: nat, m: seq<Byte>, records: seq<PatchRecord>)
    requires c.address + |c.patched| <= |mem| == |m| && a < |mem|
  {
    var inside := c.address <= a < c.address + |c.patched|;
    && m[a] == (if inside then c.patched[a - c.address] else mem[a])
    && |records| == 1 && records[0].address == c.address && |records[0].originalBytes| == |c.patched|
    && (inside ==> records[0].originalBytes[a - c.address] == mem[a])
  }

  lemma PatchedByByte(mem: seq<Byte>, c: Call, a: nat)
    requires c.address + |c.patched| <= |mem| && a < |mem|
    ensures var (m, records) := Patched(mem, c);
      && |m| == |mem|
      && if Effective(mem, c) then Written(mem, c, a, m, records) else m == mem && records == []
  {
    hide Effective;
  }

  /** One call, byte by byte: exactly its bytes are new, and the log holds the old ones; or nothing has changed. */
  lemma CallTakesEffect(mem: seq<Byte>, c: Call, a: nat)
    requires c.address + |c.patched| <= |mem| && a < |mem|
    ensures Valid(|mem|, [c])
    ensures var (m, records) := After(mem, [c]);
      if |c.patched| > 0 && AsExpected(mem, c) && c.protectOk then Written(mem, c, a, m, records)
      else m == mem && records == []
  {
    OneCall(mem, [c]);
    EffectiveByByte(mem, c);
    PatchedByByte(mem, c, a);
    hide Effective, AsExpected, After, Valid, Patched, Written;
  }

  /** The oldest record over byte `a` whose restoring write works, or the number of records. */
  function OldestRestored(records: seq<PatchRecord>, protectOk: seq<bool>, a: nat): (i: nat)
    requires |protectOk| == |records|
    ensures i <= |records|
    ensures i < |records| ==> Covers(records[i], a) && protectOk[i]
    ensures forall k :: 0 <= k < i ==> !(Covers(records[k], a) && protectOk[k])
    decreases |records|
  {
    if records == [] then 0
    else if Covers(records[0], a) && protectOk[0] then 0
    else 1 + OldestRestored(records[1..], protectOk[1..], a)
  }

  lemma OldestOfPrefix(records: seq<PatchRecord>, protectOk: seq<bool>, a: nat)
    requires |protectOk| == |records| > 0
    ensures var n := |records| - 1;
      var j := OldestRestored(records[..n], protectOk[..n], a);
      OldestRestored(records, protectOk, a)
        == if j < n then j else if Covers(records[n], a) && protectOk[n] then n else n + 1
  {
    var n := |records| - 1;
    var i, j := OldestRestored(records, protectOk, a), OldestRestored(records[..n], protectOk[..n], a);
    forall k | 0 <= k < n ensures records[..n][k] == records[k] && protectOk[..n][k] == protectOk[k] {}
    if j < n {
      assert Covers(records[j], a) && protectOk[j];
    }
  }

  ghost predicate IsOldestOver(records: seq<PatchRecord>, i: nat, a: nat)
    requires i < |records|
  {
    Covers(records[i], a) && forall k :: 0 <= k < i ==> !Covers(records[k], a)
  }

  /** A byte ends with what the oldest restored record over it had saved. */
  lemma {:induction false} UndoneByte(mem: seq<Byte>, records: seq<PatchRecord>, protectOk: seq<bool>, a: nat)
    requires |protectOk| == |records| && Fits(|mem|, records) && a < |mem|
    ensures var i := OldestRestored(records, protectOk, a);
      Undo(mem, records, protectOk)[a]
        == if i < |records| then records[i].originalBytes[a - records[i].address] else mem[a]
    decreases |records|
  {
    if records != [] {
      var n := |records| - 1;
      var r := records[n];
      assert r in records;
      var m := if protectOk[n] then Overwrite(mem, r.address, r.originalBytes) else mem;
      hide Overwrite;
      UndoneByte(m, records[..n], protectOk[..n], a);
      OldestOfPrefix(records, protectOk, a);
      hide Fits, OldestRestored;
    }
  }

  /** The oldest record over a byte saved its initial value; a byte without record was never written. */
  lemma {:induction false} OldestSavedInitial(mem: seq<Byte>, calls: seq<Call>, a: nat, i: nat)
    requires Valid(|mem|, calls) && a < |mem|
    ensures var (m, records) := After(mem, calls);
      && ((forall r | r in records :: !Covers(r, a)) ==> m[a] == mem[a])
      && (0 <= i < |records| && IsOldestOver(records, i, a) ==>
           records[i].originalBytes[a - records[i].address] == mem[a])
  {
    if calls != [] {
      var n := |calls| - 1;
      OldestSavedInitial(mem, calls[..n], a, i);
      var (m0, records0) := After(mem, calls[..n]);
      var (m, records) := After(mem, calls);
      if Effective(m0, calls[n]) {
        assert records[..|records0|] == records0;
        assert records[|records0|] in records;
        assert forall r | r in records0 :: r in records;
        assert forall k :: 0 <= k < |records0| ==> records[k] == records0[k];
      }
    }
  }

  /** Bytes whose oldest record is restored are back to their initial value, whichever of the other
      restoring writes fail; so are the bytes no patch ever covered. */
  lemma RestoredByte(mem: seq<Byte>, calls: seq<Call>, protectOk: seq<bool>, a: nat)
    requires Valid(|mem|, calls) && a < |mem| && |protectOk| == |After(mem, calls).1|
    requires forall i :: 0 <= i < |protectOk| && IsOldestOver(After(mem, calls).1, i, a) ==> protectOk[i]
    ensures Undo(After(mem, calls).0, After(mem, calls).1, protectOk)[a] == mem[a]
  {
    var (m, records) := After(mem, calls);
    UndoneByte(m, records, protectOk, a);
    var i := OldestRestored(records, protectOk, a);
    OldestSavedInitial(mem, calls, a, i);
    if k: nat :| k < |records| && IsOldestOver(records, k, a) {
      assert protectOk[k] && i == k;
    } else {
      NoOldestNoCover(records, a);
    }
  }

  lemma {:induction false} NoOldestNoCover(records: seq<PatchRecord>, a: nat)
    requires forall k: nat | k < |records| :: !IsOldestOver(records, k, a)
    ensures forall k :: 0 <= k < |records| ==> !Covers(records[k], a)
    decreases |records|
  {
    if records != [] {
      var n := |records| - 1;
      forall k: nat | k < n ensures !IsOldestOver(records[..n], k, a) {
        assert !IsOldestOver(records, k, a);
      }
      NoOldestNoCover(records[..n], a);
      assert forall k :: 0 <= k < n ==> records[..n][k] == records[k];
      assert !IsOldestOver(records, n, a);
    }
  }

  /** Overlapping, rejected and failed patches included, a restore whose writes all work undoes them all. */
  lemma RestoreUndoesEverything(mem: seq<Byte>, calls: seq<Call>, protectOk: seq<bool>)
    requires Valid(|mem|, calls) && |protectOk| == |After(mem, calls).1|
    requires forall i :: 0 <= i < |protectOk| ==> protectOk[i]
    ensures Undo(After(mem, calls).0, After(mem, calls).1, protectOk) == mem
  {
    forall a: nat | a < |mem| ensures Undo(After(mem, calls).0, After(mem, calls).1, protectOk)[a] == mem[a] {
      RestoredByte(mem, calls, protectOk, a);
    }
  }

  /** A patcher that replays any calls and then restores leaves the array as it found it. */
  method ApplyAllThenRestore(p: Patcher, calls: seq<Call>, protectOk: seq<bool>)
    requires p.records == [] && Valid(p.mem.Length, calls)
    requires |protectOk| == |After(p.mem[..], calls).1| && forall i :: 0 <= i < |protectOk| ==> protectOk[i]
    modifies p, p.mem
    ensures p.mem[..] == old(p.mem[..]) && p.records == []
  {
    ghost var mem := p.mem[..];
    for i := 0 to |calls|
      invariant p.mem[..] == After(mem, calls[..i]).0 && p.records == After(mem, calls[..i]).1
    {
      var c := calls[i];
      assert calls[..i + 1][..i] == calls[..i];
      assert c in calls;
      assert p.mem[c.address..c.address + |c.patched|] == p.mem[..][c.address..c.address + |c.patched|];
      var _ := p.ApplyPatch(true, c.address, c.expected, c.patched, c.protectOk);
    }
    assert calls[..|calls|] == calls;
    RestoreUndoesEverything(mem, calls, protectOk);
    p.RestorePatches(protectOk);
  }
}
