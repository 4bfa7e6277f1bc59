/**
 Assembling the launcher's console output into lines. Chunks of bytes arrive in claim order from the
 capture ring; a line ends at a line break or at 240 bytes, and at the end of a chunk if it already
 holds one of the messages that must be seen at once. A byte is a `char` below 256.
 */
module LineAssembly {

  const MAX_LINE: nat := 240
  const NUL: char := '\0'

  /** A reported line, with the wake-request count of the write its first byte came from. */
  datatype Line = Line(text: string, snapshot: int)

  /** The pending line of one known source, its snapshot, and the lines reported so far. */
  datatype Assembler = Assembler(line: string, snapshot: int, reported: seq<Line>)

  const FRESH: Assembler := Assembler("", -1, [])

  // ----- character classes and trimming

  predicate IsBreak(c: char) { c == '\r' || c == '\n' }

  predicate IsBlank(c: char) { c == ' ' || c == '\t' || IsBreak(c) }

  predicate IsKept(c: char) { ' ' <= c <= '~' || c >= 128 as char }

  predicate IsTextByte(c: char) { IsKept(c) || IsBreak(c) || c == '\t' }

  function TrimLeft(s: string): string { if s != "" && IsBlank(s[0]) then TrimLeft(s[1..]) else s }

  function TrimRight(s: string): string {
    if s != "" && IsBlank(s[|s| - 1]) then TrimRight(s[..|s| - 1]) else s
  }

  function Trim(s: string): string { TrimRight(TrimLeft(s)) }

  method TrimAscii(text: string) returns (r: string)
    ensures r == Trim(text)
  {
    var start := 0;
    while start < |text| && IsBlank(text[start])
      invariant start <= |text| && TrimLeft(text[start..]) == TrimLeft(text)
    {
      start := start + 1;
    }
    assert TrimLeft(text) == text[start..];
    var end := |text|;
    assert text[start..end] == text[start..];
    while end > start && IsBlank(text[end - 1])
      invariant start <= end <= |text| && TrimRight(text[start..end]) == Trim(text)
    {
      assert text[start..end][..end - start - 1] == text[start..end - 1];
      end := end - 1;
    }
    r := text[start..end];
  }

  /** Trimming removes blanks from both ends and nothing else. */
  lemma {:induction false} TrimLeftIsSuffix(s: string)
    ensures |TrimLeft(s)| <= |s| && TrimLeft(s) == s[|s| - |TrimLeft(s)|..]
    ensures forall i :: 0 <= i < |s| - |TrimLeft(s)| ==> IsBlank(s[i])
    ensures TrimLeft(s) != "" ==> !IsBlank(TrimLeft(s)[0])
    decreases |s|
  {
    if s != "" && IsBlank(s[0]) { TrimLeftIsSuffix(s[1..]); }
  }

  lemma {:induction false} TrimRightIsPrefix(s: string)
    ensures |TrimRight(s)| <= |s| && TrimRight(s) == s[..|TrimRight(s)|]
    ensures forall i :: |TrimRight(s)| <= i < |s| ==> IsBlank(s[i])
    ensures TrimRight(s) != "" ==> !IsBlank(TrimRight(s)[|TrimRight(s)| - 1])
    decreases |s|
  {
    if s != "" && IsBlank(s[|s| - 1]) { TrimRightIsPrefix(s[..|s| - 1]); }
  }

  /** `t` is what is left of `s` between `i` and `j`, and all that was cut is blank. */
  predicate IsCore(s: string, t: string, i: nat, j: nat) {
    && i <= j <= |s| && t == s[i..j]
    && (forall k :: 0 <= k < i ==> IsBlank(s[k])) && (forall k :: j <= k < |s| ==> IsBlank(s[k]))
  }

  lemma TrimKeepsCore(s: string)
    ensures exists i: nat, j: nat :: IsCore(s, Trim(s), i, j)
    ensures Trim(s) != "" ==> !IsBlank(Trim(s)[0]) && !IsBlank(Trim(s)[|Trim(s)| - 1])
    ensures Trim(s) == "" <==> forall i :: 0 <= i < |s| ==> IsBlank(s[i])
  {
    var l := TrimLeft(s);
    TrimLeftIsSuffix(s);
    TrimRightIsPrefix(l);
    var i, j := |s| - |l|, |s| - |l| + |Trim(s)|;
    forall k | j <= k < |s| ensures IsBlank(s[k]) { assert s[k] == l[k - i]; }
    assert Trim(s) == s[i..j];
    assert IsCore(s, Trim(s), i, j);
    if l != "" { assert s[|s| - |l|] == l[0]; }
  }

  // ----- is it text at all

  function BytesBeforeNul(text: string): nat {
    if text == "" || text[0] == NUL then 0 else 1 + BytesBeforeNul(text[1..])
  }

  function TextBytesBeforeNul(text: string): nat {
    if text == "" || text[0] == NUL then 0
    else (if IsTextByte(text[0]) then 1 else 0) + TextBytesBeforeNul(text[1..])
  }

  predicate LikelyText(text: string) {
    BytesBeforeNul(text) > 0 && TextBytesBeforeNul(text) >= BytesBeforeNul(text) / 2
  }

  method IsLikelyTextChunk(text: string) returns (likely: bool)
    ensures likely <==> LikelyText(text)
  {
    var printable, checked, i := 0, 0, 0;
    while i < |text| && text[i] != NUL
      invariant i <= |text|
      invariant checked + BytesBeforeNul(text[i..]) == BytesBeforeNul(text)
      invariant printable + TextBytesBeforeNul(text[i..]) == TextBytesBeforeNul(text)
    {
      checked := checked + 1;
      if IsTextByte(text[i]) { printable := printable + 1; }
      i := i + 1;
    }
    if checked == 0 { return false; }
    return printable >= checked / 2;
  }

  // ----- messages that are reported at once

  function KeywordList(): seq<string> {
    ["header crc mismatch", "state not recoverable", "Connection timed out", "Source quit or timed out",
     "Host timed out", "Remote timed out", "Spectators have been disabled", "Socket error",
     "Host already playing, join as a spectator", "Host not yet playing, join as a player",
     "Waiting for game to begin"]
  }

  function LowerChar(c: char): char { if 'A' <= c <= 'Z' then (c as int + 32) as char else c }

  predicate MatchesAt(text: string, i: nat, needle: string)
    requires i + |needle| <= |text|
  {
    forall j :: 0 <= j < |needle| ==> LowerChar(text[i + j]) == LowerChar(needle[j])
  }

  predicate Contains(text: string, needle: string) {
    needle != "" && exists i :: 0 <= i <= |text| - |needle| && MatchesAt(text, i, needle)
  }

  method ContainsCaseInsensitive(text: string, needle: string) returns (found: bool)
    ensures found <==> Contains(text, needle)
  {
    if needle == "" || |text| < |needle| { return false; }
    var i := 0;
    while i + |needle| <= |text|
      invariant forall k :: 0 <= k < i && k <= |text| - |needle| ==> !MatchesAt(text, k, needle)
    {
      var same := true;
      var j := 0;
      while j < |needle| && same
        invariant 0 <= j <= |needle|
        invariant same ==> forall k :: 0 <= k < j ==> LowerChar(text[i + k]) == LowerChar(needle[k])
        invariant !same ==> !MatchesAt(text, i, needle)
        decreases |needle| - j, same
      {
        if LowerChar(text[i + j]) != LowerChar(needle[j]) { same := false; } else { j := j + 1; }
      }
      if same {
        assert MatchesAt(text, i, needle);
        return true;
      }
      i := i + 1;
    }
    return false;
  }

  /** The pending line must not wait for its line break. */
  predicate IsUrgent(line: string) {
    |line| >= 12 && exists k :: 0 <= k < |KeywordList()| && Contains(line, KeywordList()[k])
  }

  predicate IsLetter(c: char) { 'A' <= c <= 'Z' || 'a' <= c <= 'z' }

  lemma KeywordsStartWithLetters(k: nat)
    requires k < |KeywordList()|
    ensures KeywordList()[k] != "" && IsLetter(KeywordList()[k][0])
  {
  }

  /** An urgent line is never blank, so flushing it reports it. */
  lemma UrgentIsNotBlank(line: string)
    requires IsUrgent(line)
    ensures Trim(line) != ""
  {
    var k: nat :| k < |KeywordList()| && Contains(line, KeywordList()[k]);
    var word := KeywordList()[k];
    KeywordsStartWithLetters(k);
    hide KeywordList, Trim;
    var i: nat :| i <= |line| - |word| && MatchesAt(line, i, word);
    assert LowerChar(line[i + 0]) == LowerChar(word[0]);
    assert !IsBlank(line[i]);
    TrimKeepsCore(line);
  }

  // ----- the specification: one byte, one chunk

  function Flush(a: Assembler): Assembler {
    var t := Trim(a.line);
    Assembler("", -1, if t == "" then a.reported else a.reported + [Line(t, a.snapshot)])
  }

  function Feed(a: Assembler, c: char, serial: int): Assembler {
    if IsBreak(c) then Flush(a) else
    var b := a.(line := a.line + [if IsKept(c) then c else ' '],
                snapshot := if a.line == "" then serial else a.snapshot);
    if |b.line| >= MAX_LINE then Flush(b) else b
  }

  /** The bytes of a chunk up to a NUL. */
  function FeedText(a: Assembler, text: string, serial: int): Assembler
    decreases |text|
  {
    if text == "" || text[0] == NUL then a else FeedText(Feed(a, text[0], serial), text[1..], serial)
  }

  function EndOfChunk(a: Assembler): Assembler { if IsUrgent(a.line) then Flush(a) else a }

  function Process(a: Assembler, known: bool, text: string, serial: int): Assembler {
    if text == "" || !LikelyText(text) then a
    else if known then EndOfChunk(FeedText(a, text, serial))
    else
      var b := EndOfChunk(FeedText(a.(line := "", snapshot := -1), text, serial));
      a.(reported := (if b.line == "" then b else Flush(b)).reported)
  }

  /** Flushing a source between chunks; the snapshot of a blank line is left as it is. */
  function FlushPending(a: Assembler): Assembler {
    if a.line == "" then a
    else if Trim(a.line) == "" then a.(line := "")
    else Flush(a)
  }

  // ----- the parser's state for one source

  class ConsoleParser {
    var line: string
    var snapshot: int
    var reported: seq<Line>

    function View(): Assembler
      reads this
    {
      Assembler(line, snapshot, reported)
    }

    constructor ()
      ensures View() == FRESH
    {
      line, snapshot, reported := "", -1, [];
    }

    /** Reports a trimmed line unless it is blank. */
    method Report(text: string, snap: int)
      modifies this`reported
      ensures reported == old(reported) + (if Trim(text) == "" then [] else [Line(Trim(text), snap)])
    {
      var trimmed := TrimAscii(text);
      if trimmed != "" { reported := reported + [Line(trimmed, snap)]; }
    }

    method FindUrgent(text: string) returns (urgent: bool)
      ensures urgent <==> IsUrgent(text)
    {
      if |text| < 12 { return false; }
      for k := 0 to |KeywordList()|
        invariant forall i :: 0 <= i < k ==> !Contains(text, KeywordList()[i])
      {
        var found := ContainsCaseInsensitive(text, KeywordList()[k]);
        if found { return true; }
      }
      return false;
    }

    /** An unknown source works on a line of its own. */
    method ProcessConsoleTextChunk(known: bool, text: string, serial: int)
      modifies this
      ensures View() == Process(old(View()), known, text, serial)
    {
      var likely := IsLikelyTextChunk(text);
      if text == "" || !likely { return; }
      var cur, snap := if known then line else "", if known then snapshot else -1;
      ghost var start := Assembler(cur, snap, reported);
      var i := 0;
      while i < |text| && text[i] != NUL
        invariant i <= |text| && line == old(line) && snapshot == old(snapshot)
        invariant FeedText(Assembler(cur, snap, reported), text[i..], serial) == FeedText(start, text, serial)
      {
        var c := text[i];
        ghost var before := Assembler(cur, snap, reported);
        assert text[i..][1..] == text[i + 1..];
        i := i + 1;
        if IsBreak(c) {
          Report(cur, snap);
          cur, snap := "", -1;
        } else {
          if cur == "" { snap := serial; }
          cur := cur + [if IsKept(c) then c else ' '];
          if |cur| >= MAX_LINE {
            Report(cur, snap);
            cur, snap := "", -1;
          }
        }
        assert Assembler(cur, snap, reported) == Feed(before, c, serial);
      }
      var urgent := FindUrgent(cur);
      if urgent {
        Report(cur, snap);
        cur, snap := "", -1;
      }
      if known {
        line, snapshot := cur, snap;
      } else if cur != "" {
        Report(cur, snap);
      }
    }

    method FlushPendingConsoleOutput()
      modifies this
      ensures View() == FlushPending(old(View()))
    {
      if line == "" { return; }
      var trimmed := TrimAscii(line);
      line := "";
      if trimmed == "" { return; }
      reported := reported + [Line(trimmed, snapshot)];
      snapshot := -1;
    }
  }

  // ----- independence of write boundaries

  datatype Chunk = Chunk(text: string, serial: int)

  /** A captured byte with the wake-request count of its write. */
  datatype Byte = Byte(c: char, serial: int)

  function Bytes(ch: Chunk): (r: seq<Byte>)
    ensures |r| == |ch.text| && forall i :: 0 <= i < |r| ==> r[i] == Byte(ch.text[i], ch.serial)
  {
    seq(|ch.text|, i requires 0 <= i < |ch.text| => Byte(ch.text[i], ch.serial))
  }

  function Flatten(chunks: seq<Chunk>): seq<Byte> {
    if chunks == [] then [] else Bytes(chunks[0]) + Flatten(chunks[1..])
  }

  function FeedBytes(a: Assembler, bytes: seq<Byte>): Assembler
    decreases |bytes|
  {
    if bytes == [] then a else FeedBytes(Feed(a, bytes[0].c, bytes[0].serial), bytes[1..])
  }

  function ProcessAll(a: Assembler, chunks: seq<Chunk>): Assembler
    decreases |chunks|
  {
    if chunks == [] then a else ProcessAll(Process(a, true, chunks[0].text, chunks[0].serial), chunks[1..])
  }

  predicate AllText(text: string) { forall i :: 0 <= i < |text| ==> IsTextByte(text[i]) }

  lemma {:induction false} TextIsLikely(text: string)
    requires AllText(text) && text != ""
    ensures LikelyText(text) && BytesBeforeNul(text) == TextBytesBeforeNul(text) == |text|
    decreases |text|
  {
    if |text| > 1 { TextIsLikely(text[1..]); } else { assert text[1..] == ""; }
  }

  lemma {:induction false} FeedTextIsFeedBytes(a: Assembler, ch: Chunk)
    requires AllText(ch.text)
    ensures FeedText(a, ch.text, ch.serial) == FeedBytes(a, Bytes(ch))
    decreases |ch.text|
  {
    if ch.text != "" {
      var rest := Chunk(ch.text[1..], ch.serial);
      assert Bytes(ch)[1..] == Bytes(rest);
      FeedTextIsFeedBytes(Feed(a, ch.text[0], ch.serial), rest);
    }
  }

  lemma {:induction false} FeedBytesConcat(a: Assembler, xs: seq<Byte>, ys: seq<Byte>)
    ensures FeedBytes(a, xs + ys) == FeedBytes(FeedBytes(a, xs), ys)
    decreases |xs|
  {
    if xs == [] {
      assert xs + ys == ys;
    } else {
      assert (xs + ys)[1..] == xs[1..] + ys;
      FeedBytesConcat(Feed(a, xs[0].c, xs[0].serial), xs[1..], ys);
    }
  }

  /** A chunk of text does to its source what its bytes do, exactly when the line it leaves pending
      holds none of the urgent messages. */
  lemma ChunkIsItsBytes(a: Assembler, ch: Chunk)
    requires AllText(ch.text) && ch.text != ""
    ensures Process(a, true, ch.text, ch.serial) == FeedBytes(a, Bytes(ch))
      <==> !IsUrgent(FeedBytes(a, Bytes(ch)).line)
  {
    TextIsLikely(ch.text);
    FeedTextIsFeedBytes(a, ch);
  }

  ghost predicate TextChunks(chunks: seq<Chunk>) {
    forall i :: 0 <= i < |chunks| ==> chunks[i].text != "" && AllText(chunks[i].text)
  }

  lemma {:induction false} FlattenSnoc(chunks: seq<Chunk>, n: nat)
    requires n < |chunks|
    ensures Flatten(chunks[..n + 1]) == Flatten(chunks[..n]) + Bytes(chunks[n])
    decreases n
  {
    if n == 0 {
      assert chunks[..1][1..] == [] && chunks[..0] == [];
      assert Flatten(chunks[..1]) == Bytes(chunks[0]) + Flatten([]);
    } else {
      assert chunks[..n + 1][1..] == chunks[1..][..n] && chunks[..n][1..] == chunks[1..][..n - 1];
      FlattenSnoc(chunks[1..], n - 1);
    }
  }

  lemma {:induction false} ProcessAllSnoc(a: Assembler, chunks: seq<Chunk>, n: nat)
    requires n < |chunks|
    ensures ProcessAll(a, chunks[..n + 1])
      == Process(ProcessAll(a, chunks[..n]), true, chunks[n].text, chunks[n].serial)
    decreases n
  {
    if n == 0 {
      var b := Process(a, true, chunks[0].text, chunks[0].serial);
      assert chunks[..1][1..] == [] && chunks[..0] == [];
      assert ProcessAll(b, []) == b;
    } else {
      assert chunks[..n + 1][1..] == chunks[1..][..n] && chunks[..n][1..] == chunks[1..][..n - 1];
      ProcessAllSnoc(Process(a, true, chunks[0].text, chunks[0].serial), chunks[1..], n - 1);
    }
  }

  lemma StepOfBytes(a: Assembler, chunks: seq<Chunk>, n: nat)
    requires TextChunks(chunks) && n < |chunks| && ProcessAll(a, chunks[..n]) == FeedBytes(a, Flatten(chunks[..n]))
    ensures ProcessAll(a, chunks[..n + 1]) == FeedBytes(a, Flatten(chunks[..n + 1]))
      <==> !IsUrgent(FeedBytes(a, Flatten(chunks[..n + 1])).line)
  {
    ProcessAllSnoc(a, chunks, n);
    FlattenSnoc(chunks, n);
    FeedBytesConcat(a, Flatten(chunks[..n]), Bytes(chunks[n]));
    hide IsUrgent, Process, Flatten, Bytes;
    ChunkIsItsBytes(FeedBytes(a, Flatten(chunks[..n])), chunks[n]);
  }

  /** Up to chunk `n` the assembler has kept pace with its bytes. */
  ghost predicate KeepsPace(a: Assembler, chunks: seq<Chunk>, n: nat)
    requires n <= |chunks|
  {
    forall k: nat :: k <= n ==> ProcessAll(a, chunks[..k]) == FeedBytes(a, Flatten(chunks[..k]))
  }

  ghost predicate CalmUpTo(a: Assembler, chunks: seq<Chunk>, n: nat)
    requires n <= |chunks|
  {
    forall k: nat :: 1 <= k <= n ==> !IsUrgent(FeedBytes(a, Flatten(chunks[..k])).line)
  }

  /** Chunk by chunk a run does what its bytes do if and only if no chunk leaves an urgent message pending. */
  lemma {:induction false} RunIsItsBytes(a: Assembler, chunks: seq<Chunk>, n: nat)
    requires TextChunks(chunks) && n <= |chunks|
    ensures KeepsPace(a, chunks, n) <==> CalmUpTo(a, chunks, n)
    decreases n
  {
    hide IsUrgent, ProcessAll, FeedBytes;
    if n == 0 {
      assert chunks[..0] == [];
      EmptyRun(a);
    } else {
      RunIsItsBytes(a, chunks, n - 1);
      if KeepsPace(a, chunks, n - 1) {
        assert ProcessAll(a, chunks[..n - 1]) == FeedBytes(a, Flatten(chunks[..n - 1]));
        StepOfBytes(a, chunks, n - 1);
      }
      if KeepsPace(a, chunks, n) || CalmUpTo(a, chunks, n) {
        assert KeepsPace(a, chunks, n - 1);
      }
    }
  }

  lemma EmptyRun(a: Assembler)
    ensures ProcessAll(a, []) == FeedBytes(a, Flatten([])) == a
  {
  }

  lemma ChunksAreTheirBytes(a: Assembler, chunks: seq<Chunk>)
    requires TextChunks(chunks) && CalmUpTo(a, chunks, |chunks|)
    ensures ProcessAll(a, chunks) == FeedBytes(a, Flatten(chunks))
  {
    RunIsItsBytes(a, chunks, |chunks|);
    assert chunks[..|chunks|] == chunks;
    assert ProcessAll(a, chunks[..|chunks|]) == FeedBytes(a, Flatten(chunks[..|chunks|]));
  }

  /** Two ways of cutting the same captured bytes into chunks report the same lines, with the same
      snapshots, and leave the same fragment. */
  lemma CutsDoNotMatter(a: Assembler, xs: seq<Chunk>, ys: seq<Chunk>)
    requires TextChunks(xs) && TextChunks(ys) && Flatten(xs) == Flatten(ys)
    requires CalmUpTo(a, xs, |xs|) && CalmUpTo(a, ys, |ys|)
    ensures ProcessAll(a, xs) == ProcessAll(a, ys)
  {
    ChunksAreTheirBytes(a, xs);
    ChunksAreTheirBytes(a, ys);
  }

  // ----- without looking at snapshots

  function Texts(ls: seq<Line>): (r: seq<string>)
    ensures |r| == |ls| && forall i :: 0 <= i < |ls| ==> r[i] == ls[i].text
  {
    seq(|ls|, i requires 0 <= i < |ls| => ls[i].text)
  }

  function Chars(bs: seq<Byte>): (r: string)
    ensures |r| == |bs| && forall i :: 0 <= i < |bs| ==> r[i] == bs[i].c
  {
    seq(|bs|, i requires 0 <= i < |bs| => bs[i].c)
  }

  ghost predicate SameText(a: Assembler, b: Assembler) { a.line == b.line && Texts(a.reported) == Texts(b.reported) }

  lemma FeedSameText(a: Assembler, b: Assembler, c: char, s: int, t: int)
    requires SameText(a, b)
    ensures SameText(Feed(a, c, s), Feed(b, c, t))
  {
    forall l: Line, m: Line | l.text == m.text ensures Texts(a.reported + [l]) == Texts(b.reported + [m]) {
      assert Texts(a.reported + [l]) == Texts(a.reported) + [l.text];
      assert Texts(b.reported + [m]) == Texts(b.reported) + [m.text];
    }
  }

  lemma {:induction false} FeedBytesSameText(a: Assembler, b: Assembler, xs: seq<Byte>, ys: seq<Byte>)
    requires SameText(a, b) && Chars(xs) == Chars(ys)
    ensures SameText(FeedBytes(a, xs), FeedBytes(b, ys))
    decreases |xs|
  {
    assert |Chars(xs)| == |xs| && |Chars(ys)| == |ys|;
    if xs != [] {
      assert xs[0].c == Chars(xs)[0] == Chars(ys)[0] == ys[0].c;
      FeedSameText(a, b, xs[0].c, xs[0].serial, ys[0].serial);
      assert Chars(xs[1..]) == Chars(xs)[1..] && Chars(ys[1..]) == Chars(ys)[1..];
      FeedBytesSameText(Feed(a, xs[0].c, xs[0].serial), Feed(b, ys[0].c, ys[0].serial), xs[1..], ys[1..]);
    }
  }

  /** The reported lines and the fragment left over depend only on the concatenated bytes, not on how
      they were cut into writes nor on when those writes were captured. */
  lemma LinesDependOnBytesOnly(a: Assembler, xs: seq<Chunk>, ys: seq<Chunk>)
    requires TextChunks(xs) && TextChunks(ys) && Chars(Flatten(xs)) == Chars(Flatten(ys))
    requires CalmUpTo(a, xs, |xs|) && CalmUpTo(a, ys, |ys|)
    ensures SameText(ProcessAll(a, xs), ProcessAll(a, ys))
  {
    ChunksAreTheirBytes(a, xs);
    ChunksAreTheirBytes(a, ys);
    FeedBytesSameText(a, a, Flatten(xs), Flatten(ys));
  }

  // ----- the condition is needed

  lemma {:induction false} PlainTextIsAppended(a: Assembler, text: string, serial: int)
    requires (forall i :: 0 <= i < |text| ==> IsKept(text[i])) && |a.line| + |text| < MAX_LINE
    ensures FeedText(a, text, serial)
      == a.(line := a.line + text, snapshot := if a.line == "" && text != "" then serial else a.snapshot)
    decreases |text|
  {
    if text != "" {
      var b := Feed(a, text[0], serial);
      PlainTextIsAppended(b, text[1..], serial);
      assert b.line + text[1..] == a.line + text;
    } else {
      assert a.line + text == a.line;
    }
  }

  lemma {:induction false} TextThenBreak(a: Assembler, text: string, serial: int)
    requires (forall i :: 0 <= i < |text| ==> IsKept(text[i])) && |a.line| + |text| < MAX_LINE && text != ""
    ensures FeedText(a, text + "\n", serial)
      == Flush(a.(line := a.line + text, snapshot := if a.line == "" then serial else a.snapshot))
    decreases |text|
  {
    var b := Feed(a, text[0], serial);
    assert (text + "\n")[1..] == text[1..] + "\n";
    if text[1..] != "" {
      TextThenBreak(b, text[1..], serial);
      assert b.line + text[1..] == a.line + text;
    } else {
      assert text[1..] + "\n" == "\n" && "\n"[1..] == "";
      assert a.line + text == b.line;
    }
  }

  /** An urgent message cut from the rest of its line is reported on its own; uncut, the line stays
      whole. So the condition on pending lines cannot be dropped. */
  lemma CutAfterUrgentMatters(message: string, rest: string, serial: int)
    requires IsUrgent(message) && |message + rest| < MAX_LINE && Trim(rest) != ""
    requires forall i :: 0 <= i < |message + rest| ==> IsKept((message + rest)[i])
    ensures ProcessAll(FRESH, [Chunk(message, serial), Chunk(rest + "\n", serial)]).reported
      == [Line(Trim(message), serial), Line(Trim(rest), serial)]
    ensures ProcessAll(FRESH, [Chunk(message + rest + "\n", serial)]).reported == [Line(Trim(message + rest), serial)]
  {
    var whole := message + rest;
    KeptParts(message, rest);
    UrgentIsNotBlank(message);
    MoreIsNotBlank(message, rest);
    UrgentChunk(message, serial);
    hide IsUrgent, Trim;
    LineChunk(Assembler("", -1, [Line(Trim(message), serial)]), rest, serial);
    LineChunk(FRESH, whole, serial);
    TwoChunks(FRESH, Chunk(message, serial), Chunk(rest + "\n", serial));
    OneChunk(FRESH, Chunk(whole + "\n", serial));
  }

  /** A cut right before the line break is harmless, although an urgent message is pending there: for the final
      lines alone the condition is sufficient and not necessary. */
  lemma CutBeforeBreakIsHarmless(message: string, serial: int)
    requires IsUrgent(message) && |message| < MAX_LINE && forall i :: 0 <= i < |message| ==> IsKept(message[i])
    ensures ProcessAll(FRESH, [Chunk(message, serial), Chunk("\n", serial)])
      == ProcessAll(FRESH, [Chunk(message + "\n", serial)])
    ensures !CalmUpTo(FRESH, [Chunk(message, serial), Chunk("\n", serial)], 2)
  {
    UrgentIsNotBlank(message);
    UrgentChunk(message, serial);
    UrgentPending(message, serial);
    hide IsUrgent, Trim;
    LineChunk(FRESH, message, serial);
    BreakChunk(Assembler("", -1, [Line(Trim(message), serial)]), serial);
    var chunks := [Chunk(message, serial), Chunk("\n", serial)];
    TwoChunks(FRESH, chunks[0], chunks[1]);
    OneChunk(FRESH, Chunk(message + "\n", serial));
    assert chunks[..1] == [Chunk(message, serial)];
    assert IsUrgent(FeedBytes(FRESH, Flatten(chunks[..1])).line);
  }

  lemma OneChunk(a: Assembler, ch: Chunk)
    ensures ProcessAll(a, [ch]) == Process(a, true, ch.text, ch.serial)
  {
    hide Process;
    assert [ch][1..] == [];
    assert ProcessAll(Process(a, true, ch.text, ch.serial), []) == Process(a, true, ch.text, ch.serial);
  }

  lemma TwoChunks(a: Assembler, x: Chunk, y: Chunk)
    ensures ProcessAll(a, [x, y]) == Process(Process(a, true, x.text, x.serial), true, y.text, y.serial)
  {
    hide Process;
    assert [x, y][1..] == [y];
    OneChunk(Process(a, true, x.text, x.serial), y);
  }

  /** A kept line with its break, fed to an assembler with nothing pending. */
  lemma LineChunk(a: Assembler, text: string, serial: int)
    requires a.line == "" && |text| < MAX_LINE && Trim(text) != "" && forall i :: 0 <= i < |text| ==> IsKept(text[i])
    ensures Process(a, true, text + "\n", serial) == Assembler("", -1, a.reported + [Line(Trim(text), serial)])
  {
    assert text != "";
    hide Trim, IsUrgent;
    BreakIsCalm();
    TextIsLikely(text + "\n");
    TextThenBreak(a, text, serial);
    assert "" + text == text;
  }

  lemma BreakChunk(a: Assembler, serial: int)
    requires a.line == "" && a.snapshot == -1
    ensures Process(a, true, "\n", serial) == a
  {
    TextIsLikely("\n");
    BreakIsCalm();
    hide IsUrgent;
    assert "\n"[1..] == "" && FeedText(a, "\n", serial) == Feed(a, '\n', serial) == a;
  }

  lemma UrgentPending(message: string, serial: int)
    requires IsUrgent(message) && |message| < MAX_LINE && forall i :: 0 <= i < |message| ==> IsKept(message[i])
    ensures IsUrgent(FeedBytes(FRESH, Flatten([Chunk(message, serial)])).line)
  {
    var ch := Chunk(message, serial);
    hide IsUrgent;
    PlainTextIsAppended(FRESH, message, serial);
    FeedTextIsFeedBytes(FRESH, ch);
    assert [ch][1..] == [] && Flatten([ch]) == Bytes(ch) + [] == Bytes(ch);
    assert "" + message == message;
  }

  lemma UrgentChunk(message: string, serial: int)
    requires IsUrgent(message) && Trim(message) != "" && |message| < MAX_LINE
    requires forall i :: 0 <= i < |message| ==> IsKept(message[i])
    ensures Process(FRESH, true, message, serial) == Assembler("", -1, [Line(Trim(message), serial)])
  {
    assert message != "";
    hide IsUrgent, Trim;
    TextIsLikely(message);
    PlainTextIsAppended(FRESH, message, serial);
    assert "" + message == message;
  }

  lemma KeptParts(message: string, rest: string)
    requires forall i :: 0 <= i < |message + rest| ==> IsKept((message + rest)[i])
    ensures forall i :: 0 <= i < |message| ==> IsKept(message[i])
    ensures forall i :: 0 <= i < |rest| ==> IsKept(rest[i])
  {
    var whole := message + rest;
    forall i | 0 <= i < |message| ensures IsKept(message[i]) { assert whole[i] == message[i]; }
    forall i | 0 <= i < |rest| ensures IsKept(rest[i]) { assert whole[|message| + i] == rest[i]; }
  }

  lemma MoreIsNotBlank(message: string, rest: string)
    requires Trim(message) != ""
    ensures Trim(message + rest) != ""
  {
    hide Trim;
    TrimKeepsCore(message);
    TrimKeepsCore(message + rest);
    var i :| 0 <= i < |message| && !IsBlank(message[i]);
    assert (message + rest)[i] == message[i];
  }

  lemma BreakIsCalm()
    ensures !IsUrgent("")
  {
  }
}
