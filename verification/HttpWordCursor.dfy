/**
 The chunk loop of the 32-bit build: the cursor is a word, so a size field can carry it past 2^32. The loop
 of HttpFraming is the same loop on naturals.
 */
module HttpWordCursor {
  import opened Basics
  import opened HttpFraming
  import opened HttpMessages

  // ----- one turn

  /** The same turn with the cursor kept modulo 2^32. */
  function WordChunkTurn(raw: string, cursor: nat): (t: Turn)
    requires cursor <= |raw| < WORD
    ensures t.Next? ==> t.cursor <= |raw|
  {
    var lineEnd := Find(raw, CRLF, cursor);
    if lineEnd == -1 then Stop(More) else
    var size := StrToUl(raw[cursor..lineEnd], 16);
    if size == None || size.value == 0 then ChunkTurn(raw, cursor) else
    var next := (lineEnd + 2 + size.value + 2) % WORD;
    if next > |raw| then Stop(More) else Next(next)
  }

  /** Where a nonzero size on the line at `cursor` leads on naturals; None when there is no such size. */
  function Target(raw: string, cursor: nat): Option<nat>
    requires cursor <= |raw|
  {
    var lineEnd := Find(raw, CRLF, cursor);
    if lineEnd == -1 then None else
    var size := StrToUl(raw[cursor..lineEnd], 16);
    if size == None || size.value == 0 then None else Some(lineEnd + 2 + size.value + 2)
  }

  /** The size carries the cursor past 2^32 and back into the buffer. */
  predicate WrapsIntoBuffer(raw: string, cursor: nat)
    requires cursor <= |raw|
  {
    var t := Target(raw, cursor);
    t != None && t.value >= WORD && t.value % WORD <= |raw|
  }

  /** The size carries the cursor past 2^32 and no further than where it was. */
  predicate GoesBack(raw: string, cursor: nat)
    requires cursor <= |raw|
  {
    var t := Target(raw, cursor);
    t != None && t.value >= WORD && t.value % WORD <= cursor
  }

  /** The 32-bit turn and the turn on naturals differ exactly when the cursor wraps into the buffer. */
  lemma WordTurnAgrees(raw: string, cursor: nat)
    requires cursor <= |raw| < WORD
    ensures WordChunkTurn(raw, cursor) == ChunkTurn(raw, cursor) <==> !WrapsIntoBuffer(raw, cursor)
  {
    hide Find, StrToUl, At;
  }

  /** The 32-bit turn fails to move the cursor forward exactly on such a size. */
  lemma WordTurnGoesBack(raw: string, cursor: nat)
    requires cursor <= |raw| < WORD
    ensures WordChunkTurn(raw, cursor).Next? && WordChunkTurn(raw, cursor).cursor <= cursor <==> GoesBack(raw, cursor)
  {
    hide Find, StrToUl, At;
  }

  lemma SizesAreWords(s: string, base: nat)
    ensures StrToUl(s, base) != None ==> StrToUl(s, base).value < WORD
  {
    hide SkipSpaces, DigitRun, NumberOf, DigitValue;
  }

  lemma TargetIsBounded(raw: string, cursor: nat)
    requires cursor <= |raw| < WORD - 1 && Target(raw, cursor) != None
    ensures cursor < Target(raw, cursor).value < 2 * WORD
  {
    var lineEnd := Find(raw, CRLF, cursor);
    SizesAreWords(raw[cursor..lineEnd], 16);
    hide Find, StrToUl;
  }

  /** In terms of the size: these are the targets from 2^32 up to 2^32 plus the cursor. */
  lemma BackwardTargets(raw: string, cursor: nat)
    requires cursor <= |raw| < WORD - 1
    ensures GoesBack(raw, cursor) <==>
            Target(raw, cursor) != None && WORD <= Target(raw, cursor).value <= WORD + cursor
  {
    hide Target;
    if Target(raw, cursor) != None { TargetIsBounded(raw, cursor); }
  }

  /** Sizes up to 2^31 in a buffer below 2^31 - 4 bytes never wrap. */
  lemma SmallSizesNeverWrap(raw: string, cursor: nat)
    requires cursor <= |raw| < WORD / 2 - 4
    requires var lineEnd := Find(raw, CRLF, cursor);
      lineEnd != -1 ==> SizeIsSmall(raw[cursor..lineEnd])
    ensures WordChunkTurn(raw, cursor) == ChunkTurn(raw, cursor)
  {
    WordTurnAgrees(raw, cursor);
  }

  predicate SizeIsSmall(sizeText: string) {
    var v := StrToUl(sizeText, 16);
    v == None || v.value <= WORD / 2
  }

  // ----- the loop

  datatype LoopState = Running(cursor: nat) | Ended(verdict: Progress)

  /** The loop after some turns. */
  function WordRun(raw: string, start: nat, turns: nat): (r: LoopState)
    requires start <= |raw| < WORD
    ensures r.Running? ==> r.cursor <= |raw|
  {
    if turns == 0 then Running(start) else
    match WordRun(raw, start, turns - 1)
    case Ended(p) => Ended(p)
    case Running(c) => (match WordChunkTurn(raw, c) case Stop(p) => Ended(p) case Next(d) => Running(d))
  }

  /** What the recogniser has answered after so many turns of its chunk loop, if anything. */
  function WordVerdict(raw: string, turns: nat): Option<(bool, Option<bool>)>
    requires |raw| < WORD
  {
    var headerEnd := Find(raw, BLANK, 0);
    if headerEnd == -1 then Some((false, None)) else
    var headers := HeaderText(raw, headerEnd);
    if Find(headers, CRLF + ChunkedField() + CRLF, 0) == -1 then Some(FramedVerdict(headers, raw, headerEnd + 4)) else
    match WordRun(raw, headerEnd + 4, turns)
    case Running(_) => None
    case Ended(p) => Some((p == Done, Some(Find(headers, CRLF + CloseField() + CRLF, 0) != -1 || p == Bad)))
  }

  /** No turn the loop takes from here goes back. */
  ghost predicate Forward(raw: string, start: nat)
    requires start <= |raw| < WORD
  {
    forall n: nat :: WordRun(raw, start, n).Running? ==> !GoesBack(raw, WordRun(raw, start, n).cursor)
  }

  ghost predicate NeverWraps(raw: string, start: nat)
    requires start <= |raw| < WORD
  {
    forall n: nat :: WordRun(raw, start, n).Running? ==> !WrapsIntoBuffer(raw, WordRun(raw, start, n).cursor)
  }

  lemma {:induction false} EndedStays(raw: string, start: nat, i: nat, j: nat)
    requires start <= |raw| < WORD && i <= j && WordRun(raw, start, i).Ended?
    ensures WordRun(raw, start, j) == WordRun(raw, start, i)
    decreases j
  {
    hide WordChunkTurn;
    if i < j { EndedStays(raw, start, i, j - 1); }
  }

  lemma {:induction false} ForwardAdvances(raw: string, start: nat, n: nat)
    requires start <= |raw| < WORD && Forward(raw, start) && WordRun(raw, start, n).Running?
    ensures WordRun(raw, start, n).cursor >= start + n
  {
    hide WordChunkTurn, GoesBack;
    if n > 0 {
      ForwardAdvances(raw, start, n - 1);
      WordTurnGoesBack(raw, WordRun(raw, start, n - 1).cursor);
      assert !GoesBack(raw, WordRun(raw, start, n - 1).cursor);
    }
  }

  /** A loop none of whose turns goes back ends before it has taken more turns than bytes are left. */
  lemma ForwardLoopEnds(raw: string, start: nat, n: nat)
    requires start <= |raw| < WORD && Forward(raw, start) && n > |raw| - start
    ensures WordRun(raw, start, n).Ended?
  {
    hide WordRun;
    if WordRun(raw, start, n).Running? { ForwardAdvances(raw, start, n); }
  }

  lemma {:induction false} UnwrappedRun(raw: string, start: nat, n: nat)
    requires start <= |raw| < WORD && NeverWraps(raw, start)
    ensures var r := WordRun(raw, start, n);
      Chunks(raw, start) == (if r.Running? then Chunks(raw, r.cursor) else r.verdict)
  {
    hide WordChunkTurn, ChunkTurn, WrapsIntoBuffer;
    if n > 0 {
      UnwrappedRun(raw, start, n - 1);
      var r := WordRun(raw, start, n - 1);
      if r.Running? {
        assert !WrapsIntoBuffer(raw, r.cursor);
        WordTurnAgrees(raw, r.cursor);
      }
    }
  }

  lemma UnwrappedIsForward(raw: string, start: nat)
    requires start <= |raw| < WORD && NeverWraps(raw, start)
    ensures Forward(raw, start)
  {
    hide Target, WordRun;
    forall n: nat | WordRun(raw, start, n).Running? ensures !GoesBack(raw, WordRun(raw, start, n).cursor) {
      assert !WrapsIntoBuffer(raw, WordRun(raw, start, n).cursor);
    }
  }

  // ----- exactly when the loop ends

  /** The loop comes back to a cursor it had before. */
  ghost predicate Repeats(raw: string, start: nat, i: nat, j: nat)
    requires start <= |raw| < WORD
  {
    i < j && WordRun(raw, start, i).Running? && WordRun(raw, start, j) == WordRun(raw, start, i)
  }

  lemma {:induction false} Periodic(raw: string, start: nat, i: nat, j: nat, n: nat)
    requires start <= |raw| < WORD && Repeats(raw, start, i, j) && n >= i
    ensures WordRun(raw, start, n + (j - i)) == WordRun(raw, start, n)
    decreases n
  {
    hide WordChunkTurn;
    if n > i { Periodic(raw, start, i, j, n - 1); }
  }

  lemma {:induction false} RepeatNeverEnds(raw: string, start: nat, i: nat, j: nat, n: nat)
    requires start <= |raw| < WORD && Repeats(raw, start, i, j)
    ensures WordRun(raw, start, n).Running?
    decreases n
  {
    hide WordRun;
    if n <= j {
      if WordRun(raw, start, n).Ended? { EndedStays(raw, start, n, j); }
    } else {
      RepeatNeverEnds(raw, start, i, j, n - (j - i));
      Periodic(raw, start, i, j, n - (j - i));
    }
  }

  ghost function Visited(raw: string, start: nat, n: nat): set<nat>
    requires start <= |raw| < WORD
    requires forall i: nat :: i < n ==> WordRun(raw, start, i).Running?
  {
    set i: nat | i < n :: WordRun(raw, start, i).cursor
  }

  lemma {:induction false} VisitedCount(raw: string, start: nat, n: nat)
    requires start <= |raw| < WORD
    requires forall i: nat :: i < n ==> WordRun(raw, start, i).Running?
    requires forall i: nat, j: nat :: i < j < n ==> WordRun(raw, start, i) != WordRun(raw, start, j)
    ensures |Visited(raw, start, n)| == n
  {
    hide WordRun, Visited;
    VisitedGrows(raw, start, n);
    if n > 0 { VisitedCount(raw, start, n - 1); }
  }

  lemma VisitedGrows(raw: string, start: nat, n: nat)
    requires start <= |raw| < WORD
    requires forall i: nat :: i < n ==> WordRun(raw, start, i).Running?
    requires forall i: nat, j: nat :: i < j < n ==> WordRun(raw, start, i) != WordRun(raw, start, j)
    ensures n == 0 ==> Visited(raw, start, n) == {}
    ensures n > 0 ==>
              var last := WordRun(raw, start, n - 1).cursor;
              last !in Visited(raw, start, n - 1) && Visited(raw, start, n) == Visited(raw, start, n - 1) + {last}
  {
    hide WordRun;
    if n > 0 {
      forall i: nat | i < n - 1 ensures WordRun(raw, start, i).cursor != WordRun(raw, start, n - 1).cursor {
        assert WordRun(raw, start, i) != WordRun(raw, start, n - 1);
      }
    }
  }

  lemma VisitedFits(raw: string, start: nat, n: nat)
    requires start <= |raw| < WORD
    requires forall i: nat :: i < n ==> WordRun(raw, start, i).Running?
    ensures Visited(raw, start, n) <= UpTo(|raw|)
  {
    hide WordRun;
  }

  function UpTo(n: nat): (r: set<nat>)
    ensures |r| == n + 1 && forall c: nat :: c in r <==> c <= n
  {
    if n == 0 then {0} else UpTo(n - 1) + {n}
  }

  lemma SubsetCount(a: set<nat>, b: set<nat>)
    requires a <= b
    ensures |a| <= |b|
  {
    assert b == a + (b - a);
  }

  /** The 32-bit loop ends if and only if it never comes back to a cursor, and then within |raw| + 2 turns. */
  lemma EndsExactlyWithoutRepeat(raw: string, start: nat)
    requires start <= |raw| < WORD
    ensures WordRun(raw, start, |raw| + 2).Ended? <==> (forall i: nat, j: nat :: !Repeats(raw, start, i, j))
    ensures (exists n: nat :: WordRun(raw, start, n).Ended?) <==> WordRun(raw, start, |raw| + 2).Ended?
  {
    hide WordRun, Visited;
    var n := |raw| + 2;
    if i: nat, j: nat :| Repeats(raw, start, i, j) {
      forall k: nat ensures WordRun(raw, start, k).Running? { RepeatNeverEnds(raw, start, i, j, k); }
    } else if WordRun(raw, start, n).Running? {
      forall i: nat | i < n ensures WordRun(raw, start, i).Running? {
        if WordRun(raw, start, i).Ended? { EndedStays(raw, start, i, n); }
      }
      forall i: nat, j: nat | i < j < n ensures WordRun(raw, start, i) != WordRun(raw, start, j) {
        assert !Repeats(raw, start, i, j);
      }
      VisitedCount(raw, start, n);
      VisitedFits(raw, start, n);
      SubsetCount(Visited(raw, start, n), UpTo(|raw|));
    }
  }

  // ----- the recogniser's answer

  lemma ChunkedStart(raw: string)
    ensures var h := Find(raw, BLANK, 0); h != -1 ==> 4 <= h + 4 <= |raw|
  {
  }

  /** Where the chunk loop begins, if it is reached. */
  function LoopStart(raw: string): Option<nat> {
    var h := Find(raw, BLANK, 0);
    if h == -1 || Find(HeaderText(raw, h), CRLF + ChunkedField() + CRLF, 0) == -1 then None else Some(h + 4)
  }

  lemma LoopStartFits(raw: string)
    ensures LoopStart(raw) != None ==> 4 <= LoopStart(raw).value <= |raw|
  {
    ChunkedStart(raw);
    hide HeaderText, ChunkedField;
  }

  /** With no turn going back the 32-bit recogniser answers within |raw| turns. */
  lemma ForwardAnswers(raw: string)
    requires |raw| < WORD
    requires LoopStart(raw) != None ==> LoopStart(raw).value <= |raw| && Forward(raw, LoopStart(raw).value)
    ensures WordVerdict(raw, |raw|) != None
  {
    LoopStartFits(raw);
    if LoopStart(raw) != None { ForwardLoopEnds(raw, LoopStart(raw).value, |raw|); }
    hide WordRun, Forward, HeaderText, ChunkedField, CloseField, FramedVerdict;
  }

  /** With no turn wrapping it answers what the recogniser on naturals answers. */
  lemma UnwrappedAnswersAgree(raw: string)
    requires |raw| < WORD
    requires LoopStart(raw) != None ==> LoopStart(raw).value <= |raw| && NeverWraps(raw, LoopStart(raw).value)
    ensures WordVerdict(raw, |raw|) == Some(Verdict(raw))
  {
    LoopStartFits(raw);
    if LoopStart(raw) != None {
      var start := LoopStart(raw).value;
      UnwrappedIsForward(raw, start);
      ForwardLoopEnds(raw, start, |raw|);
      UnwrappedRun(raw, start, |raw|);
    }
    hide WordRun, Forward, NeverWraps, HeaderText, ChunkedField, CloseField, LengthField, Chunks, LengthValue;
  }

  // ----- a response on which the 32-bit recogniser never answers

  const STALL: string := "FFFFFFF4"

  /** The line at `start` is that size. */
  predicate StallsAt(raw: string, start: nat) {
    start + 8 <= |raw| && raw[start..start + 8] == STALL && Find(raw, CRLF, start) == start + 8
  }

  /** It brings the cursor back to its own line, wherever that is. */
  lemma StallTurn(raw: string, start: nat)
    requires |raw| < WORD && StallsAt(raw, start)
    ensures Target(raw, start) == Some(start + WORD) && GoesBack(raw, start)
    ensures WordChunkTurn(raw, start) == Next(start)
  {
    StallSize();
    hide Find, StrToUl, At;
  }

  lemma {:induction false} StallRuns(raw: string, start: nat, turns: nat)
    requires |raw| < WORD && StallsAt(raw, start)
    ensures WordRun(raw, start, turns) == Running(start)
  {
    hide WordChunkTurn, StallsAt, GoesBack, Target;
    StallTurn(raw, start);
    if turns > 0 { StallRuns(raw, start, turns - 1); }
  }

  lemma StallLine(tail: string)
    ensures StallsAt(STALL + CRLF + tail, 0)
  {
    LineEnd(STALL, tail);
    hide Find;
  }

  lemma StallFollows(a: string, b: string, gap: nat)
    requires Follows(a, b, gap) && StallsAt(b, 0)
    ensures StallsAt(a, gap)
  {
    FindFollows(a, b, gap, CRLF, 0);
    SliceFollows(a, b, gap, 0, 8);
    hide Find, STALL, Follows;
  }

  lemma ChunkedHeadStarts(ls: seq<string>, body: string)
    requires AreLines(ls) && ls != [] && HasField(ls, ChunkedField(), true)
    ensures LoopStart(Head(ls) + body) == Some(|Head(ls)|)
  {
    hide Find, HeaderText, ChunkedField, CloseField, LengthField, Join, HasField, FirstMatch, AfterLength, At;
    FieldsOfHead(ls, body);
  }

  lemma StartedVerdict(raw: string, turns: nat)
    requires |raw| < WORD && LoopStart(raw) != None && LoopStart(raw).value <= |raw|
    requires WordRun(raw, LoopStart(raw).value, turns).Running?
    ensures WordVerdict(raw, turns) == None
  {
    hide WordRun, HeaderText, ChunkedField, CloseField, FramedVerdict, Find;
  }

  /** Whenever the line where the chunk loop begins is that size, the 32-bit recogniser never answers. */
  lemma StallNeverAnswers(raw: string, turns: nat)
    requires |raw| < WORD && LoopStart(raw) != None && StallsAt(raw, LoopStart(raw).value)
    ensures WordVerdict(raw, turns) == None
  {
    hide WordRun, WordVerdict, StallsAt;
    LoopStartFits(raw);
    StallRuns(raw, LoopStart(raw).value, turns);
    StartedVerdict(raw, turns);
  }

  /** There is such a response for every chunked head, whatever follows. */
  lemma ChunkedHeadStalls(ls: seq<string>, tail: string, turns: nat)
    requires AreLines(ls) && ls != [] && HasField(ls, ChunkedField(), true)
    requires |Head(ls) + (STALL + CRLF + tail)| < WORD
    ensures WordVerdict(Head(ls) + (STALL + CRLF + tail), turns) == None
  {
    var body := STALL + CRLF + tail;
    hide WordRun, WordVerdict, LoopStart, HasField, Head, ChunkedField, StallsAt, STALL;
    var raw := Head(ls) + body;
    assert raw[|Head(ls)|..] == body;
    StallLine(tail);
    StallFollows(raw, body, |Head(ls)|);
    ChunkedHeadStarts(ls, body);
    StallNeverAnswers(raw, turns);
  }

  lemma StallSize()
    ensures StrToUl("FFFFFFF4", 16) == Some(0xFFFF_FFF4)
  {
    hide SkipSpaces, DigitRun, NumberOf, DigitValue;
    StallDigits();
    NumberFFFFFFF4();
    assert "FFFFFFF4"[..8] == "FFFFFFF4";
  }

  lemma StallDigits()
    ensures SkipSpaces("FFFFFFF4") == "FFFFFFF4" && DigitRun("FFFFFFF4", 16) == 8
  {
    hide NumberOf;
    AllDigits("FFFFFFF4", 16);
  }

  lemma AllDigits(digits: string, base: nat)
    requires forall i :: 0 <= i < |digits| ==> DigitValue(digits[i]) < base
    ensures DigitRun(digits, base) == |digits|
  {
  }

  lemma NumberFFFFFFF4()
    ensures NumberOf("FFFFFFF4", 16) == 0xFFFF_FFF4
  {
    assert "FFFFFFF4"[..7] == "FFFFFFF";
    assert "FFFFFFF"[..6] == "FFFFFF";
    assert "FFFFFF"[..5] == "FFFFF";
    assert "FFFFF"[..4] == "FFFF";
    assert "FFFF"[..3] == "FFF";
    assert "FFF"[..2] == "FF";
    assert "FF"[..1] == "F";
    assert "F"[..0] == "";
    assert NumberOf("F", 16) == 15;
    assert NumberOf("FF", 16) == 0xFF;
    assert NumberOf("FFF", 16) == 0xFFF;
    assert NumberOf("FFFF", 16) == 0xFFFF;
    assert NumberOf("FFFFF", 16) == 0xF_FFFF;
    assert NumberOf("FFFFFF", 16) == 0xFF_FFFF;
    assert NumberOf("FFFFFFF", 16) == 0xFFF_FFFF;
  }
}
