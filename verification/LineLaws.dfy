/**
 What the assembler does to the text it is fed, said without its steps: where lines end, which bytes they keep,
 which chunks count as text, what an unknown source and a flush report, and that the early-report test is one for
 the messages alone.
 */
module LineLaws {
  import opened LineAssembly

  // ----- the bytes, by number

  /** Printable ASCII and everything from 128 up is kept. */
  predicate IsPrintable(n: nat) { (32 <= n && n <= 126) || 128 <= n }

  /** 9 is the tab, 10 and 13 the line breaks, 32 the space. */
  lemma BytesByNumber(c: char)
    ensures IsKept(c) <==> IsPrintable(c as int)
    ensures IsBreak(c) <==> c as int in {10, 13}
    ensures IsBlank(c) <==> c as int in {9, 10, 13, 32}
    ensures IsTextByte(c) <==> IsPrintable(c as int) || c as int in {9, 10, 13}
  {
  }

  /** Two characters match when they are equal or the two cases of one letter. */
  predicate SameLetter(a: char, b: char) {
    || a == b
    || (65 <= a as int <= 90 && b as int == a as int + 32)
    || (65 <= b as int <= 90 && a as int == b as int + 32)
  }

  lemma MatchesIgnoringCase(text: string, i: nat, needle: string)
    requires i + |needle| <= |text|
    ensures MatchesAt(text, i, needle) <==> forall j :: 0 <= j < |needle| ==> SameLetter(text[i + j], needle[j])
  {
    forall a: char, b: char ensures LowerChar(a) == LowerChar(b) <==> SameLetter(a, b) {}
  }

  /** An empty needle is in no text; a text contains each of its nonempty slices, whatever the case of either. */
  lemma SlicesAreContained(text: string, needle: string)
    ensures !Contains(text, "")
    ensures needle != "" ==>
              (Contains(text, needle) <==> exists i: nat :: i + |needle| <= |text| && MatchesAt(text, i, needle))
  {
  }

  /** The shortest message has twelve letters, so the length shortcut never hides one. */
  lemma UrgentIsAMessage(line: string)
    ensures IsUrgent(line) <==> exists k :: 0 <= k < |KeywordList()| && Contains(line, KeywordList()[k])
  {
    forall k | 0 <= k < |KeywordList()| && Contains(line, KeywordList()[k]) ensures |line| >= 12 {
      MessagesAreLong(k);
    }
    hide KeywordList, MatchesAt;
  }

  lemma MessagesAreLong(k: nat)
    requires k < |KeywordList()|
    ensures |KeywordList()[k]| >= 12
  {
  }

  // ----- lines

  /** What a line keeps of these bytes: a byte that is not kept becomes a space. */
  function Shown(text: string): (r: string)
    ensures |r| == |text| && forall i :: 0 <= i < |r| ==> r[i] == if IsPrintable(text[i] as int) then text[i] else ' '
  {
    seq(|text|, i requires 0 <= i < |text| => if IsPrintable(text[i] as int) then text[i] else ' ')
  }

  /** Neither a line break nor the end. */
  predicate Plain(text: string) { forall i :: 0 <= i < |text| ==> !IsBreak(text[i]) && text[i] != NUL }

  /** The report of a line: its trimmed text, unless it is blank. */
  function Report(line: string, snapshot: int): seq<Line> {
    if Trim(line) == "" then [] else [Line(Trim(line), snapshot)]
  }

  /** The pending line grows by what is shown; its snapshot is the one of its first byte. */
  function Grown(a: Assembler, text: string, serial: int): Assembler {
    a.(line := a.line + Shown(text), snapshot := if a.line == "" && text != "" then serial else a.snapshot)
  }

  function Ended(a: Assembler): Assembler { Assembler("", -1, a.reported + Report(a.line, a.snapshot)) }

  lemma FlushEnds(a: Assembler)
    ensures Flush(a) == Ended(a)
  {
    assert a.reported + [] == a.reported;
  }

  lemma FeedGrows(a: Assembler, c: char, serial: int)
    ensures Feed(a, c, serial) ==
      if IsBreak(c) then Flush(a)
      else if |a.line| + 1 >= MAX_LINE then Flush(Grown(a, [c], serial)) else Grown(a, [c], serial)
  {
    BytesByNumber(c);
    assert Shown([c]) == [if IsKept(c) then c else ' '];
    hide Flush;
  }

  /** Below 240 bytes nothing is reported. */
  lemma {:induction false} ShortLinesWait(a: Assembler, text: string, rest: string, serial: int)
    requires Plain(text) && |a.line| + |text| < MAX_LINE
    ensures FeedText(a, text + rest, serial) == FeedText(Grown(a, text, serial), rest, serial)
    decreases |text|
  {
    if text == "" {
      assert text + rest == rest;
      assert a.line + Shown("") == a.line;
    } else {
      FeedGrows(a, text[0], serial);
      hide Feed, IsBreak;
      var b := Grown(a, [text[0]], serial);
      assert (text + rest)[0] == text[0] && (text + rest)[1..] == text[1..] + rest;
      ShortLinesWait(b, text[1..], rest, serial);
      GrownTwice(a, text, serial);
    }
  }

  lemma GrownTwice(a: Assembler, text: string, serial: int)
    requires text != ""
    ensures Grown(Grown(a, [text[0]], serial), text[1..], serial) == Grown(a, text, serial)
  {
    assert a.line + Shown([text[0]]) + Shown(text[1..]) == a.line + Shown(text);
  }

  /** A line break ends the line. */
  lemma BreakEndsLine(a: Assembler, text: string, br: char, rest: string, serial: int)
    requires Plain(text) && |a.line| + |text| < MAX_LINE && IsBreak(br)
    ensures FeedText(a, text + [br] + rest, serial) == FeedText(Ended(Grown(a, text, serial)), rest, serial)
  {
    assert text + [br] + rest == text + ([br] + rest);
    ShortLinesWait(a, text, [br] + rest, serial);
    assert ([br] + rest)[1..] == rest;
    FlushEnds(Grown(a, text, serial));
  }

  /** So does the 240th byte, which the reported line still holds. */
  lemma FullLineEnds(a: Assembler, text: string, rest: string, serial: int)
    requires Plain(text) && text != "" && |a.line| + |text| == MAX_LINE
    ensures FeedText(a, text + rest, serial) == FeedText(Ended(Grown(a, text, serial)), rest, serial)
  {
    var n := |text| - 1;
    var last := text[n];
    assert text + rest == text[..n] + ([last] + rest);
    ShortLinesWait(a, text[..n], [last] + rest, serial);
    var b := Grown(a, text[..n], serial);
    assert ([last] + rest)[1..] == rest;
    FeedGrows(b, last, serial);
    GrownLast(a, text, serial);
    FlushEnds(Grown(a, text, serial));
    hide Feed, Flush, Grown, IsBreak;
    assert FeedText(b, [last] + rest, serial) == FeedText(Feed(b, last, serial), rest, serial);
  }

  lemma GrownLast(a: Assembler, text: string, serial: int)
    requires text != ""
    ensures var n := |text| - 1; var b := Grown(a, text[..n], serial);
      |b.line| == |a.line| + n && Grown(b, [text[n]], serial) == Grown(a, text, serial)
  {
    var n := |text| - 1;
    assert a.line + Shown(text[..n]) + Shown([text[n]]) == a.line + Shown(text);
  }

  /** Nothing after a NUL is looked at. */
  lemma {:induction false} NulEndsChunk(a: Assembler, text: string, rest: string, serial: int)
    requires forall i :: 0 <= i < |text| ==> text[i] != NUL
    ensures FeedText(a, text + [NUL] + rest, serial) == FeedText(a, text, serial)
    decreases |text|
  {
    if text == "" {
      assert (text + [NUL] + rest)[0] == NUL;
    } else {
      assert (text + [NUL] + rest)[1..] == text[1..] + [NUL] + rest;
      NulEndsChunk(Feed(a, text[0], serial), text[1..], rest, serial);
    }
  }

  // ----- is it text

  /** The text bytes of a chunk, by number. */
  function OnlyText(text: string): string {
    if text == "" then "" else
    var n := text[0] as int;
    (if IsPrintable(n) || n in {9, 10, 13} then [text[0]] else []) + OnlyText(text[1..])
  }

  predicate NoNul(text: string) { forall i :: 0 <= i < |text| ==> text[i] != NUL }

  lemma {:induction false} CountsBytes(text: string, rest: string)
    requires NoNul(text) && (rest == "" || rest[0] == NUL)
    ensures BytesBeforeNul(text + rest) == |text| && TextBytesBeforeNul(text + rest) == |OnlyText(text)|
    decreases |text|
  {
    if text == "" {
      assert text + rest == rest;
    } else {
      assert (text + rest)[1..] == text[1..] + rest;
      CountsBytes(text[1..], rest);
      BytesByNumber(text[0]);
    }
  }

  /** A chunk is text when at least half of its bytes before the first NUL are, rounded down, and there is one. */
  lemma TextByCount(text: string, rest: string)
    requires NoNul(text) && (rest == "" || rest[0] == NUL)
    ensures LikelyText(text + rest) <==> text != "" && 2 * |OnlyText(text)| + 1 >= |text|
  {
    CountsBytes(text, rest);
  }

  /** Anything else is passed over, whatever its source. */
  lemma OtherChunksAreIgnored(a: Assembler, known: bool, text: string, serial: int)
    requires !LikelyText(text)
    ensures Process(a, known, text, serial) == a
  {
  }

  // ----- unknown sources and flushes

  lemma {:induction false} ReportsAreAppended(a: Assembler, text: string, serial: int, before: seq<Line>)
    ensures var b := FeedText(a.(reported := before + a.reported), text, serial);
      b == FeedText(a, text, serial).(reported := before + FeedText(a, text, serial).reported)
    decreases |text|
  {
    if text != "" && text[0] != NUL {
      FeedAppends(a, text[0], serial, before);
      ReportsAreAppended(Feed(a, text[0], serial), text[1..], serial, before);
    }
  }

  lemma FlushAppends(a: Assembler, before: seq<Line>)
    ensures Flush(a.(reported := before + a.reported)) == Flush(a).(reported := before + Flush(a).reported)
  {
    FlushEnds(a);
    FlushEnds(a.(reported := before + a.reported));
    assert before + a.reported + Report(a.line, a.snapshot) == before + (a.reported + Report(a.line, a.snapshot));
  }

  lemma FeedAppends(a: Assembler, c: char, serial: int, before: seq<Line>)
    ensures Feed(a.(reported := before + a.reported), c, serial)
      == Feed(a, c, serial).(reported := before + Feed(a, c, serial).reported)
  {
    var n := a.(reported := before + a.reported);
    FlushAppends(a, before);
    FlushAppends(Grown(a, [c], serial), before);
    FeedGrows(a, c, serial);
    FeedGrows(n, c, serial);
    hide Flush, Feed;
    assert Grown(n, [c], serial) == Grown(a, [c], serial).(reported := before + Grown(a, [c], serial).reported);
  }

  /** A chunk of an unknown source reports what a fresh source would, its last line included, and leaves the
      pending line alone. */
  lemma UnknownReportsAll(a: Assembler, text: string, serial: int)
    ensures Process(a, false, text, serial) ==
      a.(reported := a.reported + FlushPending(Process(FRESH, true, text, serial)).reported)
  {
    if text == "" || !LikelyText(text) {
      assert a.reported + [] == a.reported;
    } else {
      var f := FeedText(FRESH, text, serial);
      ReportsAreAppended(FRESH, text, serial, a.reported);
      assert FRESH.(reported := a.reported + FRESH.reported) == a.(line := "", snapshot := -1);
      FlushAppends(f, a.reported);
      hide FeedText, IsUrgent, Trim;
    }
  }

  /** A flush reports the pending line and empties it, like a line break does; both report nothing for a blank line. */
  lemma FlushReportsPending(a: Assembler)
    ensures FlushPending(a).line == "" && FlushPending(a).reported == a.reported + Report(a.line, a.snapshot)
    ensures Trim(a.line) != "" ==> FlushPending(a) == Flush(a)
  {
    FlushEnds(a);
    assert a.reported + [] == a.reported;
  }
}
