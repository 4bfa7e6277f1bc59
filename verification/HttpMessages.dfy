/**
 Printed HTTP/1.1 responses, and the recogniser's exactness on them: complete on the whole message
 and on no proper prefix of it.
 */
module HttpMessages {
  import opened Basics
  import opened HttpFraming
  import opened HttpNumbers

  // ----- lines

  predicate PlainText(s: string) { forall i :: 0 <= i < |s| ==> s[i] != '\r' && s[i] != '\n' }

  predicate AreLines(ls: seq<string>) { forall i :: 0 <= i < |ls| ==> ls[i] != "" && PlainText(ls[i]) }

  function Join(ls: seq<string>): string { if ls == [] then "" else ls[0] + CRLF + Join(ls[1..]) }

  /** A status line and fields, or trailer fields, up to and including the empty line. */
  function Head(ls: seq<string>): string { Join(ls) + CRLF }

  lemma NotAtOther(s: string, i: nat, pat: string)
    requires pat != "" && i < |s| && s[i] != pat[0]
    ensures !At(s, i, pat)
  {
    NotAtLater(s, i, pat, 0);
  }

  lemma NotAtLater(s: string, i: nat, pat: string, k: nat)
    requires k < |pat| && i + k < |s| && s[i + k] != pat[k]
    ensures !At(s, i, pat)
  {
    if i + |pat| <= |s| { assert s[i..i + |pat|][k] == s[i + k]; }
  }

  /** The first line break after a line is the one that ends it. */
  lemma LineEnd(line: string, rest: string)
    requires PlainText(line)
    ensures Find(line + CRLF + rest, CRLF, 0) == |line|
  {
    var s := line + CRLF + rest;
    assert s[|line|..|line| + 2] == CRLF && At(s, |line|, CRLF);
    forall j | 0 <= j < |line| ensures !At(s, j, CRLF) {
      assert s[j] == line[j] != '\r';
      NotAtOther(s, j, CRLF);
    }
  }

  lemma NoLineEnd(line: string, p: string)
    requires PlainText(line) && p <= line + CRLF && |p| < |line| + 2
    ensures Find(p, CRLF, 0) == -1
  {
    if Find(p, CRLF, 0) != -1 {
      var rest := (line + CRLF)[|p|..];
      assert p + rest == line + CRLF + "";
      FindExtend(p, rest, CRLF, 0);
      LineEnd(line, "");
    }
  }

  lemma HeadUnfold(ls: seq<string>, body: string)
    requires ls != []
    ensures Head(ls) + body == ls[0] + CRLF + (Head(ls[1..]) + body)
  {
  }

  /** No empty line begins inside a line that is followed by a break and another line. */
  lemma NoBlankInLine(line: string, s: string, next: char)
    requires PlainText(line) && next != '\r' && |s| > |line| + 2 && s[..|line|] == line
    requires s[|line|] == '\r' && s[|line| + 1] == '\n' && s[|line| + 2] == next
    ensures forall j :: 0 <= j < |line| + 2 ==> !At(s, j, BLANK)
  {
    forall j | 0 <= j < |line| + 2 ensures !At(s, j, BLANK) {
      if j < |line| {
        assert s[j] == s[..|line|][j] == line[j] != '\r';
        NotAtOther(s, j, BLANK);
      } else if j == |line| {
        NotAtLater(s, j, BLANK, 2);
      } else {
        NotAtOther(s, j, BLANK);
      }
    }
  }

  lemma LastLineBlank(line: string, body: string)
    requires PlainText(line)
    ensures Find(line + CRLF + CRLF + body, BLANK, 0) == |line|
  {
    var s := line + CRLF + CRLF + body;
    assert s[|line|..|line| + 4] == BLANK && At(s, |line|, BLANK);
    forall j | 0 <= j < |line| ensures !At(s, j, BLANK) {
      assert s[j] == line[j] != '\r';
      NotAtOther(s, j, BLANK);
    }
  }

  lemma HeadBegins(ls: seq<string>, body: string)
    requires AreLines(ls) && ls != []
    ensures Head(ls) + body != "" && (Head(ls) + body)[0] != '\r'
  {
    HeadUnfold(ls, body);
  }

  /** The first empty line of a message is the one that ends its head. */
  lemma {:induction false} BlankEndsHead(ls: seq<string>, body: string)
    requires AreLines(ls) && ls != []
    ensures Find(Head(ls) + body, BLANK, 0) == |Join(ls)| - 2
    decreases |ls|
  {
    hide Find, At;
    HeadUnfold(ls, body);
    var line, rest := ls[0], ls[1..];
    if rest == [] {
      assert Head(ls) + body == line + CRLF + CRLF + body;
      LastLineBlank(line, body);
    } else {
      BlankEndsHead(rest, body);
      var tail := Head(rest) + body;
      var s := line + CRLF + tail;
      HeadBegins(rest, body);
      assert s == (line + CRLF) + tail && s[..|line|] == line;
      NoBlankInLine(line, s, tail[0]);
      FindPast(line + CRLF, tail, BLANK);
    }
  }

  lemma HeadPrefixHasNoBlank(ls: seq<string>, p: string)
    requires AreLines(ls) && ls != [] && p <= Head(ls) && |p| < |Head(ls)|
    ensures Find(p, BLANK, 0) == -1
  {
    if Find(p, BLANK, 0) != -1 {
      var rest := Head(ls)[|p|..];
      assert p + rest == Head(ls) + "";
      FindExtend(p, rest, BLANK, 0);
      BlankEndsHead(ls, "");
    }
  }

  // ----- searching the lower-cased head for a field

  function LowerAll(ls: seq<string>): (r: seq<string>)
    ensures |r| == |ls| && forall i :: 0 <= i < |ls| ==> r[i] == Lower(ls[i])
  {
    seq(|ls|, i requires 0 <= i < |ls| => Lower(ls[i]))
  }

  /** The text the fields are searched in: a line break, then every line with its line break. */
  function FieldText(ls: seq<string>): string { CRLF + Join(ls) }

  lemma {:induction false} LowerJoin(ls: seq<string>)
    ensures Lower(Join(ls)) == Join(LowerAll(ls))
    decreases |ls|
  {
    if ls != [] {
      LowerJoin(ls[1..]);
      assert LowerAll(ls)[1..] == LowerAll(ls[1..]);
      assert Lower(CRLF) == CRLF;
      assert Lower(ls[0] + CRLF + Join(ls[1..])) == Lower(ls[0]) + Lower(CRLF) + Lower(Join(ls[1..]));
    }
  }

  lemma LowerLines(ls: seq<string>)
    requires AreLines(ls)
    ensures AreLines(LowerAll(ls))
  {
    forall l | l in LowerAll(ls) ensures l != "" && PlainText(l) {
      var i :| 0 <= i < |ls| && l == Lower(ls[i]);
      assert ls[i] in ls;
    }
  }

  /** A field line that is `key`, or that starts with it. */
  predicate Matches(line: string, key: string, whole: bool) { if whole then line == key else key <= line }

  function Pattern(key: string, whole: bool): string { CRLF + key + (if whole then CRLF else "") }

  function FirstMatch(ls: seq<string>, key: string, whole: bool): (k: nat)
    ensures k <= |ls| && (k < |ls| ==> Matches(ls[k], key, whole))
    ensures forall i :: 0 <= i < k ==> !Matches(ls[i], key, whole)
  {
    if ls == [] || Matches(ls[0], key, whole) then 0 else 1 + FirstMatch(ls[1..], key, whole)
  }

  /** A key without line breaks that starts a line's text lies inside the line. */
  lemma KeyFits(line: string, tail: string, key: string)
    requires PlainText(key) && CRLF <= tail && key <= line + tail
    ensures key <= line
  {
    var text := line + tail;
    assert text[|line|] == tail[0] == '\r';
    assert line == text[..|line|];
  }

  lemma KeyFills(line: string, tail: string, key: string)
    requires PlainText(line) && key <= line && key + CRLF <= line + tail
    ensures line == key
  {
    assert (key + CRLF)[|key|] == '\r';
    assert (line + tail)[|key|] == '\r';
  }

  lemma KeyAtLine(line: string, tail: string, key: string, whole: bool)
    requires PlainText(line) && PlainText(key) && CRLF <= tail
    ensures At(CRLF + line + tail, 0, Pattern(key, whole)) <==> Matches(line, key, whole)
  {
    var s, pat := CRLF + line + tail, Pattern(key, whole);
    assert s[2..] == line + tail && pat[2..] == key + (if whole then CRLF else "");
    if At(s, 0, pat) {
      assert pat == s[..|pat|];
      assert pat[2..] == s[2..][..|pat| - 2];
      assert key == pat[2..][..|key|];
      KeyFits(line, tail, key);
      if whole { KeyFills(line, tail, key); }
    }
    if Matches(line, key, whole) {
      assert line[..|key|] == key;
      assert s[0..|pat|] == pat;
    }
  }

  /** No field starts before the line break that ends a line other than a matching one. */
  lemma FieldMiss(line: string, tail: string, key: string, whole: bool)
    requires PlainText(line) && PlainText(key) && CRLF <= tail && !Matches(line, key, whole)
    ensures forall j :: 0 <= j < |CRLF + line| ==> !At((CRLF + line) + tail, j, Pattern(key, whole))
  {
    var s, pat := (CRLF + line) + tail, Pattern(key, whole);
    KeyAtLine(line, tail, key, whole);
    forall j | 0 <= j < |CRLF + line| ensures !At(s, j, pat) {
      if j > 0 {
        assert s[j] == (CRLF + line)[j];
        assert j > 1 ==> s[j] == line[j - 2];
        NotAtOther(s, j, pat);
      }
    }
  }

  /** Position `i` of the text is the line break before line `k`, or neither exists. */
  predicate Located(ls: seq<string>, i: int, k: nat) {
    && (i == -1 <==> k == |ls|)
    && (i != -1 ==>
          && 0 <= i && k < |ls| && i + 2 <= |FieldText(ls)|
          && FieldText(ls)[i + 2..] == ls[k] + FieldText(ls[k + 1..]))
  }

  lemma FieldTextUnfolds(ls: seq<string>)
    requires ls != []
    ensures FieldText(ls) == (CRLF + ls[0]) + FieldText(ls[1..])
    ensures FieldText(ls)[2..] == ls[0] + FieldText(ls[1..])
    ensures CRLF <= FieldText(ls[1..])
  {
  }

  lemma FieldHit(ls: seq<string>, key: string, whole: bool)
    requires AreLines(ls) && PlainText(key) && key != "" && ls != [] && Matches(ls[0], key, whole)
    ensures Find(FieldText(ls), Pattern(key, whole), 0) == 0 && Located(ls, 0, 0)
  {
    hide Find, At, Pattern, FieldText, Matches, PlainText;
    FieldTextUnfolds(ls);
    assert ls[0 + 1..] == ls[1..];
    KeyAtLine(ls[0], FieldText(ls[1..]), key, whole);
  }

  lemma EmptyField(key: string, whole: bool)
    requires key != ""
    ensures Located([], Find(FieldText([]), Pattern(key, whole), 0), 0)
  {
    assert FieldText([]) == CRLF;
  }

  lemma FieldStep(ls: seq<string>, key: string, whole: bool, k: nat)
    requires AreLines(ls) && PlainText(key) && key != "" && ls != [] && !Matches(ls[0], key, whole)
    requires Located(ls[1..], Find(FieldText(ls[1..]), Pattern(key, whole), 0), k)
    ensures Located(ls, Find(FieldText(ls), Pattern(key, whole), 0), k + 1)
  {
    hide Find, At, Pattern, FieldText, Matches, PlainText;
    var line, tail := ls[0], FieldText(ls[1..]);
    FieldTextUnfolds(ls);
    FieldMiss(line, tail, key, whole);
    FindPast(CRLF + line, tail, Pattern(key, whole));
    FieldLater(ls, Find(tail, Pattern(key, whole), 0), k);
  }

  /** The search finds the first matching line, and nothing when there is none. */
  lemma {:induction false} FindField(ls: seq<string>, key: string, whole: bool)
    requires AreLines(ls) && PlainText(key) && key != ""
    ensures Located(ls, Find(FieldText(ls), Pattern(key, whole), 0), FirstMatch(ls, key, whole))
    decreases |ls|
  {
    hide Find, At, Pattern, FieldText, Matches, Located, PlainText;
    if ls == [] {
      EmptyField(key, whole);
    } else if Matches(ls[0], key, whole) {
      FieldHit(ls, key, whole);
    } else {
      FindField(ls[1..], key, whole);
      FieldStep(ls, key, whole, FirstMatch(ls[1..], key, whole));
    }
  }

  lemma FieldLater(ls: seq<string>, i: int, k: nat)
    requires ls != []
    requires i >= 0 ==> k < |ls| - 1 && i + 2 <= |FieldText(ls[1..])|
    requires i >= 0 ==> FieldText(ls[1..])[i + 2..] == ls[1..][k] + FieldText(ls[1..][k + 1..])
    ensures i >= 0 ==> |ls[0]| + 4 + i <= |FieldText(ls)|
    ensures i >= 0 ==> FieldText(ls)[|ls[0]| + 4 + i..] == ls[k + 1] + FieldText(ls[k + 2..])
  {
    if i >= 0 {
      var pre, tail := CRLF + ls[0], FieldText(ls[1..]);
      assert FieldText(ls) == pre + tail;
      assert (pre + tail)[|pre| + (i + 2)..] == tail[i + 2..];
      assert ls[1..][k + 1..] == ls[k + 2..];
    }
  }

  // ----- the verdict on a head and any bytes after it

  /** The second buffer is what follows the first `gap` bytes of the first one. */
  predicate Follows(a: string, b: string, gap: nat) { gap <= |a| && a[gap..] == b }

  lemma FindFollows(a: string, b: string, gap: nat, pat: string, from: nat)
    requires Follows(a, b, gap) && from <= |b|
    ensures |a| == |b| + gap
    ensures Find(a, pat, from + gap) == Shifted(Find(b, pat, from), gap)
  {
    assert a == a[..gap] + b;
    FindShift(a[..gap], b, pat, from);
  }

  lemma AtFollows(a: string, b: string, gap: nat, pat: string, i: nat)
    requires Follows(a, b, gap)
    ensures At(a, i + gap, pat) <==> At(b, i, pat)
  {
    assert a == a[..gap] + b;
    AtShift(a[..gap], b, pat, i);
  }

  lemma SliceFollows(a: string, b: string, gap: nat, i: nat, j: nat)
    requires Follows(a, b, gap) && i <= j <= |b|
    ensures j + gap <= |a| && a[i + gap..j + gap] == b[i..j]
  {
    assert a[gap..][i..j] == a[i + gap..j + gap];
  }

  function Shifted(i: int, gap: nat): int { if i == -1 then -1 else i + gap }

  /** Two buffers in which the same searches give the same answers take the same turn. */
  lemma TurnsAgree(a: string, b: string, cursor: nat, gap: nat)
    requires cursor <= |b| && |a| == |b| + gap
    requires Find(a, CRLF, cursor + gap) == Shifted(Find(b, CRLF, cursor), gap)
    requires var i := Find(b, CRLF, cursor);
      i != -1 ==>
        && cursor <= i && i + 2 <= |b| && a[cursor + gap..i + gap] == b[cursor..i]
        && (At(a, i + 2 + gap, CRLF) <==> At(b, i + 2, CRLF))
        && Find(a, BLANK, i + 2 + gap) == Shifted(Find(b, BLANK, i + 2), gap)
    ensures var t, u := ChunkTurn(a, cursor + gap), ChunkTurn(b, cursor);
      t == if u.Stop? then u else Next(u.cursor + gap)
  {
    hide StrToUl, Find, At;
  }

  lemma LineEndFits(s: string, cursor: nat)
    requires cursor <= |s|
    ensures var i := Find(s, CRLF, cursor); i != -1 ==> cursor <= i && i + 2 <= |s|
  {
  }

  lemma TurnFollows(a: string, b: string, gap: nat, cursor: nat)
    requires Follows(a, b, gap) && cursor <= |b|
    ensures |a| == |b| + gap
    ensures var t, u := ChunkTurn(a, cursor + gap), ChunkTurn(b, cursor);
      t == if u.Stop? then u else Next(u.cursor + gap)
  {
    hide Follows, Find, At, ChunkTurn;
    var i := Find(b, CRLF, cursor);
    LineEndFits(b, cursor);
    FindFollows(a, b, gap, CRLF, cursor);
    if i != -1 {
      AtFollows(a, b, gap, CRLF, i + 2);
      FindFollows(a, b, gap, BLANK, i + 2);
      SliceFollows(a, b, gap, cursor, i);
    }
    TurnsAgree(a, b, cursor, gap);
  }

  lemma {:induction false} ChunksFollow(a: string, b: string, gap: nat, cursor: nat)
    requires Follows(a, b, gap) && cursor <= |b|
    ensures |a| == |b| + gap && Chunks(a, cursor + gap) == Chunks(b, cursor)
    decreases |b| - cursor
  {
    hide ChunkTurn, Follows;
    TurnFollows(a, b, gap, cursor);
    var t := ChunkTurn(b, cursor);
    if t.Next? { ChunksFollow(a, b, gap, t.cursor); }
  }

  lemma ChunksShift(pre: string, s: string, cursor: nat)
    requires cursor <= |s|
    ensures Chunks(pre + s, |pre| + cursor) == Chunks(s, cursor)
  {
    hide Chunks;
    assert (pre + s)[|pre|..] == s;
    ChunksFollow(pre + s, s, |pre|, cursor);
  }

  predicate HasField(ls: seq<string>, key: string, whole: bool) { FirstMatch(LowerAll(ls), key, whole) < |ls| }

  /** For any head and any bytes after it the verdict is decided by the fields and those bytes. */
  lemma VerdictOfHead(ls: seq<string>, body: string)
    requires AreLines(ls) && ls != []
    ensures var close := HasField(ls, CloseField(), true);
      var k := FirstMatch(LowerAll(ls), LengthField(), false);
      Verdict(Head(ls) + body) ==
        if HasField(ls, ChunkedField(), true) then (Chunks(body, 0) == Done, Some(close || Chunks(body, 0) == Bad))
        else if k == |ls| then (false, Some(true))
        else (|body| >= LengthValue(AfterLength(LowerAll(ls), k)), Some(close))
  {
    hide Chunks, LengthValue, Lower, Find, FirstMatch, FieldText, HeaderText, ChunkedField, LengthField, CloseField;
    hide Join, FramedVerdict, HasField;
    FieldsOfHead(ls, body);
    var headerEnd := |Join(ls)| - 2;
    VerdictUnfolds(Head(ls) + body, headerEnd);
    FramedUnfolds(ls, HeaderText(Head(ls) + body, headerEnd), Head(ls) + body, headerEnd + 4);
    ChunksShift(Head(ls), body, 0);
  }

  lemma VerdictUnfolds(raw: string, headerEnd: nat)
    requires Find(raw, BLANK, 0) == headerEnd
    ensures Verdict(raw) == FramedVerdict(HeaderText(raw, headerEnd), raw, headerEnd + 4)
  {
    hide Find, FramedVerdict, HeaderText;
  }

  lemma FramedUnfolds(ls: seq<string>, headers: string, raw: string, bodyStart: nat)
    requires bodyStart <= |raw| && FieldsFound(ls, headers)
    ensures var close := HasField(ls, CloseField(), true);
      var k := FirstMatch(LowerAll(ls), LengthField(), false);
      FramedVerdict(headers, raw, bodyStart) ==
        if HasField(ls, ChunkedField(), true)
        then (Chunks(raw, bodyStart) == Done, Some(close || Chunks(raw, bodyStart) == Bad))
        else if k == |ls| then (false, Some(true))
        else (|raw| - bodyStart >= LengthValue(AfterLength(LowerAll(ls), k)), Some(close))
  {
    hide Chunks, LengthValue, Lower, Find, FirstMatch, FieldText, ChunkedField, LengthField, CloseField;
    hide HasField, LowerAll, AfterLength;
  }

  /** The lower-cased head from the value of line `k` on. */
  function AfterLength(low: seq<string>, k: nat): string
    requires k < |low| && LengthField() <= low[k]
  {
    low[k][|LengthField()|..] + FieldText(low[k + 1..])
  }

  predicate FieldsFound(ls: seq<string>, headers: string) {
    && (Find(headers, CRLF + CloseField() + CRLF, 0) != -1 <==> HasField(ls, CloseField(), true))
    && (Find(headers, CRLF + ChunkedField() + CRLF, 0) != -1 <==> HasField(ls, ChunkedField(), true))
    && var i, k := Find(headers, CRLF + LengthField(), 0), FirstMatch(LowerAll(ls), LengthField(), false);
    && (i == -1 <==> k == |ls|)
    && (i != -1 ==> headers[i + |CRLF + LengthField()|..] == AfterLength(LowerAll(ls), k))
  }

  /** What the recogniser's searches of the head find. */
  lemma FieldsOfHead(ls: seq<string>, body: string)
    requires AreLines(ls) && ls != []
    ensures var headerEnd := |Join(ls)| - 2;
      && 0 <= headerEnd == Find(Head(ls) + body, BLANK, 0)
      && FieldsFound(ls, HeaderText(Head(ls) + body, headerEnd))
  {
    hide Find, FieldsFound, Lower, FieldText;
    var raw, headerEnd := Head(ls) + body, |Join(ls)| - 2;
    BlankEndsHead(ls, body);
    assert raw[..headerEnd + 2] == Join(ls);
    LowerText(ls);
    FieldsOfText(ls);
  }

  lemma FieldsOfText(ls: seq<string>)
    requires AreLines(ls)
    ensures FieldsFound(ls, FieldText(LowerAll(ls)))
  {
    hide Find, FirstMatch, Lower, FieldText, LowerAll, ChunkedField, LengthField, CloseField;
    var low := LowerAll(ls);
    var text := FieldText(low);
    LowerLines(ls);
    KeysArePlain();
    FindField(low, CloseField(), true);
    FindField(low, ChunkedField(), true);
    FindField(low, LengthField(), false);
    assert Pattern(CloseField(), true) == CRLF + CloseField() + CRLF;
    assert Pattern(ChunkedField(), true) == CRLF + ChunkedField() + CRLF;
    assert Pattern(LengthField(), false) == CRLF + LengthField();
    var i, k := Find(text, CRLF + LengthField(), 0), FirstMatch(low, LengthField(), false);
    if i != -1 { AfterKey(text, i, LengthField(), low[k], FieldText(low[k + 1..])); }
  }

  lemma LowerText(ls: seq<string>)
    ensures Lower(CRLF + Join(ls)) == FieldText(LowerAll(ls))
  {
    LowerJoin(ls);
    assert Lower(CRLF) == CRLF;
    assert Lower(CRLF + Join(ls)) == Lower(CRLF) + Lower(Join(ls));
  }

  lemma KeysArePlain()
    ensures PlainText(CloseField()) && PlainText(ChunkedField()) && PlainText(LengthField())
    ensures CloseField() != "" && ChunkedField() != "" && LengthField() != ""
  {
  }

  lemma AfterKey(text: string, i: nat, key: string, line: string, rest: string)
    requires At(text, i, CRLF + key) && text[i + 2..] == line + rest && key <= line
    ensures text[i + |CRLF + key|..] == line[|key|..] + rest
  {
    assert text[i + |CRLF + key|..] == text[i + 2..][|key|..];
  }

  lemma ShortHead(ls: seq<string>, body: string, p: string)
    requires AreLines(ls) && ls != [] && p <= Head(ls) + body && |p| < |Head(ls)|
    ensures !Verdict(p).0
  {
    assert p == (Head(ls) + body)[..|p|] == Head(ls)[..|p|];
    HeadPrefixHasNoBlank(ls, p);
  }

  // ----- chunked bodies

  /** A chunk as printed: hex size text, an optional extension, the data. */
  datatype Chunk = Chunk(size: string, ext: string, data: string)

  /** The zero-size chunk and the trailer fields. */
  datatype Last = Last(size: string, ext: string, trailers: seq<string>)

  predicate IsExtension(e: string) { PlainText(e) && (e != "" ==> e[0] == ';') }

  ghost predicate GoodChunk(c: Chunk) {
    Spells(c.size, |c.data|, 16) && IsExtension(c.ext) && 0 < |c.data| <= ULONG_MAX
  }

  ghost predicate GoodLast(l: Last) { Spells(l.size, 0, 16) && IsExtension(l.ext) && AreLines(l.trailers) }

  function PrintChunk(c: Chunk): string { c.size + c.ext + CRLF + c.data + CRLF }

  function PrintLast(l: Last): string { l.size + l.ext + CRLF + Head(l.trailers) }

  function PrintBody(cs: seq<Chunk>, l: Last): string {
    if cs == [] then PrintLast(l) else PrintChunk(cs[0]) + PrintBody(cs[1..], l)
  }

  lemma SizeParses(size: string, n: nat, ext: string)
    requires Spells(size, n, 16) && IsExtension(ext) && n <= ULONG_MAX
    ensures StrToUl(size + ext, 16) == Some(n)
  {
    hide StrToUl, Spells;
    PlainNumeral(size, n, ext, 16);
  }

  lemma SizeIsPlain(size: string, n: nat, ext: string)
    requires Spells(size, n, 16) && IsExtension(ext)
    ensures PlainText(size + ext)
  {
    SpelledIsRead(size, n, 16);
    hide Spells;
    forall i | 0 <= i < |size + ext| ensures (size + ext)[i] != '\r' && (size + ext)[i] != '\n' {
      assert i < |size| ==> DigitValue((size + ext)[i]) < 16;
    }
  }

  /** The turn at a line that names `size`, whatever follows the line. */
  lemma TurnAtLine(line: string, tail: string, size: nat)
    requires PlainText(line) && StrToUl(line, 16) == Some(size)
    ensures ChunkTurn(line + CRLF + tail, 0) ==
      if size == 0 then Stop(if At(tail, 0, CRLF) || Find(tail, BLANK, 0) != -1 then Done else More)
      else if size + 2 > |tail| then Stop(More)
      else Next(|line| + 2 + size + 2)
  {
    hide StrToUl, Find;
    var raw := line + CRLF + tail;
    LineEnd(line, tail);
    assert raw[0..|line|] == line;
    AtShift(line + CRLF, tail, CRLF, 0);
    FindShift(line + CRLF, tail, BLANK, 0);
  }

  lemma ChunkConsumed(c: Chunk, rest: string)
    requires GoodChunk(c)
    ensures ChunkTurn(PrintChunk(c) + rest, 0) == Next(|PrintChunk(c)|)
  {
    hide StrToUl, Spells, ChunkTurn;
    assert PrintChunk(c) + rest == (c.size + c.ext) + CRLF + (c.data + CRLF + rest);
    SizeIsPlain(c.size, |c.data|, c.ext);
    SizeParses(c.size, |c.data|, c.ext);
    TurnAtLine(c.size + c.ext, c.data + CRLF + rest, |c.data|);
  }

  lemma ShortLine(line: string, p: string)
    requires PlainText(line) && p <= line + CRLF && |p| < |line| + 2
    ensures ChunkTurn(p, 0) == Stop(More)
  {
    NoLineEnd(line, p);
  }

  /** A prefix of a line, a line break and a tail stops in the line or in the tail. */
  lemma CutAtLine(line: string, tail: string, p: string) returns (q: string)
    requires p <= line + CRLF + tail && |p| < |line + CRLF + tail|
    ensures |p| < |line| + 2 ==> p <= line + CRLF
    ensures |p| >= |line| + 2 ==> p == line + CRLF + q && q <= tail && |q| < |tail|
  {
    var whole := line + CRLF + tail;
    assert p == whole[..|p|];
    if |p| < |line| + 2 {
      assert p == (line + CRLF)[..|p|];
      q := "";
    } else {
      q := p[|line| + 2..];
      assert p[..|line| + 2] == line + CRLF;
      assert q == tail[..|q|];
    }
  }

  lemma ChunkPartial(c: Chunk, p: string)
    requires GoodChunk(c) && p <= PrintChunk(c) && |p| < |PrintChunk(c)|
    ensures ChunkTurn(p, 0) == Stop(More)
  {
    hide StrToUl, Spells, ChunkTurn;
    var line, tail := c.size + c.ext, c.data + CRLF;
    assert PrintChunk(c) == line + CRLF + tail;
    SizeIsPlain(c.size, |c.data|, c.ext);
    var q := CutAtLine(line, tail, p);
    if |p| < |line| + 2 {
      ShortLine(line, p);
    } else {
      SizeParses(c.size, |c.data|, c.ext);
      TurnAtLine(line, q, |c.data|);
    }
  }

  lemma LastDone(l: Last)
    requires GoodLast(l)
    ensures ChunkTurn(PrintLast(l), 0) == Stop(Done)
  {
    hide StrToUl, Spells, ChunkTurn;
    SizeIsPlain(l.size, 0, l.ext);
    SizeParses(l.size, 0, l.ext);
    TurnAtLine(l.size + l.ext, Head(l.trailers), 0);
    TrailerEnd(l.trailers);
  }

  lemma LastPartial(l: Last, p: string)
    requires GoodLast(l) && p <= PrintLast(l) && |p| < |PrintLast(l)|
    ensures ChunkTurn(p, 0) == Stop(More)
  {
    hide StrToUl, Spells, ChunkTurn, Head;
    var line, tail := l.size + l.ext, Head(l.trailers);
    SizeIsPlain(l.size, 0, l.ext);
    var q := CutAtLine(line, tail, p);
    if |p| < |line| + 2 {
      ShortLine(line, p);
    } else {
      SizeParses(l.size, 0, l.ext);
      TurnAtLine(line, q, 0);
      NoTrailerEnd(l.trailers, q);
    }
  }

  lemma TrailerEnd(trailers: seq<string>)
    requires AreLines(trailers)
    ensures At(Head(trailers), 0, CRLF) || Find(Head(trailers), BLANK, 0) != -1
  {
    if trailers == [] {
      assert Head(trailers)[0..2] == CRLF;
    } else {
      assert Head(trailers) + "" == Head(trailers);
      assert |Join(trailers)| >= 2;
      BlankEndsHead(trailers, "");
    }
  }

  lemma NoTrailerEnd(trailers: seq<string>, q: string)
    requires AreLines(trailers) && q <= Head(trailers) && |q| < |Head(trailers)|
    ensures !At(q, 0, CRLF) && Find(q, BLANK, 0) == -1
  {
    if trailers == [] {
      assert |q| < 2;
    } else {
      HeadPrefixHasNoBlank(trailers, q);
      assert trailers[0] in trailers;
      if q != "" {
        assert q[0] == Head(trailers)[0] == trailers[0][0];
        NotAtOther(q, 0, CRLF);
      }
    }
  }

  lemma {:induction false} BodyIsExact(cs: seq<Chunk>, l: Last, p: string)
    requires (forall c | c in cs :: GoodChunk(c)) && GoodLast(l) && p <= PrintBody(cs, l)
    ensures Chunks(p, 0) == if p == PrintBody(cs, l) then Done else More
    decreases |cs|
  {
    hide ChunkTurn, PrintLast, PrintChunk;
    if cs == [] {
      if p == PrintLast(l) { LastDone(l); } else { LastPartial(l, p); }
    } else {
      var first, rest := PrintChunk(cs[0]), PrintBody(cs[1..], l);
      if |p| < |first| {
        assert p == (first + rest)[..|p|] == first[..|p|];
        ChunkPartial(cs[0], p);
      } else {
        var q := p[|first|..];
        assert p == (first + rest)[..|p|];
        assert q == rest[..|q|];
        assert p[..|first|] == first && p == first + q;
        ChunkConsumed(cs[0], q);
        ChunksShift(first, q, 0);
        BodyIsExact(cs[1..], l, q);
        assert p == first + rest <==> q == rest;
      }
    }
  }

  // ----- main results

  /** Any list of chunks: the message is complete at its last byte and not before. */
  lemma ChunkedIsExact(ls: seq<string>, cs: seq<Chunk>, l: Last, p: string)
    requires AreLines(ls) && ls != [] && HasField(ls, ChunkedField(), true)
    requires (forall c | c in cs :: GoodChunk(c)) && GoodLast(l)
    requires p <= Head(ls) + PrintBody(cs, l)
    ensures Verdict(p).0 <==> p == Head(ls) + PrintBody(cs, l)
    ensures p == Head(ls) + PrintBody(cs, l) ==> Verdict(p).1 == Some(HasField(ls, CloseField(), true))
  {
    hide Verdict, PrintBody, Chunks, HasField;
    var body := PrintBody(cs, l);
    if |p| < |Head(ls)| {
      ShortHead(ls, body, p);
    } else {
      var q := p[|Head(ls)|..];
      SplitPrefix(Head(ls), body, p);
      VerdictOfHead(ls, q);
      BodyIsExact(cs, l, q);
    }
  }

  lemma SplitPrefix(head: string, body: string, p: string)
    requires |head| <= |p| && p <= head + body
    ensures p == head + p[|head|..] && p[|head|..] <= body
    ensures p == head + body <==> p[|head|..] == body
  {
    assert p == (head + body)[..|p|];
    assert p[..|head|] == head;
    assert p[|head|..] == body[..|p| - |head|];
  }

  predicate AllBlank(s: string) { forall i :: 0 <= i < |s| ==> s[i] == ' ' || s[i] == '\t' }

  /** The field line says `digits`, with blanks around. */
  predicate SaysLength(line: string, before: string, digits: string, after: string) {
    Lower(line) == LengthField() + before + digits + after && AllBlank(before) && AllBlank(after)
  }

  lemma LengthParses(before: string, digits: string, n: nat, rest: string)
    requires AllBlank(before) && Spells(digits, n, 10) && n <= ULONG_MAX
    requires rest != "" && !IsDigit(rest[0], 10)
    ensures LengthValue(before + (digits + rest)) == n
  {
    hide StrToUl, Spells, IsDigit;
    assert AllSpaces(before);
    NumeralParses(before, "", "", digits, n, rest, 10);
    assert "" + ("" + (digits + rest)) == digits + rest;
  }

  /** Content-Length: the message is complete exactly when that many bytes follow the head; on the
      printed message that is its last byte. */
  lemma LengthIsExact(ls: seq<string>, before: string, digits: string, after: string, body: string, p: string)
    requires AreLines(ls) && ls != [] && !HasField(ls, ChunkedField(), true) && HasField(ls, LengthField(), false)
    requires SaysLength(ls[FirstMatch(LowerAll(ls), LengthField(), false)], before, digits, after)
    requires Spells(digits, |body|, 10) && |body| <= ULONG_MAX
    requires p <= Head(ls) + body
    ensures Verdict(p).0 <==> p == Head(ls) + body
    ensures p == Head(ls) + body ==> Verdict(p).1 == Some(HasField(ls, CloseField(), true))
  {
    hide Verdict, LengthValue, Spells, Join, FirstMatch;
    if |p| < |Head(ls)| {
      ShortHead(ls, body, p);
    } else {
      var low := LowerAll(ls);
      var k := FirstMatch(low, LengthField(), false);
      var q := p[|Head(ls)|..];
      SplitPrefix(Head(ls), body, p);
      VerdictOfHead(ls, q);
      var rest := after + FieldText(low[k + 1..]);
      assert low[k][|LengthField()|..] + FieldText(low[k + 1..]) == before + (digits + rest);
      assert !IsDigit(rest[0], 10) by {
        assert rest[0] == if after != "" then after[0] else '\r';
      }
      LengthParses(before, digits, |body|, rest);
    }
  }

  /** Without either field the response is never complete, and the connection must be closed. */
  lemma UnframedNeverCompletes(ls: seq<string>, body: string)
    requires AreLines(ls) && ls != [] && !HasField(ls, ChunkedField(), true) && !HasField(ls, LengthField(), false)
    ensures Verdict(Head(ls) + body) == (false, Some(true))
  {
    hide Verdict, FirstMatch;
    VerdictOfHead(ls, body);
  }
}
