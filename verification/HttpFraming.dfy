/**
 Deciding from the bytes received so far whether an HTTP/1.1 response is complete: message framing
 by chunked transfer coding or Content-Length (sections 6.3, 7.1 of RFC 9112). A byte is a `char`.
 Library calls (`find`, `strtoul`) are functions; the recogniser is a method over the buffer.
 */
module HttpFraming {
  import opened Basics

  const CRLF: string := "\r\n"
  const BLANK: string := "\r\n\r\n"
  const ULONG_MAX: nat := 0xffff_ffff

  function ChunkedField(): string { "transfer-encoding: chunked" }

  function LengthField(): string { "content-length:" }

  function CloseField(): string { "connection: close" }

  // ----- string search

  predicate At(s: string, i: int, pat: string) { 0 <= i && i + |pat| <= |s| && s[i..i + |pat|] == pat }

  /** std::string::find: the first occurrence at or after `from`, or -1. */
  function Find(s: string, pat: string, from: nat): (i: int)
    requires from <= |s|
    ensures i == -1 || (from <= i && At(s, i, pat))
    ensures forall j :: from <= j && (i == -1 || j < i) ==> !At(s, j, pat)
    decreases |s| - from
  {
    if At(s, from, pat) then from
    else if from == |s| then -1
    else Find(s, pat, from + 1)
  }

  lemma AtExtend(s: string, ext: string, pat: string, i: int)
    ensures At(s, i, pat) ==> At(s + ext, i, pat)
    ensures i + |pat| <= |s| ==> (At(s, i, pat) <==> At(s + ext, i, pat))
  {
    if 0 <= i && i + |pat| <= |s| { assert (s + ext)[i..i + |pat|] == s[i..i + |pat|]; }
  }

  /** What was found stays the first occurrence when bytes are appended. */
  lemma FindExtend(s: string, ext: string, pat: string, from: nat)
    requires from <= |s| && Find(s, pat, from) != -1
    ensures Find(s + ext, pat, from) == Find(s, pat, from)
  {
    var i := Find(s, pat, from);
    AtExtend(s, ext, pat, i);
    forall j | from <= j < i ensures !At(s + ext, j, pat) { AtExtend(s, ext, pat, j); }
  }

  lemma AtShift(pre: string, s: string, pat: string, i: int)
    requires 0 <= i
    ensures At(pre + s, |pre| + i, pat) <==> At(s, i, pat)
  {
    if i + |pat| <= |s| { assert (pre + s)[|pre| + i..|pre| + i + |pat|] == s[i..i + |pat|]; }
  }

  lemma FindShift(pre: string, s: string, pat: string, from: nat)
    requires from <= |s|
    ensures var i, j := Find(pre + s, pat, |pre| + from), Find(s, pat, from);
      i == if j == -1 then -1 else |pre| + j
  {
    var i, j := Find(pre + s, pat, |pre| + from), Find(s, pat, from);
    if j != -1 { AtShift(pre, s, pat, j); }
    if i != -1 { AtShift(pre, s, pat, i - |pre|); }
  }

  /** Nothing starts inside `pre`, so searching from the start equals searching what follows it. */
  lemma FindPast(pre: string, s: string, pat: string)
    requires forall i :: 0 <= i < |pre| ==> !At(pre + s, i, pat)
    ensures var i, j := Find(pre + s, pat, 0), Find(s, pat, 0);
      i == if j == -1 then -1 else |pre| + j
  {
    FindShift(pre, s, pat, 0);
    var i, k := Find(pre + s, pat, 0), Find(pre + s, pat, |pre|);
    assert i != -1 ==> i >= |pre|;
  }

  // ----- numbers

  predicate IsSpace(c: char) { c == ' ' || ('\t' <= c <= '\r') }

  function DigitValue(c: char): nat {
    if '0' <= c <= '9' then c as int - '0' as int
    else if 'a' <= c <= 'z' then c as int - 'a' as int + 10
    else if 'A' <= c <= 'Z' then c as int - 'A' as int + 10
    else 36
  }

  function SkipSpaces(s: string): string { if s != [] && IsSpace(s[0]) then SkipSpaces(s[1..]) else s }

  /** Length of the longest prefix of digits. */
  function DigitRun(s: string, base: nat): (n: nat)
    ensures n <= |s| && forall i :: 0 <= i < n ==> DigitValue(s[i]) < base
    ensures n < |s| ==> DigitValue(s[n]) >= base
  {
    if s != [] && DigitValue(s[0]) < base then 1 + DigitRun(s[1..], base) else 0
  }

  function NumberOf(digits: string, base: nat): nat {
    if digits == [] then 0 else NumberOf(digits[..|digits| - 1], base) * base + DigitValue(digits[|digits| - 1])
  }

  /** strtoul: spaces, a sign, for base 16 a `0x` before a digit, then digits; too large a number
      saturates. None when no digit was read. */
  function StrToUl(s: string, base: nat): Option<nat> {
    var t := SkipSpaces(s);
    var negative := t != [] && t[0] == '-';
    var u := if t != [] && (t[0] == '-' || t[0] == '+') then t[1..] else t;
    var d := if base == 16 && |u| >= 3 && u[0] == '0' && (u[1] == 'x' || u[1] == 'X') && DigitValue(u[2]) < 16
             then u[2..] else u;
    var n := DigitRun(d, base);
    if n == 0 then None else
    var v := NumberOf(d[..n], base);
    Some(if v > ULONG_MAX then ULONG_MAX else if negative then (WORD - v) % WORD else v)
  }

  // ----- the recogniser

  function LowerChar(c: char): char { if 'A' <= c <= 'Z' then (c as int - 'A' as int + 'a' as int) as char else c }

  function Lower(s: string): (r: string)
    ensures |r| == |s| && forall i :: 0 <= i < |s| ==> r[i] == LowerChar(s[i])
  {
    seq(|s|, i requires 0 <= i < |s| => LowerChar(s[i]))
  }

  datatype Progress = Done | More | Bad

  /** One turn of the chunk loop: a verdict, or the cursor of the next chunk. */
  datatype Turn = Stop(verdict: Progress) | Next(cursor: nat)

  function ChunkTurn(raw: string, cursor: nat): (t: Turn)
    requires cursor <= |raw|
    ensures t.Next? ==> cursor < t.cursor <= |raw|
  {
    var lineEnd := Find(raw, CRLF, cursor);
    if lineEnd == -1 then Stop(More) else
    var size := StrToUl(raw[cursor..lineEnd], 16);
    if size == None then Stop(Bad) else
    var body := lineEnd + 2;
    if size.value == 0 then
      Stop(if At(raw, body, CRLF) || Find(raw, BLANK, body) != -1 then Done else More)
    else if body + size.value + 2 > |raw| then Stop(More)
    else Next(body + size.value + 2)
  }

  function Chunks(raw: string, cursor: nat): Progress
    requires cursor <= |raw|
    decreases |raw| - cursor
  {
    var t := ChunkTurn(raw, cursor);
    if t.Stop? then t.verdict else Chunks(raw, t.cursor)
  }

  /** The head, lower-cased, from the line break before the first line to the one after the last. */
  function HeaderText(raw: string, headerEnd: nat): string
    requires headerEnd + 2 <= |raw|
  {
    Lower(CRLF + raw[..headerEnd + 2])
  }

  /** The verdict once the head has ended, from its lower-cased text. */
  function FramedVerdict(headers: string, raw: string, bodyStart: nat): (bool, Option<bool>)
    requires bodyStart <= |raw|
  {
    var close := Find(headers, CRLF + CloseField() + CRLF, 0) != -1;
    if Find(headers, CRLF + ChunkedField() + CRLF, 0) != -1 then
      var p := Chunks(raw, bodyStart);
      (p == Done, Some(close || p == Bad))
    else
      var lengthPos := Find(headers, CRLF + LengthField(), 0);
      if lengthPos == -1 then (false, Some(true)) else
      (|raw| - bodyStart >= LengthValue(headers[lengthPos + |CRLF + LengthField()|..]), Some(close))
  }

  /** Whether the response is complete, and what is stored through `outClose`, if anything. */
  function Verdict(raw: string): (bool, Option<bool>) {
    var headerEnd := Find(raw, BLANK, 0);
    if headerEnd == -1 then (false, None)
    else FramedVerdict(HeaderText(raw, headerEnd), raw, headerEnd + 4)
  }

  function LengthValue(s: string): nat {
    var v := StrToUl(s, 10);
    if v == None then 0 else v.value
  }

  method LowerInPlace(a: array<char>)
    modifies a
    ensures a[..] == Lower(old(a[..]))
  {
    for i := 0 to a.Length
      invariant forall k :: 0 <= k < a.Length ==> a[k] == if k < i then LowerChar(old(a[k])) else old(a[k])
    {
      if 'A' <= a[i] <= 'Z' { a[i] := (a[i] as int - 'A' as int + 'a' as int) as char; }
    }
  }

  method LoweredHeaders(raw: string, headerEnd: nat) returns (headers: string)
    requires headerEnd + 2 <= |raw|
    ensures headers == HeaderText(raw, headerEnd)
  {
    var text := CRLF + raw[..headerEnd + 2];
    var copy := new char[|text|](i requires 0 <= i < |text| => text[i]);
    assert copy[..] == text;
    LowerInPlace(copy);
    headers := copy[..];
  }

  method IsHttpResponseComplete(raw: string) returns (complete: bool, outClose: Option<bool>)
    ensures (complete, outClose) == Verdict(raw)
  {
    hide StrToUl, LengthValue, HeaderText, Find, ChunkedField, LengthField, CloseField;
    var headerEnd := Find(raw, BLANK, 0);
    if headerEnd == -1 { return false, None; }
    var headers := LoweredHeaders(raw, headerEnd);
    outClose := Some(Find(headers, CRLF + CloseField() + CRLF, 0) != -1);
    var bodyStart := headerEnd + 4;
    if Find(headers, CRLF + ChunkedField() + CRLF, 0) != -1 {
      var cursor := bodyStart;
      while true
        invariant bodyStart <= cursor <= |raw| && Chunks(raw, cursor) == Chunks(raw, bodyStart)
        decreases |raw| - cursor
      {
        var lineEnd := Find(raw, CRLF, cursor);
        if lineEnd == -1 { return false, outClose; }
        var chunkSize := StrToUl(raw[cursor..lineEnd], 16);
        if chunkSize == None { return false, Some(true); }
        cursor := lineEnd + 2;
        if chunkSize.value == 0 {
          if At(raw, cursor, CRLF) { return true, outClose; }
          var trailerEnd := Find(raw, BLANK, cursor);
          return trailerEnd != -1, outClose;
        }
        cursor := cursor + chunkSize.value + 2;
        if cursor > |raw| { return false, outClose; }
      }
    }
    var lengthPos := Find(headers, CRLF + LengthField(), 0);
    if lengthPos == -1 { return false, Some(true); }
    var length := LengthValue(headers[lengthPos + |CRLF + LengthField()|..]);
    complete := |raw| - bodyStart >= length;
  }

  // ----- completeness is stable

  lemma TurnExtend(raw: string, ext: string, cursor: nat)
    requires cursor <= |raw| && ChunkTurn(raw, cursor) != Stop(More)
    ensures ChunkTurn(raw + ext, cursor) == ChunkTurn(raw, cursor)
  {
    hide StrToUl;
    var lineEnd := Find(raw, CRLF, cursor);
    FindExtend(raw, ext, CRLF, cursor);
    assert (raw + ext)[cursor..lineEnd] == raw[cursor..lineEnd];
    AtExtend(raw, ext, CRLF, lineEnd + 2);
    if Find(raw, BLANK, lineEnd + 2) != -1 { FindExtend(raw, ext, BLANK, lineEnd + 2); }
  }

  lemma {:induction false} ChunksExtend(raw: string, ext: string, cursor: nat)
    requires cursor <= |raw| && Chunks(raw, cursor) != More
    ensures Chunks(raw + ext, cursor) == Chunks(raw, cursor)
    decreases |raw| - cursor
  {
    hide ChunkTurn;
    var t := ChunkTurn(raw, cursor);
    TurnExtend(raw, ext, cursor);
    if t.Next? { ChunksExtend(raw, ext, t.cursor); }
  }

  /** Once a buffer is complete every longer buffer is, with the same verdict on closing. */
  lemma CompleteIsStable(raw: string, ext: string)
    requires Verdict(raw).0
    ensures Verdict(raw + ext) == Verdict(raw)
  {
    hide Chunks, LengthValue, Lower, Find, ChunkedField, LengthField, CloseField;
    FindExtend(raw, ext, BLANK, 0);
    var headerEnd := Find(raw, BLANK, 0);
    assert (raw + ext)[..headerEnd + 2] == raw[..headerEnd + 2];
    if Find(HeaderText(raw, headerEnd), CRLF + ChunkedField() + CRLF, 0) != -1 {
      ChunksExtend(raw, ext, headerEnd + 4);
    }
  }
}
