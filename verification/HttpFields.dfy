/**
 The fields of a head as they are written, in any mixture of cases: what the recogniser's lower-casing makes of
 them, and the exactness results of HttpMessages in these terms.
 */
module HttpFields {
  import opened Basics
  import opened HttpFraming
  import opened HttpNumbers
  import opened HttpMessages

  const LOWER_LETTERS: string := "abcdefghijklmnopqrstuvwxyz"
  const UPPER_LETTERS: string := "ABCDEFGHIJKLMNOPQRSTUVWXYZ"

  /** The same character, or the upper case of this lower-case letter. */
  predicate InEitherCase(c: char, low: char) {
    c == low || exists d :: 0 <= d < 26 && LOWER_LETTERS[d] == low && UPPER_LETTERS[d] == c
  }

  /** `text` is the lower-case `word` in some mixture of cases. */
  predicate SpellsWord(text: string, word: string) {
    |text| == |word| && forall i :: 0 <= i < |word| ==> InEitherCase(text[i], word[i])
  }

  predicate NoUpper(word: string) { forall i :: 0 <= i < |word| ==> word[i] !in UPPER_LETTERS }

  lemma LettersByTable(d: nat)
    requires d < 26
    ensures LOWER_LETTERS[d] as int == 97 + d && UPPER_LETTERS[d] as int == 65 + d
  {
  }

  lemma LowersToCase(c: char, low: char)
    requires low !in UPPER_LETTERS
    ensures LowerChar(c) == low <==> InEitherCase(c, low)
  {
    if 'A' <= c <= 'Z' {
      var d := c as int - 65;
      LettersByTable(d);
      assert UPPER_LETTERS[d] == c && LOWER_LETTERS[d] == LowerChar(c);
      assert c in UPPER_LETTERS;
    }
    if InEitherCase(c, low) && c != low {
      var d :| 0 <= d < 26 && LOWER_LETTERS[d] == low && UPPER_LETTERS[d] == c;
      LettersByTable(d);
    }
  }

  lemma LowersToWord(text: string, word: string)
    requires NoUpper(word)
    ensures Lower(text) == word <==> SpellsWord(text, word)
  {
    if |text| == |word| {
      forall i | 0 <= i < |word| ensures LowerChar(text[i]) == word[i] <==> InEitherCase(text[i], word[i]) {
        LowersToCase(text[i], word[i]);
      }
    }
    hide LowerChar, InEitherCase;
    assert Lower(text) == word <==> |text| == |word| && forall i :: 0 <= i < |word| ==> Lower(text)[i] == word[i];
  }

  /** The line is the word, or begins with it. */
  predicate LineSays(line: string, word: string, whole: bool) {
    if whole then SpellsWord(line, word) else |word| <= |line| && SpellsWord(line[..|word|], word)
  }

  lemma LineByTable(line: string, word: string, whole: bool)
    requires NoUpper(word)
    ensures Matches(Lower(line), word, whole) <==> LineSays(line, word, whole)
  {
    hide InEitherCase, LowerChar, SpellsWord, NoUpper;
    if whole {
      LowersToWord(line, word);
    } else if |word| <= |line| {
      LowersToWord(line[..|word|], word);
      assert Lower(line)[..|word|] == Lower(line[..|word|]);
    }
  }

  ghost predicate SomeLineSays(ls: seq<string>, word: string, whole: bool) {
    exists k: nat :: k < |ls| && LineSays(ls[k], word, whole)
  }

  /** A field is found exactly when some line says it, in whatever cases. */
  lemma FieldInAnyCase(ls: seq<string>, word: string, whole: bool)
    requires NoUpper(word)
    ensures HasField(ls, word, whole) <==> SomeLineSays(ls, word, whole)
  {
    hide LineSays, Matches, Lower, NoUpper;
    var k := FirstMatch(LowerAll(ls), word, whole);
    if k < |ls| { LineByTable(ls[k], word, whole); }
    forall j: nat | j < |ls| ensures LineSays(ls[j], word, whole) <==> Matches(LowerAll(ls)[j], word, whole) {
      LineByTable(ls[j], word, whole);
    }
  }

  lemma TheWords()
    ensures ChunkedField() == "transfer-encoding: chunked" && NoUpper(ChunkedField())
    ensures CloseField() == "connection: close" && NoUpper(CloseField())
    ensures LengthField() == "content-length:" && NoUpper(LengthField())
  {
    PlainWord(ChunkedField());
    PlainWord(CloseField());
    PlainWord(LengthField());
  }

  lemma PlainWord(word: string)
    requires forall i :: 0 <= i < |word| ==> !('A' <= word[i] <= 'Z')
    ensures NoUpper(word)
  {
    forall i | 0 <= i < |word| ensures word[i] !in UPPER_LETTERS {
      if word[i] in UPPER_LETTERS {
        var d :| 0 <= d < |UPPER_LETTERS| && UPPER_LETTERS[d] == word[i];
        LettersByTable(d);
      }
    }
  }

  // ----- whole messages

  /** A printed message with a chunked head is complete on its last byte and on no proper prefix; the connection is to
      be closed exactly when a line says so. */
  lemma ChunkedMessage(ls: seq<string>, cs: seq<Chunk>, l: Last, p: string)
    requires AreLines(ls) && SomeLineSays(ls, "transfer-encoding: chunked", true)
    requires (forall c | c in cs :: GoodChunk(c)) && GoodLast(l)
    requires p <= Head(ls) + PrintBody(cs, l)
    ensures Verdict(p).0 <==> p == Head(ls) + PrintBody(cs, l)
    ensures p == Head(ls) + PrintBody(cs, l) ==> Verdict(p).1 == Some(SomeLineSays(ls, "connection: close", true))
  {
    TheWords();
    hide SomeLineSays, Verdict, HasField, GoodChunk, GoodLast;
    FieldInAnyCase(ls, ChunkedField(), true);
    FieldInAnyCase(ls, CloseField(), true);
    NotEmpty(ls);
    ChunkedIsExact(ls, cs, l, p);
  }

  lemma NotEmpty(ls: seq<string>)
    ensures SomeLineSays(ls, "transfer-encoding: chunked", true) ==> ls != []
  {
  }

  /** Without length and chunking no message is ever complete. */
  lemma UnframedMessage(ls: seq<string>, body: string)
    requires AreLines(ls) && ls != []
    requires !SomeLineSays(ls, "transfer-encoding: chunked", true) && !SomeLineSays(ls, "content-length:", false)
    ensures Verdict(Head(ls) + body) == (false, Some(true))
  {
    TheWords();
    hide SomeLineSays, Verdict, HasField;
    FieldInAnyCase(ls, ChunkedField(), true);
    FieldInAnyCase(ls, LengthField(), false);
    UnframedNeverCompletes(ls, body);
  }

  /** The first line that says the field. */
  ghost predicate FirstSays(ls: seq<string>, k: nat, word: string) {
    k < |ls| && LineSays(ls[k], word, false) && forall j: nat :: j < k ==> !LineSays(ls[j], word, false)
  }

  lemma FirstByTable(ls: seq<string>, k: nat)
    requires FirstSays(ls, k, LengthField())
    ensures FirstMatch(LowerAll(ls), LengthField(), false) == k && HasField(ls, LengthField(), false)
  {
    TheWords();
    hide LineSays, Matches, Lower, LengthField;
    forall j: nat | j < |ls|
      ensures LineSays(ls[j], LengthField(), false) <==> Matches(LowerAll(ls)[j], LengthField(), false)
    {
      LineByTable(ls[j], LengthField(), false);
    }
  }

  /** A printed message whose first length line gives the length of the body is complete on its last byte and on no
      proper prefix. */
  lemma LengthMessage(ls: seq<string>, k: nat, before: string, digits: string, after: string, body: string, p: string)
    requires AreLines(ls) && !SomeLineSays(ls, "transfer-encoding: chunked", true)
    requires FirstSays(ls, k, "content-length:") && ls[k][15..] == before + digits + after
    requires AllBlank(before) && AllBlank(after) && Spells(digits, |body|, 10) && |body| <= ULONG_MAX
    requires p <= Head(ls) + body
    ensures Verdict(p).0 <==> p == Head(ls) + body
    ensures p == Head(ls) + body ==> Verdict(p).1 == Some(SomeLineSays(ls, "connection: close", true))
  {
    TheWords();
    hide SomeLineSays, Verdict, HasField, Spells;
    FieldInAnyCase(ls, ChunkedField(), true);
    FieldInAnyCase(ls, CloseField(), true);
    FirstByTable(ls, k);
    LengthLine(ls[k], before, digits, after, |body|);
    LengthIsExact(ls, before, digits, after, body, p);
  }

  lemma LengthLine(line: string, before: string, digits: string, after: string, n: nat)
    requires LineSays(line, LengthField(), false) && line[15..] == before + digits + after
    requires AllBlank(before) && AllBlank(after) && Spells(digits, n, 10)
    ensures SaysLength(line, before, digits, after)
  {
    TheWords();
    LineByTable(line, LengthField(), false);
    SpelledIsRead(digits, n, 10);
    hide Spells, LineSays, InEitherCase;
    var rest := before + digits + after;
    forall i | 0 <= i < |rest| ensures LowerChar(rest[i]) == rest[i] {
      if |before| <= i < |before| + |digits| { assert DigitValue(digits[i - |before|]) < 10; }
    }
    assert Lower(line)[15..] == Lower(rest) == rest;
    assert Lower(line) == LengthField() + rest;
    assert LengthField() + rest == LengthField() + before + digits + after;
  }
}
