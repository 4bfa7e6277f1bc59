/**
 The numbers of a message as they are written: numerals printed from literal digit tables, with any leading zeros
 and either case of each hexadecimal digit. Reading one back with `strtoul` gives the number.
 */
module HttpNumbers {
  import opened Basics
  import opened HttpFraming

  const LOWER_DIGITS: string := "0123456789abcdef"
  const UPPER_DIGITS: string := "0123456789ABCDEF"

  type Base = b: nat | b == 10 || b == 16 witness 10

  /** The numeral of `n` in this table, without leading zeros. */
  function Printed(n: nat, base: Base, table: string): (r: string)
    requires |table| == 16
    ensures r != ""
    decreases n
  {
    (if n < base then "" else Printed(n / base, base, table)) + [table[n % base]]
  }

  /** The numeral of `n`, each digit in either case. */
  predicate SpellsTight(s: string, n: nat, base: Base) {
    var low, up := Printed(n, base, LOWER_DIGITS), Printed(n, base, UPPER_DIGITS);
    && |s| == |low| == |up|
    && forall i :: 0 <= i < |s| ==> s[i] == low[i] || s[i] == up[i]
  }

  predicate AllZeros(s: string) { forall i :: 0 <= i < |s| ==> s[i] == '0' }

  /** The same after some leading zeros. */
  ghost predicate Spells(s: string, n: nat, base: Base) {
    exists k: nat :: k < |s| && AllZeros(s[..k]) && SpellsTight(s[k..], n, base)
  }

  predicate IsDigit(c: char, base: Base) { c in LOWER_DIGITS[..base] || c in UPPER_DIGITS[..base] }

  // ----- digits

  lemma TableValue(d: nat)
    requires d < 16
    ensures DigitValue(LOWER_DIGITS[d]) == d == DigitValue(UPPER_DIGITS[d])
  {
  }

  /** A character has a value below the base exactly when it is in one of the tables. */
  lemma DigitsByTable(c: char, base: Base)
    ensures DigitValue(c) < base <==> IsDigit(c, base)
  {
    if DigitValue(c) < base {
      var d := DigitValue(c);
      TableValue(d);
      TableChars(c);
      assert LOWER_DIGITS[..base][d] == LOWER_DIGITS[d] && UPPER_DIGITS[..base][d] == UPPER_DIGITS[d];
    }
    if c in LOWER_DIGITS[..base] {
      var d :| 0 <= d < base && LOWER_DIGITS[..base][d] == c;
      TableValue(d);
    }
    if c in UPPER_DIGITS[..base] {
      var d :| 0 <= d < base && UPPER_DIGITS[..base][d] == c;
      TableValue(d);
    }
  }

  lemma TableChars(c: char)
    requires DigitValue(c) < 16
    ensures c == LOWER_DIGITS[DigitValue(c)] || c == UPPER_DIGITS[DigitValue(c)]
  {
  }

  // ----- numerals

  lemma PrintedEnds(n: nat, base: Base, table: string)
    requires |table| == 16
    ensures var r := Printed(n, base, table);
      && r[|r| - 1] == table[n % base]
      && r[..|r| - 1] == (if n < base then "" else Printed(n / base, base, table))
  {
  }

  /** Without its last digit a spelling is one of the number without its last digit. */
  lemma TightEnds(s: string, n: nat, base: Base)
    requires SpellsTight(s, n, base)
    ensures s != "" && DigitValue(s[|s| - 1]) == n % base
    ensures if n < base then |s| == 1 else SpellsTight(s[..|s| - 1], n / base, base)
  {
    PrintedEnds(n, base, LOWER_DIGITS);
    PrintedEnds(n, base, UPPER_DIGITS);
    TableValue(n % base);
    var low, up := Printed(n, base, LOWER_DIGITS), Printed(n, base, UPPER_DIGITS);
    var last := |s| - 1;
    assert s[last] == low[last] || s[last] == up[last];
    hide DigitValue, Printed;
    if n >= base {
      forall i | 0 <= i < last ensures s[..last][i] == low[..last][i] || s[..last][i] == up[..last][i] {
        assert s[i] == low[i] || s[i] == up[i];
      }
    } else {
      assert |low[..last]| == 0;
    }
  }

  /** Reading the digits of a numeral gives its number. */
  lemma {:induction false} TightIsRead(s: string, n: nat, base: Base)
    requires SpellsTight(s, n, base)
    ensures s != "" && NumberOf(s, base) == n && AreDigits(s, base)
    decreases n
  {
    TightEnds(s, n, base);
    hide SpellsTight, DigitValue, AreDigits;
    var init, last := s[..|s| - 1], s[|s| - 1];
    assert s == init + [last];
    NumberEnds(init, last, base);
    hide NumberOf;
    NoDigits(base);
    if n < base { assert init == ""; } else { TightIsRead(init, n / base, base); }
    OneDigit(last, n % base, base);
    MoreDigits(init, [last], base);
    Divided(n, base);
  }

  lemma NumberEnds(init: string, last: char, base: Base)
    ensures NumberOf(init + [last], base) == NumberOf(init, base) * base + DigitValue(last)
  {
    hide DigitValue;
    assert (init + [last])[..|init|] == init;
  }

  lemma OneDigit(c: char, d: nat, base: Base)
    requires DigitValue(c) == d < base
    ensures AreDigits([c], base)
  {
  }

  predicate AreDigits(s: string, base: Base) { forall i :: 0 <= i < |s| ==> DigitValue(s[i]) < base }

  lemma NoDigits(base: Base)
    ensures AreDigits("", base) && NumberOf("", base) == 0
  {
  }

  lemma MoreDigits(a: string, b: string, base: Base)
    ensures AreDigits(a + b, base) <==> AreDigits(a, base) && AreDigits(b, base)
  {
    hide DigitValue;
    if AreDigits(a + b, base) {
      forall i | 0 <= i < |a| ensures DigitValue(a[i]) < base { assert a[i] == (a + b)[i]; }
      forall i | 0 <= i < |b| ensures DigitValue(b[i]) < base { assert b[i] == (a + b)[|a| + i]; }
    }
  }

  lemma Divided(n: nat, base: Base)
    ensures n == (n / base) * base + n % base
  {
  }

  lemma {:induction false} ZerosAddNothing(zeros: string, s: string, base: Base)
    requires AllZeros(zeros)
    ensures NumberOf(zeros + s, base) == NumberOf(s, base)
    decreases |zeros| + |s|
  {
    var t := zeros + s;
    if s != "" {
      assert t[..|t| - 1] == zeros + s[..|s| - 1];
      ZerosAddNothing(zeros, s[..|s| - 1], base);
    } else if zeros != "" {
      assert t == zeros && t[..|t| - 1] == zeros[..|zeros| - 1] + "";
      ZerosAddNothing(zeros[..|zeros| - 1], "", base);
      assert DigitValue('0') == 0;
    } else {
      assert t == s;
    }
  }

  lemma SpelledIsRead(s: string, n: nat, base: Base)
    requires Spells(s, n, base)
    ensures s != "" && NumberOf(s, base) == n && AreDigits(s, base)
  {
    var k: nat :| k < |s| && AllZeros(s[..k]) && SpellsTight(s[k..], n, base);
    hide NumberOf, SpellsTight, AllZeros, AreDigits;
    TightIsRead(s[k..], n, base);
    assert s == s[..k] + s[k..];
    ZerosAddNothing(s[..k], s[k..], base);
    ZerosAreDigits(s[..k], base);
    MoreDigits(s[..k], s[k..], base);
  }

  lemma ZerosAreDigits(zeros: string, base: Base)
    requires AllZeros(zeros)
    ensures AreDigits(zeros, base)
  {
  }

  // ----- what strtoul reads

  /** The space, and the codes 9 to 13. */
  predicate AllSpaces(s: string) { forall i :: 0 <= i < |s| ==> s[i] as int in {9, 10, 11, 12, 13, 32} }

  lemma {:induction false} SpacesSkipped(spaces: string, rest: string)
    requires AllSpaces(spaces) && (rest != "" ==> !AllSpaces([rest[0]]))
    ensures SkipSpaces(spaces + rest) == rest
    decreases |spaces|
  {
    if spaces == "" {
      assert spaces + rest == rest;
    } else {
      assert (spaces + rest)[1..] == spaces[1..] + rest;
      SpacesSkipped(spaces[1..], rest);
    }
  }

  lemma {:induction false} RunOfDigits(digits: string, rest: string, base: Base)
    requires AreDigits(digits, base)
    requires rest != "" ==> DigitValue(rest[0]) >= base
    ensures DigitRun(digits + rest, base) == |digits|
    decreases |digits|
  {
    if digits != "" {
      assert (digits + rest)[1..] == digits[1..] + rest;
      RunOfDigits(digits[1..], rest, base);
    } else {
      assert digits + rest == rest;
    }
  }

  /** A sign, and the prefix that is skipped before a hexadecimal digit. */
  predicate IsSign(sign: string) { sign == "" || sign == "+" || sign == "-" }

  predicate IsPrefix(prefix: string, base: Base) { prefix == "" || (base == 16 && (prefix == "0x" || prefix == "0X")) }

  /** What follows the numeral neither continues it nor turns a lone zero into the prefix. */
  predicate Stops(s: string, prefix: string, rest: string, base: Base) {
    && (rest != "" ==> !IsDigit(rest[0], base))
    && (base == 16 && prefix == "" && s == "0" && |rest| >= 2 && (rest[0] == 'x' || rest[0] == 'X') ==>
          !IsDigit(rest[1], base))
  }

  /** The value of a number: too large a one saturates, and a minus negates in 32 bits. */
  function Saturated(n: nat, negative: bool): nat {
    if n > ULONG_MAX then ULONG_MAX else if negative && n > 0 then WORD - n else n
  }

  /** The scan of a whole number. */
  lemma NumeralParses(spaces: string, sign: string, prefix: string, s: string, n: nat, rest: string, base: Base)
    requires AllSpaces(spaces) && IsSign(sign) && IsPrefix(prefix, base) && Spells(s, n, base)
    requires Stops(s, prefix, rest, base)
    ensures StrToUl(spaces + (sign + (prefix + (s + rest))), base) == Some(Saturated(n, sign == "-"))
  {
    SpelledIsRead(s, n, base);
    hide Spells, NumberOf, DigitValue, DigitRun, SkipSpaces, AllSpaces, PastPrefix, StrToUl, Saturated;
    var d := s + rest;
    var u := prefix + d;
    var t := sign + u;
    AfterPrefix(s, prefix, rest, base);
    DigitsEnd(s, rest, base);
    FirstIsDigit(s, prefix, rest, base);
    AfterSign(sign, u);
    SpacesSkipped(spaces, t);
    Assembled(spaces + t, t, u, d, sign, |s|, base);
  }

  lemma DigitsEnd(s: string, rest: string, base: Base)
    requires AreDigits(s, base)
    requires rest != "" ==> !IsDigit(rest[0], base)
    ensures DigitRun(s + rest, base) == |s| && (s + rest)[..|s|] == s
  {
    if rest != "" { DigitsByTable(rest[0], base); }
    hide DigitValue, IsDigit;
    RunOfDigits(s, rest, base);
  }

  lemma FirstIsDigit(s: string, prefix: string, rest: string, base: Base)
    requires IsPrefix(prefix, base) && s != "" && DigitValue(s[0]) < base
    ensures var u := prefix + (s + rest); u != "" && DigitValue(u[0]) < 36
  {
    assert DigitValue('0') == 0;
    assert prefix != "" ==> (prefix + (s + rest))[0] == '0';
  }

  lemma AfterSign(sign: string, u: string)
    requires IsSign(sign) && u != "" && DigitValue(u[0]) < 36
    ensures var t := sign + u;
      && t != "" && !AllSpaces([t[0]])
      && (t[0] == '-' <==> sign == "-")
      && (if t[0] == '-' || t[0] == '+' then t[1..] else t) == u
  {
    var t := sign + u;
    assert [t[0]][0] == t[0];
    if sign != "" { assert t[1..] == u; }
  }

  /** Where the digits begin once a prefix has been looked for. */
  function PastPrefix(u: string, base: Base): string {
    if base == 16 && |u| >= 3 && u[0] == '0' && (u[1] == 'x' || u[1] == 'X') && DigitValue(u[2]) < 16 then u[2..] else u
  }

  lemma AfterPrefix(s: string, prefix: string, rest: string, base: Base)
    requires IsPrefix(prefix, base) && s != "" && AreDigits(s, base)
    requires Stops(s, prefix, rest, base)
    ensures PastPrefix(prefix + (s + rest), base) == s + rest
  {
    var d := s + rest;
    var u := prefix + d;
    if prefix != "" {
      assert u[2..] == d && u[2] == s[0];
    } else {
      assert u == d;
      if base == 16 && |u| >= 3 && u[0] == '0' && (u[1] == 'x' || u[1] == 'X') {
        assert |s| == 1;
        assert s == "0" && rest[0] == u[1] && rest[1] == u[2];
        DigitsByTable(rest[1], base);
      }
    }
  }

  lemma Assembled(all: string, t: string, u: string, d: string, sign: string, n: nat, base: Base)
    requires SkipSpaces(all) == t && t != "" && (t[0] == '-' <==> sign == "-")
    requires (if t[0] == '-' || t[0] == '+' then t[1..] else t) == u && PastPrefix(u, base) == d
    requires 0 < n <= |d| && DigitRun(d, base) == n
    ensures StrToUl(all, base) == Some(Saturated(NumberOf(d[..n], base), sign == "-"))
  {
    hide SkipSpaces, DigitRun, NumberOf, DigitValue;
  }

  /** Without a digit after the spaces and the sign there is no number. */
  lemma NoDigitNoNumber(spaces: string, sign: string, rest: string, base: Base)
    requires AllSpaces(spaces) && IsSign(sign)
    requires rest != "" ==> !IsDigit(rest[0], base)
    requires sign == "" && rest != "" ==> rest[0] != '+' && rest[0] != '-' && !AllSpaces([rest[0]])
    ensures StrToUl(spaces + (sign + rest), base) == None
  {
    var t := sign + rest;
    if sign != "" { assert [t[0]][0] == t[0] && t[1..] == rest; } else { assert t == rest; }
    SpacesSkipped(spaces, t);
    DigitsByTable('0', base);
    assert IsDigit('0', base) by { assert DigitValue('0') == 0; }
    if rest != "" { DigitsByTable(rest[0], base); }
    assert DigitRun(rest, base) == 0;
    hide SkipSpaces, DigitRun, IsDigit;
    NothingAssembled(spaces + t, t, rest, base);
  }

  lemma NothingAssembled(all: string, t: string, u: string, base: Base)
    requires SkipSpaces(all) == t && DigitRun(u, base) == 0 && (u != "" ==> u[0] != '0')
    requires (if t != "" && (t[0] == '-' || t[0] == '+') then t[1..] else t) == u
    ensures StrToUl(all, base) == None
  {
    hide SkipSpaces, DigitRun, NumberOf, DigitValue;
  }

  /** A plain numeral, as messages use them. */
  lemma PlainNumeral(s: string, n: nat, rest: string, base: Base)
    requires Spells(s, n, base) && Stops(s, "", rest, base) && n <= ULONG_MAX
    ensures StrToUl(s + rest, base) == Some(n)
  {
    NumeralParses("", "", "", s, n, rest, base);
    assert "" + ("" + ("" + (s + rest))) == s + rest;
    hide StrToUl, Spells, Stops;
  }

  /** The numeral without leading zeros is one spelling, in either case. */
  lemma PrintedSpells(n: nat, base: Base, table: string)
    requires table == LOWER_DIGITS || table == UPPER_DIGITS
    ensures Spells(Printed(n, base, table), n, base)
  {
    var s := Printed(n, base, table);
    SameLength(n, base);
    assert s[0..] == s && AllZeros(s[..0]) && SpellsTight(s[0..], n, base);
  }

  lemma {:induction false} SameLength(n: nat, base: Base)
    ensures |Printed(n, base, LOWER_DIGITS)| == |Printed(n, base, UPPER_DIGITS)|
    decreases n
  {
    if n >= base { SameLength(n / base, base); }
  }
}
