/**
 The string operations the parsers use, on byte strings: each char stands for one byte.
 */
module Text {
  import opened Prelude

  predicate HasPrefix(s: string, prefix: string) { prefix <= s }

  /** The string after `prefix`, or all of it when it does not start that way. */
  function TrimPrefix(s: string, prefix: string): string {
    if prefix <= s then s[|prefix|..] else s
  }

  /** The first position of `c`, or -1. */
  function IndexOf(s: string, c: char): (i: int)
    ensures -1 <= i < |s|
    ensures i < 0 ==> c !in s
    ensures 0 <= i ==> s[i] == c && c !in s[..i]
  {
    if s == "" then -1
    else if s[0] == c then 0
    else
      var i := IndexOf(s[1..], c);
      if i < 0 then -1 else
      assert s[..i + 1] == [s[0]] + s[1..][..i];
      i + 1
  }

  function Join(parts: seq<string>, sep: string): string {
    if parts == [] then ""
    else if |parts| == 1 then parts[0]
    else parts[0] + sep + Join(parts[1..], sep)
  }

  function SplitOn(s: string, c: char): (parts: seq<string>)
    ensures parts != []
  {
    if s == "" then [""]
    else
      var rest := SplitOn(s[1..], c);
      if s[0] == c then [""] + rest else [[s[0]] + rest[0]] + rest[1..]
  }

  lemma {:induction false} SplitOnHead(part: string, rest: string, c: char)
    requires c !in part
    ensures SplitOn(part + [c] + rest, c) == [part] + SplitOn(rest, c)
    ensures SplitOn(part, c) == [part]
    decreases |part|
  {
    if part == "" {
      assert part + [c] + rest == [c] + rest;
    } else {
      SplitOnHead(part[1..], rest, c);
      assert (part + [c] + rest)[1..] == part[1..] + [c] + rest;
      assert [part[0]] + part[1..] == part;
    }
  }

  /** Splitting undoes joining when no part contains the separator. */
  lemma {:induction false} SplitJoin(parts: seq<string>, c: char)
    requires parts != [] && forall p | p in parts :: c !in p
    ensures SplitOn(Join(parts, [c]), c) == parts
    decreases |parts|
  {
    assert parts[0] in parts;
    if |parts| == 1 {
      SplitOnHead(parts[0], "", c);
    } else {
      SplitJoin(parts[1..], c);
      SplitOnHead(parts[0], Join(parts[1..], [c]), c);
    }
  }

  /** Parts free of the separator are determined by their joined text. */
  lemma JoinInjective(a: seq<string>, b: seq<string>, c: char)
    requires a != [] && b != [] && Join(a, [c]) == Join(b, [c])
    requires (forall p | p in a :: c !in p) && (forall p | p in b :: c !in p)
    ensures a == b
  {
    SplitJoin(a, c);
    SplitJoin(b, c);
  }

  // ------------------------------------------------------------------ numbers

  predicate IsDigit(c: char) { '0' <= c <= '9' }

  predicate AllDigits(s: string) { s != "" && forall i | 0 <= i < |s| :: IsDigit(s[i]) }

  function DigitsValue(s: string): nat
    requires forall i | 0 <= i < |s| :: IsDigit(s[i])
  {
    if s == "" then 0
    else
      assert IsDigit(s[|s| - 1]);
      DigitsValue(s[..|s| - 1]) * 10 + (s[|s| - 1] as int - '0' as int)
  }

  function Decimal(n: nat): (s: string)
    ensures AllDigits(s)
  {
    if n < 10 then [('0' as int + n) as char] else Decimal(n / 10) + [('0' as int + n % 10) as char]
  }

  lemma {:induction false} DecimalRoundTrip(n: nat)
    ensures DigitsValue(Decimal(n)) == n
  {
    if n >= 10 {
      DecimalRoundTrip(n / 10);
      assert Decimal(n)[..|Decimal(n)| - 1] == Decimal(n / 10);
    } else {
      assert Decimal(n)[..0] == "";
    }
  }

  const MAX_INT64: int := 0x7fff_ffff_ffff_ffff
  const MAX_UINT64: int := 0xffff_ffff_ffff_ffff

  /** Base-ten `ParseInt` with 64 bits, and so `Atoi`: an optional sign, digits, in range. */
  function ParseInt64(s: string): Option<int> {
    var digits := if s != "" && (s[0] == '-' || s[0] == '+') then s[1..] else s;
    if !AllDigits(digits) then None
    else
      var v: int := DigitsValue(digits);
      if s[0] == '-' then if v <= MAX_INT64 + 1 then Some(-v) else None
      else if v <= MAX_INT64 then Some(v) else None
  }

  /** Base-ten `ParseUint` with 64 bits: digits only. */
  function ParseUint64(s: string): Option<nat> {
    if AllDigits(s) && DigitsValue(s) <= MAX_UINT64 then Some(DigitsValue(s)) else None
  }

  lemma ParseDecimal(n: nat)
    ensures n <= MAX_INT64 ==> ParseInt64(Decimal(n)) == Some(n)
    ensures n <= MAX_UINT64 ==> ParseUint64(Decimal(n)) == Some(n)
  {
    DecimalRoundTrip(n);
    assert IsDigit(Decimal(n)[0]);
  }

  // -------------------------------------------------------------- white space

  /** The length of the white-space rune at the start of `s`, 0 if there is none. The non-ASCII
      cases are the UTF-8 encodings of the Unicode spaces. */
  function SpaceLen(s: string): (n: nat)
    ensures n <= |s|
  {
    if s == "" then 0
    else if s[0] in {'\t', '\n', 0xb as char, 0xc as char, '\r', ' '} then 1
    else if |s| >= 2 && s[0] == 0xc2 as char && (s[1] == 0x85 as char || s[1] == 0xa0 as char) then 2
    else if |s| < 3 then 0
    else if s[0] == 0xe1 as char && s[1] == 0x9a as char && s[2] == 0x80 as char then 3
    else if s[0] == 0xe2 as char && s[1] == 0x80 as char
            && (0x80 as char <= s[2] <= 0x8a as char || s[2] in {0xa8 as char, 0xa9 as char, 0xaf as char}) then 3
    else if s[0] == 0xe2 as char && s[1] == 0x81 as char && s[2] == 0x9f as char then 3
    else if s[0] == 0xe3 as char && s[1] == 0x80 as char && s[2] == 0x80 as char then 3
    else 0
  }

  /** `strings.Fields`, with `word` the field being collected. */
  function FieldsFrom(s: string, word: string): seq<string> {
    var flushed := if word == "" then [] else [word];
    if s == "" then flushed
    else if SpaceLen(s) > 0 then flushed + FieldsFrom(s[SpaceLen(s)..], "")
    else FieldsFrom(s[1..], word + [s[0]])
  }

  function Fields(s: string): seq<string> { FieldsFrom(s, "") }

  /** Graphic ASCII: never part of a white-space rune. */
  predicate Graphic(c: char) { '!' <= c <= '~' }

  lemma GraphicIsNotSpace(s: string)
    requires s != "" && Graphic(s[0])
    ensures SpaceLen(s) == 0
  {
  }

  lemma {:induction false} FieldsOfWord(word: string, rest: string, start: string)
    requires forall i | 0 <= i < |word| :: Graphic(word[i])
    ensures FieldsFrom(word + rest, start) == FieldsFrom(rest, start + word)
    decreases |word|
  {
    if word == "" {
      assert word + rest == rest && start + word == start;
    } else {
      GraphicIsNotSpace(word + rest);
      hide SpaceLen;
      assert (word + rest)[1..] == word[1..] + rest;
      FieldsOfWord(word[1..], rest, start + [word[0]]);
      assert start + [word[0]] + word[1..] == start + word;
    }
  }

  /** Words of graphic characters separated by single spaces are exactly the fields. */
  lemma {:induction false} FieldsOfWords(words: seq<string>)
    requires forall w | w in words :: w != "" && forall i | 0 <= i < |w| :: Graphic(w[i])
    ensures Fields(Join(words, " ")) == words
    decreases |words|
  {
    if words != [] {
      var w := words[0];
      assert w in words;
      if |words| == 1 {
        FieldsOfWord(w, "", "");
        assert w + "" == w && "" + w == w;
      } else {
        var tail := " " + Join(words[1..], " ");
        FieldsOfWord(w, tail, "");
        assert w + tail == Join(words, " ") && "" + w == w;
        assert tail[1..] == Join(words[1..], " ");
        FieldsOfWords(words[1..]);
      }
    }
  }

  function Spaces(n: nat): (s: string)
    ensures |s| == n && forall i | 0 <= i < n :: s[i] == ' '
  {
    seq(n, _ => ' ')
  }

  /** Words with so many spaces before, between and after them. */
  function Spread(gaps: seq<nat>, words: seq<string>): string
    requires |gaps| == |words| + 1
  {
    Spaces(gaps[0]) + if words == [] then "" else words[0] + Spread(gaps[1..], words[1..])
  }

  /** Each word is graphic and set off from the next by at least one space. */
  ghost predicate SetOff(gaps: seq<nat>, words: seq<string>) {
    && |gaps| == |words| + 1
    && (forall w | w in words :: w != "" && forall i | 0 <= i < |w| :: Graphic(w[i]))
    && forall k | 0 < k < |words| :: gaps[k] > 0
  }

  lemma {:induction false} FieldsSkipSpaces(n: nat, rest: string)
    ensures FieldsFrom(Spaces(n) + rest, "") == FieldsFrom(rest, "")
    decreases n
  {
    if n == 0 {
      assert Spaces(n) + rest == rest;
    } else {
      var s := Spaces(n) + rest;
      assert SpaceLen(s) == 1 && s[1..] == Spaces(n - 1) + rest;
      FieldsSkipSpaces(n - 1, rest);
      hide SpaceLen;
    }
  }

  /** However words are padded and set apart by spaces, they are the fields. */
  lemma {:induction false} FieldsOfSpread(gaps: seq<nat>, words: seq<string>)
    requires SetOff(gaps, words)
    ensures Fields(Spread(gaps, words)) == words
    decreases |words|
  {
    hide FieldsFrom, Spread;
    if words == [] {
      FieldsSkipSpaces(gaps[0], "");
      assert Spread(gaps, words) == Spaces(gaps[0]) + "" by { NoSpread(gaps); }
      assert FieldsFrom("", "") == [] by { EndOfFields(""); }
    } else {
      var w, rest := words[0], Spread(gaps[1..], words[1..]);
      assert w in words;
      assert Spread(gaps, words) == Spaces(gaps[0]) + (w + rest) by { OneSpread(gaps, words); }
      FieldsSkipSpaces(gaps[0], w + rest);
      FieldsOfWord(w, rest, "");
      assert "" + w == w;
      assert SetOff(gaps[1..], words[1..]) by {
        assert forall x | x in words[1..] :: x in words;
        assert forall k | 0 < k < |words| - 1 :: gaps[1..][k] == gaps[k + 1];
      }
      FieldsOfSpread(gaps[1..], words[1..]);
      WordEnds(w, gaps[1..], words[1..]);
    }
  }

  lemma NoSpread(gaps: seq<nat>)
    requires |gaps| == 1
    ensures Spread(gaps, []) == Spaces(gaps[0]) + ""
  {
  }

  lemma OneSpread(gaps: seq<nat>, words: seq<string>)
    requires |gaps| == |words| + 1 && words != []
    ensures Spread(gaps, words) == Spaces(gaps[0]) + (words[0] + Spread(gaps[1..], words[1..]))
  {
  }

  lemma EndOfFields(word: string)
    ensures FieldsFrom("", word) == if word == "" then [] else [word]
  {
  }

  /** A word ends where spaces or nothing follow it. */
  lemma WordEnds(w: string, gaps: seq<nat>, words: seq<string>)
    requires w != "" && |gaps| == |words| + 1 && (words != [] ==> gaps[0] > 0)
    ensures FieldsFrom(Spread(gaps, words), w) == [w] + Fields(Spread(gaps, words))
  {
    var tail := if words == [] then "" else words[0] + Spread(gaps[1..], words[1..]);
    var s := Spread(gaps, words);
    assert s == Spaces(gaps[0]) + tail;
    hide Spread;
    FieldsSkipSpaces(gaps[0], tail);
    if gaps[0] > 0 {
      assert SpaceLen(s) == 1 && s[1..] == Spaces(gaps[0] - 1) + tail;
      FieldsSkipSpaces(gaps[0] - 1, tail);
      hide SpaceLen;
    } else {
      assert s == "";
    }
  }

  /** A number in 64 bits reads back with either sign; one bit more only with a minus. */
  lemma ParseSigned(n: nat)
    ensures ParseInt64("+" + Decimal(n)) == ParseInt64(Decimal(n))
    ensures ParseInt64(Decimal(n)) == if n < 0x8000_0000_0000_0000 then Some(n) else None
    ensures ParseInt64("-" + Decimal(n)) == if n <= 0x8000_0000_0000_0000 then Some(0 - n as int) else None
  {
    DecimalRoundTrip(n);
    assert IsDigit(Decimal(n)[0]);
    assert ("+" + Decimal(n))[1..] == Decimal(n) && ("-" + Decimal(n))[1..] == Decimal(n);
    hide Decimal, DigitsValue;
  }

  /** Nothing but digits after at most one sign is a number. */
  lemma ParsedAreDigits(s: string)
    ensures ParseInt64(s).Some? ==>
              s != "" && (IsDigit(s[0]) || (s[0] in {'-', '+'} && |s| > 1)) && forall i | 0 < i < |s| :: IsDigit(s[i])
  {
    hide DigitsValue;
    if ParseInt64(s).Some? && !IsDigit(s[0]) {
      assert forall i | 0 < i < |s| :: s[i] == s[1..][i - 1];
    }
  }
}
