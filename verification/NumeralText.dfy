/** What printed numbers look like and which texts `strtoul` reads, with the characters written out. */
module NumeralText {
  import opened Numerals

  const SMALL: string := "0123456789abcdefghijklmnopqrstuvwxyz"
  const CAPITAL: string := "0123456789ABCDEFGHIJKLMNOPQRSTUVWXYZ"

  /** The character is a digit of value `d`. */
  predicate Stands(c: char, d: int) {
    0 <= d < 36 && (c == SMALL[d] || c == CAPITAL[d])
  }

  /** The number with these digits, most significant first. */
  function Number(ds: seq<int>, base: int): int {
    if ds == [] then 0 else Number(ds[..|ds| - 1], base) * base + ds[|ds| - 1]
  }

  predicate Blank(c: char) {
    c as int in {9, 10, 11, 12, 13, 32}
  }

  lemma SmallLetters(d: int)
    requires 0 <= d < 36
    ensures SMALL[d] == if d < 10 then '0' + d as char else 'a' + (d - 10) as char
  {}

  lemma CapitalLetters(d: int)
    requires 0 <= d < 36
    ensures CAPITAL[d] == if d < 10 then '0' + d as char else 'A' + (d - 10) as char
  {}

  /** Digits are valued by their place in the alphabet, capital or not. */
  lemma ValueOfDigit(c: char, d: int)
    requires 0 <= d
    ensures DigitValue(c) == d <==> Stands(c, d)
  {
    if d < 36 {
      SmallLetters(d);
      CapitalLetters(d);
    }
  }

  // ----- printing -----

  /** The digits of a number are the letters of the digits that make it up, without leading zeros. */
  lemma {:induction false} DigitsSpell(u: nat, base: nat) returns (ds: seq<int>)
    requires 2 <= base <= 16
    ensures |ds| == |Digits(u, base)| >= 1 && Number(ds, base) == u && (|ds| > 1 ==> ds[0] != 0)
    ensures forall i :: 0 <= i < |ds| ==> 0 <= ds[i] < base && Digits(u, base)[i] == "0123456789abcdef"[ds[i]]
    ensures u > 0 ==> ds[0] != 0
  {
    DigitLetter(u % base);
    if u < base {
      Small(u, base);
      ds := [u];
      assert ds[..0] == [];
    } else {
      Splits(u, base);
      var high := DigitsSpell(u / base, base);
      ds := high + [u % base];
      assert ds[..|ds| - 1] == high;
    }
  }

  lemma DigitLetter(d: int)
    requires 0 <= d < 16
    ensures Digit(d) == "0123456789abcdef"[d]
  {}

  /** What is printed in front of the digits: only a number other than 0 has it, only with `#`, and only in
      base 16 or 8. */
  lemma PrintedPrefix(u: nat, base: nat, altfmt: bool)
    ensures Prefix(u, base, altfmt) ==
            if altfmt && u > 0 && base == 16 then "0x" else if altfmt && u > 0 && base == 8 then "0" else ""
  {}

  /** The printed text is blanks, sign, prefix, zeros, digits and blanks, as long as the width or what the
      precision asks for.  Blanks in front mean that the number is adjusted to the right without zeros, blanks
      behind that it is adjusted to the left without zeros, and more zeros than the precision asks for that
      it is padded with zeros. */
  lemma PrintedText(u: nat, base: nat, width: int, prec: int, ladjust: bool, zeroPad: bool, altfmt: bool, sign: string)
    returns (before: nat, zeros: nat, ds: seq<int>, after: nat)
    requires 2 <= base <= 16
    ensures |ds| >= 1 && Number(ds, base) == u && (|ds| > 1 ==> ds[0] != 0)
    ensures forall i :: 0 <= i < |ds| ==> 0 <= ds[i] < base
    ensures var text := Render(Format(u, base, width, prec, ladjust, zeroPad, altfmt, sign));
            var prefix := if altfmt && u > 0 && base == 16 then "0x"
                          else if altfmt && u > 0 && base == 8 then "0" else "";
            && text == seq(before, i => ' ') + sign + prefix + seq(zeros, i => '0')
                       + seq(|ds|, i requires 0 <= i < |ds| =>
                               if 0 <= ds[i] < 16 then "0123456789abcdef"[ds[i]] else '?')
                       + seq(after, i => ' ')
            && |text| == Max(width, |sign| + |prefix| + Max(|ds|, prec))
    ensures zeros >= prec - |ds| && (zeros > 0 && zeros > prec - |ds| ==> zeroPad)
    ensures before > 0 ==> !zeroPad && !ladjust
    ensures after > 0 ==> !zeroPad && ladjust
  {
    ds := DigitsSpell(u, base);
    hide Digits, Digit, Number, Prefix;
    PrintedPrefix(u, base, altfmt);
    var l := Format(u, base, width, prec, ladjust, zeroPad, altfmt, sign);
    before, zeros, after := Max(l.before, 0), Max(l.zeros, 0), Max(l.after, 0);
    var digits := seq(|ds|, i requires 0 <= i < |ds| => if 0 <= ds[i] < 16 then "0123456789abcdef"[ds[i]] else '?');
    assert l.digits == digits;
    FormatLength(u, base, width, prec, ladjust, zeroPad, altfmt, sign);
    assert Repeat(' ', l.before) == seq(before, i => ' ');
    assert Repeat('0', l.zeros) == seq(zeros, i => '0');
    assert Repeat(' ', l.after) == seq(after, i => ' ');
  }

  // ----- reading -----

  lemma {:induction false} BlanksSkipped(s: string) returns (b: nat)
    ensures b <= |s| && SkipSpaces(s) == s[b..]
    ensures (forall i :: 0 <= i < b ==> Blank(s[i])) && (b < |s| ==> !Blank(s[b]))
  {
    if s != [] && IsSpace(s[0]) {
      BlankIs(s[0]);
      var n := BlanksSkipped(s[1..]);
      b := n + 1;
      assert s[1..][n..] == s[b..];
      forall i | 0 <= i < b ensures Blank(s[i]) {
        if i > 0 { assert s[1..][i - 1] == s[i]; }
      }
    } else {
      b := 0;
      if s != [] { BlankIs(s[0]); }
    }
  }

  lemma BlankIs(c: char)
    ensures IsSpace(c) <==> Blank(c)
  {}

  /** Working modulo 2^32 at every digit is working modulo 2^32 at the end. */
  lemma ModStep(x: int, base: int, d: int)
    ensures ((x % WORD) * base + d) % WORD == (x * base + d) % WORD
  {
    var q, r := x / WORD, x % WORD;
    assert x == q * WORD + r;
    assert x * base + d == (q * base) * WORD + (r * base + d);
    ModShift(q * base, r * base + d);
  }

  lemma ModShift(k: int, y: int)
    ensures (k * WORD + y) % WORD == y % WORD
  {
    var q, r := y / WORD, y % WORD;
    assert k * WORD + y == (k + q) * WORD + r;
    Unique(k * WORD + y, k + q, r);
  }

  lemma Unique(x: int, q: int, r: int)
    requires x == q * WORD + r && 0 <= r < WORD
    ensures x % WORD == r
  {}

  lemma ReadStep(s: string, base: int, v: nat)
    requires s != [] && 0 <= DigitValue(s[0]) < base
    ensures ReadDigits(s, base, v) == ReadDigits(s[1..], base, (v * base + DigitValue(s[0])) % WORD)
  {
    hide DigitValue;
  }

  lemma NoDigits(base: int)
    ensures Number([], base) == 0
  {}

  lemma OneMore(high: seq<int>, d: int, base: int)
    ensures Number(high + [d], base) % WORD == ((Number(high, base) % WORD) * base + d) % WORD
  {
    assert (high + [d])[..|high|] == high;
    assert Number(high + [d], base) == Number(high, base) * base + d;
    ModStep(Number(high, base), base, d);
  }

  /** `ds` is the longest run of digits at the beginning of `s`. */
  ghost predicate LongestRun(s: string, base: int, ds: seq<int>) {
    && |ds| <= |s| && (forall i :: 0 <= i < |ds| ==> 0 <= ds[i] < base && Stands(s[i], ds[i]))
    && (|ds| < |s| ==> forall d :: 0 <= d < base ==> !Stands(s[|ds|], d))
  }

  lemma LongerRun(s: string, base: int, d: int, rest: seq<int>)
    requires s != [] && 0 <= d < base && Stands(s[0], d) && LongestRun(s[1..], base, rest)
    ensures LongestRun(s, base, [d] + rest)
  {
    hide Stands;
    assert forall i :: 0 < i < |s| ==> s[i] == s[1..][i - 1];
  }

  /** The digits read after those of `high`: the longest run, and the number of both together modulo 2^32. */
  lemma {:induction false} DigitsRead(s: string, base: int, high: seq<int>) returns (ds: seq<int>)
    ensures LongestRun(s, base, ds) && Number(high, base) % WORD >= 0
    ensures ReadDigits(s, base, Number(high, base) % WORD) == (Number(high + ds, base) % WORD, s[|ds|..])
    decreases |s|
  {
    hide DigitValue, Stands, Number;
    if s == [] || !(0 <= DigitValue(s[0]) < base) {
      ds := [];
      assert high + [] == high && s[0..] == s;
      if s != [] {
        forall d | 0 <= d < base ensures !Stands(s[0], d) { ValueOfDigit(s[0], d); }
      }
    } else {
      var d := DigitValue(s[0]);
      ValueOfDigit(s[0], d);
      var more := high + [d];
      OneMore(high, d, base);
      ReadStep(s, base, Number(high, base) % WORD);
      hide ReadDigits, LongestRun;
      var rest := DigitsRead(s[1..], base, more);
      ds := [d] + rest;
      LongerRun(s, base, d, rest);
      assert more + rest == high + ds && s[1..][|rest|..] == s[|ds|..];
    }
  }

  /** `strtoul`: after blanks and, in base 16 or 0, an optional `0x` or `0X`, the longest run of digits.  Base 0
      is 16 after such a mark, 8 after a `0`, and else 10. */
  lemma ReadText(s: string, base: int) returns (b: nat, start: nat, end: nat, radix: int, ds: seq<int>)
    ensures b <= start <= end <= |s|
    ensures (forall i :: 0 <= i < b ==> Blank(s[i])) && (b < |s| ==> !Blank(s[b]))
    ensures var marked := base in {0, 16} && b + 1 < |s| && s[b] == '0' && (s[b + 1] == 'x' || s[b + 1] == 'X');
            && start == (if marked then b + 2 else b)
            && radix == (if marked then 16 else if base != 0 then base else if b < |s| && s[b] == '0' then 8 else 10)
    ensures |ds| == end - start
    ensures forall i :: 0 <= i < |ds| ==> 0 <= ds[i] < radix && Stands(s[start + i], ds[i])
    ensures end < |s| ==> forall d :: 0 <= d < radix ==> !Stands(s[end], d)
    ensures Strtoul(s, base) == (Number(ds, radix) % 0x1_0000_0000, s[end..])
  {
    hide DigitValue, Stands, SkipSpaces, ReadDigits, Strtoul, Number, Blank;
    b := BlanksSkipped(s);
    var marked := Marked(s, b, base);
    start := if marked then b + 2 else b;
    radix := if marked then 16 else if base != 0 then base else if b < |s| && s[b] == '0' then 8 else 10;
    StrtoulIs(s, base, b, start, radix);
    end, ds := DigitsFrom(s, start, radix);
  }

  lemma DigitsFrom(s: string, start: nat, base: int) returns (end: nat, ds: seq<int>)
    requires start <= |s|
    ensures start <= end <= |s| && |ds| == end - start
    ensures forall i :: 0 <= i < |ds| ==> 0 <= ds[i] < base && Stands(s[start + i], ds[i])
    ensures end < |s| ==> forall d :: 0 <= d < base ==> !Stands(s[end], d)
    ensures ReadDigits(s[start..], base, 0) == (Number(ds, base) % WORD, s[end..])
  {
    hide Stands, ReadDigits, Number;
    NoDigits(base);
    ds := DigitsRead(s[start..], base, []);
    end := start + |ds|;
    assert [] + ds == ds && s[start..][|ds|..] == s[end..];
  }

  predicate Marked(s: string, b: nat, base: int) {
    base in {0, 16} && b + 1 < |s| && s[b] == '0' && (s[b + 1] == 'x' || s[b + 1] == 'X')
  }

  /** Where the digits begin, and in which base they are read. */
  lemma StrtoulIs(s: string, base: int, b: nat, start: nat, radix: int)
    requires b <= |s| && SkipSpaces(s) == s[b..]
    requires start == if Marked(s, b, base) then b + 2 else b
    requires radix == if Marked(s, b, base) then 16
                      else if base != 0 then base else if b < |s| && s[b] == '0' then 8 else 10
    ensures start <= |s| && Strtoul(s, base) == ReadDigits(s[start..], radix, 0)
  {
    hide SkipSpaces, ReadDigits;
    var t := s[b..];
    assert Marked(s, b, base) ==> t[2..] == s[start..];
    assert Marked(s, b, base) <==> base in {0, 16} && HexPrefix(t);
  }
}
