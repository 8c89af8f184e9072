/** Printing numbers (`print_num` of `_doprnt`, `printnum`) and reading them back (`strtoul`). */
module Numerals {

  const WORD: int := 0x1_0000_0000
  const MAXBUF: int := 32

  // ----- digits -----

  function Digit(d: int): (c: char)
    requires 0 <= d < 16
    ensures DigitValue(c) == d && c != 'x' && c != 'X' && !IsSpace(c)
  {
    if d < 10 then '0' + d as char else 'a' + (d - 10) as char
  }

  /** Value of a character as a digit; -1 when it is none. */
  function DigitValue(c: char): (v: int)
    ensures -1 <= v < 36
  {
    if '0' <= c <= '9' then c as int - '0' as int
    else if 'a' <= c <= 'z' then c as int - 'a' as int + 10
    else if 'A' <= c <= 'Z' then c as int - 'A' as int + 10
    else -1
  }

  predicate IsSpace(c: char) {
    c in {' ', '\U{000C}', '\n', '\r', '\t', '\U{000B}'}
  }

  /** The digits of `u`, most significant first, at least one. */
  function Digits(u: nat, base: nat): (s: string)
    requires 2 <= base <= 16
    ensures |s| >= 1
  {
    if u < base then [Digit(u)] else Digits(u / base, base) + [Digit(u % base)]
  }

  function Repeat(c: char, n: int): (s: string)
    ensures |s| == if n > 0 then n else 0
    ensures forall i :: 0 <= i < |s| ==> s[i] == c
  {
    if n > 0 then seq(n, i => c) else []
  }

  // ----- strtoul -----

  /** Value and rest of the digits at the front of `s`, in words of 32 bits. */
  function ReadDigits(s: string, base: int, v: nat): (nat, string)
    decreases |s|
  {
    if s == [] || !(0 <= DigitValue(s[0]) < base) then (v, s)
    else ReadDigits(s[1..], base, (v * base + DigitValue(s[0])) % WORD)
  }

  function SkipSpaces(s: string): string {
    if s != [] && IsSpace(s[0]) then SkipSpaces(s[1..]) else s
  }

  predicate HexPrefix(s: string) {
    |s| >= 2 && s[0] == '0' && s[1] in {'x', 'X'}
  }

  /** What `strtoul` makes of a text: value, and where it stops. */
  function Strtoul(s: string, base: int): (nat, string) {
    var t := SkipSpaces(s);
    if base in {0, 16} && HexPrefix(t) then ReadDigits(t[2..], 16, 0)
    else if base == 0 then ReadDigits(t, if t != [] && t[0] == '0' then 8 else 10, 0)
    else ReadDigits(t, base, 0)
  }

  method SkipBlank(s: string) returns (p: nat)
    ensures p <= |s| && s[p..] == SkipSpaces(s)
  {
    p := 0;
    while p < |s| && IsSpace(s[p])
      invariant p <= |s| && SkipSpaces(s) == SkipSpaces(s[p..])
    {
      assert s[p..][1..] == s[p + 1..];
      p := p + 1;
    }
  }

  method ScanDigits(s: string, start: nat, base: int) returns (v: nat, end: nat)
    requires start <= |s|
    ensures end <= |s| && (v, s[end..]) == ReadDigits(s[start..], base, 0)
  {
    hide DigitValue;
    var p := start;
    v := 0;
    while p < |s| && 0 <= DigitValue(s[p]) < base
      invariant p <= |s| && ReadDigits(s[start..], base, 0) == ReadDigits(s[p..], base, v)
    {
      assert s[p..][1..] == s[p + 1..];
      v := (v * base + DigitValue(s[p])) % WORD;
      p := p + 1;
    }
    end := p;
  }

  /** `strtoul`; the end of the text stands for its final NUL. */
  method StrToUl(s: string, radix: int) returns (v: nat, end: nat)
    ensures end <= |s| && (v, s[end..]) == Strtoul(s, radix)
  {
    hide SkipSpaces, ReadDigits;
    var base := radix;
    var p := SkipBlank(s);
    ghost var t := s[p..];
    if (base == 16 || base == 0) && p + 1 < |s| && s[p] == '0' && (s[p + 1] == 'x' || s[p + 1] == 'X') {
      assert HexPrefix(t) && t[2..] == s[p + 2..];
      p := p + 2;
      base := 16;
    }
    if base == 0 {
      base := if p < |s| && s[p] == '0' then 8 else 10;
    }
    assert Strtoul(s, radix) == ReadDigits(s[p..], base, 0);
    v, end := ScanDigits(s, p, base);
  }

  // ----- print_num -----

  function Max(a: int, b: int): int { if a >= b then a else b }

  function Prefix(u: nat, base: nat, altfmt: bool): string {
    if u == 0 || !altfmt then "" else if base == 8 then "0" else if base == 16 then "0x" else ""
  }

  /** The fields of a printed number: blanks, sign, prefix, zeros, digits, blanks. */
  datatype Layout = Layout(before: int, sign: string, prefix: string, zeros: int, digits: string, after: int)

  function Render(l: Layout): string {
    Repeat(' ', l.before) + l.sign + l.prefix + Repeat('0', l.zeros) + l.digits + Repeat(' ', l.after)
  }

  /** What the flags ask for. `width` is what remains of the field after sign, prefix and precision. */
  function Format(u: nat, base: nat, width: int, prec: int, ladjust: bool, zeroPad: bool, altfmt: bool,
                  sign: string): Layout
    requires 2 <= base <= 16
  {
    var digits := Digits(u, base);
    var prefix := Prefix(u, base, altfmt);
    var more := Max(prec - |digits|, 0);
    var pad := Max(width - |sign| - |prefix| - more - |digits|, 0);
    Layout(if !zeroPad && !ladjust then pad else 0, sign, prefix, more + (if zeroPad then pad else 0), digits,
           if !zeroPad && ladjust then pad else 0)
  }

  /** The number of characters is the width, or more when sign, prefix and digits need more. */
  lemma FormatLength(u: nat, base: nat, width: int, prec: int, ladjust: bool, zeroPad: bool, altfmt: bool, sign: string)
    requires 2 <= base <= 16
    ensures var l := Format(u, base, width, prec, ladjust, zeroPad, altfmt, sign);
            |Render(l)| == Max(width, |sign| + (if !altfmt || u == 0 then 0 else if base == 16 then 2
                                                else if base == 8 then 1 else 0)
                                      + Max(|Digits(u, base)|, prec))
  {}

  function Two(n: nat): nat { if n == 0 then 1 else 2 * Two(n - 1) }

  lemma WordIsTwo32()
    ensures Two(32) == WORD
  {
    assert Two(8) == 256;
    assert Two(16) == 256 * Two(8);
    assert Two(24) == 0x1_0000 * Two(8);
  }

  lemma BitLess(v: nat, base: nat, t: nat)
    requires 2 <= base && v < 2 * t
    ensures v / base < t && v == (v / base) * base + v % base && 0 <= v % base < base
  {
    var q := v / base;
    assert q * base <= v;
    assert q * 2 <= q * base;
  }

  /** Dividing by the base takes off the last digit and at least one bit. */
  lemma LastDigit(v: nat, base: nat, k: nat)
    requires 2 <= base <= 16 && v < Two(k + 1)
    ensures 0 <= v % base < 16 && v / base < Two(k)
    ensures Digits(v, base) == (if v / base == 0 then [] else Digits(v / base, base)) + [Digit(v % base)]
  {
    BitLess(v, base, Two(k));
    var q, r := v / base, v % base;
    hide Two;
    if v < base {
      Small(v, base);
      assert Digits(v, base) == [Digit(v)];
    } else {
      Splits(v, base);
      assert Digits(v, base) == Digits(q, base) + [Digit(r)];
    }
  }

  lemma Small(v: nat, base: nat)
    requires v < base
    ensures v / base == 0 && v % base == v
  {}

  method NextDigit(v: nat, base: nat, ghost k: nat) returns (d: nat, q: nat)
    requires 2 <= base <= 16 && v < Two(k + 1)
    ensures d < 16 && q < Two(k) && Digits(v, base) == (if q == 0 then [] else Digits(q, base)) + [Digit(d)]
  {
    LastDigit(v, base, k);
    d, q := v % base, v / base;
  }

  /** The digit loop: from the end of the buffer backwards; 32 characters are enough. */
  method FillDigits(u: nat, base: nat, buf: array<char>) returns (p: int)
    requires u < WORD && 2 <= base <= 16 && buf.Length == MAXBUF
    modifies buf
    ensures -1 <= p < MAXBUF - 1 && buf[p + 1..] == Digits(u, base)
  {
    hide Digits, Digit, Two;
    WordIsTwo32();
    var v: nat := u;
    p := MAXBUF - 1;
    while true
      invariant 0 <= p < MAXBUF && v < Two(p + 1)
      invariant Digits(u, base) == Digits(v, base) + buf[p + 1..]
      decreases p
    {
      TwoZero();
      ghost var done := buf[p + 1..];
      var d, q := NextDigit(v, base, p);
      ghost var higher := if q == 0 then [] else Digits(q, base);
      assert Digits(u, base) == higher + ([Digit(d)] + done);
      buf[p] := Digit(d);
      assert buf[p..] == [Digit(d)] + done;
      p := p - 1;
      v := q;
      if v == 0 { break; }
    }
  }

  lemma TwoZero()
    ensures Two(0) == 1
  {}

  /** `while (--n >= 0) putc(c)`. */
  method Emit(out: string, c: char, n: int) returns (r: string)
    ensures r == out + Repeat(c, n)
  {
    var left := n;
    r := out;
    while left > 0
      invariant left <= Max(n, left) && (n > 0 ==> 0 <= left <= n) && (n <= 0 ==> left == n)
      invariant r == out + Repeat(c, if n > 0 then n - left else 0)
      decreases left
    {
      assert Repeat(c, n - left + 1) == Repeat(c, n - left) + [c];
      r := r + [c];
      left := left - 1;
    }
  }

  /** `print_num`: the loops of `_doprnt` that write a number of 32 bits. */
  method PrintNum(u: nat, base: nat, width: int, prec: int, ladjust: bool, zeroPad: bool, altfmt: bool, sign: string)
    returns (out: string)
    requires u < WORD && 2 <= base <= 16 && |sign| <= 1
    ensures out == Render(Format(u, base, width, prec, ladjust, zeroPad, altfmt, sign))
  {
    hide Digits, Repeat, Render, Format;
    var prefix := Prefix(u, base, altfmt);
    var buf := new char[MAXBUF];
    var p := FillDigits(u, base, buf);
    var digits := MAXBUF - 1 - p;
    var length, zeros := width - digits, prec - digits;
    length := length - |sign|;
    length := length - |prefix|;
    if zeros > 0 {
      length := length - zeros;
    }
    ghost var pad := length;
    ghost var before := if !zeroPad && !ladjust then Repeat(' ', pad) else "";
    out := "";
    if !zeroPad && !ladjust {
      out := Emit(out, ' ', length);
      length := -1;
    }
    assert out == before;
    out := out + sign;
    out := out + prefix;
    out := Emit(out, '0', zeros);
    if zeroPad {
      out := Emit(out, '0', length);
      length := -1;
    }
    assert out == before + sign + prefix + Repeat('0', zeros) + (if zeroPad then Repeat('0', pad) else "");
    out := out + buf[p + 1..];
    if ladjust {
      Nothing(' ');
      out := Emit(out, ' ', length);
    }
    RenderIs(u, base, width, prec, ladjust, zeroPad, altfmt, sign, pad);
  }

  lemma Nothing(c: char)
    ensures Repeat(c, -1) == ""
  {}

  /** A field of negative length is empty. */
  lemma RenderIs(u: nat, base: nat, width: int, prec: int, ladjust: bool, zeroPad: bool, altfmt: bool, sign: string,
                 pad: int)
    requires 2 <= base <= 16
    requires var n := |Digits(u, base)|; pad == width - n - |sign| - |Prefix(u, base, altfmt)| - Max(prec - n, 0)
    ensures Render(Format(u, base, width, prec, ladjust, zeroPad, altfmt, sign)) ==
            (if !zeroPad && !ladjust then Repeat(' ', pad) else "") + sign + Prefix(u, base, altfmt)
            + Repeat('0', prec - |Digits(u, base)|) + (if zeroPad then Repeat('0', pad) else "") + Digits(u, base)
            + (if ladjust && !zeroPad then Repeat(' ', pad) else "")
  {
    hide Digits, Repeat, Prefix;
    var zeros := prec - |Digits(u, base)|;
    Positive('0', zeros);
    Positive('0', pad);
    Positive(' ', pad);
    Joined('0', Max(zeros, 0), Max(pad, 0));
    Positive(' ', 0);
    var l := Format(u, base, width, prec, ladjust, zeroPad, altfmt, sign);
    assert Repeat('0', l.zeros) == Repeat('0', zeros) + (if zeroPad then Repeat('0', pad) else "");
    assert Repeat(' ', l.before) == if !zeroPad && !ladjust then Repeat(' ', pad) else "";
    assert Repeat(' ', l.after) == if ladjust && !zeroPad then Repeat(' ', pad) else "";
    assert l.sign == sign && l.prefix == Prefix(u, base, altfmt) && l.digits == Digits(u, base);
    hide Format;
  }

  lemma Positive(c: char, n: int)
    ensures Repeat(c, n) == Repeat(c, Max(n, 0)) && Repeat(c, 0) == ""
  {}

  lemma Joined(c: char, a: nat, b: nat)
    ensures Repeat(c, a + b) == Repeat(c, a) + Repeat(c, b)
  {}

  // ----- there and back -----

  lemma {:induction false} SkipBlanks(n: int, s: string)
    requires s != [] ==> !IsSpace(s[0])
    ensures SkipSpaces(Repeat(' ', n) + s) == s
    decreases n
  {
    if n > 0 {
      assert (Repeat(' ', n) + s)[1..] == Repeat(' ', n - 1) + s;
      SkipBlanks(n - 1, s);
    } else {
      assert Repeat(' ', n) + s == s;
    }
  }

  lemma {:induction false} ReadZeros(n: int, s: string, base: nat)
    requires 2 <= base
    ensures ReadDigits(Repeat('0', n) + s, base, 0) == ReadDigits(s, base, 0)
    decreases n
  {
    if n > 0 {
      assert (Repeat('0', n) + s)[1..] == Repeat('0', n - 1) + s;
      ReadZeros(n - 1, s, base);
    } else {
      assert Repeat('0', n) + s == s;
    }
  }

  lemma ReadOne(c: char, tail: string, base: nat, v: nat)
    requires 0 <= DigitValue(c) < base && v * base + DigitValue(c) < WORD
    ensures ReadDigits([c] + tail, base, v) == ReadDigits(tail, base, v * base + DigitValue(c))
  {
    hide DigitValue;
    var s, w := [c] + tail, v * base + DigitValue(c);
    assert s[1..] == tail && w % WORD == w;
    assert ReadDigits(s, base, v) == ReadDigits(tail, base, w % WORD);
  }

  /** Reading the digits of `u` and then `tail`, starting from 0. */
  lemma {:induction false} ReadBack(u: nat, base: nat, tail: string)
    requires u < WORD && 2 <= base <= 16
    ensures ReadDigits(Digits(u, base) + tail, base, 0) == ReadDigits(tail, base, u)
    decreases u
  {
    hide ReadDigits;
    if u < base {
      ReadOne(Digit(u), tail, base, 0);
    } else {
      var q, r := u / base, u % base;
      Splits(u, base);
      var c := Digit(r);
      ReadBack(q, base, [c] + tail);
      assert Digits(u, base) == Digits(q, base) + [c];
      hide Digits;
      assert Digits(u, base) + tail == Digits(q, base) + ([c] + tail);
      ReadOne(c, tail, base, q);
    }
  }

  lemma Splits(u: nat, base: nat)
    requires u >= base >= 2
    ensures u == (u / base) * base + u % base && 0 <= u % base < base && 0 < u / base < u
  {
    var q := u / base;
    assert u == q * base + u % base;
    assert q * 2 <= q * base;
  }

  lemma {:induction false} DigitsFirst(u: nat, base: nat)
    requires 2 <= base <= 16
    ensures forall i :: 0 <= i < |Digits(u, base)| ==> var c := Digits(u, base)[i]; c != 'x' && c != 'X' && !IsSpace(c)
  {
    if u >= base { DigitsFirst(u / base, base); }
  }

  /** The part after the prefix. */
  lemma ReadField(l: Layout, u: nat, base: nat)
    requires u < WORD && 2 <= base <= 16 && l.digits == Digits(u, base)
    ensures ReadDigits(Repeat('0', l.zeros) + l.digits + Repeat(' ', l.after), base, 0) == (u, Repeat(' ', l.after))
  {
    var tail := Repeat(' ', l.after);
    assert Repeat('0', l.zeros) + l.digits + tail == Repeat('0', l.zeros) + (l.digits + tail);
    ReadZeros(l.zeros, l.digits + tail, base);
    ReadBack(u, base, tail);
  }

  lemma FieldStart(l: Layout, u: nat, base: nat)
    requires 2 <= base <= 16 && l.digits == Digits(u, base)
    ensures var t := Repeat('0', l.zeros) + l.digits + Repeat(' ', l.after); t != [] && !IsSpace(t[0]) && !HexPrefix(t)
  {
    DigitsFirst(u, base);
  }

  /** Whatever the width, precision, padding and prefix, reading what was printed gives the number back and
      stops at the trailing blanks. */
  lemma PrintThenParse(u: nat, base: nat, width: int, prec: int, ladjust: bool, zeroPad: bool, altfmt: bool)
    requires u < WORD && base in {8, 10, 16}
    ensures var l := Format(u, base, width, prec, ladjust, zeroPad, altfmt, "");
            Strtoul(Render(l), base) == (u, Repeat(' ', l.after))
  {
    hide Digits, ReadDigits, SkipSpaces, Repeat;
    var l := Format(u, base, width, prec, ladjust, zeroPad, altfmt, "");
    var field := Repeat('0', l.zeros) + l.digits + Repeat(' ', l.after);
    assert l.sign == "" && l.digits == Digits(u, base) && l.prefix == Prefix(u, base, altfmt);
    hide Format;
    FieldStart(l, u, base);
    ReadField(l, u, base);
    var t := l.prefix + field;
    assert Render(l) == Repeat(' ', l.before) + t;
    SkipBlanks(l.before, t);
    if l.prefix == "0x" {
      assert HexPrefix(t) && t[2..] == field;
    } else if l.prefix == "0" {
      LeadingZero(field, base);
      assert t == ['0'] + field;
    } else {
      assert t == field;
    }
  }

  lemma LeadingZero(s: string, base: nat)
    requires base >= 2
    ensures ReadDigits(['0'] + s, base, 0) == ReadDigits(s, base, 0)
  {
    assert (['0'] + s)[1..] == s;
  }
}
