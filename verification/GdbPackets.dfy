/** Packets of the GDB remote serial protocol: run-length encoding, hexadecimal text and checksum. */
module GdbPackets {

  type byte = x: int | 0 <= x < 256

  const DOLLAR: byte := 36
  const HASH: byte := 35
  const STAR: byte := 42

  // ----- hexadecimal digits -----

  /** `hexchars[d]`. */
  function HexChar(d: int): (c: byte)
    requires 0 <= d < 16
    ensures Hex(c) == d && c != STAR
  {
    if d < 10 then 48 + d else 87 + d
  }

  function Hex(c: byte): (d: int)
    ensures -1 <= d < 16
  {
    if 48 <= c <= 57 then c - 48
    else if 97 <= c <= 102 then c - 87
    else if 65 <= c <= 70 then c - 55
    else -1
  }

  /** Digits are written in small letters and read in both kinds; nothing else is a digit. */
  lemma HexLetters(c: byte, d: int)
    requires 0 <= d < 16
    ensures HexChar(d) == "0123456789abcdef"[d] as int
    ensures Hex(c) == d <==> c == "0123456789abcdef"[d] as int || c == "0123456789ABCDEF"[d] as int
  {}

  /** Two digits for each byte. */
  function HexText(bytes: seq<byte>): (r: seq<byte>)
    ensures |r| == 2 * |bytes|
  {
    if bytes == [] then [] else [HexChar(bytes[0] / 16), HexChar(bytes[0] % 16)] + HexText(bytes[1..])
  }

  /** `hex2bin`: fails on the first pair that is not made of two digits. */
  method Hex2Bin(text: seq<byte>, len: nat) returns (ok: bool, out: seq<byte>)
    requires |text| >= 2 * len
    ensures ok <==> forall i :: 0 <= i < 2 * len ==> Hex(text[i]) >= 0
    ensures ok ==> |out| == len && forall i :: 0 <= i < len ==> out[i] == 16 * Hex(text[2 * i]) + Hex(text[2 * i + 1])
    ensures ok ==> forall bytes :: text[..2 * len] == HexText(bytes) ==> out == bytes
  {
    var i := 0;
    out := [];
    while i < len
      invariant 0 <= i <= len && |out| == i
      invariant forall j :: 0 <= j < 2 * i ==> Hex(text[j]) >= 0
      invariant forall j :: 0 <= j < i ==> out[j] == 16 * Hex(text[2 * j]) + Hex(text[2 * j + 1])
    {
      var high, low := Hex(text[2 * i]), Hex(text[2 * i + 1]);
      if high < 0 || low < 0 {
        return false, out;
      }
      out := out + [16 * high + low];
      i := i + 1;
    }
    ok := true;
    forall bytes | text[..2 * len] == HexText(bytes) ensures out == bytes {
      HexTextAt(bytes);
      forall j | 0 <= j < len ensures out[j] == bytes[j] {
        assert text[2 * j] == text[..2 * len][2 * j] && text[2 * j + 1] == text[..2 * len][2 * j + 1];
      }
    }
  }

  lemma {:induction false} HexTextAt(bytes: seq<byte>)
    ensures forall i :: 0 <= i < |bytes| ==>
                          HexText(bytes)[2 * i] == HexChar(bytes[i] / 16)
                          && HexText(bytes)[2 * i + 1] == HexChar(bytes[i] % 16)
  {
    if bytes != [] {
      HexTextAt(bytes[1..]);
      forall i | 0 <= i < |bytes|
        ensures HexText(bytes)[2 * i] == HexChar(bytes[i] / 16) && HexText(bytes)[2 * i + 1] == HexChar(bytes[i] % 16)
      {
        if i > 0 {
          assert HexText(bytes)[2 * i] == HexText(bytes[1..])[2 * (i - 1)];
          assert HexText(bytes)[2 * i + 1] == HexText(bytes[1..])[2 * (i - 1) + 1];
        }
      }
    }
  }

  /** What the encoder writes in hexadecimal, the decoder reads back. */
  lemma HexRoundTrip(bytes: seq<byte>)
    ensures forall i :: 0 <= i < |HexText(bytes)| ==> Hex(HexText(bytes)[i]) >= 0
    ensures forall i :: 0 <= i < |bytes| ==>
                          16 * Hex(HexText(bytes)[2 * i]) + Hex(HexText(bytes)[2 * i + 1]) == bytes[i]
  {
    HexTextAt(bytes);
    forall i | 0 <= i < |HexText(bytes)| ensures Hex(HexText(bytes)[i]) >= 0 {
      assert i == 2 * (i / 2) || i == 2 * (i / 2) + 1;
    }
  }

  // ----- expansion, as the protocol defines it -----

  function Repeat(c: byte, n: nat): (r: seq<byte>)
    ensures |r| == n
  {
    seq(n, i => c)
  }

  /** A character followed by `*` and a count byte stands for `count - 28` copies of it. */
  function Expand(s: seq<byte>): seq<byte>
    decreases |s|
  {
    if s == [] then []
    else if |s| >= 3 && s[1] == STAR then Repeat(s[0], if s[2] >= 28 then s[2] - 28 else 0) + Expand(s[3..])
    else [s[0]] + Expand(s[1..])
  }

  // ----- what is sent -----

  datatype Token = Plain(c: byte) | Run(c: byte, n: int)

  /** Runs are of 4 to 98 characters, so that their count byte is printable. */
  predicate Sendable(t: Token) {
    t.Run? ==> 4 <= t.n <= 98
  }

  function Send(t: Token): (r: seq<byte>)
    requires Sendable(t)
    ensures t.Run? ==> |r| == 3 && r[1] == STAR && 32 <= r[2] <= 126
  {
    match t
    case Plain(c) => [c]
    case Run(c, n) => [c, STAR, 29 + n - 1]
  }

  function SendAll(ts: seq<Token>): seq<byte>
    requires forall t :: t in ts ==> Sendable(t)
  {
    if ts == [] then [] else Send(ts[0]) + SendAll(ts[1..])
  }

  function Means(t: Token): seq<byte>
  {
    match t
    case Plain(c) => [c]
    case Run(c, n) => Repeat(c, if n >= 0 then n else 0)
  }

  function MeansAll(ts: seq<Token>): seq<byte> {
    if ts == [] then [] else Means(ts[0]) + MeansAll(ts[1..])
  }

  /** No token begins with the repetition mark. */
  predicate Unstarred(ts: seq<Token>) {
    forall t :: t in ts ==> Sendable(t) && t.c != STAR
  }

  /** A single character is followed by a `*` at most at the very end. */
  predicate Clear(ts: seq<Token>) {
    ts != [] ==> !Misread(ts) && Clear(ts[1..])
  }

  /** The first token would be read as the character of a run. */
  predicate Misread(ts: seq<Token>) {
    |ts| >= 2 && ts[0].Plain? && ts[1].c == STAR && (ts[1].Run? || |ts| > 2)
  }

  lemma {:induction false} UnstarredClear(ts: seq<Token>)
    requires Unstarred(ts)
    ensures Clear(ts)
  {
    if ts != [] {
      assert forall t :: t in ts[1..] ==> t in ts;
      if |ts| >= 2 { assert ts[1] in ts; }
      UnstarredClear(ts[1..]);
    }
  }

  lemma ExpandPlain(c: byte, tail: seq<byte>)
    requires |tail| < 2 || tail[0] != STAR
    ensures Expand([c] + tail) == [c] + Expand(tail)
  {
    assert ([c] + tail)[1..] == tail;
  }

  lemma ExpandRun(c: byte, n: int, tail: seq<byte>)
    requires 4 <= n <= 98
    ensures Expand([c, STAR, 29 + n - 1] + tail) == Repeat(c, n) + Expand(tail)
  {
    assert ([c, STAR, 29 + n - 1] + tail)[3..] == tail;
  }

  /** The first bytes sent. */
  lemma FirstSent(ts: seq<Token>)
    requires ts != [] && forall t :: t in ts ==> Sendable(t)
    ensures SendAll(ts) != [] && SendAll(ts)[0] == ts[0].c
    ensures |SendAll(ts)| >= 2 <==> ts[0].Run? || |ts| >= 2
    ensures ts[0].Run? ==> SendAll(ts)[1] == STAR
    ensures ts[0].Plain? && |ts| >= 2 ==> SendAll(ts)[1] == ts[1].c
  {
    assert ts[0] in ts && forall t :: t in ts[1..] ==> t in ts;
    if |ts| >= 2 {
      assert ts[1..][0] in ts[1..];
      assert SendAll(ts[1..]) == Send(ts[1]) + SendAll(ts[1..][1..]);
    }
  }

  lemma {:induction false} ExpandSent(ts: seq<Token>)
    requires Clear(ts) && forall t :: t in ts ==> Sendable(t)
    ensures Expand(SendAll(ts)) == MeansAll(ts)
  {
    if ts != [] {
      var rest := ts[1..];
      assert ts[0] in ts && forall t :: t in rest ==> t in ts;
      ExpandSent(rest);
      hide Expand;
      if rest != [] { FirstSent(rest); }
      match ts[0] {
        case Plain(c) => ExpandPlain(c, SendAll(rest));
        case Run(c, n) => ExpandRun(c, n, SendAll(rest));
      }
    }
  }

  /** Length of the run at the front of the text: from `k` equal bytes on, up to `limit`. */
  function RunLength(text: seq<byte>, k: nat, limit: nat): (r: nat)
    requires 1 <= k <= |text| && limit <= |text| && (k <= limit || k == limit)
    requires forall i :: 0 <= i < k ==> text[i] == text[0]
    ensures k <= r <= limit && forall i :: 0 <= i < r ==> text[i] == text[0]
    decreases limit - k
  {
    if k < limit && text[k] == text[0] then RunLength(text, k + 1, limit) else k
  }

  predicate HexRun(text: seq<byte>) {
    |text| >= 2 && text[1] == text[0] && text[0] / 16 == text[0] % 16
  }

  predicate RawRun(text: seq<byte>) {
    |text| >= 4 && text[1] == text[0] && text[2] == text[0] && text[3] == text[0]
  }

  function Min(a: nat, b: nat): nat { if a <= b then a else b }

  /** The tokens `putfrags` sends for a fragment. */
  function Compress(text: seq<byte>, hexify: bool): seq<Token>
    decreases |text|
  {
    if text == [] then []
    else if hexify && HexRun(text) then
      var n := RunLength(text, 2, Min(49, |text|));
      [Run(HexChar(text[0] % 16), 2 * n)] + Compress(text[n..], hexify)
    else if !hexify && RawRun(text) then
      var n := RunLength(text, 4, Min(98, |text|));
      [Run(text[0], n)] + Compress(text[n..], hexify)
    else if hexify then
      [Plain(HexChar(text[0] / 16)), Plain(HexChar(text[0] % 16))] + Compress(text[1..], hexify)
    else
      [Plain(text[0])] + Compress(text[1..], hexify)
  }

  /** What a fragment is meant to say. */
  function Meaning(text: seq<byte>, hexify: bool): seq<byte> {
    if hexify then HexText(text) else text
  }

  lemma {:induction false} HexTextRun(text: seq<byte>, n: nat, b: byte)
    requires n <= |text| && b / 16 == b % 16 && forall i :: 0 <= i < n ==> text[i] == b
    ensures HexText(text) == Repeat(HexChar(b % 16), 2 * n) + HexText(text[n..])
    decreases n
  {
    var c := HexChar(b % 16);
    if n == 0 {
      assert Repeat(c, 0) + HexText(text) == HexText(text) && text[0..] == text;
    } else {
      HexTextRun(text[1..], n - 1, b);
      assert text[1..][n - 1..] == text[n..];
      assert HexText(text) == [c, c] + HexText(text[1..]);
      hide HexText;
      assert Repeat(c, 2 * n) == [c, c] + Repeat(c, 2 * (n - 1));
    }
  }

  lemma MeansFirst(t: Token, rest: seq<Token>)
    ensures MeansAll([t] + rest) == Means(t) + MeansAll(rest)
  {
    assert ([t] + rest)[1..] == rest;
  }

  lemma {:induction false} CompressMeans(text: seq<byte>, hexify: bool)
    ensures MeansAll(Compress(text, hexify)) == Meaning(text, hexify)
    decreases |text|
  {
    hide MeansAll, RunLength;
    if text == [] {
      assert MeansAll([]) == [] by { MeansNothing(); }
    } else if hexify && HexRun(text) {
      var n := RunLength(text, 2, Min(49, |text|));
      CompressMeans(text[n..], hexify);
      HexTextRun(text, n, text[0]);
      MeansFirst(Run(HexChar(text[0] % 16), 2 * n), Compress(text[n..], hexify));
    } else if !hexify && RawRun(text) {
      var n := RunLength(text, 4, Min(98, |text|));
      CompressMeans(text[n..], hexify);
      assert text == Repeat(text[0], n) + text[n..];
      MeansFirst(Run(text[0], n), Compress(text[n..], hexify));
    } else {
      CompressMeans(text[1..], hexify);
      var ts := Compress(text[1..], hexify);
      if hexify {
        var high, low := Plain(HexChar(text[0] / 16)), Plain(HexChar(text[0] % 16));
        assert Compress(text, hexify) == [high] + ([low] + ts);
        MeansFirst(high, [low] + ts);
        MeansFirst(low, ts);
      } else {
        MeansFirst(Plain(text[0]), ts);
      }
    }
  }

  lemma MeansNothing()
    ensures MeansAll([]) == []
  {}

  lemma {:induction false} CompressSendable(text: seq<byte>, hexify: bool)
    ensures forall t :: t in Compress(text, hexify) ==> Sendable(t)
    ensures hexify || STAR !in text ==> Unstarred(Compress(text, hexify))
    decreases |text|
  {
    if text == [] {
    } else if hexify && HexRun(text) {
      CompressSendable(text[RunLength(text, 2, Min(49, |text|))..], hexify);
    } else if !hexify && RawRun(text) {
      assert text[0] in text;
      CompressSendable(text[RunLength(text, 4, Min(98, |text|))..], hexify);
    } else {
      assert text[0] in text;
      CompressSendable(text[1..], hexify);
    }
  }

  // ----- fragments and packets -----

  /** `data` is what can be read from the pointer on; a length of 0 means up to the first NUL. */
  datatype Frag = Frag(data: seq<byte>, len: nat, hexify: bool)

  predicate Readable(f: Frag) {
    if f.len > 0 then f.len <= |f.data| else 0 in f.data
  }

  function FirstNul(data: seq<byte>): (z: nat)
    requires 0 in data
    ensures z < |data| && data[z] == 0 && forall i :: 0 <= i < z ==> data[i] != 0
  {
    if data[0] == 0 then 0 else 1 + FirstNul(data[1..])
  }

  function Text(f: Frag): seq<byte>
    requires Readable(f)
  {
    if f.len > 0 then f.data[..f.len] else f.data[..FirstNul(f.data)]
  }

  function Sum(s: seq<byte>): nat {
    if s == [] then 0 else s[0] + Sum(s[1..])
  }

  lemma {:induction false} SumConcat(a: seq<byte>, b: seq<byte>)
    ensures Sum(a + b) == Sum(a) + Sum(b)
  {
    if a == [] {
      assert a + b == b;
    } else {
      assert (a + b)[1..] == a[1..] + b;
      SumConcat(a[1..], b);
    }
  }

  function Tokens(frags: seq<Frag>): seq<Token>
    requires forall f :: f in frags ==> Readable(f)
  {
    if frags == [] then []
    else
      assert frags[0] in frags && forall f :: f in frags[1..] ==> f in frags;
      Compress(Text(frags[0]), frags[0].hexify) + Tokens(frags[1..])
  }

  function Said(frags: seq<Frag>): seq<byte>
    requires forall f :: f in frags ==> Readable(f)
  {
    if frags == [] then []
    else
      assert frags[0] in frags && forall f :: f in frags[1..] ==> f in frags;
      Meaning(Text(frags[0]), frags[0].hexify) + Said(frags[1..])
  }

  lemma {:induction false} MeansConcat(a: seq<Token>, b: seq<Token>)
    ensures MeansAll(a + b) == MeansAll(a) + MeansAll(b)
  {
    if a == [] {
      assert a + b == b;
    } else {
      assert (a + b)[1..] == a[1..] + b;
      MeansConcat(a[1..], b);
    }
  }

  lemma {:induction false} SendConcat(a: seq<Token>, b: seq<Token>)
    requires forall t :: t in a || t in b ==> Sendable(t)
    ensures SendAll(a + b) == SendAll(a) + SendAll(b)
  {
    if a == [] {
      assert a + b == b;
    } else {
      assert (a + b)[1..] == a[1..] + b;
      SendConcat(a[1..], b);
    }
  }

  /** The fragments can be told apart from repetition marks: hexadecimal, or without a `*`. */
  predicate Unambiguous(frags: seq<Frag>)
    requires forall f :: f in frags ==> Readable(f)
  {
    forall f :: f in frags ==> f.hexify || STAR !in Text(f)
  }

  lemma {:induction false} TokensOk(frags: seq<Frag>)
    requires forall f :: f in frags ==> Readable(f)
    ensures forall t :: t in Tokens(frags) ==> Sendable(t)
    ensures MeansAll(Tokens(frags)) == Said(frags)
    ensures Unambiguous(frags) ==> Unstarred(Tokens(frags))
  {
    if frags != [] {
      var f, rest := frags[0], frags[1..];
      assert f in frags && forall g :: g in rest ==> g in frags;
      TokensOk(rest);
      CompressSendable(Text(f), f.hexify);
      CompressMeans(Text(f), f.hexify);
      MeansConcat(Compress(Text(f), f.hexify), Tokens(rest));
    }
  }

  /** Whoever expands the body of a packet gets what the fragments say, if no single character is followed by
      a `*` that is not the last character; fragments in hexadecimal or without `*` are of this kind. */
  lemma PacketRoundTrip(frags: seq<Frag>)
    requires forall f :: f in frags ==> Readable(f)
    ensures forall t :: t in Tokens(frags) ==> Sendable(t)
    ensures Unambiguous(frags) ==> Clear(Tokens(frags))
    ensures Clear(Tokens(frags)) ==> Expand(SendAll(Tokens(frags))) == Said(frags)
  {
    TokensOk(frags);
    if Unambiguous(frags) { UnstarredClear(Tokens(frags)); }
    if Clear(Tokens(frags)) { ExpandSent(Tokens(frags)); }
  }

  lemma StepSent(t: Token, rest: seq<Token>, all: seq<Token>)
    requires all == [t] + rest && forall x :: x in all ==> Sendable(x)
    ensures forall x :: x in rest ==> Sendable(x)
    ensures Sendable(t) && SendAll(all) == Send(t) + SendAll(rest)
  {
    assert t in all && all[1..] == rest;
  }

  lemma SentRun(rest: seq<byte>, hexify: bool)
    requires if hexify then HexRun(rest) else RawRun(rest)
    ensures forall t :: t in Compress(rest, hexify) ==> Sendable(t)
    ensures var n := if hexify then RunLength(rest, 2, Min(49, |rest|)) else RunLength(rest, 4, Min(98, |rest|));
            var c, rl := if hexify then HexChar(rest[0] % 16) else rest[0], if hexify then 2 * n else n;
            && (forall t :: t in Compress(rest[n..], hexify) ==> Sendable(t)) && Sendable(Run(c, rl))
            && SendAll(Compress(rest, hexify)) == [c, STAR, 29 + rl - 1] + SendAll(Compress(rest[n..], hexify))
  {
    CompressSendable(rest, hexify);
    var n := if hexify then RunLength(rest, 2, Min(49, |rest|)) else RunLength(rest, 4, Min(98, |rest|));
    var c, rl := if hexify then HexChar(rest[0] % 16) else rest[0], if hexify then 2 * n else n;
    StepSent(Run(c, rl), Compress(rest[n..], hexify), Compress(rest, hexify));
  }

  lemma SentSingly(rest: seq<byte>, hexify: bool)
    requires rest != [] && if hexify then !HexRun(rest) else !RawRun(rest)
    ensures forall t :: t in Compress(rest, hexify) || t in Compress(rest[1..], hexify) ==> Sendable(t)
    ensures SendAll(Compress(rest, hexify)) ==
            (if hexify then [HexChar(rest[0] / 16), HexChar(rest[0] % 16)] else [rest[0]]) +
            SendAll(Compress(rest[1..], hexify))
  {
    CompressSendable(rest, hexify);
    CompressSendable(rest[1..], hexify);
    var ts := Compress(rest[1..], hexify);
    if hexify {
      var high, low := HexChar(rest[0] / 16), HexChar(rest[0] % 16);
      assert Compress(rest, hexify) == [Plain(high)] + ([Plain(low)] + ts);
      StepSent(Plain(high), [Plain(low)] + ts, Compress(rest, hexify));
      StepSent(Plain(low), ts, [Plain(low)] + ts);
    } else {
      StepSent(Plain(rest[0]), ts, Compress(rest, hexify));
    }
  }
}
