/** The marks around a packet: when they also occur inside it, and what a receiver makes of that. */
module GdbMarks {
  import opened GdbPackets

  /** A byte that has a meaning of its own between packets. */
  predicate Mark(b: byte) {
    b == HASH || b == DOLLAR
  }

  /** The token sends `b` as its character or as its count byte. */
  predicate Shows(t: Token, b: byte) {
    t.c == b || RunOf(t, b - 28)
  }

  predicate RunOf(t: Token, n: int) {
    t.Run? && t.n == n
  }

  lemma {:induction false} MarksSent(ts: seq<Token>, b: byte)
    requires Mark(b) && forall t :: t in ts ==> Sendable(t)
    ensures b in SendAll(ts) <==> exists t :: t in ts && Shows(t, b)
  {
    if ts != [] {
      var rest := ts[1..];
      assert ts[0] in ts && forall t :: t in ts <==> t == ts[0] || t in rest;
      MarksSent(rest, b);
      assert b in Send(ts[0]) <==> Shows(ts[0], b);
      hide Send, Shows;
    }
  }

  // ----- which fragments send a mark -----

  /** Every character of a text is the character of a token. */
  lemma {:induction false} CharactersKept(ts: seq<Token>, b: byte)
    requires forall t :: t in ts ==> Sendable(t)
    ensures b in MeansAll(ts) <==> exists t :: t in ts && t.c == b
  {
    if ts != [] {
      var rest := ts[1..];
      assert ts[0] in ts && forall t :: t in ts <==> t == ts[0] || t in rest;
      CharactersKept(rest, b);
      MeansCharacter(ts[0], b);
      hide Means;
    }
  }

  lemma MeansCharacter(t: Token, b: byte)
    requires Sendable(t)
    ensures b in Means(t) <==> t.c == b
  {
    assert Means(t)[0] == t.c;
  }

  /** In hexadecimal the characters are digits and the runs are of even length. */
  lemma {:induction false} HexTokens(text: seq<byte>)
    ensures forall t :: t in Compress(text, true) ==> !Mark(t.c) && (t.Run? ==> t.n % 2 == 0)
    decreases |text|
  {
    if text != [] {
      HexTokens(text[1..]);
      if HexRun(text) {
        HexTokens(text[RunLength(text, 2, Min(49, |text|))..]);
      }
      NoMarkDigits();
    }
  }

  lemma NoMarkDigits()
    ensures forall d :: 0 <= d < 16 ==> !Mark(HexChar(d))
  {}

  /** Some run has the length whose count byte is the mark: 7 for `#` and 8 for `$`. */
  predicate MarkRun(text: seq<byte>, hexify: bool, b: byte) {
    exists t :: t in Compress(text, hexify) && RunOf(t, b - 28)
  }

  /** A fragment in hexadecimal never sends `#`, and sends `$` exactly with a run of eight digits. */
  lemma HexMarks(text: seq<byte>)
    ensures forall t :: t in Compress(text, true) ==> Sendable(t)
    ensures HASH !in SendAll(Compress(text, true)) && !MarkRun(text, true, HASH)
    ensures DOLLAR in SendAll(Compress(text, true)) <==> MarkRun(text, true, DOLLAR)
  {
    hide Compress, SendAll;
    var ts := Compress(text, true);
    CompressSendable(text, true);
    HexTokens(text);
    MarksSent(ts, HASH);
    MarksSent(ts, DOLLAR);
    if t :| t in ts && RunOf(t, 8) { assert Shows(t, DOLLAR); }
  }

  /** A plain fragment sends a mark exactly if it contains it or has a run of that length. */
  lemma PlainMarks(text: seq<byte>, b: byte)
    requires Mark(b)
    ensures forall t :: t in Compress(text, false) ==> Sendable(t)
    ensures b in SendAll(Compress(text, false)) <==> b in text || MarkRun(text, false, b)
  {
    hide Compress, SendAll, MeansAll;
    var ts := Compress(text, false);
    CompressSendable(text, false);
    CompressMeans(text, false);
    CharactersKept(ts, b);
    MarksSent(ts, b);
    if b in text {
      var t :| t in ts && t.c == b;
      assert Shows(t, b);
    }
    if t :| t in ts && RunOf(t, b - 28) { assert Shows(t, b); }
  }

  // ----- the same on the text -----

  /** Number of equal bytes at the front. */
  function Block(text: seq<byte>): (n: nat)
    requires text != []
    ensures 1 <= n <= |text| && (forall i :: 0 <= i < n ==> text[i] == text[0]) && (n < |text| ==> text[n] != text[0])
    decreases |text|
  {
    if |text| >= 2 && text[1] == text[0] then 1 + Block(text[1..]) else 1
  }

  lemma {:induction false} RunsAlong(text: seq<byte>, k: nat, limit: nat)
    requires 1 <= k <= limit <= |text| && forall i :: 0 <= i < k ==> text[i] == text[0]
    ensures RunLength(text, k, limit) == Min(limit, Block(text))
    decreases limit - k
  {
    if k < limit && text[k] == text[0] { RunsAlong(text, k + 1, limit); }
  }

  /** Bytes that one run can stand for. */
  function Cap(hexify: bool): nat { if hexify then 49 else 98 }

  function PerByte(hexify: bool): nat { if hexify then 2 else 1 }

  predicate Twin(b: byte) { b / 16 == b % 16 }

  /** A block of equal bytes, followed by another byte or none, has a length that leaves `n` when it is cut into
      runs; in hexadecimal the digits of the byte must be equal. */
  predicate BlockLeaves(text: seq<byte>, hexify: bool, n: nat)
    decreases |text|
  {
    text != []
    && ((Block(text) % Cap(hexify) == n && (hexify ==> Twin(text[0]))) || BlockLeaves(text[Block(text)..], hexify, n))
  }

  predicate RunSent(text: seq<byte>, hexify: bool, n: int) {
    exists t :: t in Compress(text, hexify) && RunOf(t, n)
  }

  /** A byte that is no part of a run. */
  lemma SentAlone(text: seq<byte>, hexify: bool, n: int)
    requires text != [] && if hexify then !HexRun(text) else !RawRun(text)
    ensures RunSent(text, hexify, n) <==> RunSent(text[1..], hexify, n)
  {
    var rest := Compress(text[1..], hexify);
    assert forall t :: t in rest ==> t in Compress(text, hexify);
  }

  lemma SentAsRun(text: seq<byte>, hexify: bool, n: int)
    requires if hexify then HexRun(text) else RawRun(text)
    ensures var k := Min(Cap(hexify), Block(text));
            RunSent(text, hexify, n) <==> n == PerByte(hexify) * k || RunSent(text[k..], hexify, n)
  {
    hide Compress, RunLength;
    CompressRun(text, hexify);
    var k := Min(Cap(hexify), Block(text));
    var first := Run(if hexify then HexChar(text[0] % 16) else text[0], PerByte(hexify) * k);
    var rest := Compress(text[k..], hexify);
    assert first in [first] + rest && forall t :: t in rest ==> t in [first] + rest;
    if n == PerByte(hexify) * k { assert RunOf(first, n); }
  }

  lemma CompressRun(text: seq<byte>, hexify: bool)
    requires if hexify then HexRun(text) else RawRun(text)
    ensures var k := Min(Cap(hexify), Block(text));
            && 1 <= k <= |text|
            && Compress(text, hexify) ==
               [Run(if hexify then HexChar(text[0] % 16) else text[0], PerByte(hexify) * k)] +
               Compress(text[k..], hexify)
  {
    RunsAlong(text, if hexify then 2 else 4, Min(Cap(hexify), |text|));
    hide RunLength, Block;
  }

  /** The rest of a block is the block of the rest. */
  lemma BlockRest(text: seq<byte>, k: nat)
    requires text != [] && k <= Block(text)
    ensures k < Block(text) ==>
              Block(text[k..]) == Block(text) - k && text[k] == text[0]
              && text[k..][Block(text) - k..] == text[Block(text)..]
  {
    var m := Block(text);
    if k < m {
      var r := text[k..];
      assert forall i :: 0 <= i < m - k ==> r[i] == text[k + i];
      assert m < |text| ==> r[m - k] == text[m];
      assert Block(r) == m - k;
    }
  }

  /** A run of that length is sent exactly if a block leaves it. */
  lemma {:induction false} RunsFromBlocks(text: seq<byte>, hexify: bool, n: nat)
    requires (if hexify then 2 else 4) <= n < Cap(hexify)
    ensures RunSent(text, hexify, PerByte(hexify) * n) <==> BlockLeaves(text, hexify, n)
    decreases |text|
  {
    hide Compress, RunSent, Block, BlockLeaves, HexRun, RawRun;
    if text == [] {
      NoRunInNothing(hexify, PerByte(hexify) * n);
    } else if if hexify then HexRun(text) else RawRun(text) {
      var k := Min(Cap(hexify), Block(text));
      SentAsRun(text, hexify, PerByte(hexify) * n);
      RunsFromBlocks(text[k..], hexify, n);
      TwinDigits(text);
      LeftByRun(text, hexify, n);
    } else {
      SentAlone(text, hexify, PerByte(hexify) * n);
      ShortBlock(text, hexify);
      RunsFromBlocks(text[1..], hexify, n);
      LeftBySingle(text, hexify, n);
    }
  }

  lemma TwinDigits(text: seq<byte>)
    ensures HexRun(text) ==> Twin(text[0])
  {}

  lemma LeftByRun(text: seq<byte>, hexify: bool, n: nat)
    requires text != [] && 0 < n < Cap(hexify) && (hexify ==> Twin(text[0]))
    ensures var k := Min(Cap(hexify), Block(text));
            BlockLeaves(text, hexify, n) <==> n == k || BlockLeaves(text[k..], hexify, n)
  {
    hide Block, Twin, Cap, BlockLeaves;
    var m, cap := Block(text), Cap(hexify);
    LeavesFirst(text, hexify, n);
    CutOnce(m, hexify);
    if m > cap {
      BlockRest(text, cap);
      LeavesFirst(text[cap..], hexify, n);
    }
  }

  lemma LeavesFirst(text: seq<byte>, hexify: bool, n: nat)
    requires text != []
    ensures BlockLeaves(text, hexify, n) <==>
            (Block(text) % Cap(hexify) == n && (hexify ==> Twin(text[0])))
            || BlockLeaves(text[Block(text)..], hexify, n)
  {
    hide Block, Twin, Cap;
  }

  lemma CutOnce(m: nat, hexify: bool)
    ensures m < Cap(hexify) ==> m % Cap(hexify) == m
    ensures m >= Cap(hexify) ==> (m - Cap(hexify)) % Cap(hexify) == m % Cap(hexify)
    ensures Cap(hexify) % Cap(hexify) == 0
  {
    if hexify { CutBy49(m); } else { CutBy98(m); }
  }

  lemma CutBy49(m: nat)
    ensures m < 49 ==> m % 49 == m
    ensures m >= 49 ==> (m - 49) % 49 == m % 49
  {}

  lemma CutBy98(m: nat)
    ensures m < 98 ==> m % 98 == m
    ensures m >= 98 ==> (m - 98) % 98 == m % 98
  {}

  lemma LeftBySingle(text: seq<byte>, hexify: bool, n: nat)
    requires text != [] && (if hexify then 2 else 4) <= n < Cap(hexify)
    requires if hexify then Block(text) == 1 || !Twin(text[0]) else Block(text) <= 3
    ensures BlockLeaves(text, hexify, n) <==> BlockLeaves(text[1..], hexify, n)
  {
    hide Block, Twin;
    BlockRest(text, 1);
  }

  lemma NoRunInNothing(hexify: bool, n: int)
    ensures !RunSent([], hexify, n) && forall k :: !BlockLeaves([], hexify, k)
  {}

  /** A block that is not sent as a run is short or has no twin digits. */
  lemma ShortBlock(text: seq<byte>, hexify: bool)
    requires text != [] && if hexify then !HexRun(text) else !RawRun(text)
    ensures if hexify then Block(text) == 1 || !Twin(text[0]) else Block(text) <= 3
  {}

  /** `#` stands for 7 bytes, `$` for 8 bytes, or for 4 in hexadecimal. */
  lemma MarkBlocks(text: seq<byte>)
    ensures MarkRun(text, false, HASH) <==> BlockLeaves(text, false, 7)
    ensures MarkRun(text, false, DOLLAR) <==> BlockLeaves(text, false, 8)
    ensures MarkRun(text, true, DOLLAR) <==> BlockLeaves(text, true, 4)
  {
    hide Compress;
    RunsFromBlocks(text, false, 7);
    RunsFromBlocks(text, false, 8);
    RunsFromBlocks(text, true, 4);
  }

  // ----- fragments -----

  /** The fragment brings the mark into the body of the packet. */
  predicate Reserved(f: Frag, b: byte)
    requires Readable(f)
  {
    (!f.hexify && b in Text(f)) || MarkRun(Text(f), f.hexify, b)
  }

  lemma FragMarks(f: Frag, b: byte)
    requires Readable(f) && Mark(b)
    ensures forall t :: t in Compress(Text(f), f.hexify) ==> Sendable(t)
    ensures b in SendAll(Compress(Text(f), f.hexify)) <==> Reserved(f, b)
  {
    hide Compress, SendAll, MarkRun, Text;
    if f.hexify { HexMarks(Text(f)); } else { PlainMarks(Text(f), b); }
  }

  /** A mark is in the body exactly if some fragment brings it there. */
  lemma {:induction false} BodyMarks(frags: seq<Frag>, b: byte)
    requires Mark(b) && forall f :: f in frags ==> Readable(f)
    ensures forall t :: t in Tokens(frags) ==> Sendable(t)
    ensures b in SendAll(Tokens(frags)) <==> exists f :: f in frags && Reserved(f, b)
  {
    hide Compress, Reserved, Readable, Text;
    TokensOk(frags);
    if frags != [] {
      var f, rest := frags[0], frags[1..];
      assert f in frags && forall g :: g in frags <==> g == f || g in rest;
      BodyMarks(rest, b);
      FragMarks(f, b);
      SendConcat(Compress(Text(f), f.hexify), Tokens(rest));
      hide Tokens, SendAll;
    }
  }

  // ----- a receiver that stops at the first end mark -----

  function FirstHash(s: seq<byte>): (i: nat)
    requires HASH in s
    ensures i < |s| && s[i] == HASH && forall j :: 0 <= j < i ==> s[j] != HASH
  {
    if s[0] == HASH then 0
    else 1 + FirstHash(s[1..])
  }

  /** What lies between the start mark and the first end mark. */
  function Framed(packet: seq<byte>): seq<byte>
    requires packet != [] && HASH in packet[1..]
  {
    packet[1..][..FirstHash(packet[1..])]
  }

  /** A packet around `body`. */
  predicate Wraps(packet: seq<byte>, body: seq<byte>) {
    && |packet| == |body| + 4 && packet[0] == DOLLAR && packet[1..|body| + 1] == body && packet[|body| + 1] == HASH
    && Hex(packet[|body| + 2]) >= 0 && Hex(packet[|body| + 3]) >= 0
    && 16 * Hex(packet[|body| + 2]) + Hex(packet[|body| + 3]) == Sum(body) % 256
  }

  lemma FramedBody(packet: seq<byte>, body: seq<byte>)
    requires Wraps(packet, body)
    ensures HASH in packet[1..] && (Framed(packet) == body <==> HASH !in body)
    ensures DOLLAR in packet[1..] <==> DOLLAR in body
  {
    var n, rest := |body|, packet[1..];
    assert rest[n] == HASH && rest[..n] == body && rest == body + rest[n..];
    assert rest[n..] == [HASH, rest[n + 1], rest[n + 2]];
    var k := FirstHash(rest);
    assert forall i :: 0 <= i < n ==> rest[i] == body[i];
    assert HASH !in rest[..k];
    if HASH !in body {
      assert forall i :: 0 <= i < n ==> rest[i] != HASH;
    }
  }

  // ----- an example -----

  /** Four bytes 0 send the count byte `$`, which the protocol reserves for the start of a packet. */
  lemma DollarAsCount()
    ensures Compress([0, 0, 0, 0], true) == [Run(48, 8)]
    ensures Send(Run(48, 8)) == [48, STAR, DOLLAR]
  {
    var z: seq<byte> := [0, 0, 0, 0];
    assert RunLength(z, 2, 4) == 4;
    assert z[4..] == [];
  }
}
