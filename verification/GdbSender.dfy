/** `putfrags`, as it walks through the fragments. */
module GdbSender {
  import opened GdbPackets
  import opened GdbMarks

  /** Bytes of the text are read where they are; a NUL ends a text without length. */
  lemma Reads(f: Frag, p: nat)
    requires Readable(f) && p < |Text(f)|
    ensures var rest := Text(f)[p..];
            && p + |rest| <= |f.data| && (f.len > 0 ==> p + |rest| == f.len)
            && (forall i :: 0 <= i < |rest| ==> rest[i] == f.data[p + i])
            && (f.len == 0 ==> p + |rest| < |f.data| && f.data[p + |rest|] == 0 && f.data[p] != 0)
  {}

  method SendRun(f: Frag, p: nat) returns (q: nat)
    requires Readable(f) && p < |Text(f)|
    requires if f.hexify then HexRun(Text(f)[p..]) else RawRun(Text(f)[p..])
    ensures var rest := Text(f)[p..];
            q == p + (if f.hexify then RunLength(rest, 2, Min(49, |rest|)) else RunLength(rest, 4, Min(98, |rest|)))
  {
    hide Text, Readable;
    Reads(f, p);
    ghost var rest := Text(f)[p..];
    ghost var bound := Min(if f.hexify then 49 else 98, |rest|);
    var limit;
    if f.hexify {
      q, limit := p + 2, p + 98 / 2;
    } else {
      q, limit := p + 4, p + 98;
    }
    if f.len != 0 && limit > f.len {
      limit := f.len;
    }
    ghost var first := q - p;
    while q < limit && f.data[q] == f.data[p]
      invariant p + first <= q <= p + bound
      invariant forall i :: 0 <= i < q - p ==> rest[i] == rest[0]
      invariant RunLength(rest, first, bound) == RunLength(rest, q - p, bound)
      decreases limit - q
    {
      assert q < p + |rest| && rest[q - p] == f.data[q] && rest[0] == f.data[p];
      q := q + 1;
    }
    assert q - p < bound ==> rest[q - p] != rest[0];
  }

  /** Whether a run of four or more equal output characters starts at `p`. */
  method AtRun(f: Frag, p: nat) returns (found: bool)
    requires Readable(f) && p < |Text(f)|
    ensures found <==> if f.hexify then HexRun(Text(f)[p..]) else RawRun(Text(f)[p..])
  {
    hide Text, Readable;
    Reads(f, p);
    found := (f.len == 0 || p + (if f.hexify then 1 else 3) < f.len) && f.data[p + 1] == f.data[p]
             && (if f.hexify then f.data[p] / 16 == f.data[p] % 16
                 else f.data[p + 2] == f.data[p] && f.data[p + 3] == f.data[p]);
  }

  /** One turn of the loop over a fragment. */
  method SendNext(f: Frag, p: nat) returns (q: nat, out: seq<byte>)
    requires Readable(f) && p < |Text(f)|
    ensures p < q <= |Text(f)|
    ensures forall t :: t in Compress(Text(f)[p..], f.hexify) || t in Compress(Text(f)[q..], f.hexify) ==> Sendable(t)
    ensures SendAll(Compress(Text(f)[p..], f.hexify)) == out + SendAll(Compress(Text(f)[q..], f.hexify))
  {
    hide Text, Readable, Compress, SendAll, RunLength, HexRun, RawRun;
    Reads(f, p);
    ghost var text, rest := Text(f), Text(f)[p..];
    assert rest[0] == f.data[p];
    var c := f.data[p];
    var run := AtRun(f, p);
    if run {
      q := SendRun(f, p);
      var rl := q - p;
      RunFits(rest, f.hexify);
      assert rest[q - p..] == text[q..];
      SentRun(rest, f.hexify);
      if f.hexify {
        c, rl := HexChar(c % 16), 2 * rl;
      }
      out := [c, STAR, 29 + rl - 1];
    } else {
      q := p + 1;
      assert rest[1..] == text[q..];
      SentSingly(rest, f.hexify);
      out := if f.hexify then [HexChar(c / 16), HexChar(c % 16)] else [c];
    }
  }

  lemma RunFits(rest: seq<byte>, hexify: bool)
    requires if hexify then HexRun(rest) else RawRun(rest)
    ensures if hexify then 2 <= RunLength(rest, 2, Min(49, |rest|)) <= Min(49, |rest|)
            else 4 <= RunLength(rest, 4, Min(98, |rest|)) <= Min(98, |rest|)
  {}

  method SendFrag(f: Frag) returns (out: seq<byte>)
    requires Readable(f)
    ensures forall t :: t in Compress(Text(f), f.hexify) ==> Sendable(t)
    ensures out == SendAll(Compress(Text(f), f.hexify))
  {
    ghost var text := Text(f);
    CompressSendable(text, f.hexify);
    var p := 0;
    out := [];
    assert text[0..] == text;
    while if f.len != 0 then p < f.len else f.data[p] != 0
      invariant 0 <= p <= |text|
      invariant forall t :: t in Compress(text[p..], f.hexify) ==> Sendable(t)
      invariant out + SendAll(Compress(text[p..], f.hexify)) == SendAll(Compress(text, f.hexify))
      decreases |text| - p
    {
      hide SendAll, Compress;
      var piece;
      p, piece := SendNext(f, p);
      out := out + piece;
    }
    assert text[p..] == [];
  }

  lemma FragSent(frags: seq<Frag>, i: nat)
    requires i < |frags| && forall f :: f in frags ==> Readable(f)
    ensures var f, here, rest := frags[i], frags[i..], frags[i + 1..];
            && f in frags && (forall g :: g in here || g in rest ==> g in frags)
            && (forall t :: t in Tokens(here) || t in Tokens(rest) || t in Compress(Text(f), f.hexify) ==> Sendable(t))
            && SendAll(Tokens(here)) == SendAll(Compress(Text(f), f.hexify)) + SendAll(Tokens(rest))
  {
    var f, here, rest := frags[i], frags[i..], frags[i + 1..];
    assert here[0] == f && here[1..] == rest;
    hide Compress, MeansAll, SendAll;
    TokensOk(here);
    TokensOk(rest);
    CompressSendable(Text(f), f.hexify);
    SendConcat(Compress(Text(f), f.hexify), Tokens(rest));
  }

  lemma NothingSent()
    ensures Tokens([]) == [] && SendAll([]) == [] && Sum([]) == 0
  {}

  /** The body of a packet with its sum modulo 256. */
  method SendFrags(frags: seq<Frag>) returns (body: seq<byte>, checksum: nat)
    requires forall f :: f in frags ==> Readable(f)
    ensures forall t :: t in Tokens(frags) ==> Sendable(t)
    ensures body == SendAll(Tokens(frags)) && checksum == Sum(body) % 256
  {
    hide Compress, MeansAll, Said, Send, Text, Meaning, SendAll, Tokens, Sum, Readable, Sendable;
    TokensOk(frags);
    var i := 0;
    body, checksum := [], 0;
    NothingSent();
    assert frags[0..] == frags;
    while i < |frags|
      invariant 0 <= i <= |frags| && forall f :: f in frags[i..] ==> f in frags
      invariant forall t :: t in Tokens(frags[i..]) ==> Sendable(t)
      invariant body + SendAll(Tokens(frags[i..])) == SendAll(Tokens(frags))
      invariant checksum == Sum(body) % 256
    {
      var f := frags[i];
      FragSent(frags, i);
      var out := SendFrag(f);
      SumConcat(body, out);
      body := body + out;
      checksum := (checksum + Sum(out)) % 256;
      i := i + 1;
    }
    assert frags[i..] == [];
  }

  /** One transmission of `putfrags`: start mark, body, and the sum of the body in two digits. A receiver that
      stops at the first `#` gets the body exactly if no fragment brings one, and then what the fragments
      say if the tokens are clear; all of that holds of hexadecimal fragments. */
  method PutFrags(frags: seq<Frag>) returns (packet: seq<byte>)
    requires forall f :: f in frags ==> Readable(f)
    ensures forall t :: t in Tokens(frags) ==> Sendable(t)
    ensures Wraps(packet, SendAll(Tokens(frags))) && HASH in packet[1..]
    ensures Framed(packet) == SendAll(Tokens(frags)) <==> forall f :: f in frags ==> !Reserved(f, HASH)
    ensures DOLLAR in packet[1..] <==> exists f :: f in frags && Reserved(f, DOLLAR)
    ensures Clear(Tokens(frags)) && (forall f :: f in frags ==> !Reserved(f, HASH)) ==>
              Expand(Framed(packet)) == Said(frags)
    ensures (forall f :: f in frags ==> f.hexify) ==> Expand(Framed(packet)) == Said(frags)
  {
    hide Tokens, SendAll, Expand, Said, Sum, Clear, Reserved, Framed;
    var body, checksum := SendFrags(frags);
    packet := [DOLLAR] + body + [HASH, HexChar(checksum / 16), HexChar(checksum % 16)];
    assert packet[1..|packet| - 3] == body;
    PacketRoundTrip(frags);
    FramedBody(packet, body);
    BodyMarks(frags, HASH);
    BodyMarks(frags, DOLLAR);
    if forall f :: f in frags ==> f.hexify { HexFragments(frags); }
  }

  lemma HexFragments(frags: seq<Frag>)
    requires forall f :: f in frags ==> Readable(f) && f.hexify
    ensures Unambiguous(frags) && forall f :: f in frags ==> !Reserved(f, HASH)
  {
    forall f | f in frags ensures !Reserved(f, HASH) { HexMarks(Text(f)); }
  }
}
