/** A plain text survives run-length encoding if and only if no single character of it is followed by a `*`
    that is not the last character.  A misread character puts the receiver out of step with the text, and
    it never comes back into step: what it is behind by, `u`, never becomes empty. */
module GdbText {
  import opened Lists
  import opened GdbPackets

  /** What is sent for a plain text. */
  function Sent(text: seq<byte>): seq<byte> {
    CompressSendable(text, false);
    SendAll(Compress(text, false))
  }

  /** Number of copies that a count byte stands for. */
  function Copies(b: byte): nat { if b >= 28 then b - 28 else 0 }

  lemma SentNothing()
    ensures Sent([]) == []
  {}

  lemma SentOne(text: seq<byte>)
    requires text != [] && !RawRun(text)
    ensures Sent(text) == [text[0]] + Sent(text[1..])
  {
    SentSingly(text, false);
  }

  /** A run, as long as it can be. */
  lemma SentMany(text: seq<byte>) returns (n: nat)
    requires RawRun(text)
    ensures 4 <= n <= 98 && n <= |text| && text == Repeat(text[0], n) + text[n..]
    ensures n < 98 && n < |text| ==> text[n] != text[0]
    ensures Sent(text) == [text[0], STAR, 28 + n] + Sent(text[n..])
  {
    SentRun(text, false);
    n := RunLength(text, 4, Min(98, |text|));
    LongestRun(text, 4, Min(98, |text|));
    hide RunLength;
  }

  lemma {:induction false} LongestRun(text: seq<byte>, k: nat, limit: nat)
    requires 1 <= k <= limit <= |text| && forall i :: 0 <= i < k ==> text[i] == text[0]
    ensures RunLength(text, k, limit) < limit ==> text[RunLength(text, k, limit)] != text[0]
    decreases limit - k
  {
    if k < limit && text[k] == text[0] { LongestRun(text, k + 1, limit); }
  }

  lemma SentHead(text: seq<byte>)
    requires text != []
    ensures Sent(text) != [] && Sent(text)[0] == text[0]
    ensures |Sent(text)| < 2 <==> |text| == 1
  {
    if RawRun(text) {
      var n := SentMany(text);
    } else {
      SentOne(text);
      SentNothing();
      if |text| > 1 {
        if RawRun(text[1..]) { var n := SentMany(text[1..]); } else { SentOne(text[1..]); }
      }
    }
  }

  /** A character followed by a `*` and another byte is read as a run. */
  lemma ExpandMisread(c: byte, b: byte, tail: seq<byte>)
    ensures Expand([c, STAR, b] + tail) == Repeat(c, Copies(b)) + Expand(tail)
  {
    assert ([c, STAR, b] + tail)[3..] == tail;
  }

  lemma Matches(c: byte, k: nat, e: seq<byte>, t: seq<byte>)
    requires Repeat(c, k) + e == t
    ensures k <= |t| && (forall i :: 0 <= i < k ==> t[i] == c) && e == t[k..]
  {
    var r := Repeat(c, k);
    assert forall i :: 0 <= i < k ==> t[i] == r[i];
    assert e == (r + e)[k..];
  }

  lemma DropFront(a: seq<byte>, b: seq<byte>, k: nat)
    requires k <= |a|
    ensures (a + b)[k..] == a[k..] + b
  {}

  // ----- out of step -----

  predicate Mixed(u: seq<byte>) {
    STAR in u && exists i :: 0 <= i < |u| && u[i] != STAR
  }

  /** Control characters, not all equal unless there is one only. */
  predicate Few(u: seq<byte>) {
    u != [] && (forall i :: 0 <= i < |u| ==> u[i] < 32) && (|u| == 1 || exists i :: 0 <= i < |u| && u[i] != u[0])
  }

  /** What the receiver may be behind by at the beginning of a token. */
  predicate Behind(u: seq<byte>) { Mixed(u) || Few(u) }

  /** A `*` and after it something else. */
  predicate StarFirst(w: seq<byte>) {
    exists i, j :: 0 <= i < j < |w| && w[i] == STAR && w[j] != STAR
  }

  predicate LowFirst(w: seq<byte>) { w != [] && w[0] < 32 }

  /** The text of the single character `c`, sent last, is at the end of `w`. */
  predicate Real(c: byte, w: seq<byte>) {
    |w| >= 2 && w[|w| - 1] == c && Behind(w[..|w| - 1])
  }

  /** What it may be behind by when `c` is still to be read, be it a character or the count byte of a run. */
  predicate BehindOne(c: byte, text: seq<byte>, w: seq<byte>) {
    || (Real(c, w) && (c == STAR ==> !RawRun([c] + text)))
    || (c >= 32 && c != STAR && (StarFirst(w) || LowFirst(w)))
    || (c == STAR && Mixed(w) && w[|w| - 1] == STAR && (text == [] || text[0] != STAR))
  }

  /** What it may be behind by when the `*` and the count byte of a run are still to be read: `l` stars
      come first. */
  predicate BehindTwo(w: seq<byte>, l: nat) {
    && l < |w| && (forall i :: 0 <= i < l ==> w[i] == STAR) && w[l] != STAR
    && (StarFirst(w[l..]) || (l <= 2 && forall i :: l <= i < |w| ==> w[i] < 32))
  }

  lemma Rotates(u: seq<byte>, c: byte, n: nat)
    requires Behind(u) && n > 0 && forall i :: 0 <= i < n ==> (u + Repeat(c, n))[i] == c
    ensures Behind((u + Repeat(c, n))[n..])
  {
    var t := u + Repeat(c, n);
    var v := t[n..];
    assert forall i :: 0 <= i < |u| ==> u[i] == t[i] && v[i] == t[n + i];
    assert forall i :: |u| <= i < |t| ==> t[i] == c;
    if |u| >= n {
      RotatesLong(u, c, n, v);
    } else {
      assert forall i :: 0 <= i < |u| ==> u[i] == c;
      assert v == u;
    }
  }

  lemma RotatesLong(u: seq<byte>, c: byte, n: nat, v: seq<byte>)
    requires Behind(u) && 0 < n <= |u| == |v| && (forall i :: 0 <= i < n ==> u[i] == c)
    requires v == u[n..] + Repeat(c, n)
    ensures Behind(v)
  {
    assert v[|u| - n] == c;
    forall i | 0 <= i < |u| ensures u[i] in v { assert u[i] == if i < n then v[|u| - n] else v[i - n]; }
    if Mixed(u) {
      var i :| 0 <= i < |u| && u[i] != STAR;
      assert u[i] in v;
    } else if |u| > 1 {
      var i :| 0 <= i < |u| && u[i] != u[0];
      assert u[i] in v && u[0] in v;
    }
  }

  // ----- what is read next -----

  /** `c` is read as it is. */
  lemma ReadPlain(c: byte, text: seq<byte>, w: seq<byte>)
    requires BehindOne(c, text, w) && w[0] == c
    ensures Behind(w[1..])
  {
    if Real(c, w) {
      var u := w[..|w| - 1];
      assert w == u + [c] && Repeat(c, 1) == [c];
      Rotates(u, c, 1);
    } else if c != STAR {
      var i, j :| 0 <= i < j < |w| && w[i] == STAR && w[j] != STAR;
      assert w[1..][i - 1] == STAR && w[1..][j - 1] != STAR;
    } else {
      var i :| 0 <= i < |w| && w[i] != STAR;
      assert w[1..][i - 1] != STAR && w[1..][|w| - 2] == STAR;
    }
  }

  /** Where the first mark must come from: a byte that is neither `*` nor `c`, or one after a `*`. */
  predicate Anchored(c: byte, w: seq<byte>) {
    StarFirst(w) || (LowFirst(w) && (c >= 32 || (Few(w[..|w| - 1]) && |w| >= 2 && w[|w| - 1] == c)))
  }

  lemma IsAnchored(c: byte, text: seq<byte>, w: seq<byte>)
    requires BehindOne(c, text, w) && c != STAR
    ensures Anchored(c, w)
  {
    if Real(c, w) {
      var u := w[..|w| - 1];
      if Mixed(u) {
        var i :| 0 <= i < |u| && u[i] == STAR;
        assert w[i] == STAR && w[|w| - 1] != STAR;
      } else {
        assert w[0] == u[0];
      }
    }
  }

  /** Copies of `c` at the front of `w` are followed by something that is neither a `*` nor copied away. */
  lemma FrontCopied(c: byte, w: seq<byte>, k: nat)
    requires Anchored(c, w) && c != STAR && k <= |w| && forall i :: 0 <= i < k ==> w[i] == c
    ensures StarFirst(w) ==> StarFirst(w[k..])
    ensures !StarFirst(w) && c >= 32 ==> k == 0
    ensures !StarFirst(w) && c < 32 ==> (k < |w| && LowFirst(w[k..]) && w[k] != STAR) || (k == |w| == 2)
  {
    if StarFirst(w) {
      var i, j :| 0 <= i < j < |w| && w[i] == STAR && w[j] != STAR;
      assert w[k..][i - k] == STAR && w[k..][j - k] != STAR;
    } else if c < 32 {
      var u := w[..|w| - 1];
      assert forall i :: 0 <= i < |u| ==> u[i] == w[i];
      if k < |w| {
        assert w[k] < 32 by { assert k == |w| - 1 || u[k] < 32; }
      }
    }
  }

  /** The next run is one of stars: its first two bytes are taken for 14 copies of `c`. */
  lemma ReadStars(c: byte, text: seq<byte>, w: seq<byte>, n: nat, rest: seq<byte>)
    requires BehindOne(c, text, w) && c != STAR && 4 <= n <= 98
    requires |w| + n >= 14 && forall i :: 0 <= i < 14 ==> (w + Repeat(STAR, n))[i] == c
    requires n < 98 && rest != [] ==> rest[0] != STAR
    ensures BehindOne(28 + n, rest, (w + Repeat(STAR, n))[14..])
  {
    IsAnchored(c, text, w);
    var t := w + Repeat(STAR, n);
    assert t[|w|] == STAR;
    assert forall i :: 0 <= i < 14 ==> w[i] == t[i];
    FrontCopied(c, w, 14);
    var v := w[14..];
    assert t[14..] == v + Repeat(STAR, n);
    AddStars(v, n);
  }

  lemma AddStars(v: seq<byte>, n: nat)
    requires n > 0 && v != []
    ensures StarFirst(v) ==> StarFirst(v + Repeat(STAR, n))
    ensures LowFirst(v) ==> LowFirst(v + Repeat(STAR, n))
    ensures StarFirst(v) || LowFirst(v) ==> Mixed(v + Repeat(STAR, n)) && (v + Repeat(STAR, n))[|v| + n - 1] == STAR
  {
    var t := v + Repeat(STAR, n);
    assert forall i :: 0 <= i < |v| ==> t[i] == v[i];
    assert t[|v| + n - 1] == STAR;
    if StarFirst(v) {
      var i, j :| 0 <= i < j < |v| && v[i] == STAR && v[j] != STAR;
      assert t[i] == STAR && t[j] != STAR;
    }
  }

  /** The leading stars of `w` that a `*` read in front of another `*` can stand for. */
  lemma StarsCopied(c: byte, text: seq<byte>, w: seq<byte>, k: nat)
    requires BehindOne(c, text, w) && c == STAR && text != [] && text[0] == STAR
    requires k <= |w| ==> forall i :: 0 <= i < k ==> w[i] == STAR
    requires k > |w| ==> forall i :: 0 <= i < |w| ==> w[i] == STAR
    ensures k < |w| && Mixed(w[k..])
  {
    var u := w[..|w| - 1];
    assert forall i :: 0 <= i < |u| ==> u[i] == w[i];
    if Mixed(u) {
      var i :| 0 <= i < |u| && u[i] != STAR;
      assert k <= i;
      assert w[k..][i - k] != STAR && w[k..][|w| - 1 - k] == STAR;
    } else {
      assert u[0] == w[0] < 32;
      assert w[|w| - 1] == STAR;
    }
  }

  /** The next two characters are sent singly: the second is taken for the number of copies of `c`. */
  lemma ReadSingle(c: byte, text: seq<byte>, w: seq<byte>, x: byte, k: nat)
    requires BehindOne(c, text, w) && text != [] && text[0] == STAR && k == Copies(x)
    requires k <= |w| + 2 ==> forall i :: 0 <= i < k ==> (w + [STAR, x])[i] == c
    requires k > |w| + 2 ==> forall i :: 0 <= i < |w| + 2 ==> (w + [STAR, x])[i] == c
    ensures k <= |w| && Behind((w + [STAR, x])[k..])
  {
    var t := w + [STAR, x];
    assert t[|w|] == STAR && forall i :: 0 <= i < |w| ==> t[i] == w[i];
    if c == STAR {
      StarsCopied(c, text, w, k);
      assert t[k..] == w[k..] + [STAR, x];
      StaysMixed(w[k..], [STAR, x]);
    } else {
      IsAnchored(c, text, w);
      FrontCopied(c, w, k);
      assert t[k..] == w[k..] + [STAR, x];
      AfterMark(w[k..], x, []);
    }
  }

  lemma StaysMixed(v: seq<byte>, tail: seq<byte>)
    requires Mixed(v)
    ensures Mixed(v + tail)
  {
    var i :| 0 <= i < |v| && v[i] != STAR;
    assert (v + tail)[i] != STAR;
  }

  lemma AfterMark(v: seq<byte>, x: byte, tail: seq<byte>)
    requires StarFirst(v) || LowFirst(v) || x != STAR
    ensures Mixed(v + [STAR, x])
  {
    var t := v + [STAR, x];
    assert forall i :: 0 <= i < |v| ==> t[i] == v[i];
    assert t[|v|] == STAR && t[|v| + 1] == x;
    if StarFirst(v) {
      var i, j :| 0 <= i < j < |v| && v[i] == STAR && v[j] != STAR;
      assert t[j] != STAR;
    }
  }

  /** After the `*` comes a run of `x`: its character is taken for the number of copies of `c`. */
  lemma ReadRunOf(c: byte, text: seq<byte>, w: seq<byte>, x: byte, n: nat, k: nat) returns (l: nat)
    requires BehindOne(c, text, w) && text != [] && text[0] == STAR && x != STAR && 4 <= n && k == Copies(x)
    requires k <= |w| + 1 ==> forall i :: 0 <= i < k ==> (w + [STAR] + Repeat(x, n))[i] == c
    requires k > |w| + 1 ==> forall i :: 0 <= i < |w| + 1 ==> (w + [STAR] + Repeat(x, n))[i] == c
    ensures k <= |w| && BehindTwo((w + [STAR] + Repeat(x, n))[k..], l)
  {
    var t := w + [STAR] + Repeat(x, n);
    assert t[|w|] == STAR && forall i :: 0 <= i < |w| ==> t[i] == w[i];
    if c == STAR {
      StarsCopied(c, text, w, k);
      assert t[k..] == w[k..] + [STAR] + Repeat(x, n);
      l := LeadingStars(w[k..], x, n);
    } else {
      IsAnchored(c, text, w);
      FrontCopied(c, w, k);
      assert t[k..] == w[k..] + [STAR] + Repeat(x, n);
      if k == |w| {
        l := 1;
        assert t[k..] == [STAR] + Repeat(x, n);
      } else {
        l := LeadingStars(w[k..], x, n);
      }
    }
  }

  /** Something that is no star stands before the `*`. */
  lemma LeadingStars(v: seq<byte>, x: byte, n: nat) returns (l: nat)
    requires x != STAR && n > 0 && exists i :: 0 <= i < |v| && v[i] != STAR
    ensures BehindTwo(v + [STAR] + Repeat(x, n), l)
  {
    var t := v + [STAR] + Repeat(x, n);
    l := 0;
    while v[l] == STAR
      invariant l < |v| && (forall i :: 0 <= i < l ==> v[i] == STAR) && exists i :: l <= i < |v| && v[i] != STAR
      decreases |v| - l
    {
      l := l + 1;
    }
    assert t[l..][|v| - l] == STAR && t[l..][|v| + 1 - l] == x;
  }

  /** The `*` of a run is read as a character; the count byte is still to come. */
  lemma ReadMark(w: seq<byte>, l: nat, n: nat, text: seq<byte>)
    requires BehindTwo(w, l) && w[0] == STAR && 28 + n != STAR && 4 <= n <= 98
    ensures BehindOne(28 + n, text, w[1..])
  {
    var v := w[1..];
    assert forall i :: 0 <= i < |v| ==> v[i] == w[i + 1];
    if l == 1 {
      assert v == w[l..];
    } else {
      assert v[0] == STAR && v[l - 1] != STAR;
    }
  }

  /** The count byte of a run is a `*`: the mark of the run is taken for the character of another one, whose
      number of copies is the next character `z`. */
  lemma ReadCount(w: seq<byte>, l: nat, z: byte, k: nat)
    requires BehindTwo(w, l) && k == Copies(z) && z != w[|w| - 1]
    requires k <= |w| ==> forall i :: 0 <= i < k ==> w[i] == STAR
    requires k > |w| ==> forall i :: 0 <= i < |w| ==> w[i] == STAR
    ensures k <= l < |w| && Behind((w + [z])[k..])
  {
    assert k <= l;
    var r, t := w[l..], (w + [z])[k..];
    if k < l {
      assert t[0] == w[k] && t[l - k] == w[l];
    } else {
      assert t == r + [z];
      Joins(r, z);
    }
  }

  lemma Joins(r: seq<byte>, z: byte)
    requires r != [] && r[0] != STAR && z != r[|r| - 1]
    requires StarFirst(r) || (z < 32 && forall i :: 0 <= i < |r| ==> r[i] < 32)
    ensures Behind(r + [z])
  {
    if StarFirst(r) {
      assert r[0] != STAR;
      StaysMixed(r, [z]);
    } else {
      FewAndAnother(r, z);
    }
  }

  lemma FewAndAnother(r: seq<byte>, z: byte)
    requires r != [] && (forall i :: 0 <= i < |r| ==> r[i] < 32) && z < 32 && z != r[|r| - 1]
    ensures Few(r + [z])
  {
    var t := r + [z];
    assert t[|r|] == z && t[|r| - 1] == r[|r| - 1];
  }

  lemma ReadCountOfRun(w: seq<byte>, l: nat, z: byte, k: nat, n: nat)
    requires BehindTwo(w, l) && k == Copies(z) && k <= l && n > 0
    ensures BehindTwo((w + Repeat(z, n))[k..], l - k)
  {
    var r, t := w[l..], (w + Repeat(z, n))[k..];
    assert forall i :: 0 <= i < l - k ==> t[i] == w[i + k];
    assert t[l - k..] == r + Repeat(z, n) && t[l - k] == w[l];
    StarsFollowed(r, Repeat(z, n));
    if !StarFirst(r) {
      assert forall i :: l - k <= i < |t| ==> t[i] == if i < |w| - k then w[i + k] else z;
    }
  }

  lemma StarsFollowed(r: seq<byte>, tail: seq<byte>)
    ensures StarFirst(r) ==> StarFirst(r + tail)
  {
    if StarFirst(r) {
      var i, j :| 0 <= i < j < |r| && r[i] == STAR && r[j] != STAR;
      assert (r + tail)[i] == STAR && (r + tail)[j] != STAR;
    }
  }

  // ----- the receiver never catches up -----

  /** At the beginning of a token. */
  lemma {:induction false} NeverAtToken(text: seq<byte>, u: seq<byte>)
    requires Behind(u)
    ensures Expand(Sent(text)) != u + text
    decreases |text|, 0
  {
    hide Behind, Sent, Expand, RawRun, BehindOne;
    if text == [] {
      NotEmpty(u);
    } else if RawRun(text) {
      var n := SentMany(text);
      var c, rest := text[0], text[n..];
      if Expand(Sent(text)) == u + text {
        ExpandRun(c, n, Sent(rest));
        Matches(c, n, Expand(Sent(rest)), u + text);
        var t := u + Repeat(c, n);
        Regroup(u, c, n, rest, text);
        Rotates(u, c, n);
        DropFront(t, rest, n);
        NeverAtToken(rest, t[n..]);
      }
    } else {
      SentOne(text);
      var c := text[0];
      assert u + text == (u + [c]) + text[1..];
      RealOne(u, c, text);
      NeverAtByte(c, text[1..], u + [c]);
    }
  }

  lemma NotEmpty(u: seq<byte>)
    requires Behind(u)
    ensures u != [] && Expand(Sent([])) == []
  {}

  lemma Regroup(u: seq<byte>, c: byte, n: nat, rest: seq<byte>, text: seq<byte>)
    requires text == Repeat(c, n) + rest
    requires n <= |u + text| && forall i :: 0 <= i < n ==> (u + text)[i] == c
    ensures u + text == (u + Repeat(c, n)) + rest && forall i :: 0 <= i < n ==> (u + Repeat(c, n))[i] == c
  {
    var t := u + Repeat(c, n);
    assert u + text == t + rest;
    assert forall i :: 0 <= i < n ==> (u + text)[i] == t[i];
  }

  lemma RealOne(u: seq<byte>, c: byte, text: seq<byte>)
    requires Behind(u) && text != [] && text[0] == c && !RawRun(text)
    ensures BehindOne(c, text[1..], u + [c])
  {
    assert (u + [c])[..|u|] == u;
    assert [c] + text[1..] == text;
  }

  /** When one byte is still to be read before the text that is left. */
  lemma {:induction false} NeverAtByte(c: byte, text: seq<byte>, w: seq<byte>)
    requires BehindOne(c, text, w)
    ensures Expand([c] + Sent(text)) != w + text
    decreases |text|, 1
  {
    hide Behind, Sent, Expand, RawRun, BehindOne, BehindTwo;
    var tail := Sent(text);
    if text != [] { SentHead(text); } else { SentNothing(); }
    if |tail| < 2 || tail[0] != STAR {
      ExpandPlain(c, tail);
      NonEmpty(c, text, w);
      assert [c] + Expand(tail) != w + text by {
        if [c] + Expand(tail) == w + text {
          FirstRead(c, Expand(tail), w, text);
          ReadPlain(c, text, w);
          NeverAtToken(text, w[1..]);
        }
      }
    } else if Expand([c] + tail) == w + text {
      if RawRun(text) {
        NeverBeforeStars(c, text, w);
      } else {
        NeverBeforeStar(c, text, w);
      }
    }
  }

  lemma NonEmpty(c: byte, text: seq<byte>, w: seq<byte>)
    requires BehindOne(c, text, w)
    ensures w != []
  {}

  lemma FirstRead(c: byte, e: seq<byte>, w: seq<byte>, text: seq<byte>)
    requires [c] + e == w + text && w != []
    ensures w[0] == c && e == w[1..] + text
  {
    assert ([c] + e)[0] == (w + text)[0];
    assert e == ([c] + e)[1..] == (w + text)[1..];
  }

  /** A run of stars comes next. */
  lemma {:induction false} NeverBeforeStars(c: byte, text: seq<byte>, w: seq<byte>)
    requires BehindOne(c, text, w) && RawRun(text) && text[0] == STAR
    ensures Expand([c] + Sent(text)) != w + text
    decreases |text|, 0
  {
    hide Behind, Sent, Expand, BehindOne, BehindTwo;
    var n := SentMany(text);
    var rest := text[n..];
    NoRunAfterStar(c, text, w);
    if Expand([c] + Sent(text)) == w + text {
      assert [c] + Sent(text) == [c, STAR, STAR] + ([28 + n] + Sent(rest));
      ExpandMisread(c, STAR, [28 + n] + Sent(rest));
      Matches(c, 14, Expand([28 + n] + Sent(rest)), w + text);
      var t := w + Repeat(STAR, n);
      assert w + text == t + rest;
      StarsOver(c, w, n, rest);
      assert forall i :: 0 <= i < 14 ==> (w + text)[i] == t[i];
      ReadStars(c, text, w, n, rest);
      DropFront(t, rest, 14);
      NeverAtByte(28 + n, rest, t[14..]);
    }
  }

  /** Copies of another character end where the stars begin. */
  lemma StarsOver(c: byte, w: seq<byte>, n: nat, rest: seq<byte>)
    requires c != STAR && n > 0 && 14 <= |w + Repeat(STAR, n) + rest|
    requires forall i :: 0 <= i < 14 ==> (w + Repeat(STAR, n) + rest)[i] == c
    ensures 14 <= |w|
  {
    assert (w + Repeat(STAR, n) + rest)[|w|] == STAR;
  }

  lemma NoRunAfterStar(c: byte, text: seq<byte>, w: seq<byte>)
    requires BehindOne(c, text, w) && RawRun(text) && text[0] == STAR
    ensures c != STAR
  {}

  /** A single star comes next, and something after it. */
  lemma {:induction false} NeverBeforeStar(c: byte, text: seq<byte>, w: seq<byte>)
    requires BehindOne(c, text, w) && !RawRun(text) && |text| >= 2 && text[0] == STAR
    ensures Expand([c] + Sent(text)) != w + text
    decreases |text|, 0
  {
    hide Behind, Sent, Expand, BehindOne, BehindTwo, RawRun, Copies;
    var next := text[1..];
    var x := next[0];
    var k := Copies(x);
    SentOne(text);
    if RawRun(next) {
      var n := SentMany(next);
      var rest := next[n..];
      var t := w + [STAR] + Repeat(x, n);
      RunIsNoStar(text);
      SentTogether(c, x, 28 + n, Sent(rest));
      OneMore(w, text, Repeat(x, n), rest);
      if Expand([c] + Sent(text)) == w + text {
        ExpandMisread(c, x, [STAR, 28 + n] + Sent(rest));
        Matches(c, k, Expand([STAR, 28 + n] + Sent(rest)), t + rest);
        FrontOf(t, rest, k, c);
        var l := ReadRunOf(c, text, w, x, n, k);
        DropFront(t, rest, k);
        LastOf(w + [STAR], x, n, k);
        NeverAtCount(n, rest, t[k..], l);
      }
    } else {
      SentOne(next);
      var rest := next[1..];
      var t := w + [STAR, x];
      assert next == [x] + rest;
      OneMore(w, text, [x], rest);
      assert w + [STAR] + [x] == t;
      if Expand([c] + Sent(text)) == w + text {
        assert [c] + Sent(text) == [c, STAR, x] + Sent(rest);
        ExpandMisread(c, x, Sent(rest));
        Matches(c, k, Expand(Sent(rest)), t + rest);
        FrontOf(t, rest, k, c);
        ReadSingle(c, text, w, x, k);
        DropFront(t, rest, k);
        NeverAtToken(rest, t[k..]);
      }
    }
  }

  lemma OneMore(w: seq<byte>, text: seq<byte>, first: seq<byte>, rest: seq<byte>)
    requires text != [] && text[0] == STAR && text[1..] == first + rest
    ensures w + text == (w + [STAR] + first) + rest
  {
    assert text == [STAR] + (first + rest);
  }

  lemma RunIsNoStar(text: seq<byte>)
    requires |text| >= 2 && text[0] == STAR && !RawRun(text) && RawRun(text[1..])
    ensures text[1] != STAR
  {}

  /** When the mark and the count byte of a run are still to be read. */
  lemma {:induction false} NeverAtCount(n: nat, text: seq<byte>, w: seq<byte>, l: nat)
    requires BehindTwo(w, l) && |w| >= 3 && 4 <= n <= 98
    requires n < 98 && text != [] ==> text[0] != w[|w| - 1]
    ensures Expand([STAR, 28 + n] + Sent(text)) != w + text
    decreases |text|, 2
  {
    hide Behind, Sent, Expand, BehindOne, BehindTwo, RawRun;
    var tail := [28 + n] + Sent(text);
    assert [STAR, 28 + n] + Sent(text) == [STAR] + tail;
    if text == [] {
      SentNothing();
      ShortTail(28 + n);
    } else if 28 + n != STAR {
      ExpandPlain(STAR, tail);
      if Expand([STAR] + tail) == w + text {
        FirstRead(STAR, Expand(tail), w, text);
        ReadMark(w, l, n, text);
        NeverAtByte(28 + n, text, w[1..]);
      }
    } else if Expand([STAR] + tail) == w + text {
      NeverAtMark(text, w, l);
    }
  }

  lemma ShortTail(b: byte)
    ensures |Expand([STAR, b] + [])| == 2
  {
    assert [STAR, b] + [] == [STAR, b] && [STAR, b][1..] == [b] && [b][1..] == [];
    assert Expand([b]) == [b];
  }

  /** The count byte is a `*`. */
  lemma {:induction false} NeverAtMark(text: seq<byte>, w: seq<byte>, l: nat)
    requires BehindTwo(w, l) && |w| >= 3 && text != [] && text[0] != w[|w| - 1]
    ensures Expand([STAR, STAR] + Sent(text)) != w + text
    decreases |text|, 0
  {
    hide Behind, Sent, Expand, BehindOne, BehindTwo, RawRun;
    var z := text[0];
    var k := Copies(z);
    var whole := w + text;
    if Expand([STAR, STAR] + Sent(text)) == whole {
      if RawRun(text) {
        var n := SentMany(text);
        var rest := text[n..];
        assert [STAR, STAR] + Sent(text) == [STAR, STAR, z] + ([STAR, 28 + n] + Sent(rest));
        ExpandMisread(STAR, z, [STAR, 28 + n] + Sent(rest));
        Matches(STAR, k, Expand([STAR, 28 + n] + Sent(rest)), whole);
        FrontOf(w, text, k, STAR);
        ReadCount(w, l, z, k);
        ReadCountOfRun(w, l, z, k, n);
        var t := w + Repeat(z, n);
        Associates(w, Repeat(z, n), rest);
        DropFront(t, rest, k);
        LastOf(w, z, n, k);
        NeverAtCount(n, rest, t[k..], l - k);
      } else {
        SentOne(text);
        var rest := text[1..];
        assert [STAR, STAR] + Sent(text) == [STAR, STAR, z] + Sent(rest);
        ExpandMisread(STAR, z, Sent(rest));
        Matches(STAR, k, Expand(Sent(rest)), whole);
        FrontOf(w, text, k, STAR);
        ReadCount(w, l, z, k);
        assert text == [z] + rest;
        Associates(w, [z], rest);
        DropFront(w + [z], rest, k);
        NeverAtToken(rest, (w + [z])[k..]);
      }
    }
  }

  lemma FrontOf(w: seq<byte>, text: seq<byte>, k: nat, c: byte)
    requires k <= |w + text| && forall i :: 0 <= i < k ==> (w + text)[i] == c
    ensures k <= |w| ==> forall i :: 0 <= i < k ==> w[i] == c
    ensures k > |w| ==> forall i :: 0 <= i < |w| ==> w[i] == c
  {
    assert forall i :: 0 <= i < |w| ==> (w + text)[i] == w[i];
  }

  lemma LastOf(w: seq<byte>, z: byte, n: nat, k: nat)
    requires k <= |w| && n > 0
    ensures var v := (w + Repeat(z, n))[k..]; |v| >= n && v[|v| - 1] == z
  {}

  // ----- the first misread character -----

  lemma FirstBeforeStars(text: seq<byte>)
    requires !RawRun(text) && |text| >= 2 && text[1] == STAR && RawRun(text[1..])
    ensures Expand(Sent(text)) != text
  {
    hide Sent, Expand;
    SentOne(text);
    var n := SentMany(text[1..]);
    var c, tail := text[0], [28 + n] + Sent(text[1..][n..]);
    assert Sent(text) == [c, STAR, STAR] + tail;
    ExpandMisread(c, STAR, tail);
    if Expand(Sent(text)) == text {
      Matches(c, 14, Expand(tail), text);
    }
  }

  lemma FirstBeforeRun(text: seq<byte>)
    requires !RawRun(text) && |text| >= 3 && text[1] == STAR && !RawRun(text[1..]) && RawRun(text[2..])
    ensures Expand(Sent(text)) != text
  {
    hide Sent, Expand, BehindTwo, Copies;
    var next := text[2..];
    assert text[1..][1..] == next && text == [text[0], STAR] + next;
    SentOne(text);
    SentOne(text[1..]);
    var n := SentMany(next);
    hide RawRun;
    var c, x, rest := text[0], text[2], next[n..];
    var k := Copies(x);
    var tail := [STAR, 28 + n] + Sent(rest);
    SentTogether(c, x, 28 + n, Sent(rest));
    ExpandMisread(c, x, tail);
    if Expand(Sent(text)) == text {
      Matches(c, k, Expand(tail), text);
      var t := [c, STAR] + Repeat(x, n);
      Associates([c, STAR], Repeat(x, n), rest);
      FewCopies(text, c, x, k);
      DropFront(t, rest, k);
      var l := if c == STAR then 2 - k else if k == 1 then 1 else 0;
      OutOfStep(c, x, n, k, l);
      LastOf([c, STAR], x, n, k);
      NeverAtCount(n, rest, t[k..], l);
    }
  }

  lemma SentTogether(c: byte, x: byte, count: byte, tail: seq<byte>)
    ensures [c] + ([STAR] + ([x, STAR, count] + tail)) == [c, STAR, x] + ([STAR, count] + tail)
  {}

  /** A misread character that fits is copied at most as often as it stands there. */
  lemma FewCopies(text: seq<byte>, c: byte, x: byte, k: nat)
    requires |text| >= 3 && text[0] == c && text[1] == STAR && text[2] == x && !RawRun(text) && k == Copies(x)
    requires k <= |text| && forall i :: 0 <= i < k ==> text[i] == c
    ensures x != STAR && k <= (if c == STAR then 2 else 1)
  {}

  lemma OutOfStep(c: byte, x: byte, n: nat, k: nat, l: nat)
    requires 4 <= n && x != STAR && k == Copies(x) && k <= (if c == STAR then 2 else 1)
    requires l == if c == STAR then 2 - k else if k == 1 then 1 else 0
    ensures BehindTwo(([c, STAR] + Repeat(x, n))[k..], l)
  {
    var w := ([c, STAR] + Repeat(x, n))[k..];
    assert forall i :: 0 <= i < |w| ==> w[i] == if i + k == 0 then c else if i + k == 1 then STAR else x;
    if c != STAR && k == 0 { assert w[l..][1] == STAR && w[l..][2] == x; }
  }

  lemma FirstBeforeByte(text: seq<byte>)
    requires !RawRun(text) && |text| >= 3 && text[1] == STAR && !RawRun(text[1..]) && !RawRun(text[2..])
    ensures Expand(Sent(text)) != text
  {
    hide Sent, Expand, Copies;
    SentOne(text);
    SentOne(text[1..]);
    assert text[1..][1..] == text[2..];
    SentOne(text[2..]);
    hide RawRun;
    var c, x, rest := text[0], text[2], text[2..][1..];
    var k := Copies(x);
    assert Sent(text) == [c, STAR, x] + Sent(rest);
    ExpandMisread(c, x, Sent(rest));
    if Expand(Sent(text)) == text {
      Matches(c, k, Expand(Sent(rest)), text);
      var t := [c, STAR, x];
      assert text == t + rest;
      FewCopies(text, c, x, k);
      DropFront(t, rest, k);
      OutOfTurn(c, x, k);
      NeverAtToken(rest, t[k..]);
    }
  }

  lemma OutOfTurn(c: byte, x: byte, k: nat)
    requires x != STAR && k == Copies(x) && k <= (if c == STAR then 2 else 1)
    ensures Behind([c, STAR, x][k..])
  {
    var u := [c, STAR, x][k..];
    if k < 2 { assert u[1 - k] == STAR && u[2 - k] == x; } else { assert u == [x]; }
  }

  /** A text whose first character is misread does not come through. */
  lemma MisreadText(text: seq<byte>)
    requires Misread(Compress(text, false))
    ensures Expand(Sent(text)) != text
  {
    MisreadStar(text);
    if RawRun(text[1..]) {
      FirstBeforeStars(text);
    } else if RawRun(text[2..]) {
      FirstBeforeRun(text);
    } else {
      FirstBeforeByte(text);
    }
  }

  lemma MisreadStar(text: seq<byte>)
    requires Misread(Compress(text, false))
    ensures !RawRun(text) && |text| >= 2 && text[1] == STAR && (RawRun(text[1..]) || |text| >= 3)
  {
    hide Compress;
    var ts := Compress(text, false);
    FirstToken(text);
    var rest := ts[1..];
    FirstToken(text[1..]);
    if rest[0].Plain? { FirstToken(text[1..][1..]); }
  }

  lemma FirstToken(text: seq<byte>)
    ensures var ts := Compress(text, false);
            if text == [] then ts == []
            else ts != [] && ts[0].c == text[0] && (ts[0].Plain? <==> !RawRun(text))
                 && (ts[0].Plain? ==> ts[1..] == Compress(text[1..], false))
  {
    hide RunLength;
  }

  /** A plain text comes through if and only if it is clear. */
  lemma {:induction false} TextRoundTrip(text: seq<byte>)
    ensures Expand(Sent(text)) == text <==> Clear(Compress(text, false))
    decreases |text|
  {
    hide Expand, RunLength;
    CompressSendable(text, false);
    var ts := Compress(text, false);
    if Misread(ts) {
      MisreadText(text);
    } else if text == [] {
      ExpandSent(ts);
      CompressMeans(text, false);
    } else if RawRun(text) {
      var n := SentMany(text);
      TextRoundTrip(text[n..]);
      FirstIsRun(text, n);
      ExpandRun(text[0], n, Sent(text[n..]));
      SameTail(Repeat(text[0], n), Expand(Sent(text[n..])), text[n..]);
    } else {
      TextRoundTrip(text[1..]);
      assert ts[1..] == Compress(text[1..], false);
      SentOne(text);
      ReadAlone(text);
      ExpandPlain(text[0], Sent(text[1..]));
      assert text == [text[0]] + text[1..];
      SameTail([text[0]], Expand(Sent(text[1..])), text[1..]);
    }
  }

  lemma FirstIsRun(text: seq<byte>, n: nat)
    requires RawRun(text) && n <= |text| && 28 + n < 256
    requires Sent(text) == [text[0], STAR, 28 + n] + Sent(text[n..])
    ensures Clear(Compress(text, false)) <==> Clear(Compress(text[n..], false))
  {
    SentRun(text, false);
    var m := RunLength(text, 4, Min(98, |text|));
    assert Sent(text)[2] == 28 + m;
    assert Compress(text, false)[1..] == Compress(text[m..], false);
  }

  /** A first character that is not misread has no mark behind it, or nothing behind the mark. */
  lemma ReadAlone(text: seq<byte>)
    requires text != [] && !RawRun(text) && !Misread(Compress(text, false))
    ensures |Sent(text[1..])| < 2 || Sent(text[1..])[0] != STAR
  {
    var rest := Compress(text[1..], false);
    CompressSendable(text[1..], false);
    assert Compress(text, false)[1..] == rest;
    if rest != [] { FirstSent(rest); }
  }

  lemma SameTail(a: seq<byte>, b: seq<byte>, c: seq<byte>)
    ensures a + b == a + c <==> b == c
  {
    if a + b == a + c {
      assert b == (a + b)[|a|..] == (a + c)[|a|..] == c;
    }
  }

  /** Without that, it may not: a plain `a*!` expands to five times `a`. */
  lemma StarredFragment()
    ensures Compress([97, STAR, 33], false) == [Plain(97), Plain(STAR), Plain(33)]
    ensures SendAll([Plain(97), Plain(STAR), Plain(33)]) == [97, STAR, 33]
    ensures Expand([97, STAR, 33]) == Repeat(97, 5) != [97, STAR, 33]
  {
    var a: seq<byte> := [97, STAR, 33];
    assert a[1..] == [STAR, 33] && a[1..][1..] == [33] && a[1..][1..][1..] == [];
    var ts := [Plain(97), Plain(STAR), Plain(33)];
    assert ts[1..] == [Plain(STAR), Plain(33)] && ts[1..][1..] == [Plain(33)] && ts[1..][1..][1..] == [];
    assert Compress(a[1..][1..], false) == [Plain(33)];
    assert Compress(a[1..], false) == [Plain(STAR)] + [Plain(33)] == [Plain(STAR), Plain(33)];
    assert SendAll(ts[1..][1..]) == [33];
    assert SendAll(ts[1..]) == [STAR, 33];
    assert a[3..] == [];
    assert |Expand(a)| == 5;
  }
}
