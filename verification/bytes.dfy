/** Bytes as the shared block and the wire hold them: little-endian unsigned fields of a
    fixed width, two's-complement 32-bit integers, and overwriting a stretch of memory. */
module Bytes {

  type byte = x: int | 0 <= x < 256

  const TWO_TO_THE_32 := 0x1_0000_0000
  const TWO_TO_THE_64 := 0x1_0000_0000_0000_0000

  type uint16 = x: int | 0 <= x < 0x1_0000
  type uint32 = x: int | 0 <= x < TWO_TO_THE_32
  type int32 = x: int | -0x8000_0000 <= x < 0x8000_0000

  function Pow256(k: nat): (p: nat)
    ensures p > 0
  {
    if k == 0 then 1 else 256 * Pow256(k - 1)
  }

  /** The byte of n that weighs 256^i. */
  function ByteOf(n: nat, i: nat): byte {
    if i == 0 then n % 256 else ByteOf(n / 256, i - 1)
  }

  /** The k low bytes of n, least significant first. */
  function LittleEndian(n: nat, k: nat): (s: seq<byte>)
    ensures |s| == k
  {
    seq(k, i requires 0 <= i < k => ByteOf(n, i))
  }

  function FromLittleEndian(s: seq<byte>): (n: nat)
    ensures n < Pow256(|s|)
  {
    if s == [] then 0 else s[0] + 256 * FromLittleEndian(s[1..])
  }

  /** An unsigned field of k bytes at offset at holds n. */
  predicate FieldAt(s: seq<byte>, at: nat, k: nat, n: nat) {
    at + k <= |s| && s[at..at + k] == LittleEndian(n, k)
  }

  lemma {:induction false} LittleEndianInverse(n: nat, k: nat)
    requires n < Pow256(k)
    ensures FromLittleEndian(LittleEndian(n, k)) == n
  {
    if k != 0 {
      LittleEndianInverse(n / 256, k - 1);
      assert LittleEndian(n, k)[1..] == LittleEndian(n / 256, k - 1);
      assert LittleEndian(n, k)[0] == n % 256;
    }
  }

  lemma {:induction false} FromLittleEndianInverse(s: seq<byte>)
    ensures LittleEndian(FromLittleEndian(s), |s|) == s
  {
    if s != [] {
      FromLittleEndianInverse(s[1..]);
      var n := FromLittleEndian(s);
      assert n % 256 == s[0] && n / 256 == FromLittleEndian(s[1..]);
      assert forall i :: 0 < i < |s| ==> LittleEndian(n, |s|)[i] == LittleEndian(n / 256, |s| - 1)[i - 1];
      assert forall i :: 0 < i < |s| ==> s[i] == s[1..][i - 1];
    }
  }

  /** Four bytes, lowest first. */
  lemma FourBytes(n: uint32)
    ensures n < Pow256(4)
    ensures LittleEndian(n, 4) == [n % 256, n / 256 % 256, n / 256 / 256 % 256, n / 256 / 256 / 256 % 256]
  {
    Widths();
    assert ByteOf(n, 1) == ByteOf(n / 256, 0);
    assert ByteOf(n, 2) == ByteOf(n / 256, 1) == ByteOf(n / 256 / 256, 0);
    assert ByteOf(n, 3) == ByteOf(n / 256, 2) == ByteOf(n / 256 / 256, 1) == ByteOf(n / 256 / 256 / 256, 0);
    var s := LittleEndian(n, 4);
    assert s == [s[0], s[1], s[2], s[3]];
  }

  lemma Widths()
    ensures Pow256(2) == 0x1_0000
    ensures Pow256(4) == TWO_TO_THE_32
    ensures Pow256(8) == TWO_TO_THE_64
  {
    assert Pow256(2) == 256 * Pow256(1) == 0x1_0000;
    assert Pow256(4) == 256 * Pow256(3) == 256 * (256 * Pow256(2));
    assert Pow256(6) == 256 * Pow256(5) == 256 * (256 * Pow256(4));
    assert Pow256(8) == 256 * Pow256(7) == 256 * (256 * Pow256(6));
  }

  function ToUnsigned(i: int32): uint32 {
    if i < 0 then i + TWO_TO_THE_32 else i
  }

  function ToSigned(u: uint32): int32 {
    if u < 0x8000_0000 then u else u - TWO_TO_THE_32
  }

  /** m with the bytes bs written over it from index at on. */
  function Splice(m: seq<byte>, at: nat, bs: seq<byte>): (r: seq<byte>)
    requires at + |bs| <= |m|
    ensures |r| == |m|
    decreases |bs|
  {
    if bs == [] then m else Splice(m[at := bs[0]], at + 1, bs[1..])
  }

  /** m' differs from m at most in [lo, hi). */
  ghost predicate SameOutside(m: seq<byte>, m': seq<byte>, lo: nat, hi: nat) {
    |m| == |m'| && forall i :: 0 <= i < |m| && !(lo <= i < hi) ==> m'[i] == m[i]
  }

  lemma {:induction false} SpliceAt(m: seq<byte>, at: nat, bs: seq<byte>, i: nat)
    requires at + |bs| <= |m| && i < |m|
    ensures Splice(m, at, bs)[i] == if at <= i < at + |bs| then bs[i - at] else m[i]
    decreases |bs|
  {
    if bs != [] {
      SpliceAt(m[at := bs[0]], at + 1, bs[1..], i);
    }
  }

  lemma SpliceIsLocal(m: seq<byte>, at: nat, bs: seq<byte>)
    requires at + |bs| <= |m|
    ensures Splice(m, at, bs)[at..at + |bs|] == bs
    ensures SameOutside(m, Splice(m, at, bs), at, at + |bs|)
  {
    forall i: nat | i < |m|
      ensures Splice(m, at, bs)[i] == if at <= i < at + |bs| then bs[i - at] else m[i]
    {
      SpliceAt(m, at, bs, i);
    }
  }

  /** Header word, fields and payload written one after another, then the word again. */
  function Stored(m: seq<byte>, at: nat, first: seq<byte>, fields: seq<byte>, payload: seq<byte>,
      last: seq<byte>): seq<byte>
    requires |first| == |last| && at + |last| + |fields| + |payload| <= |m|
  {
    var m1 := Splice(m, at, first);
    var m2 := Splice(m1, at + |last|, fields);
    var m3 := Splice(m2, at + |last| + |fields|, payload);
    Splice(m3, at, last)
  }

  lemma StoredBytes(m: seq<byte>, at: nat, first: seq<byte>, fields: seq<byte>, payload: seq<byte>, last: seq<byte>)
    requires |first| == |last| && at + |last| + |fields| + |payload| <= |m|
    ensures var m', n := Stored(m, at, first, fields, payload, last), |last| + |fields| + |payload|;
            m'[at..at + n] == last + (fields + payload) && SameOutside(m, m', at, at + n)
  {
    hide Splice, SameOutside;
    var at2, at3, end := at + |last|, at + |last| + |fields|, at + |last| + |fields| + |payload|;
    var m1 := Splice(m, at, first);
    var m2 := Splice(m1, at2, fields);
    var m3 := Splice(m2, at3, payload);
    var m4 := Splice(m3, at, last);
    SpliceIsLocal(m, at, first);
    SpliceIsLocal(m1, at2, fields);
    SpliceIsLocal(m2, at3, payload);
    SpliceIsLocal(m3, at, last);
    SliceKept(m2, m3, at3, end, at2, at3);
    SliceKept(m3, m4, at, at2, at2, at3);
    SliceKept(m3, m4, at, at2, at3, end);
    OutsideBoth(m, m1, m2, at, end);
    OutsideBoth(m, m2, m3, at, end);
    OutsideBoth(m, m3, m4, at, end);
    assert m4[at..end] == m4[at..at2] + (m4[at2..at3] + m4[at3..end]);
  }

  lemma SliceKept(m: seq<byte>, m': seq<byte>, lo: nat, hi: nat, a: nat, b: nat)
    requires SameOutside(m, m', lo, hi) && a <= b <= |m| && (b <= lo || hi <= a)
    ensures m'[a..b] == m[a..b]
  {
  }

  lemma OutsideBoth(m: seq<byte>, m1: seq<byte>, m2: seq<byte>, lo: nat, hi: nat)
    requires exists a: nat, b: nat, c: nat, d: nat ::
               lo <= a && b <= hi && lo <= c && d <= hi && SameOutside(m, m1, a, b) && SameOutside(m1, m2, c, d)
    ensures SameOutside(m, m2, lo, hi)
  {
  }

  /** Writing a piece right behind a stretch that is in place extends it. */
  lemma StretchExtended(m: seq<byte>, o: nat, t: seq<byte>, piece: seq<byte>)
    requires o + |t| + |piece| <= |m| && m[o..o + |t|] == t
    ensures var m' := Splice(m, o + |t|, piece); m'[o..o + |t + piece|] == t + piece
    ensures SameOutside(m, Splice(m, o + |t|, piece), o + |t|, o + |t| + |piece|)
  {
    var m', mid, end := Splice(m, o + |t|, piece), o + |t|, o + |t + piece|;
    SpliceIsLocal(m, mid, piece);
    assert m'[o..mid] == m[o..mid];
    assert m'[o..end] == m'[o..mid] + m'[mid..end];
  }

  /** Overwriting the first word of a stretch that is in place replaces just that word. */
  lemma WordReplaced(m: seq<byte>, o: nat, w: seq<byte>, w': seq<byte>, rest: seq<byte>)
    requires |w| == |w'| && o + |w| + |rest| <= |m| && m[o..o + |w + rest|] == w + rest
    ensures Splice(m, o, w')[o..o + |w' + rest|] == w' + rest
    ensures SameOutside(m, Splice(m, o, w'), o, o + |w'|)
  {
    var m', mid, end := Splice(m, o, w'), o + |w|, o + |w + rest|;
    SpliceIsLocal(m, o, w');
    SuffixOfSlice(m, o, end, |w|);
    assert (w + rest)[|w|..] == rest;
    assert m'[mid..end] == m[mid..end];
    assert m'[o..end] == m'[o..mid] + m'[mid..end];
  }

  lemma PrefixOfSlice(m: seq<byte>, a: nat, b: nat, d: nat)
    requires a <= b <= |m| && d <= b - a
    ensures m[a..b][..d] == m[a..a + d]
  {
    var s := m[a..b];
    assert forall i :: 0 <= i < d ==> s[..d][i] == s[i] == m[a + i];
  }

  lemma SuffixOfSlice(m: seq<byte>, a: nat, b: nat, c: nat)
    requires a <= b <= |m| && c <= b - a
    ensures m[a..b][c..] == m[a + c..b]
  {
    var s := m[a..b];
    assert forall i :: 0 <= i < b - a - c ==> s[c..][i] == s[c + i] == m[a + c + i];
  }

  function Min(a: int, b: int): int {
    if a <= b then a else b
  }
}
