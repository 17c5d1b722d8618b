// Machine-width integers, little-endian encoding and the byte-string
// helpers the formatter uses to lay out on-disk structures.

module Results {
  /** The value-or-error pair that Go functions return as `(T, error)`. */
  datatype Result<+T, +E> = Ok(value: T) | Err(error: E)

  /** A Go `error` that may be nil. */
  datatype Option<+T> = None | Some(value: T)
}

module Bytes {

  type Byte = b: int | 0 <= b < 0x100
  type U16 = x: int | 0 <= x < 0x1_0000
  type U32 = x: int | 0 <= x < 0x1_0000_0000
  /** Go's `int64` (and `int` on 64-bit targets). */
  type I64 = x: int | -0x8000_0000_0000_0000 <= x < 0x8000_0000_0000_0000

  const TWO16: int := 0x1_0000
  const TWO32: int := 0x1_0000_0000
  const SPACE: Byte := 0x20

  /** Go's conversion `uint32(x)`: keeps the low 32 bits of a two's-complement value. */
  function ToU32(x: int): (r: U32)
    ensures 0 <= x < TWO32 ==> r == x
    ensures -TWO32 <= x < 0 ==> r == x + TWO32
  {
    x % TWO32
  }

  /** Go's conversion `uint16(x)`: keeps the low 16 bits. */
  function ToU16(x: int): (r: U16)
    ensures 0 <= x < TWO16 ==> r == x
  {
    x % TWO16
  }

  /** Go's integer `/` on signed operands truncates toward zero. */
  function GoDiv(a: int, b: int): (q: int)
    requires b > 0
    ensures a >= 0 ==> q * b <= a < q * b + b
    ensures a < 0 ==> q * b - b < a <= q * b
  {
    if a >= 0 then a / b else -((-a) / b)
  }

  function Min(a: int, b: int): int { if a < b then a else b }

  function Max(a: int, b: int): int { if a < b then b else a }

  /** `n` zero bytes, what Go's `make([]byte, n)` holds. */
  function Zeros(n: nat): (r: seq<Byte>)
    ensures |r| == n
  {
    seq(n, _ => 0)
  }

  /** Go's `binary.LittleEndian.PutUint16`. */
  function LE16(v: U16): (r: seq<Byte>)
    ensures |r| == 2 && U16At(r, 0) == v
  {
    [v % 0x100, v / 0x100]
  }

  /** Go's `binary.LittleEndian.PutUint32`. */
  function LE32(v: U32): (r: seq<Byte>)
    ensures |r| == 4 && U32At(r, 0) == v
  {
    var v1 := v / 0x100;
    var v2 := v1 / 0x100;
    var v3 := v2 / 0x100;
    assert v == v % 0x100 + 0x100 * v1 && v1 == v1 % 0x100 + 0x100 * v2 && v2 == v2 % 0x100 + 0x100 * v3;
    [v % 0x100, v1 % 0x100, v2 % 0x100, v3]
  }

  /** Go's `binary.LittleEndian.Uint16(s[off:])`: the reading partner of LE16. */
  function U16At(s: seq<Byte>, off: nat): U16
    requires off + 2 <= |s|
  {
    s[off] as int + 0x100 * (s[off + 1] as int)
  }

  /** Go's `binary.LittleEndian.Uint32(s[off:])`: the reading partner of LE32. */
  function U32At(s: seq<Byte>, off: nat): U32
    requires off + 4 <= |s|
  {
    s[off] as int + 0x100 * (s[off + 1] as int) + 0x1_0000 * (s[off + 2] as int)
      + 0x100_0000 * (s[off + 3] as int)
  }

  /** Reading back at a position inside a concatenation reads the middle piece. */
  lemma {:induction false} U16AtConcat(a: seq<Byte>, b: seq<Byte>, c: seq<Byte>)
    requires |b| == 2
    ensures U16At(a + b + c, |a|) == U16At(b, 0)
  {
    assert (a + b + c)[|a|] == b[0];
    assert (a + b + c)[|a| + 1] == b[1];
  }

  lemma {:induction false} U32AtConcat(a: seq<Byte>, b: seq<Byte>, c: seq<Byte>)
    requires |b| == 4
    ensures U32At(a + b + c, |a|) == U32At(b, 0)
  {
    assert (a + b + c)[|a|] == b[0];
    assert (a + b + c)[|a| + 1] == b[1];
    assert (a + b + c)[|a| + 2] == b[2];
    assert (a + b + c)[|a| + 3] == b[3];
  }

  /**
   * The bytes of a Go string literal: each character's low byte, which for
   * the ASCII literals the formatter writes is its UTF-8 encoding.
   */
  function Ascii(s: string): (r: seq<Byte>)
    ensures |r| == |s|
    ensures forall i :: 0 <= i < |s| ==> r[i] == s[i] as int % 0x100
  {
    seq(|s|, i requires 0 <= i < |s| => s[i] as int % 0x100)
  }

  /** `s` with the bytes from `off` on replaced by `h`, when `h` fits; otherwise `s` unchanged. */
  function Overlay(s: seq<Byte>, off: int, h: seq<Byte>): (r: seq<Byte>)
    ensures |r| == |s|
  {
    if 0 <= off && off + |h| <= |s| then s[..off] + h + s[off + |h|..] else s
  }

  /** Byte by byte: inside the window the new bytes, outside it the old ones. */
  lemma OverlayAt(s: seq<Byte>, off: int, h: seq<Byte>)
    ensures 0 <= off && off + |h| <= |s| ==>
      forall i :: 0 <= i < |s| ==> Overlay(s, off, h)[i] == if off <= i < off + |h| then h[i - off] else s[i]
    ensures !(0 <= off && off + |h| <= |s|) ==> Overlay(s, off, h) == s
  {
  }

  /** Writing a buffer in two consecutive pieces leaves what writing it whole does. */
  lemma OverlayExtend(s: seq<Byte>, off: int, b: seq<Byte>, k: nat, n: nat)
    requires 0 <= off && k + n <= |b| && off + k + n <= |s|
    ensures Overlay(Overlay(s, off, b[..k]), off + k, b[k..k + n]) == Overlay(s, off, b[..k + n])
  {
    var t := Overlay(s, off, b[..k]);
    var l, r := Overlay(t, off + k, b[k..k + n]), Overlay(s, off, b[..k + n]);
    OverlayAt(s, off, b[..k]);
    OverlayAt(t, off + k, b[k..k + n]);
    OverlayAt(s, off, b[..k + n]);
    forall i | 0 <= i < |s|
      ensures l[i] == r[i]
    {
      if off + k <= i < off + k + n {
        assert l[i] == b[k..k + n][i - off - k] == b[i - off];
      } else if off <= i < off + k {
        assert l[i] == t[i] == b[..k][i - off] == b[i - off];
      }
    }
  }

  /** The step of a chunked write: the next chunk lands right after the bytes already written. */
  lemma OverlayChunk(s0: seq<Byte>, prev: seq<Byte>, off: int, b: seq<Byte>, k: nat, n: nat)
    requires k + n <= |b| && 0 <= off + k && off + k + n <= |s0| && (k > 0 ==> 0 <= off)
    requires prev == Overlay(s0, off, b[..k])
    ensures Overlay(prev, off + k, b[k..k + n]) == Overlay(s0, off, b[..k + n])
  {
    OverlayExtend(s0, off, b, k, n);
  }

  /** Writing nothing changes nothing. */
  lemma OverlayEmpty(s: seq<Byte>, off: int)
    ensures Overlay(s, off, []) == s
  {
    if 0 <= off && off <= |s| {
      assert s[..off] + [] + s[off..] == s;
    }
  }

  /** `a` and `b` have the same length and hold the same bytes below offset `n`. */
  predicate SamePrefix(a: seq<Byte>, b: seq<Byte>, n: int) {
    |a| == |b| && forall i :: 0 <= i < n && i < |a| ==> a[i] == b[i]
  }

  /** A write at or past offset `n` leaves the bytes below `n` alone. */
  lemma OverlayAbove(s: seq<Byte>, off: int, h: seq<Byte>, n: int)
    requires n <= off
    ensures SamePrefix(Overlay(s, off, h), s, n)
  {
    OverlayAt(s, off, h);
  }

  lemma SamePrefixTrans(a: seq<Byte>, b: seq<Byte>, c: seq<Byte>, n: int)
    requires SamePrefix(a, b, n) && SamePrefix(b, c, n)
    ensures SamePrefix(a, c, n)
  {
  }

  /** The three pieces of a concatenation sit at their offsets. */
  lemma Concat3<T>(a: seq<T>, b: seq<T>, c: seq<T>)
    ensures (a + b + c)[..|a|] == a
    ensures (a + b + c)[|a|..|a| + |b|] == b
    ensures (a + b + c)[|a| + |b|..] == c
  {
    assert (a + b + c)[..|a|] == a;
    assert (a + b + c)[|a|..|a| + |b|] == b;
    assert (a + b + c)[|a| + |b|..] == c;
  }

  /** The two halves of a concatenation. */
  lemma Halves<T>(a: seq<T>, b: seq<T>)
    ensures (a + b)[..|a|] == a && (a + b)[|a|..] == b
  {
  }

  lemma SliceOfSlice<T>(s: seq<T>, lo: nat, hi: nat, i: nat, j: nat)
    requires lo <= hi <= |s| && i <= j <= hi - lo
    ensures s[lo..hi][i..j] == s[lo + i..lo + j]
  {
    var w := s[lo..hi];
    forall k | 0 <= k < j - i
      ensures w[i..j][k] == s[lo + i..lo + j][k]
    {
      assert w[i..j][k] == w[i + k] == s[lo + i + k];
    }
  }

  /** A slice of a prefix is the same slice of the whole. */
  lemma PrefixSlice<T>(s: seq<T>, h: seq<T>, i: nat, j: nat)
    requires |h| <= |s| && s[..|h|] == h && i <= j <= |h|
    ensures s[i..j] == h[i..j]
  {
    SliceOfSlice(s, 0, |h|, i, j);
  }

  /** When `a + b + c` sits at `off` in `s`, each piece sits at its own offset. */
  lemma SlicesAt<T>(s: seq<T>, off: nat, a: seq<T>, b: seq<T>, c: seq<T>)
    requires off + |a| + |b| + |c| <= |s|
    requires s[off..off + |a| + |b| + |c|] == a + b + c
    ensures s[off..off + |a|] == a
    ensures s[off + |a|..off + |a| + |b|] == b
    ensures s[off + |a| + |b|..off + |a| + |b| + |c|] == c
  {
    var n := |a| + |b| + |c|;
    SliceOfSlice(s, off, off + n, 0, |a|);
    SliceOfSlice(s, off, off + n, |a|, |a| + |b|);
    SliceOfSlice(s, off, off + n, |a| + |b|, n);
    Concat3(a, b, c);
  }

  /** A window of `s` that matches `x` element by element is `x`. */
  lemma SliceIs<T>(s: seq<T>, off: nat, x: seq<T>)
    requires off + |x| <= |s|
    requires forall k :: 0 <= k < |x| ==> s[off + k] == x[k]
    ensures s[off..off + |x|] == x
  {
    assert forall k {:trigger x[k]} :: 0 <= k < |x| ==> s[off..off + |x|][k] == s[off + k];
  }

  /** The leading pieces of `((a + b) + c) + r`, each at its offset. */
  lemma Left3<T>(a: seq<T>, b: seq<T>, c: seq<T>, r: seq<T>)
    ensures var h := ((a + b) + c) + r;
      h[..|a|] == a && h[|a|..|a| + |b|] == b && h[|a| + |b|..|a| + |b| + |c|] == c
  {
    var h := ((a + b) + c) + r;
    SliceIs(h, 0, a);
    SliceIs(h, |a|, b);
    SliceIs(h, |a| + |b|, c);
  }

  /** The leading pieces of `((a + b) + (c + d)) + r`, each at its offset. */
  lemma Left4<T>(a: seq<T>, b: seq<T>, c: seq<T>, d: seq<T>, r: seq<T>)
    ensures var h := ((a + b) + (c + d)) + r;
      var i := |a| + |b|;
      h[..|a|] == a && h[|a|..i] == b && h[i..i + |c|] == c && h[i + |c|..i + |c| + |d|] == d
  {
    var h := ((a + b) + (c + d)) + r;
    SliceIs(h, 0, a);
    SliceIs(h, |a|, b);
    SliceIs(h, |a| + |b|, c);
    SliceIs(h, |a| + |b| + |c|, d);
  }

  /** The trailing pieces of `l + (((a + b) + c) + d)`, each at its offset. */
  lemma Right4<T>(l: seq<T>, a: seq<T>, b: seq<T>, c: seq<T>, d: seq<T>)
    ensures var h := l + (((a + b) + c) + d);
      var i := |l| + |a| + |b|;
      h[|l|..|l| + |a|] == a && h[|l| + |a|..i] == b && h[i..i + |c|] == c && h[i + |c|..|h|] == d
  {
    var r := ((a + b) + c) + d;
    var h := l + r;
    var i := |a| + |b|;
    Left3(a, b, c, d);
    SliceIs(r, i + |c|, d);
    Halves(l, r);
    SliceOfSlice(h, |l|, |h|, 0, |a|);
    SliceOfSlice(h, |l|, |h|, |a|, i);
    SliceOfSlice(h, |l|, |h|, i, i + |c|);
    SliceOfSlice(h, |l|, |h|, i + |c|, |r|);
  }

  /** The pieces of a sector built as `h + ((a + b) + ((c + d) + e))`, each at its offset. */
  lemma Tail5<T>(h: seq<T>, a: seq<T>, b: seq<T>, c: seq<T>, d: seq<T>, e: seq<T>)
    ensures var s := h + ((a + b) + ((c + d) + e));
      var i := |h| + |a| + |b|;
      s[|h|..|h| + |a|] == a && s[|h| + |a|..i] == b
      && s[i..i + |c|] == c && s[i + |c|..i + |c| + |d|] == d && s[i + |c| + |d|..] == e
  {
    var s := h + ((a + b) + ((c + d) + e));
    var i := |h| + |a| + |b|;
    SliceIs(s, |h|, a);
    SliceIs(s, |h| + |a|, b);
    SliceIs(s, i, c);
    SliceIs(s, i + |c|, d);
    SliceIs(s, i + |c| + |d|, e);
    assert s[i + |c| + |d|..] == s[i + |c| + |d|..|s|];
  }

  /**
   * main.go `padRight`: the first `n` bytes of `s`, filled up to `n`
   * with spaces when `s` is shorter.
   */
  function PadRight(s: seq<Byte>, n: nat): (r: seq<Byte>)
    ensures |r| == n
    ensures forall i :: 0 <= i < n ==> r[i] == (if i < |s| then s[i] else SPACE)
  {
    var t := if |s| > n then s[..n] else s;
    t + seq(n - |t|, _ => SPACE)
  }

  /** Padding an already padded field changes nothing. */
  lemma PadRightIdempotent(s: seq<Byte>, n: nat)
    ensures PadRight(PadRight(s, n), n) == PadRight(s, n)
  {
  }

  /** A field that already has the full width passes through unchanged. */
  lemma PadRightExact(s: seq<Byte>)
    ensures PadRight(s, |s|) == s
  {
  }
}
