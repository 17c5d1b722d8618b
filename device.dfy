// The sector store the formatter writes to, and the stop request the user
// can raise while it runs. The store stands for the opened device or image
// file behind Go's `io.WriterAt` / `io.ReaderAt`; its faults are fixed sets
// of sectors chosen by the caller.

module Device {
  import opened Bytes

  const SectorBytes: int := 512

  /** The sector a byte offset falls in. */
  function SectorOf(b: int): int {
    b / SectorBytes
  }

  /** Some sector of [lo, hi] is in `f`. */
  predicate AnyIn(f: set<int>, lo: int, hi: int)
    decreases hi - lo
  {
    lo <= hi && (lo in f || AnyIn(f, lo + 1, hi))
  }

  /** A sector of the range that is in `f` makes the range hit `f`. */
  lemma {:induction false} AnyInHas(f: set<int>, lo: int, hi: int, t: int)
    requires lo <= t <= hi && t in f
    ensures AnyIn(f, lo, hi)
    decreases t - lo
  {
    if lo < t {
      AnyInHas(f, lo + 1, hi, t);
    }
  }

  /** Some byte of [off, off + n) lies in a sector of `f`. */
  predicate Touches(f: set<int>, off: int, n: int) {
    n > 0 && AnyIn(f, SectorOf(off), SectorOf(off + n - 1))
  }

  /** Every byte of a sector lies in it. */
  lemma SectorOfByte(sector: int, i: int)
    requires 0 <= i < SectorBytes
    ensures SectorOf(sector * SectorBytes + i) == sector
  {
  }

  /** A whole sector touches exactly itself. */
  lemma TouchesSector(f: set<int>, sector: int)
    ensures Touches(f, sector * SectorBytes, SectorBytes) <==> sector in f
  {
    SectorOfByte(sector, 0);
    SectorOfByte(sector, SectorBytes - 1);
    assert sector * SectorBytes + SectorBytes - 1 == sector * SectorBytes + (SectorBytes - 1);
    assert !AnyIn(f, sector + 1, sector);
  }

  /** What a sector of byte value `v` reads back as when its medium is defective. */
  function Corrupted(v: Byte): (r: Byte)
    ensures r != v
  {
    255 - v
  }

  /** The byte at `b` as read from a medium whose `bad` sectors are defective. */
  function Stored(d: seq<Byte>, bad: set<int>, b: int): Byte
    requires 0 <= b < |d|
  {
    if SectorOf(b) in bad then Corrupted(d[b]) else d[b]
  }

  class Disk {
    /** The size of the device in bytes. */
    const size: nat
    /** The bytes of the volume. */
    var data: seq<Byte>
    /** Sectors on which a write reports an I/O error. */
    const writeFails: set<int>
    /** Sectors on which a read reports an I/O error. */
    const readFails: set<int>
    /** Sectors that accept writes but return corrupted bytes. */
    const defective: set<int>
    /** How many times `Sync` was called. */
    var syncs: nat

    ghost predicate Valid()
      reads this
    {
      |data| == size
    }

    constructor(image: seq<Byte>, wf: set<int>, rf: set<int>, bad: set<int>)
      ensures Valid() && size == |image|
      ensures data == image && writeFails == wf && readFails == rf && defective == bad && syncs == 0
    {
      size := |image|;
      data := image;
      writeFails := wf;
      readFails := rf;
      defective := bad;
      syncs := 0;
    }

    /** A write of `n` bytes at `off` succeeds: it lies on the device and no failing sector is hit. */
    predicate CanWrite(off: int, n: int) {
      0 <= off && off + n <= size && !Touches(writeFails, off, n)
    }

    predicate CanRead(off: int, n: int) {
      0 <= off && off + n <= size && !Touches(readFails, off, n)
    }

    /** The bytes a read of [off, off + n) returns. */
    function ReadBack(off: int, n: nat): (r: seq<Byte>)
      requires Valid() && 0 <= off && off + n <= size
      reads this
      ensures |r| == n
    {
      var d, bad := data, defective;
      seq<Byte>(n, i requires 0 <= i < n => Stored(d, bad, off + i))
    }

    /** `WriteAt`: all of `p` lands at `off`, or an error and nothing changes. */
    method WriteAt(p: seq<Byte>, off: int) returns (ok: bool)
      requires Valid()
      modifies this
      ensures Valid() && syncs == old(syncs)
      ensures ok == CanWrite(off, |p|)
      ensures data == if ok then Overlay(old(data), off, p) else old(data)
    {
      ok := 0 <= off && off + |p| <= size && !Touches(writeFails, off, |p|);
      if ok {
        data := Overlay(data, off, p);
      }
    }

    /** `ReadAt`: `n` bytes from `off`, or an error. */
    method ReadAt(n: nat, off: int) returns (r: seq<Byte>, ok: bool)
      requires Valid()
      ensures ok == CanRead(off, n)
      ensures ok ==> r == ReadBack(off, n)
    {
      ok := 0 <= off && off + n <= size && !Touches(readFails, off, n);
      if ok {
        r := ReadBack(off, n);
      } else {
        r := [];
      }
    }

    /** `file.Sync()`: flushes to the medium; only the count is observable. */
    method Sync()
      requires Valid()
      modifies this
      ensures Valid() && syncs == old(syncs) + 1 && data == old(data)
    {
      syncs := syncs + 1;
    }
  }

  /**
   * The user's stop request, raised by another goroutine at a time the
   * formatter does not control: once raised it stays raised, from poll
   * number `stopAt` on.
   */
  class StopSignal {
    const requested: bool
    const stopAt: nat
    /** How many times `IsStopped` has been asked. */
    var polls: nat

    constructor(req: bool, at: nat)
      ensures requested == req && stopAt == at && polls == 0
    {
      requested := req;
      stopAt := at;
      polls := 0;
    }

    /** The answer poll number `k` gets. */
    predicate Raised(k: int) {
      requested && k >= stopAt
    }

    /** `ui.IsStopped()`. */
    method IsStopped() returns (stopped: bool)
      modifies this
      ensures polls == old(polls) + 1
      ensures stopped == Raised(old(polls))
    {
      stopped := requested && polls >= stopAt;
      polls := polls + 1;
    }
  }
}
