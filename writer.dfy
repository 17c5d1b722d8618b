// The sector write engine: chunked span writes, the bad-sector scan of a
// full format and track-by-track zeroing (main.go:636-707, 749-837,
// 2071-2112), over the sector store of module Device. Status-line and
// screen updates are dropped; the stop request is polled where Go polls it.

module Writer {
  import opened Results
  import opened Bytes
  import opened Device
  import opened Progress

  /** The bytes one `WriteAt` call of the span writers carries at most (1 MiB). */
  const Chunk: int := 0x10_0000

  /** Why `checkBadSector` rejected a sector. */
  datatype BadCause = WriteFailed | ReadFailed | Mismatch

  /** The errors the write engine returns. */
  datatype IoError =
    | WriteError(offset: int)
    | ReadError(offset: int)
    | Interrupted
    | BadSector(sector: int, cause: BadCause)
    | BadSectors(sectors: seq<int>)

  /** The error ends the operation early: a failed write or a stop request. */
  predicate Aborted(err: Option<IoError>) {
    err.Some? && (err.value.WriteError? || err.value == Interrupted)
  }

  /** A chunk of a span of whole sectors is whole sectors too, at least one. */
  lemma WholeSectors(wr: int, n: int, len: int)
    requires 0 <= wr && 0 < n && wr + n <= len && (len % 512 == 0 ==> wr % 512 == 0)
    requires n == len - wr || n == Chunk
    ensures len % 512 == 0 ==> n / 512 >= 1 && (wr + n) % 512 == 0
    ensures len % 512 == 0 ==> (wr + n) / 512 == wr / 512 + Max(1, n / 512)
  {
  }

  /** The marking step of PutChunk, on the maps alone. */
  lemma ChunkMarked(m0: seq<bool>, marks: seq<bool>, next: seq<bool>, absStart: int, wr: int, n: int, len: int, ws: int)
    returns (ws': int)
    requires 0 <= wr && 0 < n && wr + n <= len && (n == len - wr || n == Chunk)
    requires Below(m0, marks)
    requires len % 512 == 0 ==> wr == 512 * ws && marks == Marked(m0, absStart, absStart + ws)
    requires next == Marked(marks, absStart + wr / 512, Min(absStart + wr / 512 + Max(1, n / 512), |marks|))
    ensures Below(m0, next)
    ensures len % 512 == 0 ==> wr + n == 512 * ws' && next == Marked(m0, absStart, absStart + ws')
  {
    ws' := ws;
    WholeSectors(wr, n, len);
    MarkedGrows(marks, absStart + wr / 512, Min(absStart + wr / 512 + Max(1, n / 512), |marks|));
    MarkedClamp(marks, absStart + wr / 512, absStart + wr / 512 + Max(1, n / 512));
    if len % 512 == 0 {
      ws' := (wr + n) / 512;
      MarkedJoin(m0, absStart, absStart + ws, absStart + ws');
    }
  }

  /**
   * One pass of the span writers' loop before the stop poll: bytes [wr, wr + n)
   * of `buf` go to the store and their sectors (at least one) are marked. The
   * ghost arguments are the store and the map before the span began: what
   * held for the first `wr` bytes then holds for the first `wr + n`.
   */
  method PutChunk(w: Disk, absStart: int, buf: seq<Byte>, wr: int, n: int, pt: ProgressTracker,
                  ghost d0: seq<Byte>, ghost m0: seq<bool>, ghost ws: int)
    returns (ok: bool, ghost ws': int)
    requires w.Valid() && pt.Valid()
    requires 0 <= wr && 0 < n && wr + n <= |buf| && (n == |buf| - wr || n == Chunk)
    requires |d0| == w.size && w.data == Overlay(d0, absStart * 512, buf[..wr])
    requires wr > 0 ==> 0 <= absStart * 512
    requires Below(m0, pt.progressMap[..])
    requires |buf| % 512 == 0 ==> wr == 512 * ws && pt.progressMap[..] == Marked(m0, absStart, absStart + ws)
    modifies w, pt, pt.progressMap
    ensures w.Valid() && pt.Valid() && w.syncs == old(w.syncs)
    ensures ok == w.CanWrite(absStart * 512 + wr, n)
    ensures !ok ==> w.data == old(w.data) && pt.progressMap[..] == old(pt.progressMap[..])
    ensures ok ==> 0 <= absStart * 512
    ensures ok ==> w.data == Overlay(d0, absStart * 512, buf[..wr + n])
    ensures ok ==> Below(m0, pt.progressMap[..])
    ensures ok && |buf| % 512 == 0 ==>
      wr + n == 512 * ws' && pt.progressMap[..] == Marked(m0, absStart, absStart + ws')
  {
    ws' := ws;
    ok := w.WriteAt(buf[wr..wr + n], absStart * 512 + wr);
    if ok {
      OverlayChunk(d0, old(w.data), absStart * 512, buf, wr, n);
      var secs := Max(1, n / 512);
      ghost var marks := pt.progressMap[..];
      pt.MarkRange(absStart + wr / 512, secs);
      ws' := ChunkMarked(m0, marks, pt.progressMap[..], absStart, wr, n, |buf|, ws);
    }
  }

  /**
   * The span writers' state after the first `wr` bytes of `buf`: they are
   * in the store over `d0`, and, for a span of whole sectors, exactly their
   * `ws` sectors have been added to the map `m0`.
   */
  ghost predicate Spanned(w: Disk, pt: ProgressTracker, absStart: int, buf: seq<Byte>, wr: int, ws: int,
                          d0: seq<Byte>, m0: seq<bool>)
    reads w, pt, pt.progressMap
  {
    0 <= wr <= |buf| && |d0| == w.size && w.data == Overlay(d0, absStart * 512, buf[..wr])
    && (wr > 0 ==> 0 <= absStart * 512 && absStart * 512 + wr <= w.size)
    && Below(m0, pt.progressMap[..])
    && (|buf| % 512 == 0 ==> wr == 512 * ws && pt.progressMap[..] == Marked(m0, absStart, absStart + ws))
  }

  /** No poll from number `p0` on has seen the stop request. */
  predicate Quiet(stop: StopSignal, p0: int, polls: int) {
    p0 <= polls && forall k :: p0 <= k < polls ==> !stop.Raised(k)
  }

  /**
   * One pass of the span writers' loop: write the next chunk (at most
   * 1 MiB), then poll the stop request. A failed write returns at once,
   * before the poll; a stop request returns after the chunk has landed.
   */
  method SpanStep(w: Disk, absStart: int, buf: seq<Byte>, wr: int, pt: ProgressTracker, stop: StopSignal,
                  ghost ws: int, ghost d0: seq<Byte>, ghost m0: seq<bool>)
    returns (err: Option<IoError>, wr': int, ghost ws': int)
    requires w.Valid() && pt.Valid() && wr < |buf|
    requires Spanned(w, pt, absStart, buf, wr, ws, d0, m0)
    modifies w, pt, pt.progressMap, stop
    ensures w.Valid() && pt.Valid() && w.syncs == old(w.syncs)
    ensures Spanned(w, pt, absStart, buf, wr', ws', d0, m0) && wr <= wr'
    ensures err.None? ==> wr < wr' && stop.polls == old(stop.polls) + 1 && !stop.Raised(old(stop.polls))
    ensures err.Some? ==> err.value == WriteError(absStart * 512 + wr) || err.value == Interrupted
    ensures err.Some? && err.value.WriteError? ==>
      wr' == wr && !w.CanWrite(absStart * 512 + wr, Min(Chunk, |buf| - wr)) && stop.polls == old(stop.polls)
    ensures err == Some(Interrupted) ==> stop.polls == old(stop.polls) + 1 && stop.Raised(old(stop.polls))
  {
    var n := Min(|buf| - wr, Chunk);
    var ok;
    ok, ws' := PutChunk(w, absStart, buf, wr, n, pt, d0, m0, ws);
    if !ok {
      return Some(WriteError(absStart * 512 + wr)), wr, ws;
    }
    var stopped := stop.IsStopped();
    wr' := wr + n;
    err := if stopped then Some(Interrupted) else None;
  }

  /**
   * main.go `writeSpanWithStatus`: writes `buf` from sector `absStart` on in
   * chunks of at most 1 MiB, marking each chunk's sectors (at least one) and
   * polling the stop request after each chunk. `done` is how many bytes of
   * `buf` reached the store.
   */
  method WriteSpan(w: Disk, absStart: int, buf: seq<Byte>, pt: ProgressTracker, stop: StopSignal)
    returns (err: Option<IoError>, ghost done: nat)
    requires w.Valid() && pt.Valid()
    modifies w, pt, pt.progressMap, stop
    ensures pt.Valid()
    ensures done <= |buf|
    ensures w.data == Overlay(old(w.data), absStart * 512, buf[..done])
    ensures w.Valid() && w.syncs == old(w.syncs)
    ensures err.None? ==> done == |buf|
    ensures err.Some? ==> err.value == WriteError(absStart * 512 + done) || err.value == Interrupted
    ensures err.Some? && err.value.WriteError? ==>
      done < |buf| && !w.CanWrite(absStart * 512 + done, Min(Chunk, |buf| - done))
    ensures err == Some(Interrupted) <==> stop.polls > old(stop.polls) && stop.Raised(stop.polls - 1)
    ensures forall k :: old(stop.polls) <= k < stop.polls - 1 ==> !stop.Raised(k)
    ensures stop.polls >= old(stop.polls)
    ensures Below(old(pt.progressMap[..]), pt.progressMap[..])
    ensures |buf| % 512 == 0 ==> done % 512 == 0
    ensures |buf| % 512 == 0 ==> pt.progressMap[..] == Marked(old(pt.progressMap[..]), absStart, absStart + done / 512)
    ensures done > 0 ==> 0 <= absStart * 512 && absStart * 512 + done <= w.size
  {
    var wr := 0;
    ghost var ws := 0;
    ghost var d0, m0 := w.data, pt.progressMap[..];
    err := None;
    OverlayEmpty(w.data, absStart * 512);
    while wr < |buf| && err.None?
      invariant w.Valid() && pt.Valid() && w.syncs == old(w.syncs)
      invariant Spanned(w, pt, absStart, buf, wr, ws, d0, m0)
      invariant old(stop.polls) <= stop.polls
      invariant forall k :: old(stop.polls) <= k < stop.polls - 1 ==> !stop.Raised(k)
      invariant err.None? ==> forall k :: old(stop.polls) <= k < stop.polls ==> !stop.Raised(k)
      invariant err.Some? ==> err.value == WriteError(absStart * 512 + wr) || err.value == Interrupted
      invariant err.Some? && err.value.WriteError? ==>
        wr < |buf| && !w.CanWrite(absStart * 512 + wr, Min(Chunk, |buf| - wr))
      invariant err == Some(Interrupted) <==> stop.polls > old(stop.polls) && stop.Raised(stop.polls - 1)
      decreases |buf| - wr, if err.None? then 1 else 0
    {
      err, wr, ws := SpanStep(w, absStart, buf, wr, pt, stop, ws, d0, m0);
    }
    if |buf| % 512 == 0 {
      SectorBytes(wr, ws);
    }
    done := wr;
  }

  /** A byte count of `n` whole sectors. */
  lemma SectorBytes(bytes: int, n: int)
    requires bytes == 512 * n
    ensures bytes % 512 == 0 && bytes / 512 == n
  {
  }

  /**
   * main.go `zeroSpanWithStatus`: zeroes `sectors` sectors from `absStart`
   * on. Go runs the same chunk loop as `writeSpanWithStatus` over a reused
   * zero buffer; here it is that loop over a buffer of zeros.
   */
  method ZeroSpan(w: Disk, absStart: int, sectors: int, pt: ProgressTracker, stop: StopSignal)
    returns (err: Option<IoError>, ghost done: nat)
    requires w.Valid() && pt.Valid()
    modifies w, pt, pt.progressMap, stop
    ensures pt.Valid()
    ensures done <= Max(0, sectors) * 512 && done % 512 == 0
    ensures w.data == Overlay(old(w.data), absStart * 512, Zeros(done))
    ensures w.Valid() && w.syncs == old(w.syncs)
    ensures err.None? ==> done == Max(0, sectors) * 512
    ensures err.Some? ==> err.value == WriteError(absStart * 512 + done) || err.value == Interrupted
    ensures err.Some? && err.value.WriteError? ==>
      done < Max(0, sectors) * 512 && !w.CanWrite(absStart * 512 + done, Min(Chunk, Max(0, sectors) * 512 - done))
    ensures err == Some(Interrupted) <==> stop.polls > old(stop.polls) && stop.Raised(stop.polls - 1)
    ensures forall k :: old(stop.polls) <= k < stop.polls - 1 ==> !stop.Raised(k)
    ensures stop.polls >= old(stop.polls)
    ensures pt.progressMap[..] == Marked(old(pt.progressMap[..]), absStart, absStart + done / 512)
    ensures done > 0 ==> 0 <= absStart * 512 && absStart * 512 + done <= w.size
  {
    var zeros := Zeros(Max(0, sectors) * 512);
    err, done := WriteSpan(w, absStart, zeros, pt, stop);
    assert zeros[..done] == Zeros(done);
  }

  /** The byte `checkBadSector` fills a sector with: the sector number's low byte. */
  function PatternByte(sector: int): Byte {
    sector % 256
  }

  function Pattern(sector: int): (p: seq<Byte>)
    ensures |p| == 512 && forall i :: 0 <= i < 512 ==> p[i] == PatternByte(sector)
  {
    seq(512, _ => PatternByte(sector))
  }

  /** A sector `checkBadSector` accepts: it takes a write, reads back, and reads back what was written. */
  predicate Healthy(w: Disk, sector: int) {
    w.CanWrite(sector * 512, 512) && w.CanRead(sector * 512, 512) && sector !in w.defective
  }

  /** The verdict of `checkBadSector` on a sector, by the first test it fails. */
  function SectorVerdict(w: Disk, sector: int): (r: Option<IoError>)
    ensures r.None? <==> Healthy(w, sector)
  {
    if !w.CanWrite(sector * 512, 512) then Some(BadSector(sector, WriteFailed))
    else if !w.CanRead(sector * 512, 512) then Some(BadSector(sector, ReadFailed))
    else if sector in w.defective then Some(BadSector(sector, Mismatch))
    else None
  }

  /**
   * main.go `checkBadSector`: fills the sector with its pattern byte, reads
   * it back and compares byte by byte.
   */
  method CheckBadSector(w: Disk, sector: int) returns (err: Option<IoError>)
    requires w.Valid()
    modifies w
    ensures w.Valid() && w.syncs == old(w.syncs)
    ensures w.data == if w.CanWrite(sector * 512, 512) then Overlay(old(w.data), sector * 512, Pattern(sector)) else old(w.data)
    ensures err == SectorVerdict(w, sector)
  {
    var pattern := Pattern(sector);
    var offset := sector * 512;
    var ok := w.WriteAt(pattern, offset);
    if !ok {
      return Some(BadSector(sector, WriteFailed));
    }
    var verify, readOk := w.ReadAt(512, offset);
    if !readOk {
      return Some(BadSector(sector, ReadFailed));
    }
    OverlayAt(old(w.data), offset, pattern);
    assert forall i :: 0 <= i < 512 ==> w.data[offset + i] == pattern[i];
    var i := 0;
    while i < 512
      invariant 0 <= i <= 512
      invariant forall j :: 0 <= j < i ==> pattern[j] == verify[j]
    {
      if pattern[i] != verify[i] {
        SectorOfByte(sector, i);
        assert verify[i] == Stored(w.data, w.defective, offset + i) && w.data[offset + i] == pattern[i];
        return Some(BadSector(sector, Mismatch));
      }
      i := i + 1;
    }
    SectorOfByte(sector, 0);
    assert verify[0] == Stored(w.data, w.defective, offset) && w.data[offset] == pattern[0];
    return None;
  }

  /**
   * The store during a full format of the sectors from `lo` on: the first
   * `c` hold their pattern, those up to `z` hold zeros, everything else is
   * as in `s`.
   */
  function Scanned(s: seq<Byte>, lo: int, c: nat, z: nat): (r: seq<Byte>)
    ensures |r| == |s|
  {
    seq(|s|, i requires 0 <= i < |s| => ScannedByte(s, lo, c, z, i))
  }

  function ScannedByte(s: seq<Byte>, lo: int, c: nat, z: nat, i: int): Byte
    requires 0 <= i < |s|
  {
    if lo * 512 <= i < (lo + c) * 512 then PatternByte(i / 512)
    else if (lo + c) * 512 <= i < (lo + z) * 512 then 0
    else s[i]
  }

  lemma ScannedStart(s: seq<Byte>, lo: int)
    ensures Scanned(s, lo, 0, 0) == s
  {
  }

  /** Zeroing the `k` sectors after the scanned ones. */
  lemma ScannedZeros(s: seq<Byte>, lo: int, c: nat, k: nat)
    requires 0 <= (lo + c) * 512 && (lo + c + k) * 512 <= |s|
    ensures Overlay(Scanned(s, lo, c, c), (lo + c) * 512, Zeros(k * 512)) == Scanned(s, lo, c, c + k)
  {
    OverlayAt(Scanned(s, lo, c, c), (lo + c) * 512, Zeros(k * 512));
  }

  /** Checking the next zeroed sector leaves its pattern in it. */
  lemma ScannedPattern(s: seq<Byte>, lo: int, c: nat, z: nat)
    requires c < z && 0 <= (lo + c) * 512 && (lo + z) * 512 <= |s|
    ensures Overlay(Scanned(s, lo, c, z), (lo + c) * 512, Pattern(lo + c)) == Scanned(s, lo, c + 1, z)
  {
    var t := Overlay(Scanned(s, lo, c, z), (lo + c) * 512, Pattern(lo + c));
    OverlayAt(Scanned(s, lo, c, z), (lo + c) * 512, Pattern(lo + c));
    forall i | (lo + c) * 512 <= i < (lo + c + 1) * 512
      ensures i / 512 == lo + c
    {
      SectorOfByte(lo + c, i - (lo + c) * 512);
    }
    assert forall i :: 0 <= i < |s| ==> t[i] == Scanned(s, lo, c + 1, z)[i];
  }

  /**
   * The sectors of [lo, hi) that `checkBadSector` rejects, in increasing
   * order: the list `fullFormatDataArea` reports.
   */
  function BadIn(w: Disk, lo: int, hi: int): seq<int>
    decreases hi - lo
  {
    if hi <= lo then [] else BadIn(w, lo, hi - 1) + (if Healthy(w, hi - 1) then [] else [hi - 1])
  }

  /** A write that succeeds over a range succeeds over each sector inside it. */
  lemma WritableInside(w: Disk, first: int, secs: int, t: int)
    requires w.CanWrite(first * 512, secs * 512) && first <= t < first + secs
    ensures w.CanWrite(t * 512, 512)
  {
    TouchesSector(w.writeFails, t);
    if t in w.writeFails {
      SectorOfByte(first, 0);
      SectorOfByte(first + secs - 1, 511);
      assert first * 512 + secs * 512 - 1 == (first + secs - 1) * 512 + 511;
      AnyInHas(w.writeFails, first, first + secs - 1, t);
    }
  }

  /**
   * The body of the scan after the stop poll: check sector `first + i`,
   * the `c + i`-th of the area starting at `lo`, append it to `bad` when it
   * fails, and mark it. The chunk [first, first + secs) was just zeroed.
   */
  method CheckAndMark(w: Disk, first: int, i: int, secs: int, pt: ProgressTracker, bad: seq<int>,
                      ghost lo: int, ghost c: nat, ghost d0: seq<Byte>, ghost m0: seq<bool>)
    returns (bad': seq<int>)
    requires w.Valid() && pt.Valid()
    requires first == lo + c && 0 <= i < secs && 0 <= first * 512 && w.CanWrite(first * 512, secs * 512)
    requires |d0| == w.size && w.data == Scanned(d0, lo, c + i, c + secs)
    requires bad == BadIn(w, lo, first + i)
    requires pt.progressMap[..] == Marked(m0, lo, first + i)
    modifies w, pt, pt.progressMap
    ensures w.Valid() && pt.Valid() && w.syncs == old(w.syncs)
    ensures w.data == Scanned(d0, lo, c + i + 1, c + secs)
    ensures bad' == BadIn(w, lo, first + i + 1)
    ensures pt.progressMap[..] == Marked(m0, lo, first + i + 1)
  {
    var cs := first + i;
    WritableInside(w, first, secs, cs);
    ScannedPattern(d0, lo, c + i, c + secs);
    var e := CheckBadSector(w, cs);
    assert BadIn(w, lo, cs + 1) == bad + (if Healthy(w, cs) then [] else [cs]);
    bad' := bad;
    if e.Some? {
      bad' := bad' + [cs];
    }
    ghost var marks := pt.progressMap[..];
    pt.MarkRange(cs, 1);
    MarkNext(m0, marks, pt.progressMap[..], lo, c + i);
  }

  /**
   * The zero write that opens a pass of the outer loop of main.go
   * `fullFormatDataArea`: the `k` bytes at byte `written` of the area.
   */
  method ZeroChunk(w: Disk, absStart: int, written: int, k: int, ghost c: nat, ghost d0: seq<Byte>)
    returns (ok: bool)
    requires w.Valid()
    requires written == 512 * c && 0 < k && k % 512 == 0 && (c > 0 ==> 0 <= absStart * 512)
    requires |d0| == w.size && w.data == Scanned(d0, absStart, c, c)
    modifies w
    ensures w.Valid() && w.syncs == old(w.syncs)
    ensures ok == w.CanWrite(absStart * 512 + written, k)
    ensures !ok ==> w.data == old(w.data)
    ensures ok ==> 0 <= absStart * 512 && w.data == Scanned(d0, absStart, c, c + k / 512)
  {
    ok := w.WriteAt(Zeros(k), absStart * 512 + written);
    if ok {
      assert absStart * 512 + written == (absStart + c) * 512;
      ScannedZeros(d0, absStart, c, k / 512);
    }
  }

  /**
   * The inner loop of main.go `fullFormatDataArea` over the `secs` sectors
   * just zeroed, from sector `first` (the `c`-th of the area) on: poll the
   * stop request, check the sector, record it when bad, mark it. `j`
   * sectors were checked.
   */
  method ScanChunk(w: Disk, first: int, secs: int, pt: ProgressTracker, stop: StopSignal, bad: seq<int>,
                   ghost absStart: int, ghost c: nat, ghost d0: seq<Byte>, ghost m0: seq<bool>)
    returns (err: Option<IoError>, bad': seq<int>, ghost j: nat)
    requires w.Valid() && pt.Valid()
    requires first == absStart + c && 0 < secs && 0 <= first * 512 && w.CanWrite(first * 512, secs * 512)
    requires |d0| == w.size && w.data == Scanned(d0, absStart, c, c + secs)
    requires bad == BadIn(w, absStart, first)
    requires pt.progressMap[..] == Marked(m0, absStart, first)
    modifies w, pt, pt.progressMap, stop
    ensures w.Valid() && pt.Valid() && w.syncs == old(w.syncs)
    ensures j <= secs && w.data == Scanned(d0, absStart, c + j, c + secs)
    ensures bad' == BadIn(w, absStart, first + j)
    ensures pt.progressMap[..] == Marked(m0, absStart, first + j)
    ensures err.None? ==> j == secs
    ensures err.Some? ==> err == Some(Interrupted)
    ensures err == Some(Interrupted) <==> stop.polls > old(stop.polls) && stop.Raised(stop.polls - 1)
    ensures forall k :: old(stop.polls) <= k < stop.polls - 1 ==> !stop.Raised(k)
    ensures err.None? ==> forall k :: old(stop.polls) <= k < stop.polls ==> !stop.Raised(k)
    ensures stop.polls >= old(stop.polls)
  {
    bad' := bad;
    var i := 0;
    while i < secs
      invariant 0 <= i <= secs
      invariant w.Valid() && w.syncs == old(w.syncs) && pt.Valid()
      invariant w.data == Scanned(d0, absStart, c + i, c + secs)
      invariant bad' == BadIn(w, absStart, first + i)
      invariant pt.progressMap[..] == Marked(m0, absStart, first + i)
      invariant stop.polls == old(stop.polls) + i
      invariant forall k :: old(stop.polls) <= k < stop.polls ==> !stop.Raised(k)
    {
      var stopped := stop.IsStopped();
      if stopped {
        return Some(Interrupted), bad', i;
      }
      bad' := CheckAndMark(w, first, i, secs, pt, bad', absStart, c, d0, m0);
      i := i + 1;
    }
    return None, bad', i;
  }

  /**
   * The full format's state after its first `c` sectors, every chunk so far
   * zeroed and checked: the store, the bad sectors found and the map.
   */
  predicate ScanState(w: Disk, data: seq<Byte>, marks: seq<bool>, absStart: int, c: nat, bad: seq<int>,
                      d0: seq<Byte>, m0: seq<bool>)
  {
    |d0| == w.size && data == Scanned(d0, absStart, c, c) && bad == BadIn(w, absStart, absStart + c)
    && marks == Marked(m0, absStart, absStart + c)
  }

  /**
   * main.go `fullFormatDataArea`: zeroes the `sectors` sectors from
   * `absStart` on chunk by chunk and, after each chunk, checks each of its
   * sectors, collecting the bad ones without stopping. `scanned` counts the
   * sectors checked and `zeroed` those zeroed.
   */
  method FullFormatDataArea(w: Disk, absStart: int, sectors: int, pt: ProgressTracker, stop: StopSignal)
    returns (err: Option<IoError>, ghost scanned: nat, ghost zeroed: nat)
    requires w.Valid() && pt.Valid()
    modifies w, pt, pt.progressMap, stop
    ensures w.Valid() && pt.Valid() && w.syncs == old(w.syncs)
    ensures scanned <= zeroed <= Max(0, sectors)
    ensures w.data == Scanned(old(w.data), absStart, scanned, zeroed)
    ensures pt.progressMap[..] == Marked(old(pt.progressMap[..]), absStart, absStart + scanned)
    ensures err.Some? ==> err.value.WriteError? || err.value == Interrupted || err.value.BadSectors?
    ensures err.Some? && err.value.WriteError? ==>
      scanned == zeroed < sectors && err.value.offset == (absStart + zeroed) * 512
      && !w.CanWrite((absStart + zeroed) * 512, Min(Chunk, (sectors - zeroed) * 512))
    ensures err == Some(Interrupted) <==> stop.polls > old(stop.polls) && stop.Raised(stop.polls - 1)
    ensures forall k :: old(stop.polls) <= k < stop.polls - 1 ==> !stop.Raised(k)
    ensures !Aborted(err) ==> scanned == Max(0, sectors)
    ensures !Aborted(err) ==> err == BadVerdict(BadIn(w, absStart, absStart + scanned))
  {
    var written := 0;
    var bytes := sectors * 512;
    var badSectors: seq<int> := [];
    ghost var c: nat := 0;
    ghost var d0, m0 := w.data, pt.progressMap[..];
    ScannedStart(d0, absStart);
    while written < bytes
      invariant 0 <= written && written == 512 * c && (written <= bytes || c == 0)
      invariant w.Valid() && pt.Valid() && w.syncs == old(w.syncs)
      invariant c > 0 ==> 0 <= absStart * 512
      invariant ScanState(w, w.data, pt.progressMap[..], absStart, c, badSectors, d0, m0)
      invariant Quiet(stop, old(stop.polls), stop.polls)
      decreases bytes - written
    {
      var e;
      e, badSectors, written, c, scanned, zeroed :=
        FormatPass(w, absStart, sectors, written, pt, stop, badSectors, c, d0, m0, old(stop.polls));
      if e.Some? {
        return e, scanned, zeroed;
      }
    }
    err, scanned, zeroed := BadVerdict(badSectors), c, c;
  }

  /**
   * One pass of the outer loop of main.go `fullFormatDataArea`, from byte
   * `written` of the area: either the state after one more chunk, or the
   * outcome of the whole format when the chunk failed or the user stopped.
   */
  method FormatPass(w: Disk, absStart: int, sectors: int, written: int, pt: ProgressTracker,
                    stop: StopSignal, bad: seq<int>, ghost c: nat, ghost d0: seq<Byte>, ghost m0: seq<bool>,
                    ghost p0: int)
    returns (err: Option<IoError>, bad': seq<int>, written': int, ghost c': nat, ghost scanned: nat,
             ghost zeroed: nat)
    requires w.Valid() && pt.Valid()
    requires 0 <= written == 512 * c < sectors * 512 && (c > 0 ==> 0 <= absStart * 512)
    requires ScanState(w, w.data, pt.progressMap[..], absStart, c, bad, d0, m0)
    requires Quiet(stop, p0, stop.polls)
    modifies w, pt, pt.progressMap, stop
    ensures w.Valid() && pt.Valid() && w.syncs == old(w.syncs)
    ensures err.None? ==>
      written < written' == 512 * c' <= sectors * 512 && 0 <= absStart * 512
      && ScanState(w, w.data, pt.progressMap[..], absStart, c', bad', d0, m0) && Quiet(stop, p0, stop.polls)
    ensures err.Some? ==> scanned <= zeroed <= Max(0, sectors)
    ensures err.Some? ==> w.data == Scanned(d0, absStart, scanned, zeroed)
    ensures err.Some? ==> pt.progressMap[..] == Marked(m0, absStart, absStart + scanned)
    ensures err.Some? ==> err.value.WriteError? || err.value == Interrupted
    ensures err.Some? && err.value.WriteError? ==>
      scanned == zeroed < sectors && err.value.offset == (absStart + zeroed) * 512
      && !w.CanWrite((absStart + zeroed) * 512, Min(Chunk, (sectors - zeroed) * 512))
    ensures err.Some? ==> (err == Some(Interrupted) <==> stop.polls > p0 && stop.Raised(stop.polls - 1))
    ensures err.Some? ==> forall k :: p0 <= k < stop.polls - 1 ==> !stop.Raised(k)
  {
    var k := Min(sectors * 512 - written, Chunk);
    PassArith(absStart, sectors, written, c, k);
    var ok := ZeroChunk(w, absStart, written, k, c, d0);
    if !ok {
      return Some(WriteError(absStart * 512 + written)), bad, written, c, c, c;
    }
    err, bad', written', c', scanned, zeroed := ScanPass(w, absStart, sectors, written, k, pt, stop, bad, c, d0, m0, p0);
  }

  /**
   * The second half of a pass, once the `k` bytes after byte `written` of
   * the area are zeroed: check their sectors one by one.
   */
  method ScanPass(w: Disk, absStart: int, sectors: int, written: int, k: int, pt: ProgressTracker,
                  stop: StopSignal, bad: seq<int>, ghost c: nat, ghost d0: seq<Byte>, ghost m0: seq<bool>,
                  ghost p0: int)
    returns (err: Option<IoError>, bad': seq<int>, written': int, ghost c': nat, ghost scanned: nat,
             ghost zeroed: nat)
    requires w.Valid() && pt.Valid()
    requires 0 <= written == 512 * c < sectors * 512 && k == Min(sectors * 512 - written, Chunk)
    requires 0 <= absStart * 512 && w.CanWrite(absStart * 512 + written, k)
    requires |d0| == w.size && w.data == Scanned(d0, absStart, c, c + k / 512)
    requires bad == BadIn(w, absStart, absStart + c) && pt.progressMap[..] == Marked(m0, absStart, absStart + c)
    requires Quiet(stop, p0, stop.polls)
    modifies w, pt, pt.progressMap, stop
    ensures w.Valid() && pt.Valid() && w.syncs == old(w.syncs)
    ensures err.None? ==>
      written < written' == 512 * c' <= sectors * 512
      && ScanState(w, w.data, pt.progressMap[..], absStart, c', bad', d0, m0) && Quiet(stop, p0, stop.polls)
    ensures err.Some? ==> err == Some(Interrupted) && scanned <= zeroed <= Max(0, sectors)
    ensures err.Some? ==> w.data == Scanned(d0, absStart, scanned, zeroed)
    ensures err.Some? ==> pt.progressMap[..] == Marked(m0, absStart, absStart + scanned)
    ensures err.Some? ==> stop.polls > p0 && stop.Raised(stop.polls - 1)
    ensures err.Some? ==> forall q :: p0 <= q < stop.polls - 1 ==> !stop.Raised(q)
  {
    PassArith(absStart, sectors, written, c, k);
    var secs := Max(1, k / 512);
    ghost var pc := stop.polls;
    ghost var j;
    err, bad', j := ScanChunk(w, absStart + written / 512, secs, pt, stop, bad, absStart, c, d0, m0);
    written', c' := written + k, c + secs;
    scanned, zeroed := c + j, c + secs;
    if err.Some? {
      QuietUntil(stop, p0, pc, stop.polls, true);
    } else {
      QuietThen(stop, p0, pc, stop.polls);
    }
  }

  /** The byte and sector counts of one pass of the full format agree. */
  lemma PassArith(absStart: int, sectors: int, written: int, c: nat, k: int)
    requires 0 <= written == 512 * c < sectors * 512
    requires k == Min(sectors * 512 - written, Chunk)
    ensures c < sectors && sectors * 512 - written == (sectors - c) * 512
    ensures absStart * 512 + written == (absStart + c) * 512 && written / 512 == c
    ensures 0 < k && k % 512 == 0 && Max(1, k / 512) == k / 512
    ensures c + k / 512 <= sectors && written + k == 512 * (c + k / 512)
  {
  }

  /** Polls answered "no" from `p0` up to `pc`, then a stretch whose last poll alone may have said "yes". */
  lemma QuietUntil(stop: StopSignal, p0: int, pc: int, p1: int, interrupted: bool)
    requires Quiet(stop, p0, pc) && pc <= p1
    requires forall k :: pc <= k < p1 - 1 ==> !stop.Raised(k)
    requires interrupted <==> p1 > pc && stop.Raised(p1 - 1)
    ensures forall k :: p0 <= k < p1 - 1 ==> !stop.Raised(k)
    ensures interrupted <==> p1 > p0 && stop.Raised(p1 - 1)
  {
  }

  /** Two quiet stretches in a row make one. */
  lemma QuietThen(stop: StopSignal, p0: int, pc: int, p1: int)
    requires Quiet(stop, p0, pc) && Quiet(stop, pc, p1)
    ensures Quiet(stop, p0, p1)
  {
  }

  /** The error `fullFormatDataArea` returns for the bad sectors it found. */
  function BadVerdict(bad: seq<int>): (r: Option<IoError>)
    ensures r.None? <==> bad == []
  {
    if |bad| > 0 then Some(BadSectors(bad)) else None
  }

  /**
   * A full format as the flag's help text and the comment on main.go
   * `fullFormatDataArea` describe it: the data area ends up zeroed. The
   * scan leaves each checked sector holding its pattern byte (see
   * `FullFormatLeavesPattern`); this version zeroes the area once more
   * after a scan that ran to the end, chunk by chunk as the span writers do.
   */
  method FullFormatDataAreaZeroed(w: Disk, absStart: int, sectors: int, pt: ProgressTracker, stop: StopSignal)
    returns (err: Option<IoError>)
    requires w.Valid() && pt.Valid()
    modifies w, pt, pt.progressMap, stop
    ensures w.Valid() && pt.Valid() && w.syncs == old(w.syncs)
    ensures err.Some? ==> err.value.WriteError? || err.value == Interrupted || err.value.BadSectors?
    ensures err.None? || err.value.BadSectors? ==>
      w.data == Overlay(old(w.data), absStart * 512, Zeros(Max(0, sectors) * 512))
    ensures err.None? || err.value.BadSectors? ==>
      err == BadVerdict(BadIn(w, absStart, absStart + Max(0, sectors)))
    ensures err.None? || err.value.BadSectors? ==>
      pt.progressMap[..] == Marked(old(pt.progressMap[..]), absStart, absStart + Max(0, sectors))
    ensures SamePrefix(w.data, old(w.data), absStart * 512)
  {
    ghost var d0, m0 := w.data, pt.progressMap[..];
    ghost var scanned, zeroed;
    err, scanned, zeroed := FullFormatDataArea(w, absStart, sectors, pt, stop);
    ScannedAbove(d0, absStart, scanned, zeroed);
    if Aborted(err) {
      return;
    }
    ghost var d1 := w.data;
    var e;
    ghost var done;
    e, done := ZeroSpan(w, absStart, sectors, pt, stop);
    OverlayAbove(d1, absStart * 512, Zeros(done), absStart * 512);
    SamePrefixTrans(w.data, d1, d0, absStart * 512);
    if e.Some? {
      return e;
    }
    MarkedTwice(m0, absStart, absStart + Max(0, sectors));
    if sectors > 0 {
      ScannedZeroedOver(d0, absStart, sectors);
    } else {
      ScannedStart(d0, absStart);
      OverlayEmpty(d0, absStart * 512);
    }
  }

  /** The scan writes nothing below its first sector. */
  lemma ScannedAbove(s: seq<Byte>, lo: int, c: nat, z: nat)
    ensures SamePrefix(Scanned(s, lo, c, z), s, lo * 512)
  {
  }

  /** Zeroing the whole scanned area wipes out the patterns the scan left. */
  lemma ScannedZeroedOver(s: seq<Byte>, lo: int, n: nat)
    requires 0 <= lo * 512 && (lo + n) * 512 <= |s|
    ensures Overlay(Scanned(s, lo, n, n), lo * 512, Zeros(n * 512)) == Overlay(s, lo * 512, Zeros(n * 512))
  {
    var lhs := Overlay(Scanned(s, lo, n, n), lo * 512, Zeros(n * 512));
    var rhs := Overlay(s, lo * 512, Zeros(n * 512));
    OverlayAt(Scanned(s, lo, n, n), lo * 512, Zeros(n * 512));
    OverlayAt(s, lo * 512, Zeros(n * 512));
    assert forall i :: 0 <= i < |s| ==> lhs[i] == rhs[i];
  }

  /**
   * As written, a scan that ran to the end leaves sector `lo` holding its
   * pattern byte, not zero, whenever `lo % 256 != 0`.
   */
  lemma FullFormatLeavesPattern(s: seq<Byte>, lo: int, n: nat)
    requires 0 < n && 0 <= lo * 512 && (lo + n) * 512 <= |s| && lo % 256 != 0
    ensures Scanned(s, lo, n, n)[lo * 512] == lo % 256 != 0
    ensures Scanned(s, lo, n, n) != Overlay(s, lo * 512, Zeros(n * 512))
  {
    SectorOfByte(lo, 0);
    OverlayAt(s, lo * 512, Zeros(n * 512));
    assert Overlay(s, lo * 512, Zeros(n * 512))[lo * 512] == 0;
  }

  /**
   * The 1.44 MB FAT12 floppy: its data area starts at sector 33 and spans
   * 2847 sectors; after a full format its first byte is 33, not 0.
   */
  lemma FullFormatFloppyExample(s: seq<Byte>)
    requires |s| == 2880 * 512
    ensures Scanned(s, 33, 2847, 2847)[33 * 512] == 33
  {
    FullFormatLeavesPattern(s, 33, 2847);
  }
}
