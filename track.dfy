// Track-by-track zeroing of the data area with a sync policy, and the
// one-sector-per-track read check that may follow it (main.go:2070-2112).

module Track {
  import opened Results
  import opened Bytes
  import opened Device
  import opened Progress
  import opened Writer

  /** The `--sync` policy, after Go's `strings.ToLower`. */
  datatype SyncMode = SectorSync | TrackSync | PhaseSync | NoSync | UnknownSync

  /** ASCII lower-casing of one character. */
  function LowerChar(ch: char): (r: char)
    ensures 'A' <= ch <= 'Z' ==> 'a' <= r <= 'z' && r as int == ch as int + 32
    ensures !('A' <= ch <= 'Z') ==> r == ch
  {
    if 'A' <= ch <= 'Z' then (ch as int + 32) as char else ch
  }

  function Lower(s: string): (r: string)
    ensures |r| == |s| && forall i :: 0 <= i < |s| ==> r[i] == LowerChar(s[i])
  {
    seq(|s|, i requires 0 <= i < |s| => LowerChar(s[i]))
  }

  /** The policy a `--sync` value selects; any other spelling selects none of them. */
  function ParseSyncMode(s: string): SyncMode {
    var l := Lower(s);
    if l == "sector" then SectorSync
    else if l == "track" then TrackSync
    else if l == "phase" then PhaseSync
    else if l == "none" then NoSync
    else UnknownSync
  }

  /** Case does not matter: the upper-case spelling selects the same policy. */
  lemma ParseSyncModeIgnoresCase()
    ensures ParseSyncMode("TRACK") == TrackSync && ParseSyncMode("Phase") == PhaseSync
    ensures ParseSyncMode("NONE") == NoSync && ParseSyncMode("Sector") == SectorSync
    ensures ParseSyncMode("tracks") == UnknownSync
  {
    assert Lower("TRACK") == "track";
    assert Lower("Phase") == "phase";
    assert Lower("NONE") == "none";
    assert Lower("Sector") == "sector";
    assert Lower("tracks") == "tracks";
  }

  /** Sectors per track for the track loops: 18 when the geometry gives none. */
  function TrackLength(spt: int): (n: int)
    ensures n > 0 && (spt > 0 ==> n == spt) && (spt <= 0 ==> n == 18)
  {
    if spt <= 0 then 18 else spt
  }

  /** The number of tracks (the last one possibly short) that cover `n` sectors. */
  function Tracks(n: int, spt: int): nat
    requires spt > 0
    decreases n
  {
    if n <= 0 then 0 else 1 + Tracks(n - spt, spt)
  }

  /** `Tracks` is the ceiling of `n / spt`: the tracks cover `n` and one fewer would not. */
  lemma {:induction false} TracksCeiling(n: int, spt: int)
    requires spt > 0 && n > 0
    ensures (Tracks(n, spt) - 1) * spt < n <= Tracks(n, spt) * spt
    decreases n
  {
    if n > spt {
      TracksCeiling(n - spt, spt);
      var t := Tracks(n - spt, spt);
      assert (t + 1) * spt == t * spt + spt;
    }
  }

  /** `w` is a whole number of tracks of `spt` sectors. */
  predicate Aligned(w: int, spt: int)
    requires spt > 0
    decreases w
  {
    w == 0 || (w >= spt && Aligned(w - spt, spt))
  }

  /** One more track written, whole or the short last one, is one more track counted. */
  lemma {:induction false} TrackStep(w: int, c: int, spt: int)
    requires spt > 0 && Aligned(w, spt) && 0 < c <= spt
    ensures Tracks(w + c, spt) == Tracks(w, spt) + 1
    ensures c == spt ==> Aligned(w + c, spt)
    decreases w
  {
    if w > 0 {
      TrackStep(w - spt, c, spt);
    }
  }

  /** Multiplying by a non-negative number keeps the order. */
  lemma MulLe(x: int, y: int, m: int)
    requires x <= y && 0 <= m
    ensures x * m <= y * m
  {
    assert y * m - x * m == (y - x) * m;
  }

  /** How many times `fullFormatTrack` syncs when it runs to the end. */
  function TrackSyncs(mode: SyncMode, sectors: int, spt: int): nat
    requires spt > 0
  {
    (if mode == TrackSync || mode == PhaseSync then Tracks(sectors, spt) else 0) + (if mode == PhaseSync then 1 else 0)
  }

  /** The zeros of a longer run, cut in two, are the zeros of each part. */
  lemma ZerosSplit(k: nat, n: nat)
    ensures Zeros(k + n)[..k] == Zeros(k) && Zeros(k + n)[k..k + n] == Zeros(n) && Zeros(k + n)[..k + n] == Zeros(k + n)
  {
  }

  /**
   * Zeroing `n` bytes at `off2`, right after `k` bytes already zeroed from
   * `base`, leaves `tot` zeroed bytes from `base`.
   */
  lemma ZerosAppend(s0: seq<Byte>, prev: seq<Byte>, base: int, k: nat, off2: int, n: nat, tot: nat)
    requires off2 == base + k && tot == k + n && (k > 0 ==> 0 <= base)
    requires n > 0 ==> 0 <= off2 && off2 + n <= |s0|
    requires prev == Overlay(s0, base, Zeros(k))
    ensures Overlay(prev, off2, Zeros(n)) == Overlay(s0, base, Zeros(tot))
  {
    if n > 0 {
      ZerosSplit(k, n);
      OverlayChunk(s0, prev, base, Zeros(k + n), k, n);
      assert Overlay(prev, base + k, Zeros(n)) == Overlay(s0, base, Zeros(k + n));
    } else {
      assert Zeros(n) == [];
      OverlayEmpty(prev, off2);
    }
  }

  /**
   * The first `written` sectors from `absStart` are zeroed on the store and
   * marked done on the progress map, and nothing else changed since `d0`
   * and `m0`.
   */
  predicate Zeroed(data: seq<Byte>, marks: seq<bool>, absStart: int, written: int, d0: seq<Byte>, m0: seq<bool>) {
    0 <= written && data == Overlay(d0, absStart * 512, Zeros(written * 512))
    && (written > 0 ==> 0 <= absStart * 512 && (absStart + written) * 512 <= |d0|)
    && marks == Marked(m0, absStart, absStart + written)
  }

  /**
   * One track of `fullFormatTrack`: the span write of `chunk` sectors that
   * follow the `written` already zeroed, then `file.Sync()` when `sync`
   * asks for it and the write went through. What held for the first
   * `written` sectors then holds for the first `written + ds`, and no stop
   * request was seen since poll `p0` unless this write was interrupted.
   */
  method ZeroTrack(w: Disk, absStart: int, written: int, chunk: int, sync: bool, pt: ProgressTracker, stop: StopSignal,
                   ghost d0: seq<Byte>, ghost m0: seq<bool>, ghost p0: int)
    returns (err: Option<IoError>, ghost ds: nat)
    requires w.Valid() && pt.Valid() && 0 < chunk
    requires |d0| == w.size && Zeroed(w.data, pt.progressMap[..], absStart, written, d0, m0)
    requires Quiet(stop, p0, stop.polls)
    modifies w, pt, pt.progressMap, stop
    ensures w.Valid() && pt.Valid()
    ensures ds <= chunk && (err.None? ==> ds == chunk)
    ensures Zeroed(w.data, pt.progressMap[..], absStart, written + ds, d0, m0)
    ensures w.syncs == old(w.syncs) + (if err.None? && sync then 1 else 0)
    ensures err.Some? ==> err.value == WriteError((absStart + (written + ds)) * 512) || err.value == Interrupted
    ensures err == Some(Interrupted) <==> stop.polls > old(stop.polls) && stop.Raised(stop.polls - 1)
    ensures p0 <= stop.polls && forall k :: p0 <= k < stop.polls - 1 ==> !stop.Raised(k)
    ensures err.None? ==> Quiet(stop, p0, stop.polls)
  {
    ghost var prev := w.data;
    ghost var d;
    err, d := ZeroSpan(w, absStart + written, chunk, pt, stop);
    ds := d / 512;
    ZerosAppend(d0, prev, absStart * 512, written * 512, (absStart + written) * 512, d, (written + ds) * 512);
    assert absStart + written + d / 512 == absStart + (written + ds);
    MarkedJoin(m0, absStart, absStart + written, absStart + (written + ds));
    if err.None? {
      SyncWhen(w, sync);
    }
  }

  /** `file.Sync()` when the policy asks for one here. */
  method SyncWhen(w: Disk, cond: bool)
    requires w.Valid()
    modifies w
    ensures w.Valid() && w.data == old(w.data) && w.syncs == old(w.syncs) + (if cond then 1 else 0)
  {
    if cond {
      w.Sync();
    }
  }

  /**
   * The track loop of `fullFormatTrack`: zeroes `sectors` sectors from
   * `absStart` on, `n` sectors per span write, syncing after each track
   * when `perTrack`. The first failing span write ends it.
   */
  method ZeroTracks(w: Disk, absStart: int, sectors: int, n: int, perTrack: bool, pt: ProgressTracker, stop: StopSignal)
    returns (err: Option<IoError>, ghost done: nat)
    requires w.Valid() && pt.Valid() && n > 0
    modifies w, pt, pt.progressMap, stop
    ensures w.Valid() && pt.Valid()
    ensures done <= Max(0, sectors) && (err.None? ==> done == Max(0, sectors))
    ensures Zeroed(w.data, pt.progressMap[..], absStart, done, old(w.data), old(pt.progressMap[..]))
    ensures err.None? ==> w.syncs == old(w.syncs) + (if perTrack then Tracks(sectors, n) else 0)
    ensures err.Some? ==> err.value == WriteError((absStart + done) * 512) || err.value == Interrupted
    ensures err == Some(Interrupted) <==> stop.polls > old(stop.polls) && stop.Raised(stop.polls - 1)
    ensures forall k :: old(stop.polls) <= k < stop.polls - 1 ==> !stop.Raised(k)
  {
    var written := 0;
    ghost var tracks := 0;
    ghost var d0, m0, s0 := w.data, pt.progressMap[..], w.syncs;
    OverlayEmpty(d0, absStart * 512);
    while written < sectors
      invariant TrackCount(written, sectors, n, tracks)
      invariant w.Valid() && pt.Valid() && |d0| == w.size && Zeroed(w.data, pt.progressMap[..], absStart, written, d0, m0)
      invariant w.syncs == s0 + (if perTrack then tracks else 0)
      invariant Quiet(stop, old(stop.polls), stop.polls)
    {
      var chunk := Min(n, sectors - written);
      var e;
      ghost var ds;
      e, ds := ZeroTrack(w, absStart, written, chunk, perTrack, pt, stop, d0, m0, old(stop.polls));
      if e.Some? {
        return e, written + ds;
      }
      TrackCountStep(written, sectors, n, tracks);
      written := written + chunk;
      tracks := tracks + 1;
    }
    TrackCountEnd(written, sectors, n, tracks);
    return None, written;
  }

  /**
   * The track loop after `tracks` tracks: `written` sectors, a whole number
   * of tracks unless the short last one ended the area.
   */
  predicate TrackCount(written: int, sectors: int, n: int, tracks: int)
    requires n > 0
  {
    0 <= written && (written <= sectors || written == 0) && (Aligned(written, n) || written == sectors)
    && tracks == Tracks(written, n)
  }

  lemma TrackCountStep(written: int, sectors: int, n: int, tracks: int)
    requires n > 0 && written < sectors && TrackCount(written, sectors, n, tracks)
    ensures TrackCount(written + Min(n, sectors - written), sectors, n, tracks + 1)
  {
    TrackStep(written, Min(n, sectors - written), n);
  }

  lemma TrackCountEnd(written: int, sectors: int, n: int, tracks: int)
    requires n > 0 && written >= sectors && TrackCount(written, sectors, n, tracks)
    ensures written == Max(0, sectors) && tracks == Tracks(sectors, n)
  {
    if written != sectors {
      assert written == 0 && sectors <= 0;
      assert Tracks(sectors, n) == 0 == Tracks(written, n);
    }
  }

  /**
   * main.go `fullFormatTrack`: zeroes `sectors` sectors from `absStart` on,
   * one track of `spt` sectors (18 when not positive) per span write, and
   * syncs after each track under the `track` and `phase` policies and once
   * more at the end under `phase`. The first failing span write ends it.
   */
  method FullFormatTrack(w: Disk, absStart: int, sectors: int, spt: int, pt: ProgressTracker, stop: StopSignal, mode: SyncMode)
    returns (err: Option<IoError>, ghost done: nat)
    requires w.Valid() && pt.Valid()
    modifies w, pt, pt.progressMap, stop
    ensures w.Valid() && pt.Valid()
    ensures done <= Max(0, sectors)
    ensures w.data == Overlay(old(w.data), absStart * 512, Zeros(done * 512))
    ensures pt.progressMap[..] == Marked(old(pt.progressMap[..]), absStart, absStart + done)
    ensures err.None? ==> done == Max(0, sectors)
    ensures err.None? ==> w.syncs == old(w.syncs) + TrackSyncs(mode, sectors, TrackLength(spt))
    ensures err.Some? ==> err.value == WriteError((absStart + done) * 512) || err.value == Interrupted
    ensures err == Some(Interrupted) <==> stop.polls > old(stop.polls) && stop.Raised(stop.polls - 1)
    ensures forall k :: old(stop.polls) <= k < stop.polls - 1 ==> !stop.Raised(k)
  {
    err, done := ZeroTracks(w, absStart, sectors, TrackLength(spt), mode == TrackSync || mode == PhaseSync, pt, stop);
    if err.None? {
      SyncWhen(w, mode == PhaseSync);
    }
  }

  /** Whether the first sector of track `t` of the area reads back. */
  predicate TrackReadable(w: Disk, absStart: int, spt: int, t: int) {
    w.CanRead((absStart + t * spt) * 512, 512)
  }

  /**
   * The verdict of a one-sector-per-track read over tracks [t, n): the read
   * error at the first track whose first sector does not read, or none.
   */
  function FirstUnreadable(w: Disk, absStart: int, spt: int, t: int, n: int): Option<IoError>
    decreases n - t
  {
    if t >= n then None
    else if !TrackReadable(w, absStart, spt, t) then Some(ReadError((absStart + t * spt) * 512))
    else FirstUnreadable(w, absStart, spt, t + 1, n)
  }

  /** The check finds nothing exactly when every track's first sector reads. */
  lemma {:induction false} FirstUnreadableNone(w: Disk, absStart: int, spt: int, t: int, n: int)
    ensures FirstUnreadable(w, absStart, spt, t, n).None? <==>
      forall u :: t <= u < n ==> TrackReadable(w, absStart, spt, u)
    decreases n - t
  {
    if t < n {
      FirstUnreadableNone(w, absStart, spt, t + 1, n);
    }
  }

  /** A reported error names a track of the range that does not read, and only those before it read. */
  lemma {:induction false} FirstUnreadableSome(w: Disk, absStart: int, spt: int, t: int, n: int)
    ensures FirstUnreadable(w, absStart, spt, t, n).Some? ==>
      exists u :: t <= u < n && !TrackReadable(w, absStart, spt, u)
        && FirstUnreadable(w, absStart, spt, t, n) == Some(ReadError((absStart + u * spt) * 512))
        && forall v :: t <= v < u ==> TrackReadable(w, absStart, spt, v)
    decreases n - t
  {
    if t < n && TrackReadable(w, absStart, spt, t) {
      FirstUnreadableSome(w, absStart, spt, t + 1, n);
    }
  }

  /**
   * main.go `verifyTrackRead`: reads the first sector of every track of the
   * `sectors` sectors from `absStart` on and stops at the first read error.
   */
  method VerifyTrackRead(w: Disk, absStart: int, sectors: int, spt: int) returns (err: Option<IoError>)
    requires w.Valid()
    ensures err == FirstUnreadable(w, absStart, TrackLength(spt), 0, Tracks(sectors, TrackLength(spt)))
  {
    var n := TrackLength(spt);
    var off := 0;
    ghost var t := 0;
    TrackBound(sectors, n, 0);
    while off < sectors
      invariant 0 <= t && off == t * n
      invariant off < sectors ==> t < Tracks(sectors, n)
      invariant off >= sectors ==> t == Tracks(sectors, n)
      invariant FirstUnreadable(w, absStart, n, 0, Tracks(sectors, n)) == FirstUnreadable(w, absStart, n, t, Tracks(sectors, n))
      decreases sectors - off
    {
      var buf, ok := w.ReadAt(512, (absStart + off) * 512);
      if !ok {
        return Some(ReadError((absStart + off) * 512));
      }
      TrackBound(sectors, n, t + 1);
      assert (t + 1) * n == t * n + n;
      off := off + n;
      t := t + 1;
    }
    return None;
  }

  /** Track `t` starts inside the area exactly when it is one of its `Tracks`. */
  lemma TrackBound(sectors: int, spt: int, t: nat)
    requires spt > 0
    ensures t * spt < sectors <==> t < Tracks(sectors, spt)
  {
    if sectors > 0 {
      TracksCeiling(sectors, spt);
      var k := Tracks(sectors, spt);
      if t < k {
        MulLe(t, k - 1, spt);
      } else {
        MulLe(k, t, spt);
      }
    }
  }
}
