// The FAT-size fixed-point loop and the cluster-count rules of the
// Microsoft FAT specification ("FAT Type Determination"), as main.go
// `computeLayout` implements them in uint32 arithmetic, and the absolute
// sector ranges of the system area.

module Layout {
  import opened Bytes
  import opened Results
  import opened Geometry

  /** What `computeLayout` returns on success. */
  datatype Layout = Layout(fatSectors: U32, rootDirSectors: U32, dataSectors: U32, clusters: U32)

  datatype LayoutError =
    | TooFewReserved                            // "FAT32 requires >= 32 reserved sectors"
    | NoDataSectors                             // "dataSectors<=0"
    | TooFewClusters32(clusters: U32)           // "clusters=%d too small for FAT32"
    | InvalidClusters(ft: FatType, clusters: U32) // "clusters=%d invalid for FAT12/FAT16"
    | DivideByZero                              // Go's run-time panic on a zero divisor

  /** The values one pass of the loop computes. */
  datatype Pass = Pass(fat: U32, data: U32, clusters: U32)

  /** How the bounded loop ends: after a pass (converged or not), or by an early return. */
  datatype LoopEnd = Finished(last: Pass) | Aborted(error: LayoutError)

  const MaxPasses: nat := 8
  const Fat12MaxClusters: int := 4084
  const Fat16MinClusters: int := 4085
  const Fat16MaxClusters: int := 65524
  const Fat32MinClusters: int := 65525

  /** Sectors of the fixed root directory: 32-byte entries rounded up to whole sectors. */
  function RootDirSectors(g: Geom): U32
    requires g.bytesPerSector != 0
  {
    (g.rootEntries * 32 + ToU16(g.bytesPerSector - 1)) / g.bytesPerSector
  }

  /** The FAT size a pass starts from: the 16-bit field, or the 32-bit field with 0 read as 1. */
  function CandidateFat(ft: FatType, g: Geom): U32 {
    if ft == FAT32 then (if g.sectorsPerFAT32 == 0 then 1 else g.sectorsPerFAT32)
    else g.sectorsPerFAT16
  }

  /** Stores the next candidate, truncated to the field's width. */
  function WithFat(ft: FatType, g: Geom, need: U32): Geom {
    if ft == FAT32 then g.(sectorsPerFAT32 := need) else g.(sectorsPerFAT16 := ToU16(need))
  }

  /**
   * Data sectors left after the reserved area, the FAT copies and the root
   * directory, in wrapping uint32 arithmetic (Go evaluates each `-` and the
   * product modulo 2^32, which gives the same value as one final reduction).
   */
  function DataFor(g: Geom, total: U32, root: U32, fat: U32): U32 {
    ToU32(total - g.reservedSectors - g.numFATs * fat - root)
  }

  /** Whole clusters in the data area. */
  function ClusterCount(data: U32, spc: Byte): U32
    requires spc != 0
  {
    data / spc
  }

  /** The FAT sectors needed to hold an entry for every cluster plus the two reserved entries. */
  function FatSectorsNeeded(ft: FatType, clusters: U32, bps: U16): U32
    requires bps != 0
  {
    var rounded := ToU32(FatBytesNeeded(ft, clusters) + bps - 1);
    QuotientAtMost(rounded, bps);
    rounded / bps
  }

  /** The bytes of one FAT: 12, 16 or 32 bits per entry, in uint32 arithmetic. */
  function FatBytesNeeded(ft: FatType, clusters: U32): U32 {
    var entries := ToU32(clusters + 2);
    match ft
    case FAT12 => ToU32(ToU32(entries * 3) + 1) / 2
    case FAT16 => ToU32(entries * 2)
    case FAT32 => ToU32(entries * 4)
  }

  /**
   * The guard that ends the loop with "dataSectors<=0". As written it tests
   * the wrapped uint32 value against zero; `checked` is the signed test the
   * guard evidently intends.
   */
  predicate NoData(g: Geom, total: U32, root: U32, fat: U32, checked: bool) {
    if checked then total - g.reservedSectors - g.numFATs * fat - root <= 0
    else DataFor(g, total, root, fat) == 0
  }

  /**
   * Passes i, i+1, ... of the fixed-point loop (at most MaxPasses in all).
   * `last` holds the values of the previous pass, which is what the code
   * goes on with when the eighth pass still has not converged.
   */
  function Iterate(ft: FatType, g: Geom, total: U32, root: U32, i: nat, last: Pass, checked: bool)
    : (Geom, LoopEnd)
    requires g.bytesPerSector != 0 && i <= MaxPasses
    decreases MaxPasses - i
  {
    if i == MaxPasses then (g, Finished(last))
    else
      var fat := CandidateFat(ft, g);
      var data := DataFor(g, total, root, fat);
      if NoData(g, total, root, fat, checked) then (g, Aborted(NoDataSectors))
      else if g.sectorsPerCluster == 0 then (g, Aborted(DivideByZero))
      else
        var clusters := ClusterCount(data, g.sectorsPerCluster);
        var need := FatSectorsNeeded(ft, clusters, g.bytesPerSector);
        if need == fat then (g, Finished(Pass(fat, data, clusters)))
        else Iterate(ft, WithFat(ft, g, need), total, root, i + 1, Pass(fat, data, clusters), checked)
  }

  /**
   * `computeLayout` as a function of the geometry it is given: the updated
   * geometry (the loop stores its candidates in it) and the outcome.
   * `checked` selects the signed data-sector guard and returns the FAT size
   * the last pass used; `false` is the code as written.
   */
  function LayoutOf(ft: FatType, g: Geom, checked: bool): (Geom, Result<Layout, LayoutError>) {
    if g.bytesPerSector == 0 then (g, Err(DivideByZero))
    else if ft == FAT32 && g.reservedSectors < 32 then (g, Err(TooFewReserved))
    else
      var root := if ft == FAT32 then 0 else RootDirSectors(g);
      var (g', end) := Iterate(ft, g, TotalSectors(g), root, 0, Pass(0, 0, 0), checked);
      match end
      case Aborted(e) => (g', Err(e))
      case Finished(p) =>
        if ft == FAT32 then
          if p.clusters < Fat32MinClusters then (g', Err(TooFewClusters32(p.clusters)))
          else (g', Ok(Layout(if checked then p.fat else g'.sectorsPerFAT32, 0, p.data, p.clusters)))
        else if ft == FAT12 && p.clusters > Fat12MaxClusters then (g', Err(InvalidClusters(ft, p.clusters)))
        else if ft == FAT16 && (p.clusters < Fat16MinClusters || p.clusters > Fat16MaxClusters) then
          (g', Err(InvalidClusters(ft, p.clusters)))
        else (g', Ok(Layout(p.fat, root, p.data, p.clusters)))
  }

  /** The layout with the signed data-sector guard (see README, Findings). */
  function ComputeLayoutChecked(ft: FatType, g: Geom): Result<Layout, LayoutError> {
    LayoutOf(ft, g, true).1
  }

  /** A pass whose values fit together: the data sectors left by `fat`, and the clusters they hold. */
  predicate PassConsistent(g: Geom, total: U32, root: U32, p: Pass, checked: bool) {
    p.data == DataFor(g, total, root, p.fat) && !NoData(g, total, root, p.fat, checked)
    && g.sectorsPerCluster != 0 && p.clusters == ClusterCount(p.data, g.sectorsPerCluster)
  }

  /** The loop touches only the two FAT-size fields; reserved sectors, FAT count and cluster size stay. */
  predicate SameFrame(g: Geom, h: Geom) {
    h.reservedSectors == g.reservedSectors && h.numFATs == g.numFATs
    && h.sectorsPerCluster == g.sectorsPerCluster && h.bytesPerSector == g.bytesPerSector
    && h.(sectorsPerFAT16 := g.sectorsPerFAT16, sectorsPerFAT32 := g.sectorsPerFAT32) == g
  }

  /** Whether a pass is consistent depends only on the fields the loop leaves alone. */
  lemma FrameConsistent(g: Geom, h: Geom, total: U32, root: U32, p: Pass, checked: bool)
    requires SameFrame(g, h)
    ensures PassConsistent(h, total, root, p, checked) <==> PassConsistent(g, total, root, p, checked)
  {
    assert DataFor(h, total, root, p.fat) == DataFor(g, total, root, p.fat);
  }

  /** Two stretches of the loop that each leave the frame alone leave it alone together. */
  lemma SameFrameTrans(g: Geom, h: Geom, k: Geom)
    requires SameFrame(g, h) && SameFrame(h, k)
    ensures SameFrame(g, k)
  {
  }

  /** Whatever pass the loop ends on is internally consistent. */
  lemma {:induction false} IterateConsistent(ft: FatType, g: Geom, total: U32, root: U32, i: nat,
                                             last: Pass, checked: bool)
    requires g.bytesPerSector != 0 && i <= MaxPasses
    requires i > 0 ==> PassConsistent(g, total, root, last, checked)
    ensures SameFrame(g, Iterate(ft, g, total, root, i, last, checked).0)
    ensures Iterate(ft, g, total, root, i, last, checked).1.Finished? ==>
      PassConsistent(g, total, root, Iterate(ft, g, total, root, i, last, checked).1.last, checked)
    decreases MaxPasses - i
  {
    if i < MaxPasses {
      var fat := CandidateFat(ft, g);
      var data := DataFor(g, total, root, fat);
      if !NoData(g, total, root, fat, checked) && g.sectorsPerCluster != 0 {
        var clusters := ClusterCount(data, g.sectorsPerCluster);
        var need := FatSectorsNeeded(ft, clusters, g.bytesPerSector);
        if need != fat {
          var h := WithFat(ft, g, need);
          var p := Pass(fat, data, clusters);
          FrameConsistent(g, h, total, root, p, checked);
          IterateConsistent(ft, h, total, root, i + 1, p, checked);
          var r := Iterate(ft, h, total, root, i + 1, p, checked);
          assert Iterate(ft, g, total, root, i, last, checked) == r;
          SameFrameTrans(g, h, r.0);
          if r.1.Finished? {
            FrameConsistent(g, h, total, root, r.1.last, checked);
          }
        }
      }
    }
  }

  /** q = a / b with 0 < b <= 255 and q below a bound keeps a below 255 times the bound. */
  lemma {:induction false} QuotientBound(a: nat, b: nat, k: nat)
    requires 0 < b <= 255 && a / b <= k
    ensures a < 255 * (k + 1)
  {
    var q := a / b;
    var r := a % b;
    assert a == b * q + r && r < b;
    MulBound(b, q, 255, k);
  }

  /** Dividing by a positive number never increases a natural number. */
  lemma {:induction false} QuotientAtMost(a: nat, b: nat)
    requires 0 < b
    ensures 0 <= a / b <= a
  {
    var q := a / b;
    var r := a % b;
    assert a == b * q + r && 0 <= r;
    MulBound(1, q, b, q);
  }

  /** The fixed root directory spans at most a little over two million sectors. */
  lemma {:induction false} RootDirBound(g: Geom)
    requires g.bytesPerSector != 0
    ensures RootDirSectors(g) <= 0x30_0000
  {
    QuotientAtMost(g.rootEntries * 32 + ToU16(g.bytesPerSector - 1), g.bytesPerSector);
  }

  /** A product of bounded naturals stays within the product of the bounds. */
  lemma {:induction false} MulBound(a: nat, b: nat, ka: nat, kb: nat)
    requires a <= ka && b <= kb
    ensures 0 <= a * b <= ka * kb
  {
    assert a * b <= ka * b;
    assert ka * b <= ka * kb;
  }

  /** A value above -2^25 whose 32-bit wrap is below 2^24 was not wrapped at all. */
  lemma {:induction false} WrapExact(x: int, y: int)
    requires -0x200_0000 < x < TWO32 && 0 <= y < 0x100_0000 && y == ToU32(x)
    ensures x == y
  {
  }

  /** A consistent FAT12/16 pass within the cluster limit leaves no wrapped data count. */
  lemma {:induction false} NoWrap1216(g: Geom, total: U32, root: U32, p: Pass)
    requires PassConsistent(g, total, root, p, false)
    requires p.fat < TWO16 && p.clusters <= Fat16MaxClusters && root <= 0x30_0000
    ensures g.reservedSectors + g.numFATs * p.fat + root + p.data == total
  {
    QuotientBound(p.data, g.sectorsPerCluster, Fat16MaxClusters);
    MulBound(g.numFATs, p.fat, 255, 0xFFFF);
    WrapExact(total - g.reservedSectors - g.numFATs * p.fat - root, p.data);
  }

  /**
   * For FAT12/16 the unsigned wrap cannot reach a successful result: a
   * wrapped data count is at least 2^32 - 2^25, far above what the cluster
   * limit allows, so on success the layout adds up exactly.
   */
  lemma {:induction false} Fat1216LayoutExact(ft: FatType, g: Geom)
    requires ft != FAT32 && LayoutOf(ft, g, false).1.Ok?
    ensures var l := LayoutOf(ft, g, false).1.value;
      g.reservedSectors + g.numFATs * l.fatSectors + l.rootDirSectors + l.dataSectors == TotalSectors(g)
      && l.dataSectors > 0 && g.sectorsPerCluster > 0
      && l.clusters == ClusterCount(l.dataSectors, g.sectorsPerCluster)
      && l.rootDirSectors == RootDirSectors(g)
      && (ft == FAT12 ==> l.clusters <= Fat12MaxClusters)
      && (ft == FAT16 ==> Fat16MinClusters <= l.clusters <= Fat16MaxClusters)
  {
    var root := RootDirSectors(g);
    var total := TotalSectors(g);
    var it := Iterate(ft, g, total, root, 0, Pass(0, 0, 0), false);
    IterateConsistent(ft, g, total, root, 0, Pass(0, 0, 0), false);
    FatCandidate16(ft, g, total, root, 0, Pass(0, 0, 0));
    var p := it.1.last;
    assert LayoutOf(ft, g, false).1.value == Layout(p.fat, root, p.data, p.clusters);
    RootDirBound(g);
    NoWrap1216(g, total, root, p);
  }

  /** Every pass of a FAT12/16 loop takes its candidate from the 16-bit field. */
  lemma {:induction false} FatCandidate16(ft: FatType, g: Geom, total: U32, root: U32, i: nat, last: Pass)
    requires ft != FAT32 && g.bytesPerSector != 0 && i <= MaxPasses
    requires i > 0 ==> last.fat < TWO16
    ensures Iterate(ft, g, total, root, i, last, false).1.Finished? ==>
      Iterate(ft, g, total, root, i, last, false).1.last.fat < TWO16
    decreases MaxPasses - i
  {
    if i < MaxPasses {
      var fat := CandidateFat(ft, g);
      var data := DataFor(g, total, root, fat);
      if !NoData(g, total, root, fat, false) && g.sectorsPerCluster != 0 {
        var clusters := ClusterCount(data, g.sectorsPerCluster);
        var need := FatSectorsNeeded(ft, clusters, g.bytesPerSector);
        if need != fat {
          FatCandidate16(ft, WithFat(ft, g, need), total, root, i + 1, Pass(fat, data, clusters));
        }
      }
    }
  }

  /**
   * FAT32 as written: the reserved-sector rule is checked before any
   * arithmetic, the root directory takes no sectors, the cluster count
   * reaches the FAT32 minimum, and the FAT size returned is the one stored
   * in the geometry (which differs from the one the data count used when
   * eight passes do not converge).
   */
  lemma Fat32LayoutRules(g: Geom)
    requires g.bytesPerSector != 0
    ensures g.reservedSectors < 32 ==> LayoutOf(FAT32, g, false) == (g, Err(TooFewReserved))
    ensures var (g', r) := LayoutOf(FAT32, g, false);
      r.Ok? ==>
        g.reservedSectors >= 32 && r.value.rootDirSectors == 0
        && r.value.clusters >= Fat32MinClusters && r.value.dataSectors != 0
        && g.sectorsPerCluster != 0 && r.value.clusters == ClusterCount(r.value.dataSectors, g.sectorsPerCluster)
        && r.value.fatSectors == g'.sectorsPerFAT32 && SameFrame(g, g')
  {
    if g.reservedSectors >= 32 {
      IterateConsistent(FAT32, g, TotalSectors(g), 0, 0, Pass(0, 0, 0), false);
    }
  }

  /** With the signed guard the layout adds up exactly for every variant. */
  lemma CheckedLayoutExact(ft: FatType, g: Geom)
    requires ComputeLayoutChecked(ft, g).Ok?
    ensures var l := ComputeLayoutChecked(ft, g).value;
      g.reservedSectors + g.numFATs * l.fatSectors + l.rootDirSectors + l.dataSectors == TotalSectors(g)
      && l.dataSectors > 0 && g.sectorsPerCluster > 0
      && l.clusters == ClusterCount(l.dataSectors, g.sectorsPerCluster)
      && (ft == FAT32 ==> l.rootDirSectors == 0 && l.clusters >= Fat32MinClusters && g.reservedSectors >= 32)
      && (ft == FAT12 ==> l.clusters <= Fat12MaxClusters)
      && (ft == FAT16 ==> Fat16MinClusters <= l.clusters <= Fat16MaxClusters)
  {
    var total := TotalSectors(g);
    var root := if ft == FAT32 then 0 else RootDirSectors(g);
    var it := Iterate(ft, g, total, root, 0, Pass(0, 0, 0), true);
    IterateConsistent(ft, g, total, root, 0, Pass(0, 0, 0), true);
    assert it.1.Finished?;
    var p := it.1.last;
    assert ComputeLayoutChecked(ft, g).value == Layout(p.fat, root, p.data, p.clusters);
    CheckedPassExact(g, total, root, p);
  }

  /** Under the signed guard a consistent pass leaves a positive, unwrapped data count. */
  lemma {:induction false} CheckedPassExact(g: Geom, total: U32, root: U32, p: Pass)
    requires PassConsistent(g, total, root, p, true)
    ensures g.reservedSectors + g.numFATs * p.fat + root + p.data == total && p.data > 0
  {
    MulBound(g.numFATs, p.fat, g.numFATs, p.fat);
  }

  /** Go's wrap after every `-`: wrapping an operand first does not change the wrapped result. */
  lemma {:induction false} WrapSub(a: int, b: int)
    ensures ToU32(ToU32(a) - b) == ToU32(a - b)
    ensures ToU32(a - ToU32(b)) == ToU32(a - b)
  {
    ModShift(a - b, -(a / TWO32));
    assert ToU32(a) - b == (a - b) + -(a / TWO32) * TWO32;
    ModShift(a - b, b / TWO32);
    assert a - ToU32(b) == (a - b) + (b / TWO32) * TWO32;
  }

  /** The data-sector count as Go computes it, wrapping after each operation. */
  lemma {:induction false} DataForStepwise(g: Geom, total: U32, root: U32, fat: U32)
    ensures ToU32(ToU32(ToU32(total - g.reservedSectors) - ToU32(g.numFATs * fat)) - root)
      == DataFor(g, total, root, fat)
  {
    var a := total - g.reservedSectors;
    var b := g.numFATs * fat;
    WrapSub(a, ToU32(b));
    WrapSub(a, b);
    WrapSub(a - b, root);
  }

  /**
   * main.go `computeLayout`: at most eight passes reconcile the FAT size
   * with the cluster count, then the cluster count is checked against the
   * variant's range. Returns the geometry with the candidate FAT size the
   * loop stored in it, and the layout or the error.
   */
  method ComputeLayout(ft: FatType, g0: Geom) returns (g: Geom, r: Result<Layout, LayoutError>)
    ensures (g, r) == LayoutOf(ft, g0, false)
  {
    g := g0;
    if g.bytesPerSector == 0 {
      return g, Err(DivideByZero);
    }
    var rootDirSectors := RootDirSectors(g);
    var totalSectors: U32;
    if g.totalSectors16 != 0 {
      totalSectors := g.totalSectors16;
    } else {
      totalSectors := g.totalSectors32;
    }
    var fatSectors: U32, dataSectors: U32, clusters: U32 := 0, 0, 0;
    if ft == FAT32 {
      rootDirSectors := 0;
      if g.reservedSectors < 32 {
        return g, Err(TooFewReserved);
      }
    }
    ghost var spec := Iterate(ft, g0, totalSectors, rootDirSectors, 0, Pass(0, 0, 0), false);
    var i := 0;
    while i < 8
      invariant 0 <= i <= 8 && g.bytesPerSector != 0
      invariant spec == Iterate(ft, g, totalSectors, rootDirSectors, i, Pass(fatSectors, dataSectors, clusters), false)
    {
      if ft == FAT32 {
        fatSectors := g.sectorsPerFAT32;
        if fatSectors == 0 {
          fatSectors := 1;
        }
      } else {
        fatSectors := g.sectorsPerFAT16;
      }
      dataSectors := DataFor(g, totalSectors, rootDirSectors, fatSectors);
      if dataSectors == 0 {
        return g, Err(NoDataSectors);
      }
      if g.sectorsPerCluster == 0 {
        return g, Err(DivideByZero);
      }
      clusters := ClusterCount(dataSectors, g.sectorsPerCluster);
      var need := FatSectorsNeeded(ft, clusters, g.bytesPerSector);
      if need == fatSectors {
        break;
      }
      if ft == FAT32 {
        g := g.(sectorsPerFAT32 := need);
      } else {
        g := g.(sectorsPerFAT16 := ToU16(need));
      }
      i := i + 1;
    }
    if ft == FAT32 {
      if clusters < 65525 {
        return g, Err(TooFewClusters32(clusters));
      }
      return g, Ok(Layout(g.sectorsPerFAT32, 0, dataSectors, clusters));
    }
    if ft == FAT12 && clusters >= 4085 {
      return g, Err(InvalidClusters(ft, clusters));
    }
    if ft == FAT16 && (clusters < 4085 || clusters > 65524) {
      return g, Err(InvalidClusters(ft, clusters));
    }
    return g, Ok(Layout(fatSectors, rootDirSectors, dataSectors, clusters));
  }

  /** An inclusive sector range `{first, last}` of the system area. */
  datatype Span = Span(first: int, last: int)

  /** Where the data area starts: after the reserved sectors, every FAT copy and the fixed root directory. */
  function DataStart(ft: FatType, g: Geom, fatSecs: U32, rootSecs: U32): (d: int)
    ensures d >= g.reservedSectors + g.numFATs * fatSecs
  {
    var afterFats := g.reservedSectors + g.numFATs * fatSecs;
    if ft != FAT32 then afterFats + rootSecs else afterFats
  }

  /** Where the fixed root directory starts, or -1 for FAT32. */
  function RootStart(ft: FatType, g: Geom, fatSecs: U32): int {
    if ft != FAT32 then g.reservedSectors + g.numFATs * fatSecs else -1
  }

  /**
   * The absolute ranges RunE marks as system area: the boot sector, two
   * FAT copies and, for FAT12/16, the root directory.
   */
  function SystemRanges(ft: FatType, g: Geom, fatSecs: U32, rootSecs: U32): (r: seq<Span>)
    ensures |r| == (if ft == FAT32 then 3 else 4)
    ensures r[0] == Span(0, 0)
    ensures r[1] == Span(g.reservedSectors, g.reservedSectors + fatSecs - 1)
    ensures r[2].first == r[1].last + 1 && r[2].last - r[2].first == fatSecs - 1
    ensures ft != FAT32 ==> r[3] == Span(RootStart(ft, g, fatSecs), RootStart(ft, g, fatSecs) + rootSecs - 1)
  {
    var absFat1 := g.reservedSectors;
    var absFat2 := absFat1 + fatSecs;
    var ranges := [Span(0, 0), Span(absFat1, absFat1 + fatSecs - 1), Span(absFat2, absFat2 + fatSecs - 1)];
    if ft != FAT32 then
      var absRoot := RootStart(ft, g, fatSecs);
      ranges + [Span(absRoot, absRoot + rootSecs - 1)]
    else ranges
  }

  predicate InSpans(r: seq<Span>, s: int) {
    exists i :: 0 <= i < |r| && r[i].first <= s <= r[i].last
  }

  /**
   * With two FAT copies and non-empty FAT and root areas, the ranges lie in
   * increasing order, the FAT copies and root directory follow each other
   * without a gap, and the data area starts right after the last range.
   * A sector is marked exactly when it is the boot sector or lies between
   * the reserved area and the data area.
   */
  lemma SystemRangesTile(ft: FatType, g: Geom, fatSecs: U32, rootSecs: U32, s: int)
    requires g.numFATs == 2 && g.reservedSectors >= 1 && fatSecs >= 1 && (ft != FAT32 ==> rootSecs >= 1)
    ensures var r := SystemRanges(ft, g, fatSecs, rootSecs);
      (forall i :: 0 <= i < |r| ==> r[i].first <= r[i].last)
      && (forall i :: 1 <= i < |r| - 1 ==> r[i + 1].first == r[i].last + 1)
      && r[0].last < r[1].first
      && r[|r| - 1].last + 1 == DataStart(ft, g, fatSecs, rootSecs)
    ensures InSpans(SystemRanges(ft, g, fatSecs, rootSecs), s) <==>
      (s == 0 || g.reservedSectors <= s < DataStart(ft, g, fatSecs, rootSecs))
  {
    var r := SystemRanges(ft, g, fatSecs, rootSecs);
    if s == 0 {
      assert r[0].first <= s <= r[0].last;
    } else if g.reservedSectors <= s < DataStart(ft, g, fatSecs, rootSecs) {
      if s <= r[1].last {
        assert r[1].first <= s <= r[1].last;
      } else if s <= r[2].last {
        assert r[2].first <= s <= r[2].last;
      } else {
        assert r[3].first <= s <= r[3].last;
      }
    }
  }

  /**
   * As written, the 2.88M FAT12 preset (one sector per cluster) settles on a
   * 17-sector FAT and 5710 clusters, past the FAT12 limit, so the layout
   * is rejected.
   */
  lemma Fat12Floppy2880Rejected()
    ensures LayoutOf(FAT12, PresetForSizeBytes(FAT12, 2880 * KiB).value, false).1
      == Err(InvalidClusters(FAT12, 5710))
  {
    var g := PresetForSizeBytes(FAT12, 2880 * KiB).value;
    assert g == Base.(totalSectors16 := 5760, sectorsPerTrack := 36, rootEntries := 240,
                      sectorsPerCluster := 1, sectorsPerFAT16 := 9);
    assert RootDirSectors(g) == 15;
    assert DataFor(g, 5760, 15, 9) == 5726;
    assert FatSectorsNeeded(FAT12, 5726, 512) == 17;
    var h := g.(sectorsPerFAT16 := 17);
    assert DataFor(h, 5760, 15, 17) == 5710;
    assert FatSectorsNeeded(FAT12, 5710, 512) == 17;
    assert Iterate(FAT12, h, 5760, 15, 1, Pass(9, 5726, 5726), false) == (h, Finished(Pass(17, 5710, 5710)));
  }

  /**
   * The 1.44M floppy preset is the FAT12 geometry for FAT16 too: its loop
   * settles on a 12-sector FAT and 2841 clusters, below the FAT16 minimum,
   * so a FAT16 1.44M volume is rejected.
   */
  lemma Fat16Floppy1440Rejected()
    ensures LayoutOf(FAT16, PresetForSizeBytes(FAT16, 1440 * KiB).value, false).1
      == Err(InvalidClusters(FAT16, 2841))
  {
    var g := PresetForSizeBytes(FAT16, 1440 * KiB).value;
    assert g == Base.(totalSectors16 := 2880, sectorsPerTrack := 18, rootEntries := 224,
                      sectorsPerCluster := 1, sectorsPerFAT16 := 9);
    assert RootDirSectors(g) == 14;
    var h := g.(sectorsPerFAT16 := 12);
    IterateStep(FAT16, g, 2880, 14, 0, Pass(0, 0, 0), false, Pass(9, 2847, 2847), 12);
    IterateStep(FAT16, h, 2880, 14, 1, Pass(9, 2847, 2847), false, Pass(12, 2841, 2841), 12);
  }

  /** The FAT12 layout of one floppy preset converges on its first pass. */
  lemma {:induction false} FloppyFirstPass(size: int, fat: U32, root: U32, data: U32, clusters: U32, checked: bool)
    requires IsFloppySize(size)
    requires var g := PresetForSizeBytesFixed(FAT12, size).value;
      RootDirSectors(g) == root && g.sectorsPerFAT16 == fat && g.sectorsPerCluster != 0
      && size / 512 - g.reservedSectors - g.numFATs * fat - root == data > 0
      && ClusterCount(data, g.sectorsPerCluster) == clusters && clusters <= Fat12MaxClusters
      && FatSectorsNeeded(FAT12, clusters, 512) == fat
    ensures LayoutOf(FAT12, PresetForSizeBytesFixed(FAT12, size).value, checked).1
      == Ok(Layout(fat, root, data, clusters))
  {
    var g := PresetForSizeBytesFixed(FAT12, size).value;
    assert TotalSectors(g) == size / 512;
    assert DataFor(g, size / 512, root, fat) == data;
    assert !NoData(g, size / 512, root, fat, checked);
    assert Iterate(FAT12, g, size / 512, root, 0, Pass(0, 0, 0), checked) == (g, Finished(Pass(fat, data, clusters)));
  }

  /**
   * With the corrected preset every floppy capacity formats as FAT12, each
   * with the historical FAT size and a cluster count inside the FAT12 range.
   */
  lemma Fat12FloppyLayouts(checked: bool)
    ensures LayoutOf(FAT12, PresetForSizeBytesFixed(FAT12, 360 * KiB).value, checked).1 == Ok(Layout(2, 4, 711, 355))
    ensures LayoutOf(FAT12, PresetForSizeBytesFixed(FAT12, 720 * KiB).value, checked).1 == Ok(Layout(3, 7, 1426, 713))
    ensures LayoutOf(FAT12, PresetForSizeBytesFixed(FAT12, 1200 * KiB).value, checked).1 == Ok(Layout(7, 14, 2371, 2371))
    ensures LayoutOf(FAT12, PresetForSizeBytesFixed(FAT12, 1440 * KiB).value, checked).1 == Ok(Layout(9, 14, 2847, 2847))
    ensures LayoutOf(FAT12, PresetForSizeBytesFixed(FAT12, 2880 * KiB).value, checked).1 == Ok(Layout(9, 15, 5726, 2863))
  {
    FloppyFirstPass(360 * KiB, 2, 4, 711, 355, checked);
    FloppyFirstPass(720 * KiB, 3, 7, 1426, 713, checked);
    FloppyFirstPass(1200 * KiB, 7, 14, 2371, 2371, checked);
    FloppyFirstPass(1440 * KiB, 9, 14, 2847, 2847, checked);
    FloppyFirstPass(2880 * KiB, 9, 15, 5726, 2863, checked);
  }

  /**
   * As written, an 8 KiB FAT32 volume (16 sectors, fewer than its 32
   * reserved ones) is accepted: the negative data count wraps to about
   * 2^32 and the loop settles on a 4186128-sector FAT.
   */
  lemma Fat32TinyAccepted()
    ensures LayoutOf(FAT32, PresetForSizeBytes(FAT32, 8 * KiB).value, false).1
      == Ok(Layout(4186128, 0, 4286595024, 535824378))
  {
    var g := PresetForSizeBytes(FAT32, 8 * KiB).value;
    assert TotalSectors(g) == 16 && g.reservedSectors == 32 && g.numFATs == 2;
    assert g.sectorsPerCluster == 8 && g.sectorsPerFAT32 == 0 && g.bytesPerSector == 512;
    var g1 := g.(sectorsPerFAT32 := 4194304);
    var g2 := g.(sectorsPerFAT32 := 4186112);
    var g3 := g.(sectorsPerFAT32 := 4186128);
    var p0 := Pass(1, 4294967278, 536870909);
    var p1 := Pass(4194304, 4286578672, 535822334);
    var p2 := Pass(4186112, 4286595056, 535824382);
    var p3 := Pass(4186128, 4286595024, 535824378);
    IterateStep(FAT32, g, 16, 0, 0, Pass(0, 0, 0), false, p0, 4194304);
    IterateStep(FAT32, g1, 16, 0, 1, p0, false, p1, 4186112);
    IterateStep(FAT32, g2, 16, 0, 2, p1, false, p2, 4186128);
    IterateStep(FAT32, g3, 16, 0, 3, p2, false, p3, 4186128);
  }

  /** One pass of the loop, given the values it computes. */
  lemma IterateStep(ft: FatType, g: Geom, total: U32, root: U32, i: nat, last: Pass, checked: bool,
                    p: Pass, need: U32)
    requires g.bytesPerSector != 0 && i < MaxPasses
    requires p.fat == CandidateFat(ft, g) && p.data == DataFor(g, total, root, p.fat)
    requires !NoData(g, total, root, p.fat, checked) && g.sectorsPerCluster != 0
    requires p.clusters == ClusterCount(p.data, g.sectorsPerCluster)
    requires need == FatSectorsNeeded(ft, p.clusters, g.bytesPerSector)
    ensures Iterate(ft, g, total, root, i, last, checked) ==
      if need == p.fat then (g, Finished(p))
      else Iterate(ft, WithFat(ft, g, need), total, root, i + 1, p, checked)
  {
  }

  /** With the signed guard the same 8 KiB FAT32 volume is refused for want of data sectors. */
  lemma Fat32TinyRefused()
    ensures ComputeLayoutChecked(FAT32, PresetForSizeBytes(FAT32, 8 * KiB).value) == Err(NoDataSectors)
  {
    var g := PresetForSizeBytes(FAT32, 8 * KiB).value;
    assert TotalSectors(g) == 16 && g.reservedSectors == 32 && g.numFATs == 2 && g.sectorsPerFAT32 == 0;
    assert NoData(g, 16, 0, 1, true);
  }
}
