// The BPB geometry record and the size presets of the formatter
// (main.go `geom`, `presetForSizeBytes` and the CLI overrides).

module Geometry {
  import opened Bytes
  import opened Results

  datatype FatType = FAT12 | FAT16 | FAT32

  /** main.go `geom`: the BIOS Parameter Block fields, at their Go widths. */
  datatype Geom = Geom(
    bytesPerSector: U16,
    sectorsPerCluster: Byte,
    reservedSectors: U16,
    numFATs: Byte,
    rootEntries: U16,
    totalSectors16: U16,
    media: Byte,
    sectorsPerFAT16: U16,
    sectorsPerTrack: U16,
    numHeads: U16,
    hiddenSectors: U32,
    totalSectors32: U32,
    sectorsPerFAT32: U32,
    rootCluster: U32,
    fsInfoSector: U16,
    backupBootSector: U16)

  datatype PresetError = UnsupportedSize(size: int, ft: FatType)

  const KiB: int := 1024
  const MiB: int := 1024 * 1024
  const GiB: int := 1024 * 1024 * 1024

  /** The five floppy capacities with historical geometries. */
  predicate IsFloppySize(size: int) {
    size == 360 * KiB || size == 720 * KiB || size == 1200 * KiB || size == 1440 * KiB || size == 2880 * KiB
  }

  /** The fields every preset starts from. */
  const Base: Geom := Geom(512, 0, 1, 2, 0, 0, 0xF0, 0, 0, 2, 0, 0, 0, 0, 0, 0)

  /** The total sector count as the BPB holds it: the 16-bit field unless it is zero. */
  function TotalSectors(g: Geom): U32 {
    if g.totalSectors16 != 0 then g.totalSectors16 else g.totalSectors32
  }

  /** Stores a total in the 16-bit field when it fits and in the 32-bit field otherwise. */
  function WithTotal(g: Geom, ts: U32): (r: Geom)
    ensures TotalSectors(r) == ts
    ensures r.totalSectors16 == 0 || r.totalSectors32 == 0
    ensures r.totalSectors32 == 0 <==> ts <= 0xFFFF
    ensures r.(totalSectors16 := g.totalSectors16, totalSectors32 := g.totalSectors32) == g
  {
    if ts <= 0xFFFF then g.(totalSectors16 := ts, totalSectors32 := 0)
    else g.(totalSectors16 := 0, totalSectors32 := ts)
  }

  /** Sectors per cluster of the FAT16 size brackets. */
  function Fat16ClusterSize(size: int): Byte {
    if size <= 4 * MiB then 2
    else if size <= 8 * MiB then 4
    else if size <= 16 * MiB then 8
    else 16
  }

  /** Sectors per cluster of the FAT32 size brackets. */
  function Fat32ClusterSize(size: int): Byte {
    if size <= 260 * MiB then 8
    else if size <= 8 * GiB then 8
    else if size <= 32 * GiB then 16
    else 32
  }

  /** The geometry of a floppy capacity; the 2880K entry depends on the FAT variant. */
  function FloppyPreset(ft: FatType, size: int): (g: Geom)
    requires IsFloppySize(size)
  {
    var b := Base.(totalSectors16 := size / 512);
    if size == 360 * KiB then
      b.(sectorsPerTrack := 9, rootEntries := 64, sectorsPerCluster := 2, sectorsPerFAT16 := 2)
    else if size == 720 * KiB then
      b.(sectorsPerTrack := 9, rootEntries := 112, sectorsPerCluster := 2, sectorsPerFAT16 := 3)
    else if size == 1200 * KiB then
      b.(sectorsPerTrack := 15, rootEntries := 224, sectorsPerCluster := 1, sectorsPerFAT16 := 7)
    else if size == 1440 * KiB then
      b.(sectorsPerTrack := 18, rootEntries := 224, sectorsPerCluster := 1, sectorsPerFAT16 := 9)
    else
      var c := b.(sectorsPerTrack := 36, rootEntries := 240);
      match ft
      case FAT12 => c.(sectorsPerCluster := 1, sectorsPerFAT16 := 9)
      case FAT16 => c.(sectorsPerCluster := 2, sectorsPerFAT16 := 18)
      case FAT32 => c
  }

  /**
   * main.go `presetForSizeBytes`: exact floppy geometries, otherwise
   * defaults chosen by variant and size bracket, or an unsupported-size error.
   */
  function PresetForSizeBytes(ft: FatType, size: I64): (r: Result<Geom, PresetError>)
    ensures r.Ok? <==> (IsFloppySize(size) || ft == FAT32
                        || (ft == FAT12 && size < 16 * MiB) || (ft == FAT16 && size <= 32 * MiB))
    ensures r.Err? ==> r.error == UnsupportedSize(size, ft)
    ensures r.Ok? ==>
      r.value.bytesPerSector == 512 && r.value.numFATs == 2
      && r.value.hiddenSectors == 0 && r.value.sectorsPerFAT32 == 0
      && (r.value.totalSectors16 == 0 || r.value.totalSectors32 == 0)
    ensures r.Ok? && IsFloppySize(size) ==>
      r.value.totalSectors16 == size / 512 && r.value.totalSectors32 == 0
      && r.value.reservedSectors == 1 && r.value.media == 0xF0 && r.value.numHeads == 2
    ensures r.Ok? && !IsFloppySize(size) ==> TotalSectors(r.value) == ToU32(GoDiv(size, 512))
    ensures r.Ok? && !IsFloppySize(size) ==>
      (r.value.totalSectors32 == 0 <==> ToU32(GoDiv(size, 512)) <= 0xFFFF)
    ensures r.Ok? && !IsFloppySize(size) && ft != FAT32 ==>
      r.value.reservedSectors == 1 && r.value.rootEntries == 512 && r.value.sectorsPerTrack == 32
      && r.value.numHeads == 2 && r.value.media == 0xF0
      && r.value.sectorsPerFAT16 == (if ft == FAT12 then 16 else 32)
      && r.value.sectorsPerCluster == (if ft == FAT12 then 1 else Fat16ClusterSize(size))
    ensures r.Ok? && !IsFloppySize(size) && ft == FAT32 ==>
      r.value.reservedSectors == 32 && r.value.rootEntries == 0 && r.value.media == 0xF8
      && r.value.fsInfoSector == 1 && r.value.backupBootSector == 6 && r.value.rootCluster == 2
      && r.value.sectorsPerTrack == 63 && r.value.numHeads == 255
      && r.value.sectorsPerCluster == Fat32ClusterSize(size)
  {
    if IsFloppySize(size) then
      Ok(FloppyPreset(ft, size))
    else if ft == FAT12 && size < 16 * MiB then
      var g := Base.(sectorsPerTrack := 32, rootEntries := 512, sectorsPerCluster := 1, sectorsPerFAT16 := 16);
      Ok(WithTotal(g, ToU32(GoDiv(size, 512))))
    else if ft == FAT16 && size <= 32 * MiB then
      var g := Base.(sectorsPerTrack := 32, rootEntries := 512, sectorsPerCluster := Fat16ClusterSize(size),
                     sectorsPerFAT16 := 32);
      Ok(WithTotal(g, ToU32(GoDiv(size, 512))))
    else if ft == FAT32 then
      var g := Base.(media := 0xF8, rootEntries := 0, reservedSectors := 32, fsInfoSector := 1,
                     backupBootSector := 6, rootCluster := 2, sectorsPerTrack := 63, numHeads := 255,
                     sectorsPerCluster := Fat32ClusterSize(size));
      Ok(WithTotal(g, ToU32(GoDiv(size, 512))))
    else
      Err(UnsupportedSize(size, ft))
  }

  /**
   * The preset with the 2.88M FAT12 geometry corrected to two sectors per
   * cluster, the historical value its nine-sector FAT is sized for (see
   * README, Findings). Every other size and variant is unchanged.
   */
  function PresetForSizeBytesFixed(ft: FatType, size: I64): (r: Result<Geom, PresetError>)
    ensures r.Ok? <==> PresetForSizeBytes(ft, size).Ok?
    ensures r.Err? ==> r == PresetForSizeBytes(ft, size)
    ensures r.Ok? ==>
      r.value.(sectorsPerCluster := 0) == PresetForSizeBytes(ft, size).value.(sectorsPerCluster := 0)
    ensures r.Ok? && ft == FAT12 && IsFloppySize(size) ==>
      r.value.sectorsPerCluster == (if size == 1200 * KiB || size == 1440 * KiB then 1 else 2)
    ensures r.Ok? && !(ft == FAT12 && size == 2880 * KiB) ==> r == PresetForSizeBytes(ft, size)
  {
    var r := PresetForSizeBytes(ft, size);
    if ft == FAT12 && size == 2880 * KiB then Ok(r.value.(sectorsPerCluster := 2)) else r
  }

  /** The historical floppy geometries, field by field. */
  lemma FloppyPresets(ft: FatType)
    ensures var g := PresetForSizeBytes(ft, 360 * KiB).value;
      g.sectorsPerTrack == 9 && g.rootEntries == 64 && g.sectorsPerCluster == 2
      && g.sectorsPerFAT16 == 2 && g.totalSectors16 == 720
    ensures var g := PresetForSizeBytes(ft, 720 * KiB).value;
      g.sectorsPerTrack == 9 && g.rootEntries == 112 && g.sectorsPerCluster == 2
      && g.sectorsPerFAT16 == 3 && g.totalSectors16 == 1440
    ensures var g := PresetForSizeBytes(ft, 1200 * KiB).value;
      g.sectorsPerTrack == 15 && g.rootEntries == 224 && g.sectorsPerCluster == 1
      && g.sectorsPerFAT16 == 7 && g.totalSectors16 == 2400
    ensures var g := PresetForSizeBytes(ft, 1440 * KiB).value;
      g.sectorsPerTrack == 18 && g.rootEntries == 224 && g.sectorsPerCluster == 1
      && g.sectorsPerFAT16 == 9 && g.totalSectors16 == 2880 && g.totalSectors32 == 0
    ensures var g := PresetForSizeBytes(ft, 2880 * KiB).value;
      g.sectorsPerTrack == 36 && g.rootEntries == 240 && g.totalSectors16 == 5760
      && (ft == FAT12 ==> g.sectorsPerCluster == 1 && g.sectorsPerFAT16 == 9)
      && (ft == FAT16 ==> g.sectorsPerCluster == 2 && g.sectorsPerFAT16 == 18)
      && (ft == FAT32 ==> g.sectorsPerCluster == 0 && g.sectorsPerFAT16 == 0)
  {
  }

  /** Outside the floppy table, a larger size never gets a smaller cluster. */
  lemma ClusterSizeMonotone(ft: FatType, s1: I64, s2: I64)
    requires ft != FAT12 && s1 <= s2
    requires !IsFloppySize(s1) && !IsFloppySize(s2)
    requires PresetForSizeBytes(ft, s1).Ok? && PresetForSizeBytes(ft, s2).Ok?
    ensures PresetForSizeBytes(ft, s1).value.sectorsPerCluster <= PresetForSizeBytes(ft, s2).value.sectorsPerCluster
  {
  }

  /** Multiplying after a 32-bit truncation wraps to the same value as wrapping the full product. */
  lemma {:induction false} WrapMul(a: int, b: int)
    ensures ToU32(ToU32(a) * b) == ToU32(a * b)
  {
    var q := a / TWO32;
    var m := a % TWO32;
    assert a == q * TWO32 + m;
    assert a * b == m * b + (q * b) * TWO32 by {
      calc {
        a * b;
        (q * TWO32 + m) * b;
        m * b + (q * b) * TWO32;
      }
    }
    ModShift(m * b, q * b);
  }

  lemma {:induction false} ModShift(x: int, k: int)
    ensures (x + k * TWO32) % TWO32 == x % TWO32
  {
    var y := x + k * TWO32;
    assert y == (x / TWO32 + k) * TWO32 + x % TWO32;
    assert 0 <= x % TWO32 < TWO32;
  }

  /**
   * RunE's --heads/--spt/--tracks overrides, then the recomputation of
   * the total-sector fields from the cylinder count or from the size.
   */
  function ApplyOverrides(g: Geom, size: I64, heads: I64, spt: I64, tracks: I64): (r: Geom)
    ensures r.numHeads == (if heads > 0 then ToU16(heads) else g.numHeads)
    ensures r.sectorsPerTrack == (if spt > 0 then ToU16(spt) else g.sectorsPerTrack)
    ensures TotalSectors(r) ==
      if tracks > 0 then ToU32(tracks * r.numHeads * r.sectorsPerTrack) else ToU32(GoDiv(size, 512))
    ensures r.totalSectors16 == 0 || r.totalSectors32 == 0
    ensures r.totalSectors32 == 0 <==> TotalSectors(r) <= 0xFFFF
    ensures r.(numHeads := g.numHeads, sectorsPerTrack := g.sectorsPerTrack,
               totalSectors16 := g.totalSectors16, totalSectors32 := g.totalSectors32) == g
  {
    var g1 := if heads > 0 then g.(numHeads := ToU16(heads)) else g;
    var g2 := if spt > 0 then g1.(sectorsPerTrack := ToU16(spt)) else g1;
    var total := if tracks > 0 then ToU32(ToU32(ToU32(tracks) * g2.numHeads) * g2.sectorsPerTrack)
                 else ToU32(GoDiv(size, 512));
    if tracks > 0 then
      WrapMul(tracks, g2.numHeads);
      WrapMul(tracks * g2.numHeads, g2.sectorsPerTrack);
      WithTotal(g2, total)
    else
      WithTotal(g2, total)
  }
}
