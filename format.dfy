// The `format` command (main.go RunE, lines 1063-1490): the plan of the
// volume (size check, variant, preset, overrides, layout, absolute ranges)
// and the real write, phase by phase, onto the sector store of module
// Device, followed by the optional full format of the data area.

module Format {
  import opened Results
  import opened Bytes
  import opened Geometry
  import Layout
  import opened Encoder
  import opened Device
  import opened Progress
  import opened Writer
  import opened Track

  /** The `--type` value, compared case-insensitively. */
  function ParseFatType(name: string): Option<FatType> {
    var l := Lower(name);
    if l == "fat12" then Some(FAT12)
    else if l == "fat16" then Some(FAT16)
    else if l == "fat32" then Some(FAT32)
    else None
  }

  /** The lower-case spelling of each variant on the command line. */
  function TypeFlag(ft: FatType): string {
    match ft
    case FAT12 => "fat12"
    case FAT16 => "fat16"
    case FAT32 => "fat32"
  }

  /**
   * Every variant is selected by its own name, in any case, and a value
   * that selects a variant is that name in some case.
   */
  lemma ParseFatTypeRoundTrip(ft: FatType, name: string)
    ensures ParseFatType(TypeFlag(ft)) == Some(ft)
    ensures ParseFatType(name) == Some(ft) <==> Lower(name) == TypeFlag(ft)
  {
    assert Lower(TypeFlag(ft)) == TypeFlag(ft);
  }

  lemma ParseFatTypeExamples()
    ensures ParseFatType("FAT12") == Some(FAT12) && ParseFatType("Fat16") == Some(FAT16)
    ensures ParseFatType("fat") == None && ParseFatType("vfat") == None
  {
    assert Lower("FAT12") == "fat12";
    assert Lower("Fat16") == "fat16";
    assert Lower("fat") == "fat";
    assert Lower("vfat") == "vfat";
  }

  /** Why RunE refuses to format before writing anything. */
  datatype PlanError =
    | SizeNotMultiple              // "size must be multiple of 512"
    | UnknownType(name: string)    // "unknown --type"
    | NoPreset(preset: PresetError)
    | NoLayout(layout: Layout.LayoutError)
    | NegativeTotal                // `make([]bool, total)` in newProgressTracker panics

  /**
   * What RunE has worked out before the first write: the variant, the
   * geometry as `computeLayout` left it, the layout, the sector count of
   * the target and the first sector of each area (`absRoot` is -1 for
   * FAT32, which has no fixed root directory).
   */
  datatype Plan = Plan(ft: FatType, g: Geom, layout: Layout.Layout, totalSectors: int,
                       absFat1: int, absFat2: int, absRoot: int, absData: int)

  /** The preset RunE starts from: as written, or with the corrected 2.88M floppy (see README, Findings). */
  function PresetFor(ft: FatType, size: I64, asWritten: bool): Result<Geom, PresetError> {
    if asWritten then PresetForSizeBytes(ft, size) else PresetForSizeBytesFixed(ft, size)
  }

  /** The preset with the overrides applied, and what `computeLayout` makes of it. */
  function PlannedLayout(ft: FatType, size: I64, heads: I64, spt: I64, tracks: I64, asWritten: bool)
    : (Geom, Result<Layout.Layout, Layout.LayoutError>)
    requires PresetFor(ft, size, asWritten).Ok?
  {
    Layout.LayoutOf(ft, ApplyOverrides(PresetFor(ft, size, asWritten).value, size, heads, spt, tracks), !asWritten)
  }

  /**
   * The absolute ranges RunE computes (main.go:1158-1165): FAT #1 after
   * the reserved sectors, FAT #2 after FAT #1, then for FAT12/16 the root
   * directory and the data area; FAT32 has no fixed root directory.
   */
  predicate PlacedAreas(p: Plan) {
    var afterFats := p.g.reservedSectors + p.g.numFATs * p.layout.fatSectors;
    p.absFat1 == p.g.reservedSectors && p.absFat2 == p.absFat1 + p.layout.fatSectors
    && (p.ft != FAT32 ==> p.absRoot == afterFats && p.absData == afterFats + p.layout.rootDirSectors)
    && (p.ft == FAT32 ==> p.absRoot == -1 && p.absData == afterFats)
  }

  /**
   * RunE's planning (main.go:1089-1166): the size must be whole sectors,
   * the variant known, the size covered by a preset; then the overrides,
   * the layout and the absolute ranges, and the progress tracker, which
   * cannot be made for a negative sector count. `asWritten` selects the
   * preset and the data-sector guard of the code; otherwise the corrected
   * ones of the Findings are used.
   */
  function PlanFormat(typeName: string, size: I64, heads: I64, spt: I64, tracks: I64, asWritten: bool)
    : (r: Result<Plan, PlanError>)
    ensures size % 512 != 0 ==> r == Err(SizeNotMultiple)
    ensures size % 512 == 0 && ParseFatType(typeName).None? ==> r == Err(UnknownType(typeName))
    ensures r.Ok? ==> size % 512 == 0 && ParseFatType(typeName) == Some(r.value.ft)
    ensures r.Ok? ==>
      && PresetFor(r.value.ft, size, asWritten).Ok?
      && Layout.LayoutOf(r.value.ft, ApplyOverrides(PresetFor(r.value.ft, size, asWritten).value,
                                                    size, heads, spt, tracks), !asWritten).1 == Ok(r.value.layout)
    ensures r.Ok? ==> 0 <= r.value.totalSectors == size / 512 && PlacedAreas(r.value)
    ensures r == Err(NegativeTotal) ==> size < 0
    ensures size % 512 == 0 && ParseFatType(typeName).Some? ==>
      var ft := ParseFatType(typeName).value;
      PresetFor(ft, size, asWritten).Err? ==> r == Err(NoPreset(PresetFor(ft, size, asWritten).error))
    ensures size % 512 == 0 && ParseFatType(typeName).Some? ==>
      var ft := ParseFatType(typeName).value;
      PresetFor(ft, size, asWritten).Ok? ==>
        var (g, lr) := PlannedLayout(ft, size, heads, spt, tracks, asWritten);
        && (lr.Err? ==> r == Err(NoLayout(lr.error)))
        && (lr.Ok? && size < 0 ==> r == Err(NegativeTotal))
        && (lr.Ok? && size >= 0 ==> r.Ok? && r.value.ft == ft && r.value.g == g && r.value.layout == lr.value)
  {
    if size % 512 != 0 then Err(SizeNotMultiple)
    else
      match ParseFatType(typeName)
      case None => Err(UnknownType(typeName))
      case Some(ft) =>
        match PresetFor(ft, size, asWritten)
        case Err(e) => Err(NoPreset(e))
        case Ok(g0) =>
          var g1 := ApplyOverrides(g0, size, heads, spt, tracks);
          var (g, lr) := Layout.LayoutOf(ft, g1, !asWritten);
          match lr
          case Err(e) => Err(NoLayout(e))
          case Ok(l) =>
            if size / 512 < 0 then Err(NegativeTotal)
            else
              var absFat1 := g.reservedSectors;
              var afterFats := g.reservedSectors + g.numFATs * l.fatSectors;
              Ok(Plan(ft, g, l, size / 512, absFat1, absFat1 + l.fatSectors,
                      if ft != FAT32 then afterFats else -1,
                      if ft != FAT32 then afterFats + l.rootDirSectors else afterFats))
  }

  /** As written, RunE refuses the 2.88M FAT12 floppy of the Findings: its layout has 5710 clusters. */
  lemma PlanFloppy2880Refused()
    ensures PlanFormat("fat12", 2880 * KiB, 0, 0, 0, true) == Err(NoLayout(Layout.InvalidClusters(FAT12, 5710)))
  {
    assert ParseFatType("fat12") == Some(FAT12) by {
      assert Lower("fat12") == "fat12";
    }
    assert (2880 * KiB) % 512 == 0 && (2880 * KiB) / 512 == 5760;
    var g := PresetForSizeBytes(FAT12, 2880 * KiB).value;
    assert PresetFor(FAT12, 2880 * KiB, true) == Ok(g);
    assert ApplyOverrides(g, 2880 * KiB, 0, 0, 0) == g;
    Layout.Fat12Floppy2880Rejected();
    assert Layout.LayoutOf(FAT12, ApplyOverrides(g, 2880 * KiB, 0, 0, 0), false).1
      == Err(Layout.InvalidClusters(FAT12, 5710));
  }

  /** The corrected plan lays the 2.88M FAT12 floppy out, on its 9-sector FAT with 2863 clusters. */
  lemma PlanFloppy2880Fixed()
    ensures PlanFormat("fat12", 2880 * KiB, 0, 0, 0, false).Ok?
    ensures PlanFormat("fat12", 2880 * KiB, 0, 0, 0, false).value.layout == Layout.Layout(9, 15, 5726, 2863)
  {
    assert ParseFatType("fat12") == Some(FAT12) by {
      assert Lower("fat12") == "fat12";
    }
    assert (2880 * KiB) % 512 == 0 && (2880 * KiB) / 512 == 5760;
    var f := PresetForSizeBytesFixed(FAT12, 2880 * KiB).value;
    assert PresetFor(FAT12, 2880 * KiB, false) == Ok(f);
    assert ApplyOverrides(f, 2880 * KiB, 0, 0, 0) == f;
    Layout.Fat12FloppyLayouts(true);
  }

  /**
   * The 8 KiB FAT32 volume of the Findings: RunE as written plans it with
   * its wrapped cluster count, a plan whose areas do not fit the volume;
   * the corrected plan refuses it.
   */
  lemma PlanTinyFat32()
    ensures PlanFormat("fat32", 8 * KiB, 0, 0, 0, true).Ok?
    ensures PlanFormat("fat32", 8 * KiB, 0, 0, 0, true).value.layout == Layout.Layout(4186128, 0, 4286595024, 535824378)
    ensures !WellPlanned(PlanFormat("fat32", 8 * KiB, 0, 0, 0, true).value)
    ensures PlanFormat("fat32", 8 * KiB, 0, 0, 0, false) == Err(NoLayout(Layout.NoDataSectors))
  {
    assert (8 * KiB) % 512 == 0 && (8 * KiB) / 512 == 16;
    assert ParseFatType("fat32") == Some(FAT32) by {
      assert Lower("fat32") == "fat32";
    }
    var g := PresetForSizeBytes(FAT32, 8 * KiB).value;
    assert ApplyOverrides(g, 8 * KiB, 0, 0, 0) == g;
    Layout.Fat32TinyAccepted();
    Layout.Fat32TinyRefused();
  }

  /**
   * The volume a plan lays out, as the FAT specification wants it: two FAT
   * copies right after the reserved sectors, then (FAT12/16) the root
   * directory, then the data area, which runs to the end of the volume as
   * the BPB records it. FAT32 keeps 32 reserved sectors holding the FSInfo
   * sector at 1 and the backup boot sector at 6.
   */
  predicate WellPlanned(p: Plan) {
    p.g.bytesPerSector == 512 && p.g.numFATs == 2
    && p.absFat1 == p.g.reservedSectors >= 1
    && p.absFat2 == p.absFat1 + p.layout.fatSectors
    && (p.ft != FAT32 ==>
          p.absRoot == p.absFat2 + p.layout.fatSectors && p.absData == p.absRoot + p.layout.rootDirSectors)
    && (p.ft == FAT32 ==>
          p.absRoot == -1 && p.absData == p.absFat2 + p.layout.fatSectors
          && p.g.reservedSectors == 32 && p.g.fsInfoSector == 1 && p.g.backupBootSector == 6)
    && p.absData + p.layout.dataSectors == TotalSectors(p.g)
    && p.layout.dataSectors > 0
  }

  /**
   * Every plan the corrected planning accepts is well planned; it covers
   * the target's sectors, and the BPB's total is the cylinder product or
   * the size. As written this fails (`PlanTinyFat32`).
   */
  lemma PlanLayout(typeName: string, size: I64, heads: I64, spt: I64, tracks: I64)
    requires PlanFormat(typeName, size, heads, spt, tracks, false).Ok?
    ensures var p := PlanFormat(typeName, size, heads, spt, tracks, false).value;
      WellPlanned(p) && p.totalSectors == size / 512
      && TotalSectors(p.g) ==
           if tracks > 0 then ToU32(tracks * p.g.numHeads * p.g.sectorsPerTrack) else ToU32(GoDiv(size, 512))
  {
    var ft := ParseFatType(typeName).value;
    var g0 := PresetForSizeBytesFixed(ft, size).value;
    var g1 := ApplyOverrides(g0, size, heads, spt, tracks);
    assert g1.bytesPerSector == 512;
    var root := if ft == FAT32 then 0 else Layout.RootDirSectors(g1);
    if ft == FAT32 {
      assert g1.reservedSectors >= 32;
    }
    Layout.IterateConsistent(ft, g1, TotalSectors(g1), root, 0, Layout.Pass(0, 0, 0), true);
    Layout.CheckedLayoutExact(ft, g1);
  }

  /** One span write of the system area: `bytes` from sector `sector` on. */
  datatype Put = Put(sector: int, bytes: seq<Byte>)

  function Start(w: Put): int {
    w.sector * 512
  }

  function End(w: Put): int {
    w.sector * 512 + |w.bytes|
  }

  /** The write lies inside a store of `n` bytes. */
  predicate Lands(n: int, w: Put) {
    0 <= Start(w) && End(w) <= n
  }

  /** The two writes share no byte. */
  predicate Apart(a: Put, b: Put) {
    End(a) <= Start(b) || End(b) <= Start(a)
  }

  /** The store after the writes `ws`, in order, each landing where it fits. */
  function Apply(d: seq<Byte>, ws: seq<Put>): (r: seq<Byte>)
    ensures |r| == |d|
    decreases |ws|
  {
    if ws == [] then d
    else
      var last := ws[|ws| - 1];
      Overlay(Apply(d, ws[..|ws| - 1]), last.sector * 512, last.bytes)
  }

  /** Writing one more put on top of the first `k`. */
  lemma ApplyStep(d: seq<Byte>, ws: seq<Put>, k: nat)
    requires k < |ws|
    ensures Apply(d, ws[..k + 1]) == Overlay(Apply(d, ws[..k]), ws[k].sector * 512, ws[k].bytes)
  {
    assert ws[..k + 1][..k] == ws[..k];
  }

  /**
   * A write that lands and that no later write touches can be read back
   * from the final store exactly as it was written.
   */
  lemma {:induction false} ApplyKeeps(d: seq<Byte>, ws: seq<Put>, i: nat)
    requires i < |ws| && Lands(|d|, ws[i])
    requires forall j :: i < j < |ws| ==> Apart(ws[i], ws[j])
    ensures Apply(d, ws)[Start(ws[i])..End(ws[i])] == ws[i].bytes
    decreases |ws|
  {
    var init := ws[..|ws| - 1];
    var last := ws[|ws| - 1];
    var prev := Apply(d, init);
    OverlayAt(prev, last.sector * 512, last.bytes);
    if i == |ws| - 1 {
      assert Apply(d, ws) == prev[..Start(last)] + last.bytes + prev[End(last)..];
    } else {
      assert init[i] == ws[i];
      ApplyKeeps(d, init, i);
      assert Apart(ws[i], last);
      assert forall t :: Start(ws[i]) <= t < End(ws[i]) ==> Apply(d, ws)[t] == prev[t];
    }
  }

  /** The boot sector of the plan's variant, with the label and OEM name given (empty for the defaults). */
  function BootSector(p: Plan, volLabel: seq<Byte>, oem: seq<Byte>): (b: seq<Byte>)
    ensures |b| == 512
  {
    if p.ft == FAT32 then BuildBootSector32(p.g, volLabel, oem) else BuildBootSector1216(p.ft, p.g, volLabel, oem)
  }

  /** What `fatBuf` holds: `fatSecs` zeroed sectors with the reserved entries initialised. */
  function FatImage(p: Plan): (f: seq<Byte>)
    ensures |f| == p.layout.fatSectors * p.g.bytesPerSector
  {
    var z := Zeros(p.layout.fatSectors * p.g.bytesPerSector);
    if p.ft == FAT32 then InitFat32Of(z, p.g.media) else InitFat1216Of(p.ft, z, p.g.media)
  }

  /**
   * The system-area writes of the real write, in the order RunE issues
   * them (main.go:1364-1454): the boot sector, for FAT32 the FSInfo sector
   * and the backup boot sector, FAT #1 and FAT #2 from the same buffer,
   * and for FAT12/16 the cleared root directory followed by the label
   * entry when there is one.
   */
  function Puts(p: Plan, boot: seq<Byte>, info: seq<Byte>, fat: seq<Byte>, entry: seq<Byte>): (ws: seq<Put>)
    ensures |ws| == (if p.ft == FAT32 || |entry| > 0 then 5 else 4)
  {
    if p.ft == FAT32 then
      [Put(0, boot), Put(p.g.fsInfoSector, info), Put(p.g.backupBootSector, boot),
       Put(p.absFat1, fat), Put(p.absFat2, fat)]
    else
      [Put(0, boot), Put(p.absFat1, fat), Put(p.absFat2, fat), Put(p.absRoot, Zeros(p.layout.rootDirSectors * 512))]
      + (if |entry| > 0 then [Put(p.absRoot, entry)] else [])
  }

  /** The system-area writes with the sectors RunE builds for the plan, label and OEM name. */
  function SystemPuts(p: Plan, volLabel: seq<Byte>, oem: seq<Byte>): seq<Put> {
    Puts(p, BootSector(p, volLabel, oem), BuildFSInfo(), FatImage(p), BuildRootLabelEntry(volLabel))
  }

  /**
   * The store after the system writes `ws` and, for FAT32, the best-effort
   * clearing of the first data sector when it went through.
   */
  function Image(p: Plan, ws: seq<Put>, d: seq<Byte>, cleared: bool): (r: seq<Byte>)
    ensures |r| == |d|
  {
    var img := Apply(d, ws);
    if p.ft == FAT32 && cleared then Overlay(img, p.absData * 512, Zeros(512)) else img
  }

  /** The store after the system area RunE writes for the plan, label and OEM name. */
  function SystemImage(p: Plan, volLabel: seq<Byte>, oem: seq<Byte>, d: seq<Byte>, cleared: bool): (r: seq<Byte>)
    ensures |r| == |d|
  {
    Image(p, SystemPuts(p, volLabel, oem), d, cleared)
  }

  /**
   * `now` is what a failed system area leaves: the writes before `ws[k]`
   * and the first `done` bytes of `ws[k]`.
   */
  predicate StoppedAt(ws: seq<Put>, d: seq<Byte>, k: nat, done: nat, now: seq<Byte>) {
    k < |ws| && done <= |ws[k].bytes|
    && now == Overlay(Apply(d, ws[..k]), ws[k].sector * 512, ws[k].bytes[..done])
  }

  /** The syncs of the system area: one per phase (the label entry has none, the FAT32 root clearing has one). */
  function SystemSyncs(p: Plan): nat {
    if p.ft == FAT32 then 6 else 4
  }

  /**
   * For a planned volume, every system write starts where the one before
   * it ended or later, inside the system area; the label entry alone is
   * written over the start of the root directory it follows.
   */
  lemma PutsInOrder(p: Plan, boot: seq<Byte>, info: seq<Byte>, fat: seq<Byte>, entry: seq<Byte>)
    requires WellPlanned(p) && |boot| == 512 && |info| == 512 && |fat| == p.layout.fatSectors * 512
    ensures var ws := Puts(p, boot, info, fat, entry);
      (forall i :: 0 < i < |ws| && !(p.ft != FAT32 && i == 4) ==> End(ws[i - 1]) <= Start(ws[i]))
      && (forall i :: 0 <= i < |ws| && !(p.ft != FAT32 && i == 4) ==> 0 <= Start(ws[i]) && End(ws[i]) <= p.absData * 512)
      && (p.ft != FAT32 && |entry| > 0 ==> Start(ws[4]) == Start(ws[3]))
  {
    var ws := Puts(p, boot, info, fat, entry);
    assert End(ws[0]) == 512;
    if p.ft == FAT32 {
      assert Start(ws[1]) == 512 && End(ws[1]) == 1024;
      assert Start(ws[2]) == 3072 && End(ws[2]) == 3584;
      assert Start(ws[3]) == 32 * 512 && End(ws[3]) == Start(ws[4]);
      assert End(ws[4]) == p.absData * 512;
    } else {
      assert Start(ws[1]) == p.absFat1 * 512 >= 512;
      assert End(ws[1]) == Start(ws[2]) && End(ws[2]) == Start(ws[3]);
      assert End(ws[3]) == p.absData * 512;
    }
  }

  /** The FAT32 system writes, seen by position: boot, FSInfo, backup boot, FAT #1, FAT #2. */
  lemma Keeps32(d: seq<Byte>, ws: seq<Put>, boot: seq<Byte>, fat: seq<Byte>, a1: int, a2: int)
    requires |ws| == 5 && ws[0] == Put(0, boot) && ws[2] == Put(6, boot)
    requires ws[3] == Put(a1, fat) && ws[4] == Put(a2, fat)
    requires |boot| == 512 && 512 <= Start(ws[1]) && End(ws[1]) <= 6 * 512
    requires 7 <= a1 && a1 * 512 + |fat| <= a2 * 512 && a2 * 512 + |fat| <= |d|
    ensures var img := Apply(d, ws);
      img[..512] == boot && img[6 * 512..7 * 512] == boot
      && img[a1 * 512..a1 * 512 + |fat|] == fat && img[a2 * 512..a2 * 512 + |fat|] == fat
  {
    forall j | 0 < j < 5 ensures Apart(ws[0], ws[j]) {
      assert j == 1 || j == 2 || j == 3 || j == 4;
    }
    ApplyKeeps(d, ws, 0);
    forall j | 2 < j < 5 ensures Apart(ws[2], ws[j]) {
      assert j == 3 || j == 4;
    }
    ApplyKeeps(d, ws, 2);
    forall j | 3 < j < 5 ensures Apart(ws[3], ws[j]) {
      assert j == 4;
    }
    assert Lands(|d|, ws[3]) && Lands(|d|, ws[4]);
    ApplyKeeps(d, ws, 3);
    ApplyKeeps(d, ws, 4);
  }

  /** The FAT12/16 system writes, seen by position: boot, FAT #1, FAT #2, root directory, label entry. */
  lemma Keeps1216(d: seq<Byte>, ws: seq<Put>, boot: seq<Byte>, fat: seq<Byte>, a1: int, a2: int)
    requires 4 <= |ws| <= 5 && ws[0] == Put(0, boot) && ws[1] == Put(a1, fat) && ws[2] == Put(a2, fat)
    requires |boot| == 512 && 1 <= a1 && a1 * 512 + |fat| <= a2 * 512 && a2 * 512 + |fat| <= Start(ws[3])
    requires |ws| == 5 ==> Start(ws[4]) == Start(ws[3])
    requires End(ws[3]) <= |d|
    ensures var img := Apply(d, ws);
      img[..512] == boot
      && img[a1 * 512..a1 * 512 + |fat|] == fat && img[a2 * 512..a2 * 512 + |fat|] == fat
  {
    forall j | 0 < j < |ws| ensures Apart(ws[0], ws[j]) {
      assert j == 1 || j == 2 || j == 3 || j == 4;
    }
    ApplyKeeps(d, ws, 0);
    forall j | 1 < j < |ws| ensures Apart(ws[1], ws[j]) {
      assert j == 2 || j == 3 || j == 4;
    }
    ApplyKeeps(d, ws, 1);
    forall j | 2 < j < |ws| ensures Apart(ws[2], ws[j]) {
      assert j == 3 || j == 4;
    }
    assert Lands(|d|, ws[1]) && Lands(|d|, ws[2]);
    ApplyKeeps(d, ws, 2);
  }

  /**
   * On a store that holds the system area, what the FAT32 system writes
   * leave behind: the boot sector at sectors 0 and 6 and the FAT buffer at
   * both FAT copies.
   */
  lemma PutsKeep32(p: Plan, boot: seq<Byte>, info: seq<Byte>, fat: seq<Byte>, entry: seq<Byte>, d: seq<Byte>)
    requires WellPlanned(p) && p.ft == FAT32 && |boot| == 512 && |info| == 512
    requires |fat| == p.layout.fatSectors * 512 && p.absData * 512 <= |d|
    ensures var img := Apply(d, Puts(p, boot, info, fat, entry));
      img[..512] == boot && img[6 * 512..7 * 512] == boot
      && img[p.absFat1 * 512..p.absFat1 * 512 + |fat|] == fat
      && img[p.absFat2 * 512..p.absFat2 * 512 + |fat|] == fat
  {
    Keeps32(d, Puts(p, boot, info, fat, entry), boot, fat, p.absFat1, p.absFat2);
  }

  /**
   * On a store that holds the system area, what the FAT12/16 system writes
   * leave behind: the boot sector at sector 0 and the FAT buffer at both
   * FAT copies.
   */
  lemma PutsKeep1216(p: Plan, boot: seq<Byte>, info: seq<Byte>, fat: seq<Byte>, entry: seq<Byte>, d: seq<Byte>)
    requires WellPlanned(p) && p.ft != FAT32 && |boot| == 512
    requires |fat| == p.layout.fatSectors * 512 && p.absData * 512 <= |d|
    ensures var img := Apply(d, Puts(p, boot, info, fat, entry));
      img[..512] == boot
      && img[p.absFat1 * 512..p.absFat1 * 512 + |fat|] == fat
      && img[p.absFat2 * 512..p.absFat2 * 512 + |fat|] == fat
  {
    Keeps1216(d, Puts(p, boot, info, fat, entry), boot, fat, p.absFat1, p.absFat2);
  }

  /** Both variants at once, each under its own type. */
  lemma PutsKeep(p: Plan, boot: seq<Byte>, info: seq<Byte>, fat: seq<Byte>, entry: seq<Byte>, d: seq<Byte>)
    requires WellPlanned(p) && |boot| == 512 && |info| == 512
    requires |fat| == p.layout.fatSectors * 512 && p.absData * 512 <= |d|
    ensures p.ft == FAT32 ==>
      var img := Apply(d, Puts(p, boot, info, fat, entry));
      img[p.absFat1 * 512..p.absFat1 * 512 + |fat|] == fat && img[p.absFat2 * 512..p.absFat2 * 512 + |fat|] == fat
    ensures p.ft != FAT32 ==>
      var img := Apply(d, Puts(p, boot, info, fat, entry));
      img[p.absFat1 * 512..p.absFat1 * 512 + |fat|] == fat && img[p.absFat2 * 512..p.absFat2 * 512 + |fat|] == fat
  {
    if p.ft == FAT32 {
      PutsKeep32(p, boot, info, fat, entry, d);
    } else {
      PutsKeep1216(p, boot, info, fat, entry, d);
    }
  }

  /**
   * FAT #1 and FAT #2 of a planned volume hold the same bytes, the one
   * table buffer written to both, once the system area is written onto a
   * store that holds it, whatever boot sector, FSInfo sector and label
   * entry go with them.
   */
  lemma FatCopiesIdentical(p: Plan, boot: seq<Byte>, info: seq<Byte>, fat: seq<Byte>, entry: seq<Byte>, d: seq<Byte>)
    requires WellPlanned(p) && |boot| == 512 && |info| == 512
    requires |fat| == p.layout.fatSectors * 512 && p.absData * 512 <= |d|
    ensures var img := Apply(d, Puts(p, boot, info, fat, entry));
      img[p.absFat1 * 512..p.absFat1 * 512 + |fat|] == img[p.absFat2 * 512..p.absFat2 * 512 + |fat|] == fat
  {
    PutsKeep(p, boot, info, fat, entry, d);
  }

  /**
   * The first sector of a planned volume is its boot sector and reads back
   * as the plan's geometry; on FAT32 the backup copy at sector 6 is the
   * same sector.
   */
  lemma BootSectorReadsBack(p: Plan, volLabel: seq<Byte>, oem: seq<Byte>, d: seq<Byte>)
    requires WellPlanned(p) && p.absData * 512 <= |d|
    ensures var img := Apply(d, SystemPuts(p, volLabel, oem));
      img[..512] == BootSector(p, volLabel, oem)
      && (p.ft != FAT32 ==>
            ParseBpb(img[..512]) == p.g.(sectorsPerFAT32 := 0, rootCluster := 0, fsInfoSector := 0, backupBootSector := 0))
      && (p.ft == FAT32 ==>
            ParseBpb32(img[..512]) == p.g.(rootEntries := 0, sectorsPerFAT16 := 0) && img[6 * 512..7 * 512] == img[..512])
  {
    if p.ft == FAT32 {
      PutsKeep32(p, BootSector(p, volLabel, oem), BuildFSInfo(), FatImage(p), BuildRootLabelEntry(volLabel), d);
      BootSector32RoundTrip(p.g, volLabel, oem);
    } else {
      PutsKeep1216(p, BootSector(p, volLabel, oem), BuildFSInfo(), FatImage(p), BuildRootLabelEntry(volLabel), d);
      BootSector1216RoundTrip(p.ft, p.g, volLabel, oem);
    }
  }

  /**
   * One span-write phase of the system area followed by `file.Sync()`:
   * write `ws[k]` on top of the writes before it, or stop where the write
   * failed or the stop request was seen.
   */
  method WritePhase(w: Disk, absStart: int, buf: seq<Byte>, pt: ProgressTracker, stop: StopSignal,
                    ghost ws: seq<Put>, ghost k: nat, ghost d0: seq<Byte>)
    returns (err: Option<IoError>, ghost done: nat)
    requires w.Valid() && pt.Valid()
    requires k < |ws| && ws[k] == Put(absStart, buf) && w.data == Apply(d0, ws[..k])
    modifies w, pt, pt.progressMap, stop
    ensures w.Valid() && pt.Valid()
    ensures err.None? ==> w.data == Apply(d0, ws[..k + 1]) && w.syncs == old(w.syncs) + 1
    ensures err.Some? ==> StoppedAt(ws, d0, k, done, w.data) && (err.value.WriteError? || err.value == Interrupted)
  {
    err, done := WriteSpan(w, absStart, buf, pt, stop);
    if err.None? {
      assert buf[..done] == buf;
      ApplyStep(d0, ws, k);
      w.Sync();
    }
  }

  /** The zeroing phase of the root directory, followed by `file.Sync()`. */
  method ZeroPhase(w: Disk, absStart: int, sectors: int, pt: ProgressTracker, stop: StopSignal,
                   ghost ws: seq<Put>, ghost k: nat, ghost d0: seq<Byte>)
    returns (err: Option<IoError>, ghost done: nat)
    requires w.Valid() && pt.Valid() && sectors >= 0
    requires k < |ws| && ws[k] == Put(absStart, Zeros(sectors * 512)) && w.data == Apply(d0, ws[..k])
    modifies w, pt, pt.progressMap, stop
    ensures w.Valid() && pt.Valid()
    ensures err.None? ==> w.data == Apply(d0, ws[..k + 1]) && w.syncs == old(w.syncs) + 1
    ensures err.Some? ==> StoppedAt(ws, d0, k, done, w.data) && (err.value.WriteError? || err.value == Interrupted)
  {
    err, done := ZeroSpan(w, absStart, sectors, pt, stop);
    assert Zeros(sectors * 512)[..done] == Zeros(done);
    if err.None? {
      assert Zeros(sectors * 512)[..done] == Zeros(sectors * 512);
      ApplyStep(d0, ws, k);
      w.Sync();
    }
  }

  /**
   * The best-effort clearing of one sector followed by `file.Sync()`: the
   * sector is zeroed when the write went through and untouched otherwise,
   * its error ignored.
   */
  method ClearSector(w: Disk, sector: int, pt: ProgressTracker, stop: StopSignal) returns (ghost cleared: bool)
    requires w.Valid() && pt.Valid()
    modifies w, pt, pt.progressMap, stop
    ensures w.Valid() && pt.Valid()
    ensures w.data == if cleared then Overlay(old(w.data), sector * 512, Zeros(512)) else old(w.data)
    ensures w.syncs == old(w.syncs) + 1
  {
    ghost var d0 := w.data;
    var ignored;
    ghost var z;
    ignored, z := ZeroSpan(w, sector, 1, pt, stop);
    w.Sync();
    cleared := z == 512;
    if !cleared {
      OverlayEmpty(d0, sector * 512);
    }
  }

  /**
   * The FAT32 system area (main.go:1364-1462): boot sector, FSInfo sector,
   * backup boot sector and both FATs, a sync after each, the first failing
   * phase ending the format with its error; then the first sector of the
   * root directory cluster is cleared, its error ignored, and synced.
   */
  method WritePuts32(w: Disk, p: Plan, boot: seq<Byte>, info: seq<Byte>, fat: seq<Byte>,
                     pt: ProgressTracker, stop: StopSignal, ghost ws: seq<Put>)
    returns (err: Option<IoError>, ghost k: nat, ghost done: nat, ghost cleared: bool)
    requires w.Valid() && pt.Valid() && p.ft == FAT32
    requires |ws| == 5 && ws[0] == Put(0, boot) && ws[1] == Put(p.g.fsInfoSector, info)
    requires ws[2] == Put(p.g.backupBootSector, boot) && ws[3] == Put(p.absFat1, fat) && ws[4] == Put(p.absFat2, fat)
    modifies w, pt, pt.progressMap, stop
    ensures w.Valid() && pt.Valid()
    ensures err.Some? ==> StoppedAt(ws, old(w.data), k, done, w.data) && (err.value.WriteError? || err.value == Interrupted)
    ensures err.None? ==> w.data == Image(p, ws, old(w.data), cleared) && w.syncs == old(w.syncs) + 6
  {
    ghost var d0 := w.data;
    cleared := false;
    assert ws[..0] == [];
    k := 0;
    err, done := WritePhase(w, 0, boot, pt, stop, ws, 0, d0);
    if err.Some? {
      return;
    }
    k := 1;
    err, done := WritePhase(w, p.g.fsInfoSector, info, pt, stop, ws, 1, d0);
    if err.Some? {
      return;
    }
    k := 2;
    err, done := WritePhase(w, p.g.backupBootSector, boot, pt, stop, ws, 2, d0);
    if err.Some? {
      return;
    }
    k := 3;
    err, done := WritePhase(w, p.absFat1, fat, pt, stop, ws, 3, d0);
    if err.Some? {
      return;
    }
    k := 4;
    err, done := WritePhase(w, p.absFat2, fat, pt, stop, ws, 4, d0);
    if err.Some? {
      return;
    }
    assert ws[..5] == ws;
    cleared := ClearSector(w, p.absData, pt, stop);
  }

  /**
   * The FAT12/16 system area (main.go:1364-1454): boot sector and both
   * FATs, a sync after each, then the root directory zeroed and synced,
   * then the label entry over its first slot when there is a label; the
   * first failing phase ends the format with its error.
   */
  method WritePuts1216(w: Disk, p: Plan, boot: seq<Byte>, fat: seq<Byte>, entry: seq<Byte>,
                       pt: ProgressTracker, stop: StopSignal, ghost ws: seq<Put>)
    returns (err: Option<IoError>, ghost k: nat, ghost done: nat)
    requires w.Valid() && pt.Valid()
    requires |ws| == (if |entry| > 0 then 5 else 4) && ws[0] == Put(0, boot)
    requires ws[1] == Put(p.absFat1, fat) && ws[2] == Put(p.absFat2, fat)
    requires ws[3] == Put(p.absRoot, Zeros(p.layout.rootDirSectors * 512)) && (|entry| > 0 ==> ws[4] == Put(p.absRoot, entry))
    modifies w, pt, pt.progressMap, stop
    ensures w.Valid() && pt.Valid()
    ensures err.Some? ==> StoppedAt(ws, old(w.data), k, done, w.data) && (err.value.WriteError? || err.value == Interrupted)
    ensures err.None? ==> w.data == Apply(old(w.data), ws) && w.syncs == old(w.syncs) + 4
  {
    ghost var d0 := w.data;
    assert ws[..0] == [];
    k := 0;
    err, done := WritePhase(w, 0, boot, pt, stop, ws, 0, d0);
    if err.Some? {
      return;
    }
    k := 1;
    err, done := WritePhase(w, p.absFat1, fat, pt, stop, ws, 1, d0);
    if err.Some? {
      return;
    }
    k := 2;
    err, done := WritePhase(w, p.absFat2, fat, pt, stop, ws, 2, d0);
    if err.Some? {
      return;
    }
    k := 3;
    err, done := ZeroPhase(w, p.absRoot, p.layout.rootDirSectors, pt, stop, ws, 3, d0);
    if err.Some? {
      return;
    }
    if |entry| > 0 {
      k := 4;
      var ok := w.WriteAt(entry, p.absRoot * 512);
      if !ok {
        assert entry[..0] == [];
        OverlayEmpty(Apply(d0, ws[..4]), p.absRoot * 512);
        err, done := Some(WriteError(p.absRoot * 512)), 0;
        return;
      }
      ApplyStep(d0, ws, 4);
      assert ws[..5] == ws;
    } else {
      assert ws[..4] == ws;
    }
  }

  /**
   * RunE's `fatBuf`: `fatSecs` sectors allocated zeroed, whose reserved
   * entries `initFAT32` or `initFAT1216` then set in place.
   */
  method BuildFatBuffer(p: Plan) returns (fat: seq<Byte>)
    ensures fat == FatImage(p)
  {
    var fatBuf := new Byte[p.layout.fatSectors * p.g.bytesPerSector](_ => 0);
    assert fatBuf[..] == Zeros(p.layout.fatSectors * p.g.bytesPerSector);
    if p.ft == FAT32 {
      InitFAT32(fatBuf, p.g.media);
    } else {
      InitFAT1216(p.ft, fatBuf, p.g.media);
    }
    fat := fatBuf[..];
  }

  /**
   * The system area of the real write (main.go:1364-1462) for the plan,
   * label and OEM name: the boot sector and the FAT buffer are built as
   * RunE builds them, then written in RunE's order. `k` is the failing
   * phase and `done` the bytes of it that reached the store; `cleared`
   * tells whether the FAT32 clearing of the first data sector went through.
   */
  method WriteSystemArea(w: Disk, p: Plan, volLabel: seq<Byte>, oem: seq<Byte>, pt: ProgressTracker, stop: StopSignal)
    returns (err: Option<IoError>, ghost k: nat, ghost done: nat, ghost cleared: bool)
    requires w.Valid() && pt.Valid()
    modifies w, pt, pt.progressMap, stop
    ensures w.Valid() && pt.Valid()
    ensures err.Some? ==>
      StoppedAt(SystemPuts(p, volLabel, oem), old(w.data), k, done, w.data)
      && (err.value.WriteError? || err.value == Interrupted)
    ensures err.None? ==>
      w.data == SystemImage(p, volLabel, oem, old(w.data), cleared) && w.syncs == old(w.syncs) + SystemSyncs(p)
  {
    var boot := BootSector(p, volLabel, oem);
    var fat := BuildFatBuffer(p);
    var entry := BuildRootLabelEntry(volLabel);
    ghost var ws := SystemPuts(p, volLabel, oem);
    if p.ft == FAT32 {
      err, k, done, cleared := WritePuts32(w, p, boot, BuildFSInfo(), fat, pt, stop, ws);
    } else {
      cleared := false;
      err, k, done := WritePuts1216(w, p, boot, fat, entry, pt, stop, ws);
    }
  }

  /**
   * RunE's full format of the data area, after the system area
   * (main.go:1465-1488): `sector` runs the bad-sector scan, `track`,
   * `phase` and `none` zero the area track by track and optionally read
   * one sector per track back, any other policy does nothing. As written
   * the scan leaves each sector's pattern byte behind; otherwise the
   * corrected scan leaves the area zeroed. The returned warning is
   * printed, never returned.
   */
  method FormatDataArea(w: Disk, absData: int, remaining: int, spt: U16, mode: SyncMode, verify: bool,
                        asWritten: bool, pt: ProgressTracker, stop: StopSignal)
    returns (warning: Option<IoError>)
    requires w.Valid() && pt.Valid() && remaining > 0
    modifies w, pt, pt.progressMap, stop
    ensures w.Valid() && pt.Valid()
    ensures SamePrefix(w.data, old(w.data), absData * 512)
    ensures mode == UnknownSync ==> warning.None? && w.data == old(w.data) && w.syncs == old(w.syncs)
    ensures mode != UnknownSync && !(asWritten && mode == SectorSync) && warning.None? ==>
      w.data == Overlay(old(w.data), absData * 512, Zeros(remaining * 512))
    ensures asWritten && mode == SectorSync && !Aborted(warning) ==>
      w.data == Scanned(old(w.data), absData, remaining, remaining)
      && warning == BadVerdict(BadIn(w, absData, absData + remaining))
    ensures mode == SectorSync ==> w.syncs == old(w.syncs)
    ensures mode != SectorSync && mode != UnknownSync && warning.None? ==>
      w.syncs == old(w.syncs) + TrackSyncs(mode, remaining, TrackLength(spt))
  {
    warning := None;
    if mode == SectorSync {
      if asWritten {
        ghost var d0 := w.data;
        ghost var scanned, zeroed;
        warning, scanned, zeroed := FullFormatDataArea(w, absData, remaining, pt, stop);
        ScannedAbove(d0, absData, scanned, zeroed);
      } else {
        warning := FullFormatDataAreaZeroed(w, absData, remaining, pt, stop);
      }
    } else if mode != UnknownSync {
      ghost var d0 := w.data;
      ghost var done;
      warning, done := FullFormatTrack(w, absData, remaining, spt, pt, stop, mode);
      OverlayAbove(d0, absData * 512, Zeros(done * 512), absData * 512);
      if verify {
        var ignored := VerifyTrackRead(w, absData, remaining, spt);
      }
    }
  }

  /**
   * The real write of RunE (main.go:1280-1490) on a plan: the system area,
   * then, with `--full`, the data area up to the end of the target. Only a
   * system-area failure is returned; a failure of the full format, a stop
   * request during it included, is the `warning` and the format still
   * succeeds. On success the system area stays as written. `asWritten`
   * selects the data-area scan of the code, which leaves pattern bytes.
   */
  method FormatVolume(w: Disk, p: Plan, volLabel: seq<Byte>, oem: seq<Byte>, full: bool, sync: string, verify: bool,
                      asWritten: bool, stop: StopSignal)
    returns (err: Option<IoError>, ghost warning: Option<IoError>, ghost cleared: bool)
    requires w.Valid() && 0 <= p.totalSectors < 0x8000_0000_0000_0000
    modifies w, stop
    ensures w.Valid()
    ensures err.Some? ==>
      warning.None? && exists k: nat, done: nat :: StoppedAt(SystemPuts(p, volLabel, oem), old(w.data), k, done, w.data)
    ensures err.Some? ==> err.value.WriteError? || err.value == Interrupted
    ensures err.None? ==> SamePrefix(w.data, SystemImage(p, volLabel, oem, old(w.data), cleared), p.absData * 512)
    ensures var remaining := p.totalSectors - p.absData;
      err.None? && !(full && remaining > 0 && ParseSyncMode(sync) != UnknownSync) ==>
        warning.None? && w.data == SystemImage(p, volLabel, oem, old(w.data), cleared)
        && w.syncs == old(w.syncs) + SystemSyncs(p)
    ensures var remaining := p.totalSectors - p.absData; var mode := ParseSyncMode(sync);
      err.None? && full && remaining > 0 && mode != UnknownSync && !(asWritten && mode == SectorSync)
      && warning.None? ==>
        w.data == Overlay(SystemImage(p, volLabel, oem, old(w.data), cleared), p.absData * 512, Zeros(remaining * 512))
    ensures var remaining := p.totalSectors - p.absData;
      err.None? && full && remaining > 0 && asWritten && ParseSyncMode(sync) == SectorSync && !Aborted(warning) ==>
        w.data == Scanned(SystemImage(p, volLabel, oem, old(w.data), cleared), p.absData, remaining, remaining)
  {
    var pt := new ProgressTracker(p.totalSectors);
    ghost var k, done;
    err, k, done, cleared := WriteSystemArea(w, p, volLabel, oem, pt, stop);
    warning := None;
    if err.Some? {
      return;
    }
    var remaining := p.totalSectors - p.absData;
    if full && remaining > 0 {
      var mode := ParseSyncMode(sync);
      warning := FormatDataArea(w, p.absData, remaining, p.g.sectorsPerTrack, mode, verify, asWritten, pt, stop);
    }
  }
}
