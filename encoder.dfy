// Byte-exact on-disk structures: the FAT12/16 and FAT32 boot sectors, the
// FAT32 FSInfo sector, the root-directory volume-label entry and the
// reserved entries at the head of a fresh FAT (the "Boot Sector and BPB",
// "FAT32 FSInfo Sector Structure" and "FAT Data Structure" sections of the
// Microsoft FAT specification).

module Encoder {
  import opened Bytes
  import opened Geometry

  const SectorSize: nat := 512

  /** The label written when none is given: "NO NAME" padded to eleven bytes. */
  const DefaultLabel: seq<Byte> := Ascii("NO NAME    ")
  /** The OEM name written when none is given. */
  const DefaultOem: seq<Byte> := Ascii("EARMKFAT")

  /** The message the boot stub prints, NUL-terminated. */
  const BootMessage: seq<Byte> :=
    Ascii("Non-system disk or disk error\r\nReplace and press any key when ready\r\n\0")

  /** The two-byte boot signature closing the sector. */
  const Signature: seq<Byte> := [0x55, 0xAA]

  /** Go's `if s == "" { s = d }`. */
  function OrDefault(s: seq<Byte>, d: seq<Byte>): (r: seq<Byte>)
    ensures |s| > 0 ==> r == s
    ensures |s| == 0 ==> r == d
  {
    if |s| == 0 then d else s
  }

  /**
   * The 29-byte real-mode stub: print the NUL-terminated string at `msgAddr`
   * through INT 10h, wait for a key (INT 16h), then reboot (INT 19h).
   */
  function BootCode(msgAddr: U16): (r: seq<Byte>)
    ensures |r| == 29 && r[2] == 0xBE && U16At(r, 3) == msgAddr
  {
    [0x0E, 0x1F, 0xBE] + LE16(msgAddr)
      + [0xAC, 0x22, 0xC0, 0x74, 0x0B, 0x56, 0xB4, 0x0E, 0xBB, 0x07, 0x00, 0xCD, 0x10, 0x5E,
         0xEB, 0xF0, 0x32, 0xE4, 0xCD, 0x16, 0xCD, 0x19, 0xEB, 0xFE]
  }

  /** The file-system type string of the extended BPB. */
  function TypeName1216(ft: FatType): (r: seq<Byte>)
    ensures |r| == 8
  {
    if ft == FAT12 then Ascii("FAT12   ") else Ascii("FAT16   ")
  }

  /**
   * Bytes 11..36 of every boot sector: the BIOS Parameter Block common to
   * all three variants.
   */
  function BpbFields(g: Geom): (r: seq<Byte>)
    ensures |r| == 25
  {
    LE16(g.bytesPerSector) + [g.sectorsPerCluster] + LE16(g.reservedSectors) + [g.numFATs]
      + LE16(g.rootEntries) + LE16(g.totalSectors16) + [g.media] + LE16(g.sectorsPerFAT16)
      + LE16(g.sectorsPerTrack) + LE16(g.numHeads) + LE32(g.hiddenSectors) + LE32(g.totalSectors32)
  }

  /** Reads the common BPB back from its 25 bytes; the FAT32-only fields read as zero. */
  function ParseBpbFields(b: seq<Byte>): Geom
    requires |b| == 25
  {
    Geom(U16At(b, 0), b[2], U16At(b, 3), b[5], U16At(b, 6), U16At(b, 8), b[10], U16At(b, 11),
         U16At(b, 13), U16At(b, 15), U32At(b, 17), U32At(b, 21), 0, 0, 0, 0)
  }

  /** Each field of the common BPB reads back from its offset. */
  lemma BpbFieldsRead(g: Geom)
    ensures var b := BpbFields(g);
      U16At(b, 0) == g.bytesPerSector && b[2] == g.sectorsPerCluster && U16At(b, 3) == g.reservedSectors
      && b[5] == g.numFATs && U16At(b, 6) == g.rootEntries && U16At(b, 8) == g.totalSectors16
      && b[10] == g.media && U16At(b, 11) == g.sectorsPerFAT16 && U16At(b, 13) == g.sectorsPerTrack
      && U16At(b, 15) == g.numHeads && U32At(b, 17) == g.hiddenSectors && U32At(b, 21) == g.totalSectors32
  {
  }

  /** The common BPB reads back as the geometry it was built from. */
  lemma BpbFieldsRoundTrip(g: Geom)
    ensures ParseBpbFields(BpbFields(g)) ==
      g.(sectorsPerFAT32 := 0, rootCluster := 0, fsInfoSector := 0, backupBootSector := 0)
  {
    BpbFieldsRead(g);
  }

  /** Bytes 36..62 of a FAT12/16 boot sector: drive number, reserved byte, extended boot signature 0x29, serial, label, type. */
  function Ebpb1216(ft: FatType, volLabel: seq<Byte>): (r: seq<Byte>)
    ensures |r| == 26
  {
    [0x00, 0x00, 0x29] + LE32(0x12345678) + PadRight(volLabel, 11) + TypeName1216(ft)
  }

  /** All-zero bytes. */
  predicate IsZero(s: seq<Byte>) {
    forall i :: 0 <= i < |s| ==> s[i] == 0
  }

  /** Bytes 0..62 of a FAT12/16 boot sector: jump, OEM name, BPB and extended BPB. */
  function Head1216(ft: FatType, g: Geom, volLabel: seq<Byte>, oem: seq<Byte>): (r: seq<Byte>)
    ensures |r| == 62
  {
    var jumpOem := [0xEB, 0x3C, 0x90] + PadRight(OrDefault(oem, DefaultOem), 8);
    var ebpb := [0x00, 0x00, 0x29] + LE32(0x12345678) + PadRight(OrDefault(volLabel, DefaultLabel), 11)
      + TypeName1216(ft);
    jumpOem + BpbFields(g) + ebpb
  }

  /** Bytes 62..512 of a FAT12/16 boot sector: stub, message and signature. */
  const Tail1216: seq<Byte> := (BootCode(0x7C77) + Zeros(28)) + (BootMessage + Zeros(321) + Signature)

  /**
   * main.go `buildBootSector1216`: the 512-byte boot sector of a FAT12 or
   * FAT16 volume; BootSector1216Layout states where each field lands.
   */
  function BuildBootSector1216(ft: FatType, g: Geom, volLabel: seq<Byte>, oem: seq<Byte>): (sec: seq<Byte>)
    ensures |sec| == SectorSize
  {
    Head1216(ft, g, volLabel, oem) + Tail1216
  }

  /** The fields of the FAT12/16 head at their offsets. */
  lemma Head1216Fields(ft: FatType, g: Geom, volLabel: seq<Byte>, oem: seq<Byte>)
    ensures var h := Head1216(ft, g, volLabel, oem);
      h[..3] == [0xEB, 0x3C, 0x90]
      && h[3..11] == PadRight(OrDefault(oem, DefaultOem), 8)
      && h[11..36] == BpbFields(g)
      && h[36..39] == [0x00, 0x00, 0x29] && h[39..43] == LE32(0x12345678)
      && h[43..54] == PadRight(OrDefault(volLabel, DefaultLabel), 11)
      && h[54..62] == TypeName1216(ft)
  {
    var oemField := PadRight(OrDefault(oem, DefaultOem), 8);
    var jumpOem := [0xEB, 0x3C, 0x90] + oemField;
    Left3([0xEB, 0x3C, 0x90], oemField, BpbFields(g),
          [0x00, 0x00, 0x29] + LE32(0x12345678) + PadRight(OrDefault(volLabel, DefaultLabel), 11) + TypeName1216(ft));
    Right4(jumpOem + BpbFields(g), [0x00, 0x00, 0x29], LE32(0x12345678),
           PadRight(OrDefault(volLabel, DefaultLabel), 11), TypeName1216(ft));
  }

  /** The first 62 bytes of the FAT12/16 boot sector: jump, OEM name, BPB and extended BPB. */
  lemma BootSector1216Head(ft: FatType, g: Geom, volLabel: seq<Byte>, oem: seq<Byte>)
    ensures var sec := BuildBootSector1216(ft, g, volLabel, oem);
      sec[..3] == [0xEB, 0x3C, 0x90]
      && sec[3..11] == PadRight(OrDefault(oem, DefaultOem), 8)
      && sec[11..36] == BpbFields(g)
      && sec[36..39] == [0x00, 0x00, 0x29] && sec[39..43] == LE32(0x12345678)
      && sec[43..54] == PadRight(OrDefault(volLabel, DefaultLabel), 11)
      && sec[54..62] == TypeName1216(ft)
  {
    var sec := BuildBootSector1216(ft, g, volLabel, oem);
    var h := Head1216(ft, g, volLabel, oem);
    Head1216Fields(ft, g, volLabel, oem);
    Halves(h, Tail1216);
    PrefixSlice(sec, h, 0, 3);
    PrefixSlice(sec, h, 3, 11);
    PrefixSlice(sec, h, 11, 36);
    PrefixSlice(sec, h, 36, 39);
    PrefixSlice(sec, h, 39, 43);
    PrefixSlice(sec, h, 43, 54);
    PrefixSlice(sec, h, 54, 62);
  }

  /** Bytes 62..512 of the FAT12/16 boot sector: stub, message and signature. */
  lemma BootSector1216Tail(ft: FatType, g: Geom, volLabel: seq<Byte>, oem: seq<Byte>)
    ensures var sec := BuildBootSector1216(ft, g, volLabel, oem);
      sec[62..91] == BootCode(0x7C77) && IsZero(sec[91..119])
      && sec[119..189] == BootMessage && IsZero(sec[189..510])
      && sec[510..] == Signature
  {
    Tail5(Head1216(ft, g, volLabel, oem), BootCode(0x7C77), Zeros(28), BootMessage, Zeros(321), Signature);
  }

  /**
   * The FAT12/16 boot sector field by field: jump, OEM name padded to eight
   * bytes (default "EARMKFAT"), the BPB, the extended boot signature 0x29
   * and serial, the label padded to eleven bytes (default "NO NAME"), the
   * type string, the stub whose message pointer 0x7C77 is offset 119 once
   * the BIOS has loaded the sector at 0x7C00, the message, and 0x55 0xAA.
   */
  lemma BootSector1216Layout(ft: FatType, g: Geom, volLabel: seq<Byte>, oem: seq<Byte>)
    ensures var sec := BuildBootSector1216(ft, g, volLabel, oem);
      sec[..3] == [0xEB, 0x3C, 0x90]
      && sec[3..11] == PadRight(OrDefault(oem, DefaultOem), 8)
      && sec[11..36] == BpbFields(g)
      && sec[38] == 0x29 && U32At(sec, 39) == 0x12345678
      && sec[43..54] == PadRight(OrDefault(volLabel, DefaultLabel), 11)
      && sec[54..62] == (if ft == FAT12 then Ascii("FAT12   ") else Ascii("FAT16   "))
      && sec[62..91] == BootCode(0x7C00 + 119) && IsZero(sec[91..119])
      && sec[119..189] == BootMessage && IsZero(sec[189..510])
      && sec[510] == 0x55 && sec[511] == 0xAA
  {
    var sec := BuildBootSector1216(ft, g, volLabel, oem);
    BootSector1216Head(ft, g, volLabel, oem);
    BootSector1216Tail(ft, g, volLabel, oem);
    assert sec[38] == sec[36..39][2];
    U32AtSlice(sec, 39);
    assert sec[510] == sec[510..][0] && sec[511] == sec[510..][1];
  }

  /** The BPB at bytes 11..36 of a boot sector, read back. */
  function ParseBpb(sec: seq<Byte>): Geom
    requires |sec| == SectorSize
  {
    ParseBpbFields(sec[11..36])
  }

  /**
   * A FAT12/16 boot sector records every BPB field of its geometry, and
   * none of the FAT32-only ones.
   */
  lemma BootSector1216RoundTrip(ft: FatType, g: Geom, volLabel: seq<Byte>, oem: seq<Byte>)
    ensures ParseBpb(BuildBootSector1216(ft, g, volLabel, oem)) ==
      g.(sectorsPerFAT32 := 0, rootCluster := 0, fsInfoSector := 0, backupBootSector := 0)
  {
    BootSector1216Head(ft, g, volLabel, oem);
    BpbFieldsRoundTrip(g);
  }

  /** Bytes 36..64 of a FAT32 boot sector: the FAT32 extension of the BPB. */
  function Bpb32Fields(g: Geom): (r: seq<Byte>)
    ensures |r| == 28
  {
    LE32(g.sectorsPerFAT32) + LE16(0) + LE16(0) + LE32(g.rootCluster) + LE16(g.fsInfoSector)
      + LE16(g.backupBootSector) + Zeros(12)
  }

  /** Bytes 0..90 of a FAT32 boot sector: jump, OEM name, BPB, FAT32 extension and extended BPB. */
  function Head32(g: Geom, volLabel: seq<Byte>, oem: seq<Byte>): (r: seq<Byte>)
    ensures |r| == 90
  {
    var jumpOem := [0xEB, 0x58, 0x90] + PadRight(OrDefault(oem, DefaultOem), 8);
    var bpb := BpbFields(g.(rootEntries := 0, sectorsPerFAT16 := 0)) + Bpb32Fields(g);
    var ebpb := [0x80, 0x00, 0x29] + LE32(0x12345678) + PadRight(OrDefault(volLabel, DefaultLabel), 11)
      + Ascii("FAT32   ");
    jumpOem + bpb + ebpb
  }

  /** Bytes 90..512 of a FAT32 boot sector: stub, message and signature. */
  const Tail32: seq<Byte> := (BootCode(0x7CA3) + Zeros(44)) + (BootMessage + Zeros(277) + Signature)

  /**
   * main.go `buildBootSector32`: the 512-byte boot sector of a FAT32
   * volume. The root-entry count and the 16-bit FAT size are written as
   * zero; the 16-bit total is stored only when non-zero, which leaves the
   * same bytes as storing it always.
   */
  function BuildBootSector32(g: Geom, volLabel: seq<Byte>, oem: seq<Byte>): (sec: seq<Byte>)
    ensures |sec| == SectorSize
  {
    Head32(g, volLabel, oem) + Tail32
  }

  /** The fields of the FAT32 head at their offsets. */
  lemma Head32Fields(g: Geom, volLabel: seq<Byte>, oem: seq<Byte>)
    ensures var h := Head32(g, volLabel, oem);
      h[..3] == [0xEB, 0x58, 0x90]
      && h[3..11] == PadRight(OrDefault(oem, DefaultOem), 8)
      && h[11..36] == BpbFields(g.(rootEntries := 0, sectorsPerFAT16 := 0))
      && h[36..64] == Bpb32Fields(g)
      && h[64..67] == [0x80, 0x00, 0x29] && h[67..71] == LE32(0x12345678)
      && h[71..82] == PadRight(OrDefault(volLabel, DefaultLabel), 11)
      && h[82..90] == Ascii("FAT32   ")
  {
    var oemField := PadRight(OrDefault(oem, DefaultOem), 8);
    var jumpOem := [0xEB, 0x58, 0x90] + oemField;
    var bpb := BpbFields(g.(rootEntries := 0, sectorsPerFAT16 := 0));
    Left4([0xEB, 0x58, 0x90], oemField, bpb, Bpb32Fields(g),
          [0x80, 0x00, 0x29] + LE32(0x12345678) + PadRight(OrDefault(volLabel, DefaultLabel), 11) + Ascii("FAT32   "));
    Right4(jumpOem + (bpb + Bpb32Fields(g)), [0x80, 0x00, 0x29], LE32(0x12345678),
           PadRight(OrDefault(volLabel, DefaultLabel), 11), Ascii("FAT32   "));
  }

  /** The first 90 bytes of the FAT32 boot sector: jump, OEM name, BPB, FAT32 extension, extended BPB. */
  lemma BootSector32Head(g: Geom, volLabel: seq<Byte>, oem: seq<Byte>)
    ensures var sec := BuildBootSector32(g, volLabel, oem);
      sec[..3] == [0xEB, 0x58, 0x90]
      && sec[3..11] == PadRight(OrDefault(oem, DefaultOem), 8)
      && sec[11..36] == BpbFields(g.(rootEntries := 0, sectorsPerFAT16 := 0))
      && sec[36..64] == Bpb32Fields(g)
      && sec[64..67] == [0x80, 0x00, 0x29] && sec[67..71] == LE32(0x12345678)
      && sec[71..82] == PadRight(OrDefault(volLabel, DefaultLabel), 11)
      && sec[82..90] == Ascii("FAT32   ")
  {
    var sec := BuildBootSector32(g, volLabel, oem);
    var h := Head32(g, volLabel, oem);
    Head32Fields(g, volLabel, oem);
    Halves(h, Tail32);
    PrefixSlice(sec, h, 0, 3);
    PrefixSlice(sec, h, 3, 11);
    PrefixSlice(sec, h, 11, 36);
    PrefixSlice(sec, h, 36, 64);
    PrefixSlice(sec, h, 64, 67);
    PrefixSlice(sec, h, 67, 71);
    PrefixSlice(sec, h, 71, 82);
    PrefixSlice(sec, h, 82, 90);
  }

  /** Bytes 90..512 of the FAT32 boot sector: stub, message and signature. */
  lemma BootSector32Tail(g: Geom, volLabel: seq<Byte>, oem: seq<Byte>)
    ensures var sec := BuildBootSector32(g, volLabel, oem);
      sec[90..119] == BootCode(0x7CA3) && IsZero(sec[119..163])
      && sec[163..233] == BootMessage && IsZero(sec[233..510])
      && sec[510..] == Signature
  {
    Tail5(Head32(g, volLabel, oem), BootCode(0x7CA3), Zeros(44), BootMessage, Zeros(277), Signature);
  }

  /**
   * The FAT32 boot sector field by field: jump, OEM name, the BPB with a
   * zero root-entry count and 16-bit FAT size, the FAT32 extension, drive
   * number 0x80, the extended boot signature 0x29 at offset 66, the label,
   * "FAT32   " at 82, the stub whose message pointer 0x7CA3 is offset 163
   * once loaded at 0x7C00, the message, and 0x55 0xAA.
   */
  lemma BootSector32Layout(g: Geom, volLabel: seq<Byte>, oem: seq<Byte>)
    ensures var sec := BuildBootSector32(g, volLabel, oem);
      sec[..3] == [0xEB, 0x58, 0x90]
      && sec[3..11] == PadRight(OrDefault(oem, DefaultOem), 8)
      && sec[11..36] == BpbFields(g.(rootEntries := 0, sectorsPerFAT16 := 0))
      && sec[36..64] == Bpb32Fields(g)
      && sec[64] == 0x80 && sec[66] == 0x29 && U32At(sec, 67) == 0x12345678
      && sec[71..82] == PadRight(OrDefault(volLabel, DefaultLabel), 11)
      && sec[82..90] == Ascii("FAT32   ")
      && sec[90..119] == BootCode(0x7C00 + 163) && IsZero(sec[119..163])
      && sec[163..233] == BootMessage && IsZero(sec[233..510])
      && sec[510] == 0x55 && sec[511] == 0xAA
  {
    var sec := BuildBootSector32(g, volLabel, oem);
    BootSector32Head(g, volLabel, oem);
    BootSector32Tail(g, volLabel, oem);
    assert sec[64] == sec[64..67][0] && sec[66] == sec[64..67][2];
    U32AtSlice(sec, 67);
    assert sec[510] == sec[510..][0] && sec[511] == sec[510..][1];
  }

  /** Reads the FAT32 BPB back: the common fields and the FAT32 extension. */
  function ParseBpb32(sec: seq<Byte>): Geom
    requires |sec| == SectorSize
  {
    ParseBpb(sec).(sectorsPerFAT32 := U32At(sec, 36), rootCluster := U32At(sec, 44),
                   fsInfoSector := U16At(sec, 48), backupBootSector := U16At(sec, 50))
  }

  /** A FAT32 boot sector records every field of its geometry except the two FAT12/16-only ones. */
  lemma BootSector32RoundTrip(g: Geom, volLabel: seq<Byte>, oem: seq<Byte>)
    ensures ParseBpb32(BuildBootSector32(g, volLabel, oem)) == g.(rootEntries := 0, sectorsPerFAT16 := 0)
  {
    var sec := BuildBootSector32(g, volLabel, oem);
    BootSector32Head(g, volLabel, oem);
    BpbFieldsRoundTrip(g.(rootEntries := 0, sectorsPerFAT16 := 0));
    var ext := Bpb32Fields(g);
    assert sec[36..40] == ext[..4] == LE32(g.sectorsPerFAT32);
    assert sec[44..48] == ext[8..12] == LE32(g.rootCluster);
    assert sec[48..50] == ext[12..14] == LE16(g.fsInfoSector);
    assert sec[50..52] == ext[14..16] == LE16(g.backupBootSector);
  }

  const LeadSignature: U32 := 0x41615252
  const StructSignature: U32 := 0x61417272
  const TrailSignature: U32 := 0xAA550000

  /**
   * main.go `buildFSInfo`: the FAT32 FSInfo sector with its three
   * signatures, the free count 0xFFFFFFFF ("unknown") and the next-free
   * hint 2; every other byte is zero.
   */
  function BuildFSInfo(): (fs: seq<Byte>)
    ensures |fs| == SectorSize
  {
    LE32(LeadSignature) + Zeros(480) + (LE32(StructSignature) + LE32(0xFFFFFFFF) + LE32(2))
      + (Zeros(12) + LE32(TrailSignature))
  }

  /**
   * Reading the FSInfo sector back gives the documented signatures and
   * counts; the trailing signature puts 0x55 0xAA at offsets 510 and 511,
   * as in a boot sector, and the reserved areas are zero.
   */
  lemma FSInfoLayout()
    ensures var fs := BuildFSInfo();
      U32At(fs, 0) == LeadSignature && U32At(fs, 484) == StructSignature
      && U32At(fs, 488) == 0xFFFFFFFF && U32At(fs, 492) == 2 && U32At(fs, 508) == TrailSignature
      && fs[510..] == Signature
      && IsZero(fs[4..484]) && IsZero(fs[496..508])
  {
    var fs := BuildFSInfo();
    assert fs[510..] == [fs[510], fs[511]];
  }

  /** Reading two bytes in place is reading them from their slice. */
  lemma U16AtSlice(s: seq<Byte>, off: nat)
    requires off + 2 <= |s|
    ensures U16At(s, off) == U16At(s[off..off + 2], 0)
  {
  }

  /** Reading four bytes in place is reading them from their slice. */
  lemma U32AtSlice(s: seq<Byte>, off: nat)
    requires off + 4 <= |s|
    ensures U32At(s, off) == U32At(s[off..off + 4], 0)
  {
  }

  /** The attribute byte of a volume-label directory entry. */
  const AttrVolumeId: Byte := 0x08

  /**
   * main.go `buildRootLabelEntry`: no entry for an empty label, otherwise a
   * 32-byte directory entry holding the label padded to eleven bytes, the
   * volume-label attribute and zeros.
   */
  function BuildRootLabelEntry(volLabel: seq<Byte>): (e: seq<Byte>)
    ensures |volLabel| == 0 <==> e == []
    ensures |volLabel| > 0 ==>
      |e| == 32 && e[..11] == PadRight(volLabel, 11) && e[11] == AttrVolumeId && IsZero(e[12..])
  {
    if |volLabel| == 0 then []
    else
      var e := PadRight(volLabel, 11) + [AttrVolumeId] + Zeros(20);
      assert e[..11] == PadRight(volLabel, 11) && e[12..] == Zeros(20);
      e
  }

  /** The FAT entries a fresh FAT reserves: entry 0 carries the media byte, entry 1 is end-of-chain. */
  function FatHeader1216(ft: FatType, media: Byte): (h: seq<Byte>)
    ensures |h| == (if ft == FAT12 then 3 else 4)
  {
    if ft == FAT12 then [media, 0xFF, 0xFF] else [media, 0xFF, 0xFF, 0xFF]
  }

  /** What `initFAT1216` leaves in a buffer: the reserved entries, when the buffer can hold them. */
  function InitFat1216Of(ft: FatType, s: seq<Byte>, media: Byte): seq<Byte> {
    Overlay(s, 0, FatHeader1216(ft, media))
  }

  /**
   * main.go `initFAT1216`: writes the media byte and the end-of-chain
   * filler of the two reserved entries into the start of the buffer, in
   * place, and only when the buffer is long enough to hold them.
   */
  method InitFAT1216(ft: FatType, b: array<Byte>, media: Byte)
    modifies b
    ensures b[..] == InitFat1216Of(ft, old(b[..]), media)
  {
    if ft == FAT12 {
      if b.Length >= 3 {
        b[0] := media;
        b[1] := 0xFF;
        b[2] := 0xFF;
      }
    } else {
      if b.Length >= 4 {
        b[0] := media;
        b[1] := 0xFF;
        b[2] := 0xFF;
        b[3] := 0xFF;
      }
    }
  }

  /** The FAT32 end-of-chain mark as `initFAT32` writes it. */
  const Eoc32: U32 := 0x0FFF_FFFF

  /** What `initFAT32` leaves in a buffer: each of the three reserved entries that fits. */
  function InitFat32Of(s: seq<Byte>, media: Byte): (r: seq<Byte>)
    ensures |r| == |s|
  {
    var s0 := Overlay(s, 0, LE32(0x0FFF_FF00 + media));
    var s1 := Overlay(s0, 4, LE32(Eoc32));
    Overlay(s1, 8, LE32(Eoc32))
  }

  /** The `put` closure of `initFAT32`: stores entry `i` little-endian when it fits in the buffer. */
  method Put32(b: array<Byte>, i: nat, v: U32)
    modifies b
    ensures b[..] == Overlay(old(b[..]), i * 4, LE32(v))
  {
    var o := i * 4;
    if o + 4 <= b.Length {
      var bytes := LE32(v);
      b[o] := bytes[0];
      b[o + 1] := bytes[1];
      b[o + 2] := bytes[2];
      b[o + 3] := bytes[3];
      assert b[..] == old(b[..])[..o] + bytes + old(b[..])[o + 4..];
    }
  }

  /**
   * main.go `initFAT32`: entry 0 gets the media byte under the 0x0FFFFF00
   * filler, entries 1 and 2 (the second reserved entry and the root
   * directory's cluster) get end-of-chain, each only if it fits.
   */
  method InitFAT32(b: array<Byte>, media: Byte)
    modifies b
    ensures b[..] == InitFat32Of(old(b[..]), media)
  {
    Put32(b, 0, 0x0FFF_FF00 + media);
    Put32(b, 1, Eoc32);
    Put32(b, 2, Eoc32);
  }

  /** Entry `n` of a FAT12 table: twelve bits starting at byte n * 3 / 2. */
  function Fat12Entry(f: seq<Byte>, n: nat): (e: int)
    requires n + n / 2 + 2 <= |f|
    ensures 0 <= e < 0x1000
  {
    var o := n + n / 2;
    if n % 2 == 0 then f[o] as int + 0x100 * (f[o + 1] as int % 0x10)
    else f[o] as int / 0x10 + 0x10 * (f[o + 1] as int)
  }

  /** Entry `n` of a FAT16 table. */
  function Fat16Entry(f: seq<Byte>, n: nat): U16
    requires 2 * n + 2 <= |f|
  {
    U16At(f, 2 * n)
  }

  /** Entry `n` of a FAT32 table: the low 28 bits of a little-endian word. */
  function Fat32Entry(f: seq<Byte>, n: nat): (e: int)
    requires 4 * n + 4 <= |f|
    ensures 0 <= e < 0x1000_0000
  {
    U32At(f, 4 * n) % 0x1000_0000
  }

  /**
   * A fresh FAT12 table read as entries: entry 0 is 0xF00 plus the media
   * byte, entry 1 is the end-of-chain value 0xFFF, and every cluster entry
   * is free.
   */
  lemma FreshFat12Entries(len: nat, media: Byte, n: nat)
    requires len >= 3 && n + n / 2 + 2 <= len
    ensures var f := InitFat1216Of(FAT12, Zeros(len), media);
      Fat12Entry(f, 0) == 0xF00 + media && Fat12Entry(f, 1) == 0xFFF
      && (n >= 2 ==> Fat12Entry(f, n) == 0)
  {
    var f := InitFat1216Of(FAT12, Zeros(len), media);
    assert f[0] == media && f[1] == 0xFF && f[2] == 0xFF;
    if n >= 2 {
      assert f[n + n / 2] == 0 && f[n + n / 2 + 1] == 0;
    }
  }

  /** A fresh FAT16 table: entry 0 is 0xFF00 plus the media byte, entry 1 is 0xFFFF, the rest are free. */
  lemma FreshFat16Entries(len: nat, media: Byte, n: nat)
    requires len >= 4 && 2 * n + 2 <= len
    ensures var f := InitFat1216Of(FAT16, Zeros(len), media);
      Fat16Entry(f, 0) == 0xFF00 + media && Fat16Entry(f, 1) == 0xFFFF
      && (n >= 2 ==> Fat16Entry(f, n) == 0)
  {
    var f := InitFat1216Of(FAT16, Zeros(len), media);
    assert f[0] == media && f[1] == 0xFF && f[2] == 0xFF && f[3] == 0xFF;
    if n >= 2 {
      assert f[2 * n] == 0 && f[2 * n + 1] == 0;
    }
  }

  /**
   * A fresh FAT32 table: entry 0 is 0x0FFFFF00 plus the media byte, entry
   * 1 and the root directory's entry 2 are end-of-chain, the rest are free.
   */
  lemma FreshFat32Entries(len: nat, media: Byte, n: nat)
    requires len >= 12 && 4 * n + 4 <= len
    ensures var f := InitFat32Of(Zeros(len), media);
      Fat32Entry(f, 0) == 0x0FFF_FF00 + media && Fat32Entry(f, 1) == Eoc32 && Fat32Entry(f, 2) == Eoc32
      && (n >= 3 ==> Fat32Entry(f, n) == 0)
  {
    var f := InitFat32Of(Zeros(len), media);
    assert f[..4] == LE32(0x0FFF_FF00 + media);
    assert f[4..8] == LE32(Eoc32);
    assert f[8..12] == LE32(Eoc32);
    U32AtSlice(f, 0);
    U32AtSlice(f, 4);
    U32AtSlice(f, 8);
    Below28(U32At(f, 0), 0x0FFF_FF00 + media);
    Below28(U32At(f, 4), Eoc32);
    Below28(U32At(f, 8), Eoc32);
    if n >= 3 {
      InitFatTouchesHeaderOnly(FAT32, Zeros(len), media, 12);
      assert f[4 * n] == 0 && f[4 * n + 1] == 0 && f[4 * n + 2] == 0 && f[4 * n + 3] == 0;
      Below28(U32At(f, 4 * n), 0);
    }
  }

  /** A 32-bit value below 2^28 is its own 28-bit entry. */
  lemma Below28(x: int, v: int)
    requires x == v && 0 <= v < 0x1000_0000
    ensures x % 0x1000_0000 == v
  {
  }

  /** The initialisers touch only the reserved entries: past them the buffer is unchanged. */
  lemma InitFatTouchesHeaderOnly(ft: FatType, s: seq<Byte>, media: Byte, k: nat)
    requires (if ft == FAT32 then 12 else 4) <= k <= |s|
    ensures ft != FAT32 ==> InitFat1216Of(ft, s, media)[k..] == s[k..]
    ensures ft == FAT32 ==> InitFat32Of(s, media)[k..] == s[k..]
  {
  }
}
