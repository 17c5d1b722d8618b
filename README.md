# mkfat core, modelled in Dafny

A model of the core of `mkfat`, a Go tool that creates FAT12/16/32 file
systems on image files or raw block devices. The model covers five things:

- **Geometry planner** (`geometry.dfy`, `layout.dfy`). The BPB record
  `geom`, the size presets `presetForSizeBytes`, and the
  `--heads/--spt/--tracks` overrides. Also the bounded fixed-point loop of
  `computeLayout`, which reconciles the FAT size with the cluster count in
  wrapping `uint32` arithmetic and then applies the cluster-count rules of
  the Microsoft FAT specification ("FAT Type Determination": FAT12 below
  4085, FAT16 from 4085 to 65524, FAT32 from 65525). Last, the absolute
  system-area ranges.
- **Structure encoder** (`bytes.dfy`, `encoder.dfy`). `padRight`, the
  FAT12/16 and FAT32 boot sectors, the FSInfo sector, the volume-label
  directory entry, and the in-place FAT initialisers. Each is stated byte
  by byte, and the BPB is shown to read back as the geometry it was built
  from ("Boot Sector and BPB" and "FAT32 FSInfo Sector Structure" in the
  Microsoft FAT specification).
- **Sector write engine** (`device.dfy`, `writer.dfy`, `track.dfy`). The
  chunked span writers (1 MiB per `WriteAt`, a stop poll after each chunk),
  the bad-sector check and the full format that collects bad sectors
  without stopping, the track-by-track zeroing with its sync policy, and
  the one-sector-per-track read check.
  - The device is a `Disk` class holding the volume's bytes. It has fixed
    sets of sectors whose writes fail, whose reads fail, or that corrupt
    what they store, and it counts `Sync` calls.
  - The user's stop request is a `StopSignal`. It answers "stopped" from
    some poll on, chosen by the caller, and stays raised after that.
- **Progress map** (`progress.dfy`). `progressTracker` as a class over a
  `bool` array, with `markRange` and `writtenCount`.
- **The format command's real write** (`format.dfy`). The size and type
  checks, the preset, the overrides and the layout, then the strict phase
  order. The order is: boot sector; for FAT32 the FSInfo sector and the
  backup boot sector; FAT #1 and FAT #2 from one buffer; then the root
  directory zeroed and the label entry written for FAT12/16, or the first
  data sector cleared for FAT32. The optional full format of the data area
  comes last.

Go's fixed-width integers are subset types of `int` (`Byte`, `U16`, `U32`,
`I64`). Where Go wraps, the wrap is written out (`ToU32`, `ToU16`), and
Go's truncating signed division is `GoDiv`. Go strings are byte sequences.

`computeLayout` is the method `Layout.ComputeLayout`. It is proved equal to
the function `Layout.LayoutOf` with the guard as written (`checked =
false`), and the layout lemmas are stated about that function. The FAT32
branch returns the FAT size stored in the geometry (`g.SectorsPerFAT32`).
The data count, however, used the previous candidate. `Fat32LayoutRules`
states this as written. The checked variant returns the FAT size the data
count used.

The format command (`Format.PlanFormat`, `Format.FormatDataArea`,
`Format.FormatVolume`) takes a flag `asWritten`. With `asWritten = true`
it is RunE as written: `presetForSizeBytes`, the unsigned data-sector
guard with the FAT size `computeLayout` returns, and `fullFormatDataArea`,
which leaves each sector's pattern byte behind. With `asWritten = false`
it uses the corrected definitions of the Findings below:
`PresetForSizeBytesFixed`, the signed guard (`ComputeLayoutChecked`), and
`FullFormatDataAreaZeroed`. `Format.PlanFloppy2880Refused`,
`Format.PlanFloppy2880Fixed` and `Format.PlanTinyFat32` show the two plans
differ on the Findings' inputs.
A negative `--size` that is whole sectors passes the size check and the
layout, and then RunE panics creating the progress tracker; the plan
refuses it as `NegativeTotal`, so every plan has a sector count of zero
or more.

Three behaviours of the code, all followed by the model:
- A FAT16 volume of 1.44M gets the FAT12 floppy geometry and is rejected,
  because its 2841 clusters are below the FAT16 minimum
  (`Layout.Fat16Floppy1440Rejected`).
- The FAT32 floppy sizes are rejected because they have one reserved
  sector.
- A failure of the full format, including a stop request during it, is
  only printed as a warning, and the command still succeeds
  (`Format.FormatVolume`).

## Model

| member | source | states |
|---|---|---|
| `Bytes.PadRight` | main.go:97-107 | the field has exactly `n` bytes; byte `i` is the input's byte `i` where there is one and a space after it, so longer input is truncated |
| `Bytes.PadRightIdempotent` | main.go:97-107 | padding an already padded field to the same width changes nothing |
| `Bytes.LE16` | main.go:310-319 | `PutUint16` writes two bytes that read back little-endian as the value |
| `Bytes.LE32` | main.go:320-323 | `PutUint32` writes four bytes that read back little-endian as the value |
| `Bytes.ToU32` | main.go:249 | Go's `uint32` conversion: in-range values are unchanged, negative values within one wrap gain 2^32 |
| `Bytes.GoDiv` | main.go:170 | Go's signed `/` truncates toward zero: the quotient times the divisor is within one divisor of the dividend, on the dividend's side of zero |
| `Geometry.WithTotal` | main.go:170-175 | the total goes to the 16-bit field when it is at most 0xFFFF and to the 32-bit field otherwise, never both, and the BPB reads back that total; no other field changes |
| `Geometry.PresetForSizeBytes` | main.go:121-229 | succeeds exactly for a floppy size, for FAT12 below 16 MiB, for FAT16 up to 32 MiB and for every FAT32 size, and otherwise returns the unsupported-size error; 512-byte sectors and two FATs; floppy presets store the total in the 16-bit field; the other sizes store it in the 16-bit field exactly when it fits, never in both; the per-variant reserved count, root entries, FAT size, cluster size, sectors per track, heads, media byte and FAT32 fields |
| `Geometry.FloppyPresets` | main.go:124-164 | the exact historical values for 360K, 720K, 1.2M, 1.44M (spt 18, 224 root entries, 1 sector per cluster, 9 FAT sectors, 2880 sectors in the 16-bit field, 0 in the 32-bit field) and 2.88M per variant |
| `Geometry.ClusterSizeMonotone` | main.go:179-220 | outside the floppy table a larger FAT16 or FAT32 volume never gets a smaller cluster |
| `Geometry.ApplyOverrides` | main.go:1114-1138 | positive `--heads`/`--spt` replace the geometry's values truncated to 16 bits; the total becomes the wrapped cylinder product when `--tracks` is positive and the size in sectors otherwise, stored in exactly one total field; nothing else changes |
| `Geometry.WrapMul` | main.go:1121 | wrapping after each `uint32` multiplication gives the wrapped full product |
| `Geometry.PresetForSizeBytesFixed` | main.go:152-164 | the corrected preset: the same result as the original except the 2.88M FAT12 geometry, which gets 2 sectors per cluster; errors unchanged |
| `Layout.ComputeLayout` | main.go:231-296 | the loop method returns the geometry with its stored FAT candidate and exactly the result of the functional loop `LayoutOf` as written |
| `Layout.IterateConsistent` | main.go:244-288 | the loop changes only the two FAT-size fields, and the pass it ends on is consistent: its data count is what its FAT size leaves, its cluster count is that data divided by the cluster size |
| `Layout.DataForStepwise` | main.go:249 | the data count with Go's wrap after every subtraction equals the single final wrap the model uses |
| `Layout.Fat1216LayoutExact` | main.go:267-295 | a successful FAT12/16 layout adds up exactly (reserved + 2·FAT + root + data = total), has data > 0, clusters = data / cluster size, and clusters ≤ 4084 for FAT12 or 4085..65524 for FAT16 |
| `Layout.Fat32LayoutRules` | main.go:239-265 | FAT32 with fewer than 32 reserved sectors is rejected before any arithmetic; on success the root directory has no sectors, clusters ≥ 65525 and equal the data count divided by the cluster size, and the FAT size returned is the one stored in the geometry |
| `Layout.CheckedLayoutExact` | main.go:249-251 | with the signed data-sector guard the layout adds up exactly for every variant, including FAT32, and keeps each variant's cluster range |
| `Layout.Fat12Floppy2880Rejected` | main.go:152-164 | as written, the 2.88M FAT12 preset settles on 17 FAT sectors and 5710 clusters and is rejected as invalid for FAT12 |
| `Layout.Fat12FloppyLayouts` | main.go:124-164 | with the corrected preset every floppy size formats as FAT12 on its historical FAT size under either data-sector guard, each layout given exactly |
| `Layout.Fat16Floppy1440Rejected` | main.go:267-294 | a 1.44M FAT16 volume gets the floppy preset, its loop settles on 12 FAT sectors and 2841 clusters, and it is rejected as invalid for FAT16 |
| `Layout.Fat32TinyAccepted` | main.go:249-251 | as written, an 8 KiB FAT32 volume is accepted with a wrapped data count of 4286595024 sectors |
| `Layout.Fat32TinyRefused` | main.go:249-251 | with the signed guard the same volume is refused for want of data sectors |
| `Layout.SystemRanges` | main.go:1166-1173 | three ranges for FAT32 and four for FAT12/16: sector 0, FAT #1 at the reserved count, FAT #2 right after it with the same length, the root directory after the FATs |
| `Layout.SystemRangesTile` | main.go:1158-1173 | the ranges are non-empty, increasing and gap-free from FAT #1 to the data area; a sector is in a range exactly when it is sector 0 or lies between the reserved sectors and the data area |
| `Encoder.OrDefault` | main.go:301-306 | an empty label or OEM name is replaced by the default, a non-empty one kept |
| `Encoder.BootCode` | main.go:332-351 | the 29-byte stub whose `mov si` operand is the message address |
| `Encoder.BuildBootSector1216` | main.go:300-359 | the FAT12/16 boot sector is exactly 512 bytes |
| `Encoder.BootSector1216Layout` | main.go:300-359 | jump bytes; OEM name padded to 8 (default "EARMKFAT") at 3..11; the BPB at 11..36; 0x29 at 38; serial at 39; label padded to 11 (default "NO NAME") at 43..54; "FAT12   " or "FAT16   " at 54..62; stub pointing at the message at 119; zeros; 0x55 0xAA at 510..511 |
| `Encoder.BpbFieldsRoundTrip` | main.go:310-321 | the common BPB bytes parse back to the geometry, with the FAT32-only fields zero |
| `Encoder.BootSector1216RoundTrip` | main.go:310-321 | the BPB read from a FAT12/16 boot sector is its geometry without the FAT32-only fields |
| `Encoder.BuildBootSector32` | main.go:361-424 | the FAT32 boot sector is exactly 512 bytes |
| `Encoder.BootSector32Layout` | main.go:361-424 | jump bytes; padded OEM name; the BPB with zero root entries and zero 16-bit FAT size; the FAT32 extension at 36..64; drive 0x80 at 64; 0x29 at 66; serial; padded label at 71..82; "FAT32   " at 82..90; stub pointing at 163; message; 0x55 0xAA |
| `Encoder.BootSector32RoundTrip` | main.go:371-390 | the FAT32 BPB read back is the geometry with the two FAT12/16-only fields zero, including FAT size, root cluster, FSInfo and backup sector |
| `Encoder.BuildFSInfo` | main.go:426-434 | the FSInfo sector is exactly 512 bytes |
| `Encoder.FSInfoLayout` | main.go:426-434 | lead signature 0x41615252 at 0, struct signature 0x61417272 at 484, free count 0xFFFFFFFF, next-free hint 2, trail signature 0xAA550000 at 508 (0x55 0xAA at 510..511), reserved areas zero |
| `Encoder.BuildRootLabelEntry` | main.go:436-444 | no entry exactly when the label is empty; otherwise 32 bytes: the label padded to 11, attribute 0x08, then zeros |
| `Encoder.InitFAT1216` | main.go:446-461 | the buffer afterwards is the old buffer with the 3 (FAT12) or 4 (FAT16) reserved bytes written when they fit, and nothing else changed |
| `Encoder.Put32` | main.go:464-469 | entry `i` is written little-endian at byte 4i when it fits; the buffer is otherwise unchanged |
| `Encoder.InitFAT32` | main.go:463-473 | the buffer afterwards holds entries 0..2 (media marker, end-of-chain, end-of-chain) where they fit, and is otherwise unchanged |
| `Encoder.FreshFat12Entries` | main.go:446-452 | a fresh FAT12 table reads as entry 0 = 0xF00 + media, entry 1 = 0xFFF, every later entry free |
| `Encoder.FreshFat16Entries` | main.go:453-460 | a fresh FAT16 table reads as entry 0 = 0xFF00 + media, entry 1 = 0xFFFF, every later entry free |
| `Encoder.FreshFat32Entries` | main.go:463-473 | a fresh FAT32 table reads as entry 0 = 0x0FFFFF00 + media, entries 1 and 2 end-of-chain, every later entry free |
| `Encoder.InitFatTouchesHeaderOnly` | main.go:446-473 | past the first 4 (FAT12/16) or 12 (FAT32) bytes the initialisers leave the buffer unchanged |
| `Progress.ProgressTracker.constructor` | main.go:485-490 | a map of `total` cleared flags at position 0 |
| `Progress.ProgressTracker.MarkRange` | main.go:492-505 | sets exactly the flags of [start, min(start+count, total)) that lie in the map, leaves the rest, and moves the position to the range's last sector when that is not negative |
| `Progress.ProgressTracker.WrittenCount` | main.go:507-515 | returns the number of set flags, between 0 and the total |
| `Progress.MarkedGrows` | main.go:492-505 | marking only sets flags: every flag set before stays set and the written count never decreases nor exceeds the map size |
| `Progress.CountInterval` | main.go:507-515 | a map set exactly on [lo, hi) counts hi − lo |
| `Progress.MarkedJoin` | main.go:492-505 | marking two adjacent ranges marks their union |
| `Progress.MarkedTwice` | main.go:492-505 | marking a range again changes nothing |
| `Device.Disk.WriteAt` | main.go:645-647 | a write succeeds exactly when it lies on the device and touches no failing sector; then the bytes land at the offset, else nothing changes |
| `Device.Disk.ReadAt` | main.go:766-768 | a read succeeds exactly when it lies on the device and touches no unreadable sector, and returns the stored bytes |
| `Device.Disk.Sync` | main.go:1376-1378 | a flush changes no data and counts one sync |
| `Device.StopSignal.IsStopped` | main.go:653-655 | each poll is counted; once the request is raised every later poll sees it |
| `Writer.PutChunk` | main.go:641-652 | one chunk: the bytes land right after those already written and their sectors (at least one) are marked, or the write fails and nothing changes |
| `Writer.SpanStep` | main.go:640-662 | one loop pass: a failed write returns at once without a poll; otherwise the chunk lands and the stop poll decides between going on and interrupted |
| `Writer.WriteSpan` | main.go:636-669 | the first `done` bytes of the buffer land at the span's start; all of them unless a write failed (at a chunk it names) or a stop was seen after a chunk; the error is interrupted exactly when the last poll saw the stop; earlier polls saw none; for whole sectors exactly the written sectors are added to the map |
| `Writer.ZeroSpan` | main.go:672-707 | the same contract for a run of zero sectors: the zeroed prefix is whole sectors, exactly those are marked |
| `Writer.Pattern` | main.go:753-757 | the check pattern is 512 copies of the sector number's low byte |
| `Writer.SectorVerdict` | main.go:759-777 | a sector is reported bad exactly when its write fails, its read fails, or it reads back different bytes |
| `Writer.CheckBadSector` | main.go:749-778 | the returned verdict is `SectorVerdict`, and the sector holds its pattern afterwards when the write went through |
| `Writer.ZeroChunk` | main.go:797-800 | the zero write of a chunk either fails leaving the store as it was or zeroes exactly the next sectors |
| `Writer.CheckAndMark` | main.go:812-822 | checks the next sector, appends it to the bad list exactly when it is not healthy, and marks it |
| `Writer.ScanChunk` | main.go:807-828 | checks and marks the chunk's sectors in order, collecting the unhealthy ones; it ends early only for a stop, seen at the last poll, and otherwise covers every sector with no stop seen |
| `Writer.FormatPass` | main.go:791-830 | one outer pass keeps the scan state (patterns, zeros, bad list in order, marks) or ends with a write error or an interruption |
| `Writer.FullFormatDataArea` | main.go:781-837 | every sector is zeroed then checked; a failing check never stops the scan; the result is the list of bad sectors in increasing order, an error exactly when it is non-empty, unless a write error or a stop request ended the scan first |
| `Writer.ScanPass` | main.go:803-829 | once a chunk is zeroed, its sectors are checked and marked in order; the pass ends one chunk further on with the scan state kept, or interrupted, with the store and the map covering exactly the sectors checked so far |
| `Writer.BadVerdict` | main.go:832-836 | no error exactly when the bad-sector list is empty |
| `Writer.FullFormatLeavesPattern` | main.go:753-757 | as written, a completed scan leaves the first data sector holding its pattern byte, so the area is not zeroed |
| `Writer.FullFormatFloppyExample` | main.go:781-837 | on the 1.44M FAT12 floppy the first data byte after a full format is 33, not 0 |
| `Writer.FullFormatDataAreaZeroed` | main.go:780-837 | the corrected full format: when not aborted the area is zeroed, the bad sectors are reported as the scan found them, every sector is marked, and nothing below the area changes |
| `Track.TrackLength` | main.go:2072-2074 | a track is the given sectors per track, or 18 when that is not positive |
| `Track.Lower` | main.go:1468 | lower-casing keeps the length and maps each ASCII capital to its lower-case letter (code + 32), leaving every other character as it is |
| `Track.ParseSyncModeIgnoresCase` | main.go:1468-1475 | upper- and mixed-case spellings (`TRACK`, `Phase`, `NONE`, `Sector`) select their policy; a near miss such as `tracks` selects none |
| `Track.TracksCeiling` | main.go:2076-2092 | the track count is the ceiling of sectors / sectors per track |
| `Track.ZeroTrack` | main.go:2077-2091 | one track: its sectors are zeroed and marked right after the ones before, and a sync follows when the policy asks |
| `Track.ZeroTracks` | main.go:2075-2092 | zeroes and marks the leading sectors; all of them unless a span write failed or a stop was seen; one sync per track when per-track sync is on |
| `Track.FullFormatTrack` | main.go:2071-2098 | the area's prefix is zeroed and marked; on success the whole area, with one sync per track for `track` and `phase` and one more at the end for `phase`; the first failing span write ends it |
| `Track.VerifyTrackRead` | main.go:2101-2112 | the result is the read error of the first track whose first sector does not read, or none |
| `Track.FirstUnreadableNone` | main.go:2106-2110 | the read check finds nothing exactly when every track's first sector reads |
| `Track.FirstUnreadableSome` | main.go:2106-2110 | a reported read error names an unreadable track with every earlier track readable |
| `Format.ParseFatTypeRoundTrip` | main.go:1098-1108 | every variant is selected by its own name in any case, and only by that |
| `Format.PlanFormat` | main.go:1094-1165 | a size that is not whole sectors and an unknown type are refused first, then a preset error and a layout error are returned as they are, then a negative size is refused; otherwise a plan is made, holding the known type, the geometry and layout that `computeLayout` leaves (as written, or corrected, by the flag), a sector count of size/512, and the absolute area offsets of main.go:1158-1165 |
| `Format.PlanLayout` | main.go:1110-1165 | every plan of the corrected planning is well laid out: FAT #1 at the reserved count, FAT #2 right after it, root directory then data, the data area ends at the BPB's total, FAT32 keeps FSInfo at 1 and backup at 6 |
| `Format.PlanFloppy2880Refused` | main.go:1110-1142 | as written, `--type fat12 --size 2880k` is refused with the layout error of 5710 clusters |
| `Format.PlanFloppy2880Fixed` | main.go:1110-1142 | the corrected plan accepts `--type fat12 --size 2880k` with 9 FAT sectors, 15 root sectors, 5726 data sectors and 2863 clusters |
| `Format.PlanTinyFat32` | main.go:1110-1142 | as written, `--type fat32 --size 8k` is planned with 535824378 clusters and a layout that does not fit the volume; the corrected plan refuses it |
| `Format.Puts` | main.go:1364-1454 | the system writes in RunE's order, five for FAT32 or with a label, four otherwise |
| `Format.PutsInOrder` | main.go:1364-1462 | every system write starts where the one before ended or later and lies inside the system area; only the label entry overwrites the start of the root directory |
| `Format.FatCopiesIdentical` | main.go:1407-1433 | after the system area is written, FAT #1 and FAT #2 hold the same bytes, the one table buffer |
| `Format.BootSectorReadsBack` | main.go:1364-1402 | sector 0 of the written volume is the boot sector and parses back to the plan's geometry; on FAT32 sector 6 is the same sector |
| `Format.BuildFatBuffer` | main.go:1407-1413 | the FAT buffer is the zeroed table with the variant's reserved entries initialised in place |
| `Format.WritePhase` | main.go:1373-1378 | a phase lands in full and is synced, or the run stops inside it with a write error or an interruption |
| `Format.ZeroPhase` | main.go:1441-1446 | the root-directory zeroing phase lands in full and is synced, or the run stops inside it |
| `Format.ClearSector` | main.go:1458-1461 | the FAT32 first data sector is zeroed if its write went through and is untouched otherwise; its error is ignored and a sync follows |
| `Format.WritePuts32` | main.go:1364-1462 | FAT32 phases in order, a sync after each; the first failing phase stops the run with the earlier phases and part of itself written |
| `Format.WritePuts1216` | main.go:1364-1456 | FAT12/16 phases in order, then the label entry without a stop poll; the first failure stops the run |
| `Format.WriteSystemArea` | main.go:1364-1462 | the store afterwards is the system image of the plan, label and OEM name with one sync per phase, or a prefix of it ending inside the failing phase |
| `Format.FormatDataArea` | main.go:1464-1488 | `sector` runs the bad-sector scan: as written, a scan that is not aborted leaves every sector holding its pattern and warns exactly with the bad sectors; corrected, the area is zeroed; `track`/`phase`/`none` zero track by track (then optionally read-check), other policies do nothing; nothing below the data area changes |
| `Format.FormatVolume` | main.go:1280-1490 | only a system-area failure is returned, leaving a prefix of the system writes; on success the system area stays as written; with a full format, the data area is zeroed to the end by the track policies (and by the corrected scan) when no warning is reported, and holds the pattern bytes after an as-written scan that is not aborted |

## Left out

- Command-line parsing: `parseSize`, the cobra wiring and the target flag checks (main.go:1067-1093). `human`, `printGeometryInfo` and the status lines are formatting only, with float rates and wall-clock time.
- The terminal UI (`retrodfrg/ui.go`): screen rendering, its event loop, the phase and legend displays, and the progress-map glyphs. The stop request is kept as `Device.StopSignal`.
- `retrodfrg/helpers.go`: it refers to members `UI` does not have, so it does not compile.
- `waitWithStop`: a two-second pause before the UI closes.
- Emulate mode (`nullWriter`, `defaultEmuBPS`, the pacing loop): float timing over a writer that discards everything.
- Device plumbing: Win32 volume locking and dismount, device-size probing, device and mount discovery (`discoverDevices`, `resolvePathToDevice`, `findLinuxDeviceForMount`, `getDeviceDetails`, `mediaTypeBySize`), and the low-level-format placeholders. These are foreign OS calls. The model's `Disk` stands for an already opened target.
- Image creation (`os.MkdirAll`, `os.Create`, `Truncate`): the model's `Disk` starts at its final size. A write past its end is an I/O error, whereas a Go file would grow.
- `copyDeviceToImage` / `copyImageToDevice`: streaming file I/O outside the formatter.
- `Device.Disk.Sync`: does not model durability, only the number of flushes.
- `Device.StopSignal.IsStopped`: does not model the other goroutine. The request is raised from a poll number the caller chooses, which covers every interleaving in which the flag is raised once.
- `Track.Lower`: models only ASCII case folding; Go's `strings.ToLower` also folds non-ASCII letters, which no valid `--type` or `--sync` value contains.
- `Track.ParseSyncModeIgnoresCase`: states case-insensitivity on representative spellings rather than for all strings; `Format.ParseFatTypeRoundTrip` states it for all strings.
- `Device.Disk.WriteAt`: a failing write is modelled as atomic (nothing lands), whereas `os.File.WriteAt` may commit a prefix before returning its error. The failure branches of `Writer.PutChunk`, `Writer.WriteSpan`, `Writer.CheckBadSector`, `Writer.ZeroChunk`, `Writer.FullFormatDataArea` and `Format.WritePuts1216` inherit this: after a failed write they describe the store as it was before that write.
- `Format.PlanFormat`: with `asWritten = false`, a FAT32 layout whose eight passes do not converge returns the FAT size the last pass used, not the next candidate stored in the geometry (main.go:265); `asWritten = true` returns the stored one.
- `Format.PlanLayout`: proved for the corrected plan only; as written, a wrapped data count gives a plan that does not fit the volume (`Format.PlanTinyFat32`).
- `Format.FormatVolume`: does not model the `progressTracker` as read by the UI while it is written. The tracker is created inside and not returned.

## Findings

| source | as written | input that shows it | evidently intended | confidence | as-written member | corrected member |
|---|---|---|---|---|---|---|
| main.go:152-164 | the 2.88M FAT12 preset uses 1 sector per cluster, giving 5710 clusters, above the FAT12 limit, so `computeLayout` rejects it | `--type fat12 --size 2880k` | the historical 2.88M geometry of 2 sectors per cluster, which fits the 9-sector FAT | high (not executed) | `Layout.Fat12Floppy2880Rejected`, `Format.PlanFloppy2880Refused` | `Geometry.PresetForSizeBytesFixed`, `Layout.Fat12FloppyLayouts`, `Format.PlanFloppy2880Fixed` |
| main.go:249-251 | `dataSectors <= 0` tests a `uint32`, so a negative data count wraps and passes the guard | `--type fat32 --size 8k`: 16 sectors, 32 reserved, accepted with 535824378 clusters | refuse a volume whose reserved sectors and FATs do not fit | high (not executed) | `Layout.Fat32TinyAccepted`, `Format.PlanTinyFat32` | `Layout.ComputeLayoutChecked`, `Layout.CheckedLayoutExact`, `Layout.Fat32TinyRefused` |
| main.go:753-757 | the full format zeroes each chunk, then overwrites each sector with its check pattern, leaving the data area filled with pattern bytes | `--type fat12 --size 1440k --full --sync sector`: the first byte of sector 33, the first data sector, ends up 0x21 | a zeroed data area, as the full-format flag and the function's comment describe | medium (not executed) | `Writer.FullFormatLeavesPattern`, `Writer.FullFormatFloppyExample`, `Format.FormatDataArea` | `Writer.FullFormatDataAreaZeroed` |
