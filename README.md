# SwiftMachO fat-binary reader, modelled in Dafny

SwiftMachO reads Apple "fat" (universal) binaries. A fat binary bundles one
Mach-O slice per CPU architecture behind one header. The code in
`Sources/SwiftMachO/MachO/FAT/FAT.swift` works as follows:

- `FAT.init(fromData:)` checks the big-endian magic `0xCAFEBABE` and reads the
  big-endian slice count at offset 4.
- It then walks the descriptor table, whose entries are 20 bytes apart from
  offset 8. From each entry it reads `cpuType`, `cpuSubType`, `offset` and
  `size`.
- It rejects a descriptor whose byte range leaves the buffer. For every other
  descriptor it appends a `FATSlice` holding a copy of the slice's bytes to the
  `slices` field.
- Any failure throws, so no partly built `FAT` is ever returned.
- `FAT.bestArch()` returns the first slice whose `cpuType` equals the CPU type
  of the architecture the library was built for. It throws `noBestArchFound`
  when there is none.

The model has two files:

- `fat.dfy` (module `FatBinary`) holds the data model, the operations and the
  specification functions:
  - `byte`, `uint32`, the CPU-type constants, `Error`, `Result`, `FATSlice`.
  - `BE32` is the big-endian word decode. `ReadU32` is a 4-byte read that may
    fail.
  - `Descriptor(buf, i)` is what the reader makes of table entry `i`.
    `Table(buf, k)` is the outcome of the first `k` loop iterations.
    `Parse(buf)` is the outcome of the whole reader.
  - Class `FAT` holds the `slices` field. `FAT.FromData` is the throwing
    initialiser, written imperatively: a loop appends to `slices`, with early
    error returns. It is proved to compute `Parse`.
  - `FAT.BestArch(target)` is the linear first-match search, proved against
    its own postconditions.
- `fat_properties.dfy` (module `FatProperties`) proves what the reader
  guarantees about `Parse`: the header errors, the fields and bytes of every
  slice, when the read succeeds, truncated tables, the minimum length, and
  out-of-range or overflowing slice ranges. It also proves the big-endian
  round trip and two concrete buffers. Module `BestArchClient` shows that the
  contract of `BestArch` alone determines which slice is selected.

Dafny has no constructor that can fail, so Swift's throwing
`init(fromData:)` becomes the static method `FAT.FromData`, which returns
`Result<FAT>`. The object is allocated before the loop and dropped on every
error path.

Three behaviours of the code worth spelling out:

- **Short buffers.** The magic is checked before the count is read. So a
  buffer of 4 to 7 bytes with a wrong magic fails with `NotFAT`, not with
  `ReadError` (`HeaderErrors`). Only buffers shorter than 4 bytes, or 4 to 7
  bytes with the right magic, fail with `ReadError`.
- **Truncated tables.** A table that runs past the end of the buffer never
  yields a `FAT`. The error is `ReadError` only when every complete descriptor
  before the cut-off one names an in-range byte range. Otherwise that earlier
  descriptor is met first, and the error is `BadFormat` (`TruncatedTable`).
- **Overflowing ranges.** Swift adds `offset + size` in `UInt32`, and the
  addition traps on overflow. The model adds over unbounded integers.
  `OverflowRejected` shows that in the model, for any buffer of at most
  `0xFFFFFFFF` bytes, a sum above `0xFFFFFFFF` ends in `BadFormat`.

## Model

| member | source | states |
|---|---|---|
| `FatProperties.CpuTypeValues` | Sources/SwiftMachO/MachO/FAT/FAT.swift:11-19 | each 64-bit CPU type is its family code OR'd with `CPU_ARCH_ABI64`; `CPU_TYPE_ANY` is `UInt32.max`; i386 is x86 |
| `FatBinary.TargetCpuType` | Sources/SwiftMachO/MachO/FAT/FAT.swift:68-74 | arm and arm64 builds look for `CPU_TYPE_ARM64`; x86_64 builds, and only those, look for `CPU_TYPE_X86_64` |
| `FatBinary.BE32` | Sources/SwiftMachO/MachO/FAT/FAT.swift:34-55 | definition, no contract: the `.bigEndian` value of the 4 bytes at `k`, most significant byte first (inverse: `DecodeEncodeBE32`, `EncodeDecodeBE32`) |
| `FatBinary.ReadU32` | Sources/SwiftMachO/MachO/FAT/FAT.swift:30-55 | definition, no contract: `tryGetGeneric(...)?.bigEndian`, nothing when fewer than `k + 4` bytes are present |
| `FatBinary.Descriptor` | Sources/SwiftMachO/MachO/FAT/FAT.swift:43-63 | what one loop iteration yields; it succeeds exactly when descriptor `i` is complete and in range, and then the slice's bytes lie inside the buffer and come from its offset; a failure is `ReadError` or `BadFormat` |
| `FatBinary.Table` | Sources/SwiftMachO/MachO/FAT/FAT.swift:42-64 | the outcome of the first `k` iterations of the `for` loop with its throwing exits; a success holds exactly `k` slices; a failure is `ReadError` or `BadFormat` |
| `FatBinary.Parse` | Sources/SwiftMachO/MachO/FAT/FAT.swift:29-65 | the outcome of the whole of `init(fromData:)`; a success means the buffer holds the header and as many slices as its count says |
| `FatBinary.FAT.constructor` | Sources/SwiftMachO/MachO/FAT/FAT.swift:27 | a new `FAT` starts with no slices |
| `FatBinary.ReadDescriptor` | Sources/SwiftMachO/MachO/FAT/FAT.swift:43-63 | the four guarded reads of entry `i` and its range check yield exactly `Descriptor(data, i)`: `ReadError` if a word is cut off, `BadFormat` if the range leaves the buffer, otherwise the slice with a copy of its bytes |
| `FatBinary.FAT.FromData` | Sources/SwiftMachO/MachO/FAT/FAT.swift:29-65 | on error, returns exactly the error of `Parse(data)`; on success, returns a fresh `FAT` whose `slices` are exactly `Parse(data)`'s, so a partly filled object is never returned |
| `FatBinary.FAT.BestArch` | Sources/SwiftMachO/MachO/FAT/FAT.swift:67-83 | a returned slice is in `slices`, has `cpuType == target`, and no earlier slice has that CPU type; it fails, always with `NoBestArchFound`, exactly when no slice has that CPU type (so always on an empty table); it has no `modifies` clause, so `slices` is unchanged |
| `FatBinary.TableErrSticky` | Sources/SwiftMachO/MachO/FAT/FAT.swift:42-61 | once a descriptor has thrown, no later iteration changes the outcome |
| `FatProperties.DecodeEncodeBE32` | Sources/SwiftMachO/MachO/FAT/FAT.swift:34 | the big-endian decode inverts the most-significant-byte-first encoding of every 32-bit word |
| `FatProperties.EncodeDecodeBE32` | Sources/SwiftMachO/MachO/FAT/FAT.swift:38 | re-encoding a decoded word gives back the same four bytes, so the decode is injective |
| `FatProperties.TableOkIff` | Sources/SwiftMachO/MachO/FAT/FAT.swift:42-64 | the first `k` iterations succeed exactly when each of descriptors `0..k-1` succeeds |
| `FatProperties.TableOk` | Sources/SwiftMachO/MachO/FAT/FAT.swift:42-64 | when they succeed, they have appended one slice per descriptor, each equal to that descriptor's slice, in table order |
| `FatProperties.TableErr` | Sources/SwiftMachO/MachO/FAT/FAT.swift:42-61 | a failed table reports the error of its first failing descriptor |
| `FatProperties.HeaderErrors` | Sources/SwiftMachO/MachO/FAT/FAT.swift:30-40 | under 4 bytes gives `ReadError`; a wrong magic gives `NotFAT`, even without a count; the right magic with fewer than 8 bytes gives `ReadError` |
| `FatProperties.ParseFields` | Sources/SwiftMachO/MachO/FAT/FAT.swift:42-63 | on success the header is valid and there are as many slices as the count says; slice `i` carries the words at `8+20i`, `12+20i` and `16+20i`; its range `[offset, offset + size)`, with `size` the word at `20+20i`, lies inside the buffer; its data are exactly those bytes |
| `FatProperties.ParseOkIff` | Sources/SwiftMachO/MachO/FAT/FAT.swift:29-65 | the read succeeds exactly when the magic is right, the count is present, and every descriptor is complete and in range |
| `FatProperties.TruncatedTable` | Sources/SwiftMachO/MachO/FAT/FAT.swift:42-61 | a non-empty table longer than the buffer always fails, with `ReadError` or `BadFormat`; it is `ReadError` exactly when every complete descriptor is in range |
| `FatProperties.MinimumLength` | Sources/SwiftMachO/MachO/FAT/FAT.swift:42-57 | a successful read of `n > 0` descriptors needs `20n + 4` bytes: the last word read ends at `24 + 20(n-1)` |
| `FatProperties.OutOfRangeRejected` | Sources/SwiftMachO/MachO/FAT/FAT.swift:59-61 | a complete descriptor whose range leaves the buffer makes the whole read fail with `BadFormat` |
| `FatProperties.OverflowRejected` | Sources/SwiftMachO/MachO/FAT/FAT.swift:59-61 | where the `UInt32` sum would trap (sum above `0xFFFFFFFF`), a buffer of at most `0xFFFFFFFF` bytes is rejected with `BadFormat` |
| `FatProperties.WrappingRangeExample` | Sources/SwiftMachO/MachO/FAT/FAT.swift:59-61 | offset `0x10` with size `0xFFFFFFF0`: where Swift's checked `UInt32` addition traps (a wrapping add would give 0), the model rejects with `BadFormat`; see the `FatBinary.FAT.FromData` line under Left out |
| `FatProperties.NoAlignWordExample` | Sources/SwiftMachO/MachO/FAT/FAT.swift:42-63 | a 24-byte buffer with one descriptor and no align word parses to one arm64 slice covering the whole buffer |

## Left out

- `Data.tryGetGeneric` comes from an extension of Foundation's `Data` that
  is not part of this model. `Data.subdata(in:)` is Foundation's own. They
  are modelled as `ReadU32` (4 bytes at `k` if `k + 4 <= |buf|`, otherwise
  nothing) and as sequence slicing. The buffer is zero-based;
  `Data.startIndex` is not modelled.
- The native-endian load followed by `.bigEndian` is modelled directly as a
  big-endian decode. Host byte order is not modelled.
- The compile-time `#if arch(...)` of `bestArch()` becomes the explicit
  `target` parameter of `BestArch`, together with `TargetCpuType` for the
  supported hosts. The `#error` for other architectures is a build failure and
  has no counterpart.
- FatBinary.FAT.FromData: does not model Swift's runtime trap when the
  `UInt32` sum `offset + size` overflows. The sum is taken over unbounded
  integers instead. For buffers of at most `0xFFFFFFFF` bytes such a
  descriptor ends in `BadFormat`. For larger buffers, the model accepts a range
  where Swift would crash.
- `MachOError` is defined elsewhere in the library and is not part of this
  model. Only its two cases that this file throws (`ReadError`, `BadFormat`)
  appear in `Error`.
- The contents of each slice, the inner Mach-O image, are opaque bytes.
- The source has no `CPU_TYPE_ANY` wildcard matching, subtype matching, 64-bit
  or byte-swapped fat magic, overlap checks, or writing of fat binaries, so
  the model has none either.
- `open class` subclassing and the loading of files by callers are not
  modelled.
