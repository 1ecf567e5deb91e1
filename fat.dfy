/** A model of SwiftMachO's reader for Apple "fat" (universal) binaries: the
    header and descriptor-table decoder that builds a FAT object's slices, and
    the search for the slice of the running CPU architecture. */
module FatBinary {

  /** One byte of the input buffer (Foundation's Data is a byte string). */
  type byte = b: int | 0 <= b < 0x100

  /** Swift's UInt32. */
  type uint32 = x: int | 0 <= x < 0x1_0000_0000

  /** Bitwise OR of two 32-bit words, as Swift's `|` on UInt32. */
  function BitOr(a: uint32, b: uint32): uint32 {
    ((a as bv32) | (b as bv32)) as int
  }

  // CPU types, as the Mach-O headers number them. The 64-bit ones are the
  // 32-bit family code with the ABI64 flag set (FatProperties.CpuTypeValues).
  const CPU_TYPE_ANY: uint32 := 0xFFFF_FFFF
  const CPU_ARCH_ABI64: uint32 := 0x100_0000
  const CPU_TYPE_X86: uint32 := 7
  const CPU_TYPE_I386: uint32 := CPU_TYPE_X86
  const CPU_TYPE_X86_64: uint32 := 0x100_0007
  const CPU_TYPE_ARM: uint32 := 12
  const CPU_TYPE_ARM64: uint32 := 0x100_000C
  const CPU_TYPE_POWERPC: uint32 := 18
  const CPU_TYPE_POWERPC64: uint32 := 0x100_0012

  /** The big-endian magic word that opens a fat binary. */
  const FAT_MAGIC: uint32 := 0xCAFE_BABE

  /** The errors the reader throws: ReadError and BadFormat are the wider
      library's MachOError cases, NotFAT and NoBestArchFound are FATError's. */
  datatype Error = ReadError | BadFormat | NotFAT | NoBestArchFound

  datatype Option<T> = None | Some(value: T)

  /** A value, or the error a throwing Swift call ends with. */
  datatype Result<T> = Ok(value: T) | Err(error: Error)

  /** One architecture's slice: its CPU type and subtype, a copy of its bytes
      and where those bytes start in the fat binary. */
  datatype FATSlice = FATSlice(cpuType: uint32, cpuSubType: uint32, data: seq<byte>, offset: uint32)

  /** The big-endian word in buf[k..k+4]. */
  function BE32(buf: seq<byte>, k: nat): (r: uint32)
    requires k + 4 <= |buf|
  {
    (buf[k] as int) * 0x100_0000 + (buf[k + 1] as int) * 0x1_0000 + (buf[k + 2] as int) * 0x100 + buf[k + 3] as int
  }

  /** A 4-byte read at offset k followed by `.bigEndian`: nothing when the
      buffer holds fewer than k + 4 bytes. */
  function ReadU32(buf: seq<byte>, k: nat): Option<uint32> {
    if k + 4 <= |buf| then Some(BE32(buf, k)) else None
  }

  /** Descriptor i of the table starts at byte 8 + 20i; it holds cpuType,
      cpuSubType, offset and size, and the reader reads nothing past size.
      Complete(buf, i) says all four words lie inside the buffer. */
  predicate Complete(buf: seq<byte>, i: nat) {
    24 + 20 * i <= |buf|
  }

  function CpuTypeAt(buf: seq<byte>, i: nat): uint32
    requires Complete(buf, i)
  {
    BE32(buf, 8 + 20 * i)
  }

  function CpuSubTypeAt(buf: seq<byte>, i: nat): uint32
    requires Complete(buf, i)
  {
    BE32(buf, 12 + 20 * i)
  }

  function OffsetAt(buf: seq<byte>, i: nat): uint32
    requires Complete(buf, i)
  {
    BE32(buf, 16 + 20 * i)
  }

  function SizeAt(buf: seq<byte>, i: nat): uint32
    requires Complete(buf, i)
  {
    BE32(buf, 20 + 20 * i)
  }

  /** The byte range descriptor i claims lies inside the buffer. The sum is
      taken over unbounded integers, so it cannot wrap. */
  predicate InBounds(buf: seq<byte>, i: nat)
    requires Complete(buf, i)
  {
    OffsetAt(buf, i) + SizeAt(buf, i) <= |buf|
  }

  /** What one iteration of the reader's loop makes of descriptor i: the
      slice, ReadError when one of its words is cut off, BadFormat when its
      byte range leaves the buffer. */
  function Descriptor(buf: seq<byte>, i: nat): (r: Result<FATSlice>)
    ensures r.Ok? <==> Complete(buf, i) && InBounds(buf, i)
    ensures r.Ok? ==> r.value.offset + |r.value.data| <= |buf| &&
                      r.value.data == buf[r.value.offset..r.value.offset + |r.value.data|]
    ensures r.Err? ==> r.error == ReadError || r.error == BadFormat
  {
    if !Complete(buf, i) then Err(ReadError)
    else if !InBounds(buf, i) then Err(BadFormat)
    else
      var offset := OffsetAt(buf, i);
      Ok(FATSlice(CpuTypeAt(buf, i), CpuSubTypeAt(buf, i), buf[offset..offset + SizeAt(buf, i)], offset))
  }

  /** The outcome of the first k iterations of the loop: the slices appended
      so far, or the error of the first descriptor that failed. */
  function Table(buf: seq<byte>, k: nat): (r: Result<seq<FATSlice>>)
    ensures r.Ok? ==> |r.value| == k
    ensures r.Err? ==> r.error == ReadError || r.error == BadFormat
  {
    if k == 0 then Ok([])
    else
      match Table(buf, k - 1)
      case Err(e) => Err(e)
      case Ok(done) =>
        match Descriptor(buf, k - 1)
        case Err(e) => Err(e)
        case Ok(s) => Ok(done + [s])
  }

  /** The outcome of the whole reader: the magic is checked before the slice
      count is read, and then every descriptor of the table in order. */
  function Parse(buf: seq<byte>): (r: Result<seq<FATSlice>>)
    ensures r.Ok? ==> |buf| >= 8 && |r.value| == BE32(buf, 4)
  {
    if |buf| < 4 then Err(ReadError)
    else if BE32(buf, 0) != FAT_MAGIC then Err(NotFAT)
    else if |buf| < 8 then Err(ReadError)
    else Table(buf, BE32(buf, 4))
  }

  /** Once a descriptor has failed, later iterations never run. */
  lemma {:induction false} TableErrSticky(buf: seq<byte>, k: nat, m: nat)
    requires k <= m && Table(buf, k).Err?
    ensures Table(buf, m) == Table(buf, k)
  {
    if k < m {
      TableErrSticky(buf, k, m - 1);
    }
  }

  /** The architectures the library builds for; bestArch() looks for the
      CPU type of the one it was compiled for (any other is a build error). */
  datatype HostArch = Arm64 | Arm | X86_64

  function TargetCpuType(host: HostArch): (t: uint32)
    ensures t == CPU_TYPE_ARM64 <==> host.Arm64? || host.Arm?
    ensures t == CPU_TYPE_X86_64 <==> host.X86_64?
  {
    if host.X86_64? then CPU_TYPE_X86_64 else CPU_TYPE_ARM64
  }

  /** The body of the loop of `init(fromData:)` for descriptor i: four
      guarded big-endian reads, then the range check, then the slice with a
      copy of its bytes. */
  method ReadDescriptor(data: seq<byte>, i: nat) returns (r: Result<FATSlice>)
    ensures r == Descriptor(data, i)
  {
    var cpuType := ReadU32(data, 8 + i * 20);
    if cpuType.None? {
      return Err(ReadError);
    }
    var cpuSubType := ReadU32(data, 12 + i * 20);
    if cpuSubType.None? {
      return Err(ReadError);
    }
    var offset := ReadU32(data, 16 + i * 20);
    if offset.None? {
      return Err(ReadError);
    }
    var size := ReadU32(data, 20 + i * 20);
    if size.None? {
      return Err(ReadError);
    }
    // Swift adds the two UInt32 words in UInt32 and traps on overflow;
    // here the sum is unbounded and an overflowing range is rejected.
    if offset.value + size.value > |data| {
      return Err(BadFormat);
    }
    return Ok(FATSlice(cpuType.value, cpuSubType.value, data[offset.value..offset.value + size.value], offset.value));
  }

  class FAT {
    var slices: seq<FATSlice>

    constructor ()
      ensures slices == []
    {
      slices := [];
    }

    /** Swift's throwing `init(fromData:)`: the object is built step by step
        and handed out only when every descriptor was read; on an error it is
        dropped, so no partly filled FAT is ever returned. */
    static method FromData(data: seq<byte>) returns (r: Result<FAT>)
      ensures r.Err? ==> Parse(data) == Err(r.error)
      ensures r.Ok? ==> fresh(r.value) && Parse(data) == Ok(r.value.slices)
    {
      var magic := ReadU32(data, 0);
      if magic.None? {
        return Err(ReadError);
      }
      if magic.value != FAT_MAGIC {
        return Err(NotFAT);
      }
      var count := ReadU32(data, 4);
      if count.None? {
        return Err(ReadError);
      }
      var nArchs := count.value;
      var fat := new FAT();
      for i := 0 to nArchs
        invariant Table(data, i) == Ok(fat.slices)
      {
        var slice := ReadDescriptor(data, i);
        if slice.Err? {
          TableErrSticky(data, i + 1, nArchs);
          return Err(slice.error);
        }
        fat.slices := fat.slices + [slice.value];
      }
      return Ok(fat);
    }

    /** The first slice, in table order, whose CPU type is exactly target. */
    method BestArch(target: uint32) returns (r: Result<FATSlice>)
      ensures r.Ok? ==> exists k :: 0 <= k < |slices| && slices[k] == r.value && r.value.cpuType == target &&
                                    forall j :: 0 <= j < k ==> slices[j].cpuType != target
      ensures r.Err? <==> forall j :: 0 <= j < |slices| ==> slices[j].cpuType != target
      ensures r.Err? ==> r.error == NoBestArchFound
    {
      for k := 0 to |slices|
        invariant forall j :: 0 <= j < k ==> slices[j].cpuType != target
      {
        if slices[k].cpuType == target {
          return Ok(slices[k]);
        }
      }
      return Err(NoBestArchFound);
    }
  }
}
