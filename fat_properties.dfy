/** What the fat-binary reader guarantees, proved about the specification
    functions Parse, Table and Descriptor of FatBinary (FAT.FromData is
    proved to compute Parse). */
module FatProperties {
  import opened FatBinary

  /** Each 64-bit CPU type is its family's code OR'd with the ABI64 flag,
      the value CPU_TYPE_ANY is UInt32.max, and i386 is x86. */
  lemma CpuTypeValues()
    ensures CPU_TYPE_X86_64 == BitOr(CPU_TYPE_X86, CPU_ARCH_ABI64)
    ensures CPU_TYPE_ARM64 == BitOr(CPU_TYPE_ARM, CPU_ARCH_ABI64)
    ensures CPU_TYPE_POWERPC64 == BitOr(CPU_TYPE_POWERPC, CPU_ARCH_ABI64)
    ensures CPU_TYPE_ANY == 0x1_0000_0000 - 1 && CPU_TYPE_I386 == CPU_TYPE_X86
  {
  }

  /** The encoding that BE32 decodes: most significant byte first. */
  ghost function EncodeBE32(x: uint32): (s: seq<byte>)
    ensures |s| == 4
  {
    [x / 0x100_0000, x / 0x1_0000 % 0x100, x / 0x100 % 0x100, x % 0x100]
  }

  /** Decoding an encoded word gives the word back. */
  lemma DecodeEncodeBE32(x: uint32)
    ensures BE32(EncodeBE32(x), 0) == x
  {
    var b0, r0 := x / 0x100_0000, x % 0x100_0000;
    var b1, r1 := r0 / 0x1_0000, r0 % 0x1_0000;
    var b2, b3 := r1 / 0x100, r1 % 0x100;
    assert x == b0 * 0x100_0000 + b1 * 0x1_0000 + b2 * 0x100 + b3;
    DivModUnique(x, 0x1_0000, b0 * 0x100 + b1, b2 * 0x100 + b3);
    DivModUnique(b0 * 0x100 + b1, 0x100, b0, b1);
    DivModUnique(x, 0x100, b0 * 0x1_0000 + b1 * 0x100 + b2, b3);
    DivModUnique(b0 * 0x1_0000 + b1 * 0x100 + b2, 0x100, b0 * 0x100 + b1, b2);
  }

  /** Encoding a decoded word gives the four bytes back. */
  lemma EncodeDecodeBE32(buf: seq<byte>, k: nat)
    requires k + 4 <= |buf|
    ensures EncodeBE32(BE32(buf, k)) == buf[k..k + 4]
  {
    var x := BE32(buf, k);
    var b0, b1, b2, b3 := buf[k] as int, buf[k + 1] as int, buf[k + 2] as int, buf[k + 3] as int;
    DivModUnique(x, 0x100_0000, b0, b1 * 0x1_0000 + b2 * 0x100 + b3);
    DivModUnique(x, 0x1_0000, b0 * 0x100 + b1, b2 * 0x100 + b3);
    DivModUnique(b0 * 0x100 + b1, 0x100, b0, b1);
    DivModUnique(x, 0x100, b0 * 0x1_0000 + b1 * 0x100 + b2, b3);
    DivModUnique(b0 * 0x1_0000 + b1 * 0x100 + b2, 0x100, b0 * 0x100 + b1, b2);
  }

  /** Division by 2^8, 2^16 and 2^24 has one quotient and one remainder. */
  lemma DivModUnique(x: int, d: int, q: int, r: int)
    requires d == 0x100 || d == 0x1_0000 || d == 0x100_0000
    requires 0 <= r < d && x == q * d + r
    ensures x / d == q && x % d == r
  {
  }

  /** The first k iterations succeed exactly when each of descriptors
      0..k-1 does. */
  lemma {:induction false} TableOkIff(buf: seq<byte>, k: nat)
    ensures Table(buf, k).Ok? <==> forall j :: 0 <= j < k ==> Descriptor(buf, j).Ok?
  {
    if k > 0 {
      TableOkIff(buf, k - 1);
      if Table(buf, k - 1).Err? {
        assert Table(buf, k).Err?;
        var j :| 0 <= j < k - 1 && !Descriptor(buf, j).Ok?;
      }
    }
  }

  /** When they succeed, they have appended the slice of each descriptor,
      in table order. */
  lemma {:induction false} TableOk(buf: seq<byte>, k: nat)
    requires Table(buf, k).Ok?
    ensures |Table(buf, k).value| == k
    ensures forall j :: 0 <= j < k ==> Descriptor(buf, j).Ok? && Table(buf, k).value[j] == Descriptor(buf, j).value
  {
    if k > 0 {
      var done := Table(buf, k - 1);
      assert done.Ok?;
      TableOk(buf, k - 1);
      var slices := done.value + [Descriptor(buf, k - 1).value];
      assert Table(buf, k) == Ok(slices);
    }
  }

  /** A failure is the error of the first descriptor that fails. */
  lemma {:induction false} TableErr(buf: seq<byte>, k: nat)
    requires Table(buf, k).Err?
    ensures exists j :: 0 <= j < k && Descriptor(buf, j) == Err(Table(buf, k).error) &&
                        forall i :: 0 <= i < j ==> Descriptor(buf, i).Ok?
  {
    if Table(buf, k - 1).Err? {
      TableErr(buf, k - 1);
    } else {
      TableOk(buf, k - 1);
      assert Descriptor(buf, k - 1) == Err(Table(buf, k).error);
    }
  }

  /** The header checks, in the reader's order: a buffer too short for the
      magic is a ReadError, a wrong magic is NotFAT even if the count is
      missing too, and a right magic without a count is a ReadError. */
  lemma HeaderErrors(buf: seq<byte>)
    ensures |buf| < 4 ==> Parse(buf) == Err(ReadError)
    ensures |buf| >= 4 && BE32(buf, 0) != FAT_MAGIC ==> Parse(buf) == Err(NotFAT)
    ensures 4 <= |buf| < 8 && BE32(buf, 0) == FAT_MAGIC ==> Parse(buf) == Err(ReadError)
  {
  }

  /** A successful read has one slice per descriptor, in table order;
      slice i carries the words of descriptor i and the bytes of the range
      that descriptor names, and that range lies inside the buffer. */
  lemma ParseFields(buf: seq<byte>, slices: seq<FATSlice>)
    requires Parse(buf) == Ok(slices)
    ensures |buf| >= 8 && BE32(buf, 0) == FAT_MAGIC
    ensures |slices| == BE32(buf, 4)
    ensures forall i :: 0 <= i < |slices| ==>
              Complete(buf, i) &&
              slices[i].cpuType == CpuTypeAt(buf, i) &&
              slices[i].cpuSubType == CpuSubTypeAt(buf, i) &&
              slices[i].offset == OffsetAt(buf, i) &&
              slices[i].offset + SizeAt(buf, i) <= |buf| &&
              slices[i].data == buf[slices[i].offset..slices[i].offset + SizeAt(buf, i)]
  {
    TableOk(buf, BE32(buf, 4));
  }

  /** The reader succeeds exactly when the header is right and every
      descriptor of the table is complete and names a range inside the
      buffer. */
  lemma ParseOkIff(buf: seq<byte>)
    ensures Parse(buf).Ok? <==>
              |buf| >= 8 && BE32(buf, 0) == FAT_MAGIC &&
              forall i :: 0 <= i < BE32(buf, 4) ==> Complete(buf, i) && InBounds(buf, i)
  {
    if |buf| >= 8 && BE32(buf, 0) == FAT_MAGIC {
      var n := BE32(buf, 4);
      TableOkIff(buf, n);
      if Parse(buf).Ok? {
        forall i | 0 <= i < n ensures Complete(buf, i) && InBounds(buf, i) {
          assert Descriptor(buf, i).Ok?;
        }
      }
    }
  }

  /** A table that runs past the end of the buffer never yields a FAT. The
      error is ReadError, unless a descriptor before the cut-off one names a
      range outside the buffer: that one is met first and is a BadFormat. */
  lemma TruncatedTable(buf: seq<byte>)
    requires |buf| >= 8 && BE32(buf, 0) == FAT_MAGIC
    requires BE32(buf, 4) > 0 && 20 * BE32(buf, 4) + 4 > |buf|
    ensures Parse(buf) == Err(ReadError) || Parse(buf) == Err(BadFormat)
    ensures Parse(buf) == Err(ReadError) <==>
              forall j :: 0 <= j < BE32(buf, 4) && Complete(buf, j) ==> InBounds(buf, j)
  {
    var n := BE32(buf, 4);
    assert !Complete(buf, n - 1);
    TableOkIff(buf, n);
    TableErr(buf, n);
    var j :| 0 <= j < n && Descriptor(buf, j) == Err(Table(buf, n).error) &&
             forall i :: 0 <= i < j ==> Descriptor(buf, i).Ok?;
    if Parse(buf) == Err(ReadError) {
      forall i | 0 <= i < n && Complete(buf, i) ensures InBounds(buf, i) {
        if i < j {
          assert Descriptor(buf, i).Ok?;
        }
      }
    } else {
      assert Descriptor(buf, j) == Err(BadFormat);
    }
  }

  /** A successful read of a non-empty table needs 20n + 4 bytes: the last
      word read is the size word of the last descriptor, ending at byte
      24 + 20(n - 1); the fifth word (align) of that descriptor is never read. */
  lemma MinimumLength(buf: seq<byte>)
    requires Parse(buf).Ok?
    ensures |buf| >= 8
    ensures BE32(buf, 4) > 0 ==> |buf| >= 20 * BE32(buf, 4) + 4
  {
    ParseOkIff(buf);
    if BE32(buf, 4) > 0 {
      assert Complete(buf, BE32(buf, 4) - 1);
    }
  }

  /** A complete descriptor whose range leaves the buffer makes the whole
      read fail with BadFormat (a failure met earlier in the table can only
      be a BadFormat too, since all earlier descriptors are complete). */
  lemma OutOfRangeRejected(buf: seq<byte>, i: nat)
    requires |buf| >= 8 && BE32(buf, 0) == FAT_MAGIC && i < BE32(buf, 4)
    requires Complete(buf, i) && !InBounds(buf, i)
    ensures Parse(buf) == Err(BadFormat)
  {
    var n := BE32(buf, 4);
    TableOkIff(buf, n);
    assert !Descriptor(buf, i).Ok?;
    TableErr(buf, n);
    var j :| 0 <= j < n && Descriptor(buf, j) == Err(Table(buf, n).error) &&
             forall k :: 0 <= k < j ==> Descriptor(buf, k).Ok?;
    if j < i {
      assert Complete(buf, j);
    }
  }

  /** The case where Swift's UInt32 addition of offset and size would trap:
      for any buffer of at most 0xFFFFFFFF bytes the range is rejected with
      BadFormat, so no wrapped-around sum can let a slice through. */
  lemma OverflowRejected(buf: seq<byte>, i: nat)
    requires |buf| <= 0xFFFF_FFFF
    requires |buf| >= 8 && BE32(buf, 0) == FAT_MAGIC && i < BE32(buf, 4)
    requires Complete(buf, i) && OffsetAt(buf, i) + SizeAt(buf, i) > 0xFFFF_FFFF
    ensures Parse(buf) == Err(BadFormat)
  {
    OutOfRangeRejected(buf, i);
  }

  /** Words encoded back to back, as a fat header and table are laid out. */
  ghost function Words(ws: seq<uint32>): (s: seq<byte>)
    ensures |s| == 4 * |ws|
  {
    if ws == [] then [] else EncodeBE32(ws[0]) + Words(ws[1..])
  }

  /** Word k of such a buffer decodes to ws[k]. */
  lemma {:induction false} WordsAt(ws: seq<uint32>, k: nat)
    requires k < |ws|
    ensures BE32(Words(ws), 4 * k) == ws[k]
  {
    var a, b := EncodeBE32(ws[0]), Words(ws[1..]);
    DecodeEncodeBE32(ws[0]);
    if k == 0 {
      assert BE32(a + b, 0) == BE32(a, 0);
    } else {
      WordsAt(ws[1..], k - 1);
      assert BE32(a + b, 4 * k) == BE32(b, 4 * (k - 1));
    }
  }

  /** A fat binary with one arm64 descriptor claiming offset 0x10 and size
      0xFFFFFFF0. Swift's checked UInt32 addition traps on this pair (a
      wrapping add would give 0); the model, which adds without bound,
      rejects it. */
  ghost const WrappingRange: seq<byte> := Words([FAT_MAGIC, 1, CPU_TYPE_ARM64, 0, 0x10, 0xFFFF_FFF0])

  /** The overflowing range is rejected with BadFormat. */
  lemma WrappingRangeExample()
    ensures Parse(WrappingRange) == Err(BadFormat)
  {
    var ws: seq<uint32> := [FAT_MAGIC, 1, CPU_TYPE_ARM64, 0, 0x10, 0xFFFF_FFF0];
    WordsAt(ws, 0);
    WordsAt(ws, 1);
    WordsAt(ws, 4);
    WordsAt(ws, 5);
    OverflowRejected(Words(ws), 0);
  }

  /** A 24-byte fat binary: one arm64 descriptor without its align word,
      whose slice is the whole buffer. */
  ghost const NoAlignWord: seq<byte> := Words([FAT_MAGIC, 1, CPU_TYPE_ARM64, 0, 0, 24])

  /** It is read successfully although the align word is missing. */
  lemma NoAlignWordExample()
    ensures Parse(NoAlignWord) == Ok([FATSlice(CPU_TYPE_ARM64, 0, NoAlignWord, 0)])
  {
    var ws: seq<uint32> := [FAT_MAGIC, 1, CPU_TYPE_ARM64, 0, 0, 24];
    var buf := Words(ws);
    WordsAt(ws, 0);
    WordsAt(ws, 1);
    WordsAt(ws, 2);
    WordsAt(ws, 3);
    WordsAt(ws, 4);
    WordsAt(ws, 5);
    assert buf[0..24] == buf;
    assert Descriptor(buf, 0) == Ok(FATSlice(CPU_TYPE_ARM64, 0, buf, 0));
    assert Table(buf, 1) == Ok([] + [FATSlice(CPU_TYPE_ARM64, 0, buf, 0)]);
    assert [] + [FATSlice(CPU_TYPE_ARM64, 0, buf, 0)] == [FATSlice(CPU_TYPE_ARM64, 0, buf, 0)];
    assert NoAlignWord == buf;
  }
}

/** A caller of FAT.BestArch: its postconditions alone fix the slice it
    returns, in the cases a caller meets (the first match of several, a
    match after a non-matching slice, no slices at all). */
module BestArchClient {
  import opened FatBinary

  method SelectArm64()
  {
    var x86 := FATSlice(CPU_TYPE_X86_64, 3, [0xCF], 0x1000);
    var arm := FATSlice(CPU_TYPE_ARM64, 0, [0xCF, 0xFA], 0x2000);
    var arm2 := FATSlice(CPU_TYPE_ARM64, 2, [], 0x3000);
    var fat := new FAT();

    var none := fat.BestArch(TargetCpuType(Arm64));
    assert none == Err(NoBestArchFound);

    fat.slices := [x86, arm, arm2];
    var r := fat.BestArch(TargetCpuType(Arm64));
    assert fat.slices[1].cpuType == CPU_TYPE_ARM64;
    assert r == Ok(arm);
    var s := fat.BestArch(TargetCpuType(X86_64));
    assert fat.slices[0].cpuType == CPU_TYPE_X86_64;
    assert s == Ok(x86);
  }
}
