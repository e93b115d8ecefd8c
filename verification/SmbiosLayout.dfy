/**
 The memory part of QEMU's SMBIOS tables (smbios.c): how RAM is divided into DIMMs, how sizes and
 addresses are encoded in tables of types 16, 17 and 19, and which handles the tables get.

 Sizes are uint64_t and the counters are unsigned, so sums wrap at 2^64 and the DIMM count is cut
 to 32 bits; both are written out.  Field meanings follow sections 7.17, 7.18 and 7.20 of DMTF DSP0134.
*/
module SmbiosLayout {
  import opened Arithmetic
  import opened Options

  const UINT32_MAX: nat := TWO_32 - 1
  const KIB: nat := 1024
  const MIB: nat := 1024 * 1024
  const T16_BASE: nat := 0x1000
  const T17_BASE: nat := 0x1100
  const T19_BASE: nat := 0x1300
  const T32_BASE: nat := 0x2000
  const MAX_T16_STD_SZ: nat := 0x8000_0000
  const MAX_T17_STD_SZ: nat := 0x7FFF
  const MAX_T17_EXT_SZ: nat := 0x8000_0000

  // ---------------------------------------------------------------- rounding up

  /** QEMU_ALIGN_UP(n, m) / m, the rounding up done in 64 bits. */
  function Chunks(n: nat, m: nat): nat
    requires m > 0
  {
    Quotient((n + m - 1) % TWO_64, m)
  }

  /** n / m rounded up. */
  function Ceiling(n: nat, m: nat): nat
    requires m > 0
  {
    Quotient(n + m - 1, m)
  }

  /** The rounded-up quotient of a positive n, as the last chunk's number. */
  lemma CeilingOfPositive(n: nat, m: nat)
    requires n > 0 && m > 0
    ensures Ceiling(n, m) == Quotient(n - 1, m) + 1
  {
    Euclid(n - 1, m);
    var q := Quotient(n - 1, m);
    assert (q + 1) * m == q * m + m;
    QuotientIs(n + m - 1, m, q + 1);
  }

  // ---------------------------------------------------------------- dividing RAM

  function DimmCount(ram: nat, dev: nat): nat
    requires dev > 0
  {
    Chunks(ram, dev) % TWO_32
  }

  /** GET_DIMM_SZ: every DIMM is full except the last, which holds the rest. */
  function DimmSize(i: nat, count: nat, ram: nat, dev: nat): nat
    requires ram > 0 && dev > 0
  {
    if i < count - 1 then dev else (ram - 1) % dev + 1
  }

  function SumOfSizes(n: nat, count: nat, ram: nat, dev: nat): nat
    requires ram > 0 && dev > 0
  {
    if n == 0 then 0 else SumOfSizes(n - 1, count, ram, dev) + DimmSize(n - 1, count, ram, dev)
  }

  lemma SizesAreInRange(i: nat, count: nat, ram: nat, dev: nat)
    requires ram > 0 && dev > 0
    ensures 1 <= DimmSize(i, count, ram, dev) <= dev
  {
    Euclid(ram - 1, dev);
  }

  lemma {:induction false} FullDimms(n: nat, count: nat, ram: nat, dev: nat)
    requires ram > 0 && dev > 0 && n < count
    ensures SumOfSizes(n, count, ram, dev) == n * dev
  {
    if n > 0 {
      FullDimms(n - 1, count, ram, dev);
      assert (n - 1) * dev + dev == n * dev;
    }
  }

  /** The sizes miss RAM by the full DIMMs that the count misses. */
  lemma SumOfAllSizes(count: nat, ram: nat, dev: nat)
    requires ram > 0 && dev > 0 && count > 0
    ensures SumOfSizes(count, count, ram, dev) == ram + (count - Ceiling(ram, dev)) * dev
  {
    FullDimms(count - 1, count, ram, dev);
    CeilingOfPositive(ram, dev);
    Euclid(ram - 1, dev);
    var q := Quotient(ram - 1, dev);
    hide Quotient;
    assert (count - 1) * dev - q * dev == (count - 1 - q) * dev;
  }

  /** Rounding up wraps to nothing when the last device reaches past 2^64. */
  lemma ChunksAre(n: nat, m: nat)
    requires 0 < n < TWO_64 && 0 < m < TWO_64
    ensures Chunks(n, m) == if n + m - 1 < TWO_64 then Ceiling(n, m) else 0
  {
    if n + m - 1 >= TWO_64 {
      assert (n + m - 1) % TWO_64 == n + m - 1 - TWO_64;
      QuotientIs(n + m - 1 - TWO_64, m, 0);
    }
  }

  /** The DIMM sizes add up to RAM exactly when rounding up stays in 64 bits and the count in 32. */
  lemma SizesAddUpIff(ram: nat, dev: nat)
    requires 0 < ram < TWO_64 && 0 < dev < TWO_64
    ensures var count := DimmCount(ram, dev);
            SumOfSizes(count, count, ram, dev) == ram <==> (ram + dev - 1 < TWO_64 && Ceiling(ram, dev) < TWO_32)
  {
    var count, all := DimmCount(ram, dev), Ceiling(ram, dev);
    ChunksAre(ram, dev);
    CeilingOfPositive(ram, dev);
    hide Chunks, Quotient, Ceiling;
    if count > 0 {
      SumOfAllSizes(count, ram, dev);
      if count < all {
        MulMonotone(1, all - count, dev);
        assert (count - all) * dev == -((all - count) * dev);
      }
    }
  }

  /** A count of exactly 2^32 is cut to none at all. */
  lemma TooManyDimms()
    ensures var ram, dev := 0x2_0000_0000, 2; DimmCount(ram, dev) == 0 && SumOfSizes(0, 0, ram, dev) != ram
  {
  }

  /** No machine gets there: up to 2 PiB of RAM, in devices of 1 MiB to 2 PiB, the DIMMs always add up to it. */
  lemma SizesAddUpOnMachines(ram: nat, dev: nat)
    requires 0 < ram <= 0x8_0000_0000_0000 && MIB <= dev <= 0x8_0000_0000_0000
    ensures var count := DimmCount(ram, dev); SumOfSizes(count, count, ram, dev) == ram
  {
    SizesAddUpIff(ram, dev);
    if Ceiling(ram, dev) >= TWO_32 {
      Euclid(ram + dev - 1, dev);
      var q := Quotient(ram + dev - 1, dev);
      hide Quotient;
      MulMonotone(TWO_32, q, dev);
      assert false;
    }
  }

  // ---------------------------------------------------------------- type 16

  datatype Type16 = Type16(maximumCapacity: nat, extendedCapacity: nat, devices: nat)

  function BuildType16(count: nat, ram: nat): Type16 {
    var sizeKb := Chunks(ram, KIB);
    if sizeKb < MAX_T16_STD_SZ then Type16(sizeKb, 0, count % TWO_16) else Type16(MAX_T16_STD_SZ, ram, count % TWO_16)
  }

  /** The capacity a reader of the table finds, in bytes: 0x80000000 refers to the extended field. */
  function Type16Bytes(t: Type16): nat {
    if t.maximumCapacity == 0x8000_0000 then t.extendedCapacity else t.maximumCapacity * KIB
  }

  /** The capacity read back is RAM rounded up to KiB, or RAM itself from 2 TiB, unless the rounding wraps. */
  lemma Type16RoundTripIff(count: nat, ram: nat)
    requires 0 < ram < TWO_64
    ensures Type16Bytes(BuildType16(count, ram)) ==
            (if Ceiling(ram, KIB) < MAX_T16_STD_SZ then Ceiling(ram, KIB) * KIB else ram)
            <==> ram + KIB - 1 < TWO_64
  {
    ChunksAre(ram, KIB);
    if ram + KIB - 1 >= TWO_64 {
      Euclid(ram + KIB - 1, KIB);
    }
  }

  /** The last KiB below 2^64 reads back as nothing. */
  lemma TopOfMemoryIsLost()
    ensures Type16Bytes(BuildType16(1, TWO_64 - 1)) == 0
  {
  }

  // ---------------------------------------------------------------- type 17

  datatype Type17 = Type17(handle: nat, size: nat, extendedSize: nat)

  /** The handle field has 16 bits. */
  function Handle17(instance: nat): nat { (T17_BASE + instance) % TWO_16 }

  /** None is the failed assertion on the size. */
  function BuildType17(instance: nat, size: nat): Option<Type17> {
    var sizeMb := Chunks(size, MIB);
    var handle := Handle17(instance);
    if sizeMb < MAX_T17_STD_SZ then Some(Type17(handle, sizeMb, 0))
    else if sizeMb < MAX_T17_EXT_SZ then Some(Type17(handle, MAX_T17_STD_SZ, sizeMb))
    else None
  }

  /** The size a reader finds, in MiB: 0x7FFF refers to the extended field. */
  function Type17MiB(t: Type17): nat { if t.size == 0x7fff then t.extendedSize else t.size }

  /**
   The size read back is the DIMM's rounded up to MiB exactly for sizes below the encoder's limit;
   the assertion stops every larger size, except within a MiB of 2^64, where the rounding wraps.
  */
  lemma Type17RoundTrip(instance: nat, size: nat)
    requires 0 < size < TWO_64
    ensures var t := BuildType17(instance, size);
            && (t.Some? && Type17MiB(t.value) == Ceiling(size, MIB) <==> Ceiling(size, MIB) < MAX_T17_EXT_SZ)
            && (size <= TWO_64 - MIB ==> (t.Some? <==> Ceiling(size, MIB) < MAX_T17_EXT_SZ))
  {
    ChunksAre(size, MIB);
  }

  // ---------------------------------------------------------------- type 19

  datatype Type19 = Type19(handle: nat, start: nat, end: nat, extStart: nat, extEnd: nat)

  function Handle19(instance: nat, offset: nat): nat { (T19_BASE + offset + instance) % TWO_16 }

  /** None is the failed assertion that the range is not empty. */
  function BuildType19(instance: nat, offset: nat, start: nat, size: nat): Option<Type19> {
    var end := (start + size + TWO_64 - 1) % TWO_64;
    var handle := Handle19(instance, offset);
    if end <= start then None
    else if start / KIB < UINT32_MAX && end / KIB < UINT32_MAX
    then Some(Type19(handle, start / KIB, end / KIB, 0, 0))
    else Some(Type19(handle, UINT32_MAX, UINT32_MAX, start, end))
  }

  /** The first and last byte a reader finds: whole KiB, or the extended fields. */
  function Type19First(t: Type19): nat { if t.start == 0xffff_ffff then t.extStart else t.start * KIB }

  function Type19Last(t: Type19): nat { if t.start == 0xffff_ffff then t.extEnd else t.end * KIB + KIB - 1 }

  /** The assertion passes exactly for ranges of two bytes or more that end below 2^64, and the range read back covers them. */
  lemma Type19CoversTheRange(instance: nat, offset: nat, start: nat, size: nat)
    requires start < TWO_64 && 0 < size < TWO_64
    ensures var t := BuildType19(instance, offset, start, size);
            && (t.Some? <==> size >= 2 && start + size - 1 < TWO_64)
            && (t.Some? ==> Type19First(t.value) <= start && start + size - 1 <= Type19Last(t.value))
            && (t.Some? && start % KIB == 0 && size % KIB == 0 ==>
                  Type19First(t.value) == start && Type19Last(t.value) == start + size - 1)
  {
    if start + size - 1 < TWO_64 {
      assert (start + size + TWO_64 - 1) % TWO_64 == start + size - 1;
    } else {
      assert (start + size + TWO_64 - 1) % TWO_64 == start + size - 1 - TWO_64;
    }
  }

  /** Every field fits its width, and an extended field is zero unless the short one refers to it. */
  lemma FieldsFit(count: nat, ram: nat, instance: nat, offset: nat, start: nat, size: nat)
    requires ram < TWO_64 && start < TWO_64 && size < TWO_64
    ensures var t := BuildType16(count, ram);
            && t.maximumCapacity <= 0x8000_0000 && t.extendedCapacity < TWO_64 && t.devices == count % 0x1_0000
            && (t.maximumCapacity != 0x8000_0000 ==> t.extendedCapacity == 0)
    ensures BuildType17(instance, size).Some? ==>
              var t := BuildType17(instance, size).value;
              && t.handle < 0x1_0000 && t.size <= 0x7fff && t.extendedSize < 0x8000_0000
              && (t.size != 0x7fff ==> t.extendedSize == 0)
    ensures BuildType19(instance, offset, start, size).Some? ==>
              var t := BuildType19(instance, offset, start, size).value;
              && t.handle < 0x1_0000 && t.start <= 0xffff_ffff && t.end <= 0xffff_ffff
              && t.extStart < TWO_64 && t.extEnd < TWO_64
              && (t.start == 0xffff_ffff <==> t.end == 0xffff_ffff)
              && (t.start != 0xffff_ffff ==> t.extStart == t.extEnd == 0)
  {
  }

  // ---------------------------------------------------------------- handles

  function Offset(count: nat): nat { if count > T19_BASE - T17_BASE then count - (T19_BASE - T17_BASE) else 0 }

  predicate HandlesFit(count: nat) { T19_BASE + Offset(count) + count <= TWO_16 }

  /** The offset keeps the two ranges apart for every count whose handles fit 16 bits, and no two tables share a handle. */
  lemma DimmHandlesAreDistinct(count: nat, i: nat, j: nat)
    requires HandlesFit(count) && i < count && j < count
    ensures Handle17(i) != Handle19(j, Offset(count)) && T16_BASE !in {Handle17(i), Handle19(j, Offset(count))}
    ensures i != j ==> Handle17(i) != Handle17(j) && Handle19(i, Offset(count)) != Handle19(j, Offset(count))
  {
  }

  /** Types 16, 17, 19 and 32 never share a handle. */
  predicate HandlesAreDistinct(count: nat) {
    && (forall i, j :: 0 <= i < count && 0 <= j < count ==> Handle17(i) != Handle19(j, Offset(count)))
    && (forall i, j :: 0 <= i < j < count ==> Handle17(i) != Handle17(j))
    && (forall i, j :: 0 <= i < j < count ==> Handle19(i, Offset(count)) != Handle19(j, Offset(count)))
    && (forall i :: 0 <= i < count ==> Handle17(i) !in {T16_BASE, T32_BASE})
    && (forall i :: 0 <= i < count ==> Handle19(i, Offset(count)) !in {T16_BASE, T32_BASE})
  }

  predicate HasRoom(count: nat) { count + Offset(count) <= T32_BASE - T19_BASE }

  /** All these handles are distinct exactly up to 1920 DIMMs. */
  lemma HandlesAreDistinctIff(count: nat)
    ensures HandlesAreDistinct(count) <==> count <= 1920
  {
    if HasRoom(count) {
      forall i, j | 0 <= i < count && 0 <= j < count
        ensures Handle17(i) == T17_BASE + i && Handle19(j, Offset(count)) == T19_BASE + Offset(count) + j
      {
      }
    } else if count > T32_BASE - T17_BASE {
      assert Handle17(T32_BASE - T17_BASE) == T32_BASE;
    } else {
      assert Handle19(T32_BASE - T19_BASE - Offset(count), Offset(count)) == T32_BASE;
    }
  }

  // ---------------------------------------------------------------- the whole layout

  /**
   BadRead is the read past the end of mem_array that the type 19 loop makes when there are more
   DIMMs than memory areas; Aborted is a failed assertion.
  */
  datatype Outcome = Built | Aborted | BadRead

  predicate Are17(tables: seq<Type17>, count: nat, ram: nat, dev: nat)
    requires ram > 0 && dev > 0
  {
    forall i :: 0 <= i < |tables| ==> BuildType17(i, DimmSize(i, count, ram, dev)) == Some(tables[i])
  }

  predicate Are19(tables: seq<Type19>, mem: seq<nat>, count: nat, ram: nat, dev: nat)
    requires ram > 0 && dev > 0
  {
    |tables| <= |mem| &&
    forall i :: 0 <= i < |tables| ==>
      BuildType19(i, Offset(count), mem[i], DimmSize(i, count, ram, dev)) == Some(tables[i])
  }

  /** The largest DIMM that a type 17 table can hold. */
  const MAX_DIMM: nat := (MAX_T17_EXT_SZ - 1) * MIB

  /** The first DIMM is the largest, so the encoder's limit is a limit on that one. */
  predicate SizesFit(count: nat, ram: nat, dev: nat)
    requires ram > 0 && dev > 0
  {
    count == 0 || DimmSize(0, count, ram, dev) <= MAX_DIMM
  }

  /** The range has two bytes or more and ends below 2^64. */
  predicate RangeFits(start: nat, size: nat) { size >= 2 && start + size <= TWO_64 }

  predicate RangesFit(mem: seq<nat>, n: nat, count: nat, ram: nat, dev: nat)
    requires ram > 0 && dev > 0
  {
    n <= |mem| && forall i :: 0 <= i < n ==> RangeFits(mem[i], DimmSize(i, count, ram, dev))
  }

  /** The final assertion, in unsigned arithmetic. */
  predicate RoomBelowType32(areas: nat, count: nat) { (areas + Offset(count)) % TWO_32 < T32_BASE - T19_BASE }

  predicate InputOk(ram: nat, dev: nat, mem: seq<nat>) {
    0 < ram < TWO_64 && 0 < dev < TWO_64 && |mem| < TWO_32 && forall i :: 0 <= i < |mem| ==> mem[i] < TWO_64
  }

  /** Exactly when the tables get built. */
  predicate CanBuild(ram: nat, dev: nat, mem: seq<nat>)
    requires InputOk(ram, dev, mem)
  {
    var count := DimmCount(ram, dev);
    SizesFit(count, ram, dev) && RangesFit(mem, count, count, ram, dev) && RoomBelowType32(|mem|, count)
  }

  /** Exactly when the type 19 loop reads past the end of mem_array. */
  predicate ReadsPastTheAreas(ram: nat, dev: nat, mem: seq<nat>)
    requires InputOk(ram, dev, mem)
  {
    var count := DimmCount(ram, dev);
    |mem| < count && SizesFit(count, ram, dev) && RangesFit(mem, |mem|, count, ram, dev)
  }

  /** A machine with 48 GiB in 16-GiB DIMMs and the usual two areas, below and above the 4-GiB hole. */
  lemma ThreeDimmsInTwoAreas()
    ensures var ram, dev, mem := 0xC_0000_0000, 0x4_0000_0000, [0, 0x1_0000_0000];
            InputOk(ram, dev, mem) && DimmCount(ram, dev) == 3 && ReadsPastTheAreas(ram, dev, mem)
  {
    var ram, dev, mem: seq<nat> := 0xC_0000_0000, 0x4_0000_0000, [0, 0x1_0000_0000];
    assert DimmCount(ram, dev) == 3;
    assert DimmSize(0, 3, ram, dev) == dev && DimmSize(1, 3, ram, dev) == dev;
  }

  lemma SizeEncodesIff(instance: nat, size: nat)
    requires 0 < size <= TWO_64 - MIB
    ensures BuildType17(instance, size).Some? <==> size <= MAX_DIMM
  {
    ChunksAre(size, MIB);
  }

  /** Every DIMM of a layout that was not lost to wrapping leaves room for the rounding to MiB. */
  lemma SizesLeaveRoom(i: nat, ram: nat, dev: nat)
    requires 0 < ram < TWO_64 && 0 < dev < TWO_64 && i < DimmCount(ram, dev)
    ensures var size := DimmSize(i, DimmCount(ram, dev), ram, dev);
            size <= DimmSize(0, DimmCount(ram, dev), ram, dev) && 0 < size <= TWO_64 - MIB
  {
    ChunksAre(ram, dev);
    var count := DimmCount(ram, dev);
    assert ram + dev - 1 < TWO_64;
    if 2 * dev > TWO_64 {
      QuotientIs(ram - 1, dev, 0);
      Euclid(ram - 1, dev);
      CeilingOfPositive(ram, dev);
      assert count == 1 && DimmSize(i, count, ram, dev) == ram;
    } else {
      hide DimmCount;
      SizesAreInRange(i, count, ram, dev);
    }
  }

  /** The caller's condition for the sizes is the builders' own. */
  lemma SizesFitIff(ram: nat, dev: nat)
    requires 0 < ram < TWO_64 && 0 < dev < TWO_64
    ensures var count := DimmCount(ram, dev);
            SizesFit(count, ram, dev) <==>
            forall i :: 0 <= i < count ==> BuildType17(i, DimmSize(i, count, ram, dev)).Some?
  {
    var count := DimmCount(ram, dev);
    hide DimmCount, DimmSize, BuildType17;
    forall i | 0 <= i < count
      ensures DimmSize(i, count, ram, dev) <= DimmSize(0, count, ram, dev)
      ensures BuildType17(i, DimmSize(i, count, ram, dev)).Some? <==> DimmSize(i, count, ram, dev) <= MAX_DIMM
    {
      SizesLeaveRoom(i, ram, dev);
      SizeEncodesIff(i, DimmSize(i, count, ram, dev));
    }
  }

  /**
   Whenever the tables get built types 16, 17, 19 and 32 have handles of their own and the 16-bit
   device count is the real one, provided the sum in the final assertion does not wrap 32 bits.  The
   assertion alone is about mem_array_size; it reaches the DIMMs because the loop stayed inside mem_array.
  */
  lemma BuiltLayoutHasDistinctHandles(ram: nat, dev: nat, mem: seq<nat>)
    requires InputOk(ram, dev, mem) && CanBuild(ram, dev, mem) && |mem| + Offset(DimmCount(ram, dev)) < TWO_32
    ensures var count := DimmCount(ram, dev);
            HandlesAreDistinct(count) && BuildType16(count, ram).devices == count
  {
    var count := DimmCount(ram, dev);
    assert count <= |mem| && RoomBelowType32(|mem|, count);
    hide CanBuild, InputOk, DimmCount;
    assert HasRoom(count) && count <= 1920;
    hide HasRoom, RoomBelowType32;
    HandlesAreDistinctIff(count);
    DeviceCountFits(count, ram);
  }

  /**
   The same of the tables themselves: in a built layout type 17 table i has handle 0x1100 + i and type
   19 table j has handle 0x1300 + j, moved up by the DIMMs past the 512th, so that all handles are
   distinct and differ from 0x1000 and 0x2000; table i holds DIMM i's size and the range from area i on.
  */
  lemma BuiltTablesAreDistinct(
      ram: nat, dev: nat, mem: seq<nat>, type17: seq<Type17>, type19: seq<Type19>, i: nat, j: nat)
    requires InputOk(ram, dev, mem) && CanBuild(ram, dev, mem) && |mem| + Offset(DimmCount(ram, dev)) < TWO_32
    requires |type17| == |type19| == DimmCount(ram, dev) && i < |type17| && j < |type17|
    requires Are17(type17, |type17|, ram, dev) && Are19(type19, mem, |type17|, ram, dev)
    ensures type17[i].handle == 0x1100 + i
    ensures type19[j].handle == 0x1300 + j + if |type17| > 512 then |type17| - 512 else 0
    ensures type17[i].handle != type19[j].handle && type17[i].handle < 0x2000 && type19[j].handle < 0x2000
    ensures i != j ==> type17[i].handle != type17[j].handle && type19[i].handle != type19[j].handle
  {
    var count := DimmCount(ram, dev);
    assert count <= 1920 by { BuiltFewDimms(ram, dev, mem); }
    hide CanBuild, InputOk, DimmCount, Are17, Are19;
    HandleFields(type17, type19, mem, count, ram, dev, i);
    HandleFields(type17, type19, mem, count, ram, dev, j);
    HandleValues(count, i);
    HandleValues(count, j);
    hide Handle17, Handle19;
  }

  lemma BuiltFewDimms(ram: nat, dev: nat, mem: seq<nat>)
    requires InputOk(ram, dev, mem) && CanBuild(ram, dev, mem) && |mem| + Offset(DimmCount(ram, dev)) < TWO_32
    ensures DimmCount(ram, dev) <= 1920
  {
    assert DimmCount(ram, dev) <= |mem| && RoomBelowType32(|mem|, DimmCount(ram, dev));
    hide CanBuild, DimmCount;
  }

  lemma HandleFields(type17: seq<Type17>, type19: seq<Type19>, mem: seq<nat>, count: nat, ram: nat, dev: nat, k: nat)
    requires ram > 0 && dev > 0 && k < |type17| == |type19|
    requires Are17(type17, count, ram, dev) && Are19(type19, mem, count, ram, dev)
    ensures type17[k].handle == Handle17(k) && type19[k].handle == Handle19(k, Offset(count))
  {
    hide DimmSize, Handle17, Handle19;
    assert BuildType17(k, DimmSize(k, count, ram, dev)) == Some(type17[k]);
    assert BuildType19(k, Offset(count), mem[k], DimmSize(k, count, ram, dev)) == Some(type19[k]);
  }

  lemma HandleValues(count: nat, k: nat)
    requires k < count <= 1920
    ensures Handle17(k) == 0x1100 + k && Handle19(k, Offset(count)) == 0x1300 + k + if count > 512 then count - 512 else 0
  {
  }

  /** ... and table i describes DIMM i, at the address of area i. */
  lemma BuiltTablesDescribeTheDimms(
      ram: nat, dev: nat, mem: seq<nat>, type17: seq<Type17>, type19: seq<Type19>, i: nat)
    requires InputOk(ram, dev, mem) && CanBuild(ram, dev, mem)
    requires |type17| == |type19| == DimmCount(ram, dev) && i < |type17|
    requires Are17(type17, |type17|, ram, dev) && Are19(type19, mem, |type17|, ram, dev)
    ensures Type17MiB(type17[i]) == Ceiling(DimmSize(i, |type17|, ram, dev), MIB)
    ensures Type19First(type19[i]) <= mem[i] && mem[i] + DimmSize(i, |type17|, ram, dev) - 1 <= Type19Last(type19[i])
  {
    var count := DimmCount(ram, dev);
    SizesLeaveRoom(i, ram, dev);
    SizesAreInRange(i, count, ram, dev);
    hide DimmCount, DimmSize;
    var size := DimmSize(i, count, ram, dev);
    assert BuildType17(i, size) == Some(type17[i]) && BuildType19(i, Offset(count), mem[i], size) == Some(type19[i]);
    Type17RoundTrip(i, size);
    Type19CoversTheRange(i, Offset(count), mem[i], size);
  }

  lemma DeviceCountFits(count: nat, ram: nat)
    requires HasRoom(count)
    ensures BuildType16(count, ram).devices == count
  {
  }

  function SumOfMiB(tables: seq<Type17>): nat {
    if tables == [] then 0 else SumOfMiB(tables[..|tables| - 1]) + Type17MiB(tables[|tables| - 1])
  }

  /** k * MIB bytes more are k MiB more. */
  lemma CeilingShift(k: nat, n: nat)
    ensures Ceiling(k * MIB + n, MIB) == k + Ceiling(n, MIB)
  {
  }

  lemma {:induction false} FullDimmsDecode(tables: seq<Type17>, count: nat, ram: nat, dev: nat, k: nat)
    requires 0 < ram && 0 < dev <= TWO_64 - MIB && Ceiling(dev, MIB) == k
    requires |tables| < count && Are17(tables, count, ram, dev)
    ensures SumOfMiB(tables) == |tables| * k
  {
    hide Ceiling, BuildType17, Type17MiB;
    if tables != [] {
      var n := |tables| - 1;
      FullDimmsDecode(tables[..n], count, ram, dev, k);
      assert BuildType17(n, DimmSize(n, count, ram, dev)) == Some(tables[n]);
      Type17RoundTrip(n, dev);
      assert n * k + k == (n + 1) * k;
    }
  }

  /** The count and the last DIMM, when the layout is exact. */
  lemma ExactLayout(ram: nat, dev: nat)
    requires 0 < ram < TWO_64 && 0 < dev < TWO_64
    requires ram + dev - 1 < TWO_64 && Ceiling(ram, dev) < TWO_32
    ensures var n := Quotient(ram - 1, dev);
            DimmCount(ram, dev) == n + 1 && ram == n * dev + DimmSize(n, n + 1, ram, dev)
  {
    ChunksAre(ram, dev);
    CeilingOfPositive(ram, dev);
    Euclid(ram - 1, dev);
    hide Quotient, Chunks, Ceiling;
  }

  /** With devices of whole MiB, the sizes read back from the type 17 tables add up to RAM rounded up to MiB. */
  lemma DecodedSizesAddUp(tables: seq<Type17>, ram: nat, dev: nat)
    requires 0 < ram < TWO_64 && 0 < dev < TWO_64 && dev % MIB == 0
    requires ram + dev - 1 < TWO_64 && Ceiling(ram, dev) < TWO_32
    requires |tables| == DimmCount(ram, dev) && Are17(tables, |tables|, ram, dev)
    ensures SumOfMiB(tables) == Ceiling(ram, MIB)
  {
    ExactLayout(ram, dev);
    var n, k := Quotient(ram - 1, dev), dev / MIB;
    assert Ceiling(dev, MIB) == k by { CeilingShift(k, 0); }
    hide Quotient, DimmCount, Ceiling, BuildType17, Type17MiB;
    var last := DimmSize(n, n + 1, ram, dev);
    FullDimmsDecode(tables[..n], n + 1, ram, dev, k);
    SizesAreInRange(n, n + 1, ram, dev);
    hide DimmSize;
    Type17RoundTrip(n, last);
    WholeMiB(n, k, dev);
    MulMonotone(0, n, k);
    CeilingShift(n * k, last);
  }

  lemma WholeMiB(n: nat, k: nat, dev: nat)
    requires dev == k * MIB
    ensures n * dev == (n * k) * MIB
  {
  }

  // ---------------------------------------------------------------- in place

  class SmbiosTables {
    var type16: seq<Type16>
    var type17: seq<Type17>
    var type19: seq<Type19>

    constructor ()
      ensures type16 == [] && type17 == [] && type19 == []
    {
      type16, type17, type19 := [], [], [];
    }

    /** The part of smbios_get_tables_ep that appends the memory tables. */
    method AppendMemoryTables(ram: nat, dev: nat, mem: seq<nat>) returns (outcome: Outcome)
      requires InputOk(ram, dev, mem) && type16 == [] && type17 == [] && type19 == []
      modifies this
      ensures outcome == Built <==> CanBuild(ram, dev, mem)
      ensures outcome == BadRead <==> ReadsPastTheAreas(ram, dev, mem)
      ensures outcome == Built ==>
                var count := DimmCount(ram, dev);
                && type16 == [BuildType16(count, ram)] && |type17| == count && |type19| == count
                && Are17(type17, count, ram, dev) && Are19(type19, mem, count, ram, dev)
    {
      var count := DimmCount(ram, dev);
      var offset := Offset(count);
      SizesFitIff(ram, dev);
      type16 := type16 + [BuildType16(count, ram)];
      for i := 0 to count
        invariant |type17| == i && Are17(type17, count, ram, dev) && type19 == []
        invariant type16 == [BuildType16(count, ram)]
      {
        var t := BuildType17(i, DimmSize(i, count, ram, dev));
        if t.None? {
          return Aborted;
        }
        type17 := type17 + [t.value];
      }
      for i := 0 to count
        invariant |type17| == count && Are17(type17, count, ram, dev)
        invariant |type19| == i && Are19(type19, mem, count, ram, dev)
        invariant SizesFit(count, ram, dev) && RangesFit(mem, i, count, ram, dev)
        invariant type16 == [BuildType16(count, ram)]
      {
        if i >= |mem| {
          return BadRead;
        }
        SizesAreInRange(i, count, ram, dev);
        Type19CoversTheRange(i, offset, mem[i], DimmSize(i, count, ram, dev));
        var t := BuildType19(i, offset, mem[i], DimmSize(i, count, ram, dev));
        if t.None? {
          return Aborted;
        }
        type19 := type19 + [t.value];
      }
      if (|mem| + offset) % TWO_32 >= T32_BASE - T19_BASE {
        return Aborted;
      }
      return Built;
    }
  }
}
