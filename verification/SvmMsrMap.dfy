/**
 The MSR permission map of svm.c, its shadow copy and the userspace filter.

 A 32-bit word of the map is a sequence of 32 bits, so that set_bit, clear_bit and test_bit
 are updates and reads of one position.  kvm_msr_allowed is membership in two sets, and MSR
 numbers come from the AMD manual, since the headers are not part of the repository.
*/
module SvmMsrMap {

  type Word = s: seq<bool> | |s| == 32 witness seq(32, _ => true)

  const MSR_INVALID: nat := 0xffff_ffff
  const MSRS_RANGE_SIZE: nat := 2048
  const MSRS_IN_RANGE: nat := 8192
  const MSRPM_WORDS: nat := 2048

  function RangeBase(i: nat): nat {
    if i == 0 then 0 else if i == 1 then 0xc000_0000 else 0xc001_0000
  }

  predicate InRange(msr: nat, i: nat) { RangeBase(i) <= msr < RangeBase(i) + MSRS_IN_RANGE }

  predicate Mapped(msr: nat) { InRange(msr, 0) || InRange(msr, 1) || InRange(msr, 2) }

  /** The range of a mapped MSR. */
  function RangeOf(msr: nat): nat
    requires Mapped(msr)
  {
    if InRange(msr, 0) then 0 else if InRange(msr, 1) then 1 else 2
  }

  function Offset(msr: nat): nat {
    if Mapped(msr) then ((msr - RangeBase(RangeOf(msr))) / 4 + RangeOf(msr) * MSRS_RANGE_SIZE) / 4 else MSR_INVALID
  }

  function ReadPos(msr: nat): nat { 2 * (msr % 16) }

  /** svm_msrpm_offset. */
  method SvmMsrpmOffset(msr: nat) returns (offset: nat)
    ensures offset == Offset(msr)
    ensures Mapped(msr) <==> offset < 2048
  {
    for i := 0 to 3
      invariant forall j :: 0 <= j < i ==> !InRange(msr, j)
    {
      if msr < RangeBase(i) || msr >= RangeBase(i) + MSRS_IN_RANGE {
        continue;
      }
      offset := (msr - RangeBase(i)) / 4;
      offset := offset + i * MSRS_RANGE_SIZE;
      return offset / 4;
    }
    return MSR_INVALID;
  }

  /** The bit that intercepts reads of an MSR in the AMD manual's map; the next one intercepts writes. */
  function ManualBit(msr: nat): nat {
    if msr < 0x2000 then 2 * msr
    else if 0xc000_0000 <= msr < 0xc000_2000 then 0x4000 + 2 * (msr - 0xc000_0000)
    else if 0xc001_0000 <= msr < 0xc001_2000 then 0x8000 + 2 * (msr - 0xc001_0000)
    else 0xc000
  }

  /** The map is the bit vector of the AMD manual: two bits an MSR, one area of 2 KiB a range. */
  lemma MapLayout(msr: nat)
    requires Mapped(msr)
    ensures Offset(msr) * 32 + ReadPos(msr) == ManualBit(msr)
  {
    var r := RangeOf(msr);
    var rel := msr - RangeBase(r);
    WordOfPair(rel, r);
    SameInItsWord(msr, r);
    assert ManualBit(msr) == 0x4000 * r + 2 * rel;
    hide Mapped, RangeOf, InRange, RangeBase, ManualBit;
  }

  lemma SameInItsWord(msr: nat, r: nat)
    requires InRange(msr, r)
    ensures (msr - RangeBase(r)) % 16 == msr % 16
  {
  }

  lemma WordOfPair(rel: nat, r: nat)
    ensures (rel / 4 + r * 2048) / 4 * 32 + 2 * (rel % 16) == 0x4000 * r + 2 * rel
  {
    WordOf(rel, r);
  }

  lemma WordOf(rel: nat, r: nat)
    ensures (rel / 4 + r * 2048) / 4 == rel / 16 + r * 512
  {
  }

  /** The MSRs that have a bit. */
  lemma MappedMsrs(msr: nat)
    ensures Mapped(msr) <==> ManualBit(msr) < 0xc000
  {
  }

  /** Distinct MSRs of the three ranges never share a bit. */
  lemma MapIsInjective(m: nat, n: nat)
    requires Mapped(m) && Mapped(n) && Offset(m) == Offset(n) && ReadPos(m) == ReadPos(n)
    ensures m == n
  {
    MapLayout(m);
    MapLayout(n);
  }

  // ---------------------------------------------------------------- the map as a value

  predicate ReadIntercepted(p: seq<Word>, msr: nat)
    requires |p| == MSRPM_WORDS && Mapped(msr)
  {
    p[Offset(msr)][ReadPos(msr)]
  }

  predicate WriteIntercepted(p: seq<Word>, msr: nat)
    requires |p| == MSRPM_WORDS && Mapped(msr)
  {
    p[Offset(msr)][ReadPos(msr) + 1]
  }

  /** Bit n of the map, as the CPU counts. */
  predicate BitOf(p: seq<Word>, n: nat)
    requires |p| == MSRPM_WORDS && n < 0x1_0000
  {
    p[n / 32][n % 32]
  }

  /** The CPU finds the read interception at the even bit of the pair and the write interception at the odd one. */
  lemma CpuReadsThePair(p: seq<Word>, msr: nat)
    requires |p| == MSRPM_WORDS && Mapped(msr)
    ensures ManualBit(msr) + 1 < 0x1_0000
    ensures BitOf(p, ManualBit(msr)) == ReadIntercepted(p, msr)
    ensures BitOf(p, ManualBit(msr) + 1) == WriteIntercepted(p, msr)
  {
    MapLayout(msr);
    MappedMsrs(msr);
    SplitBit(Offset(msr), ReadPos(msr));
    SplitBit(Offset(msr), ReadPos(msr) + 1);
  }

  lemma SplitBit(w: nat, k: nat)
    requires k < 32
    ensures (w * 32 + k) / 32 == w && (w * 32 + k) % 32 == k
  {
  }

  function WithBits(w: Word, msr: nat, read: bool, write: bool): Word {
    w[ReadPos(msr) := !read][ReadPos(msr) + 1 := !write]
  }

  function Programmed(p: seq<Word>, msr: nat, read: bool, write: bool): (q: seq<Word>)
    requires |p| == MSRPM_WORDS && Mapped(msr)
  {
    p[Offset(msr) := WithBits(p[Offset(msr)], msr, read, write)]
  }

  /** Programming one MSR sets its two bits and leaves those of every other MSR alone. */
  lemma ProgrammedBits(p: seq<Word>, msr: nat, read: bool, write: bool, m: nat)
    requires |p| == MSRPM_WORDS && Mapped(msr) && Mapped(m)
    ensures ReadIntercepted(Programmed(p, msr, read, write), m) == if m == msr then !read else ReadIntercepted(p, m)
    ensures WriteIntercepted(Programmed(p, msr, read, write), m) == if m == msr then !write else WriteIntercepted(p, m)
  {
    if m != msr && Offset(m) == Offset(msr) && ReadPos(m) == ReadPos(msr) {
      MapIsInjective(m, msr);
    }
  }

  // ---------------------------------------------------------------- direct-access MSRs

  predicate Distinct(t: seq<nat>) { forall i, j :: 0 <= i < j < |t| ==> t[i] != t[j] }

  predicate TableOk(t: seq<nat>) {
    Distinct(t) && forall i :: 0 <= i < |t| ==> Mapped(t[i])
  }

  /** direct_access_msrs without its terminator. */
  const DIRECT_ACCESS_MSRS: seq<nat> := SYSCALL_MSRS + CONTROL_MSRS + X2APIC_MSRS

  const SYSCALL_MSRS: seq<nat> :=
    [0xc000_0081, 0x174, 0x176, 0x175, 0xc000_0101, 0xc000_0100, 0xc000_0102, 0xc000_0082, 0xc000_0083, 0xc000_0084]
  const CONTROL_MSRS: seq<nat> :=
    [0x48, 0x49, 0x10b, 0x1d9, 0x1db, 0x1dc, 0x1dd, 0x1de, 0xda0, 0xc000_0080, 0x277, 0xc001_0130, 0xc000_0103]
  const X2APIC_MSRS: seq<nat> :=
    [0x802, 0x803, 0x808, 0x809, 0x80a, 0x80b, 0x80c, 0x80d, 0x80e, 0x80f, 0x810, 0x818, 0x820, 0x828,
     0x830, 0x831, 0x833, 0x834, 0x835, 0x836, 0x837, 0x838, 0x839, 0x83e]

  lemma X2apicMsrsOk()
    ensures TableOk(X2APIC_MSRS)
    ensures forall i :: 0 <= i < |X2APIC_MSRS| ==> 0x802 <= X2APIC_MSRS[i] <= 0x83e
  {
    assert forall i :: 0 <= i < |X2APIC_MSRS| ==> 0x802 <= X2APIC_MSRS[i] <= 0x83e;
    assert forall i :: 0 < i < |X2APIC_MSRS| ==> X2APIC_MSRS[i - 1] < X2APIC_MSRS[i];
    hide X2APIC_MSRS;
    IncreasingIsDistinct(X2APIC_MSRS);
  }

  lemma {:induction false} IncreasingIsDistinct(t: seq<nat>)
    requires forall i :: 0 < i < |t| ==> t[i - 1] < t[i]
    ensures Distinct(t) && forall i :: 0 <= i < |t| - 1 ==> t[i] < t[|t| - 1]
  {
    if t != [] {
      IncreasingIsDistinct(t[..|t| - 1]);
    }
  }

  lemma OtherMsrsOk()
    ensures TableOk(SYSCALL_MSRS + CONTROL_MSRS)
    ensures forall i :: 0 <= i < |SYSCALL_MSRS + CONTROL_MSRS| ==>
              !(0x802 <= (SYSCALL_MSRS + CONTROL_MSRS)[i] <= 0x83e)
  {
  }

  lemma DirectAccessTableOk()
    ensures TableOk(DIRECT_ACCESS_MSRS)
  {
    X2apicMsrsOk();
    OtherMsrsOk();
    hide SYSCALL_MSRS, CONTROL_MSRS, X2APIC_MSRS;
  }

  /** One MSR's pair of bits is as the shadow and the filter demand. */
  predicate Agrees(p: seq<Word>, read: bool, write: bool, denyRead: set<nat>, denyWrite: set<nat>, msr: nat)
    requires |p| == MSRPM_WORDS && Mapped(msr)
  {
    && (ReadIntercepted(p, msr) <==> !read || msr in denyRead)
    && (WriteIntercepted(p, msr) <==> !write || msr in denyWrite)
  }

  class VcpuSvm {
    const table: seq<nat>
    const msrpm: array<Word>
    const x2avicEnabled: bool
    var shadowRead: seq<bool>     // true: userspace permitting, reads go straight through
    var shadowWrite: seq<bool>
    var denyRead: set<nat>
    var denyWrite: set<nat>
    var x2avicMsrsIntercepted: bool

    ghost predicate Valid()
      reads this
    {
      TableOk(table) && msrpm.Length == MSRPM_WORDS && |shadowRead| == |shadowWrite| == |table|
    }

    /** The map agrees with shadow and filter for the first n direct-access MSRs. */
    ghost predicate InSyncUpTo(n: nat)
      reads this, msrpm
      requires Valid() && n <= |table|
    {
      forall i :: 0 <= i < n ==>
        Agrees(msrpm[..], shadowRead[i], shadowWrite[i], denyRead, denyWrite, table[i])
    }

    ghost predicate InSync()
      reads this, msrpm
      requires Valid()
    {
      InSyncUpTo(|table|)
    }

    /** svm_vcpu_alloc_msrpm: everything is intercepted, which is what an all-zero shadow says. */
    constructor (table: seq<nat>, x2avicEnabled: bool)
      requires TableOk(table)
      ensures Valid() && InSync() && this.table == table && fresh(msrpm)
      ensures denyRead == denyWrite == {} && forall m :: Mapped(m) ==> ReadIntercepted(msrpm[..], m) && WriteIntercepted(msrpm[..], m)
    {
      this.table, this.x2avicEnabled := table, x2avicEnabled;
      var all: Word := seq(32, _ => true);
      msrpm := new Word[MSRPM_WORDS](_ => all);
      shadowRead, shadowWrite := seq(|table|, _ => false), seq(|table|, _ => false);
      denyRead, denyWrite := {}, {};
      x2avicMsrsIntercepted := true;
    }

    method DirectAccessMsrSlot(msr: nat) returns (slot: int)
      requires Valid()
      ensures slot == -1 ==> msr !in table
      ensures slot != -1 ==> 0 <= slot < |table| && table[slot] == msr
    {
      for i := 0 to |table|
        invariant msr !in table[..i]
      {
        if table[i] == msr { return i; }
      }
      return -1;
    }

    method SetShadowMsrIntercept(msr: nat, read: bool, write: bool)
      requires Valid()
      modifies `shadowRead, `shadowWrite
      ensures Valid()
      ensures forall i :: 0 <= i < |table| ==>
        shadowRead[i] == (if table[i] == msr then read else old(shadowRead)[i]) &&
        shadowWrite[i] == (if table[i] == msr then write else old(shadowWrite)[i])
    {
      var slot := DirectAccessMsrSlot(msr);
      if slot == -1 { return; }
      shadowRead := shadowRead[slot := read];
      shadowWrite := shadowWrite[slot := write];
    }

    method SetMsrInterceptionBitmap(msr: nat, read: bool, write: bool)
      requires Valid() && Mapped(msr)
      modifies msrpm
      ensures msrpm[..] ==
        Programmed(old(msrpm[..]), msr, read && msr !in denyRead, write && msr !in denyWrite)
    {
      var r, w := read, write;
      if r && msr in denyRead { r := false; }
      if w && msr in denyWrite { w := false; }
      var offset := SvmMsrpmOffset(msr);
      var tmp := msrpm[offset];
      tmp := tmp[ReadPos(msr) := !r];
      tmp := tmp[ReadPos(msr) + 1 := !w];
      msrpm[offset] := tmp;
    }

    /**
     set_msr_interception on svm->msrpm keeps the whole map in sync, and changes the bits of no
     other MSR.
    */
    method SetMsrInterception(msr: nat, read: bool, write: bool)
      requires Valid() && InSync() && Mapped(msr)
      modifies `shadowRead, `shadowWrite, msrpm
      ensures Valid() && InSync()
      ensures forall m :: Mapped(m) && m != msr ==>
        ReadIntercepted(msrpm[..], m) == ReadIntercepted(old(msrpm[..]), m) &&
        WriteIntercepted(msrpm[..], m) == WriteIntercepted(old(msrpm[..]), m)
      ensures ReadIntercepted(msrpm[..], msr) <==> !read || msr in denyRead
      ensures WriteIntercepted(msrpm[..], msr) <==> !write || msr in denyWrite
    {
      SetShadowMsrIntercept(msr, read, write);
      SetMsrInterceptionBitmap(msr, read, write);
      forall m | Mapped(m)
        ensures ReadIntercepted(msrpm[..], m) ==
          if m == msr then !(read && msr !in denyRead) else ReadIntercepted(old(msrpm[..]), m)
        ensures WriteIntercepted(msrpm[..], m) ==
          if m == msr then !(write && msr !in denyWrite) else WriteIntercepted(old(msrpm[..]), m)
      {
        ProgrammedBits(old(msrpm[..]), msr, read && msr !in denyRead, write && msr !in denyWrite, m);
      }
    }

    /** Userspace installs a new filter; the map is stale until svm_msr_filter_changed has run. */
    method SetFilter(denyRead: set<nat>, denyWrite: set<nat>)
      requires Valid()
      modifies `denyRead, `denyWrite
      ensures Valid() && this.denyRead == denyRead && this.denyWrite == denyWrite
    {
      this.denyRead, this.denyWrite := denyRead, denyWrite;
    }

    /**
     svm_msr_filter_changed brings the map back in sync from any state, and touches only
     direct-access MSRs.
    */
    method MsrFilterChanged()
      requires Valid()
      modifies msrpm
      ensures Valid() && InSync()
      ensures forall m :: Mapped(m) && m !in table ==>
        ReadIntercepted(msrpm[..], m) == ReadIntercepted(old(msrpm[..]), m) &&
        WriteIntercepted(msrpm[..], m) == WriteIntercepted(old(msrpm[..]), m)
    {
      for i := 0 to |table|
        invariant InSyncUpTo(i)
        invariant forall m :: Mapped(m) && m !in table ==>
          ReadIntercepted(msrpm[..], m) == ReadIntercepted(old(msrpm[..]), m) &&
          WriteIntercepted(msrpm[..], m) == WriteIntercepted(old(msrpm[..]), m)
      {
        ghost var before := msrpm[..];
        var msr := table[i];
        var read, write := shadowRead[i], shadowWrite[i];
        SetMsrInterceptionBitmap(msr, read, write);
        forall m | Mapped(m)
          ensures m != msr ==> ReadIntercepted(msrpm[..], m) == ReadIntercepted(before, m)
          ensures m != msr ==> WriteIntercepted(msrpm[..], m) == WriteIntercepted(before, m)
          ensures m == msr ==> Agrees(msrpm[..], read, write, denyRead, denyWrite, m)
        {
          ProgrammedBits(before, msr, read && msr !in denyRead, write && msr !in denyWrite, m);
        }
      }
    }

    /** svm_set_x2apic_msr_interception. */
    method SetX2apicMsrInterception(intercept: bool)
      requires Valid() && InSync()
      modifies `shadowRead, `shadowWrite, `x2avicMsrsIntercepted, msrpm
      ensures Valid() && InSync()
      ensures x2avicMsrsIntercepted == if x2avicEnabled then intercept else old(x2avicMsrsIntercepted)
      ensures !x2avicEnabled ==>
        msrpm[..] == old(msrpm[..]) && shadowRead == old(shadowRead) && shadowWrite == old(shadowWrite)
      ensures forall m :: Mapped(m) && !(0x800 <= m <= 0x8ff) ==>
        ReadIntercepted(msrpm[..], m) == ReadIntercepted(old(msrpm[..]), m) &&
        WriteIntercepted(msrpm[..], m) == WriteIntercepted(old(msrpm[..]), m)
      ensures x2avicEnabled && intercept != old(x2avicMsrsIntercepted) ==>
        forall i :: 0 <= i < |table| && 0x800 <= table[i] <= 0x8ff ==>
          (ReadIntercepted(msrpm[..], table[i]) <==> intercept || table[i] in denyRead) &&
          (WriteIntercepted(msrpm[..], table[i]) <==> intercept || table[i] in denyWrite)
    {
      if intercept == x2avicMsrsIntercepted { return; }
      if !x2avicEnabled { return; }
      for i := 0 to |table|
        invariant Valid() && InSync()
        invariant forall m :: Mapped(m) && !(0x800 <= m <= 0x8ff) ==>
          ReadIntercepted(msrpm[..], m) == ReadIntercepted(old(msrpm[..]), m) &&
          WriteIntercepted(msrpm[..], m) == WriteIntercepted(old(msrpm[..]), m)
        invariant forall j :: 0 <= j < i && 0x800 <= table[j] <= 0x8ff ==>
          (ReadIntercepted(msrpm[..], table[j]) <==> intercept || table[j] in denyRead) &&
          (WriteIntercepted(msrpm[..], table[j]) <==> intercept || table[j] in denyWrite)
      {
        var index := table[i];
        if index < 0x800 || index > 0x8ff {
          continue;
        }
        SetMsrInterception(index, !intercept, !intercept);
      }
      x2avicMsrsIntercepted := intercept;
    }
  }
}
