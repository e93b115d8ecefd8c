/**
 The MSR intercept bitmap of vmx.c, its shadow copy and the userspace filter, on CPUs that
 have an MSR bitmap.

 Bit b of the 4-KByte page is element b of an array.  The bitmap helpers of vmx.h are not part
 of the repository; they are modelled from section 25.6.9 of volume 3C of the Intel manual.
*/
module VmxMsrBitmap {

  const BITMAP_BITS: nat := 32768
  const READ_HIGH: nat := 0x400 * 8
  const WRITE_LOW: nat := 0x800 * 8

  /** MSRs the bitmap covers; all others always exit. */
  predicate Covered(msr: nat) { msr <= 0x1fff || 0xc000_0000 <= msr <= 0xc000_1fff }

  function ReadBit(msr: nat): (b: nat)
    requires Covered(msr)
    ensures b < WRITE_LOW
  {
    if msr <= 0x1fff then msr else READ_HIGH + (msr - 0xc000_0000)
  }

  function WriteBit(msr: nat): (b: nat)
    requires Covered(msr)
    ensures WRITE_LOW <= b < BITMAP_BITS
  {
    WRITE_LOW + ReadBit(msr)
  }

  /** The manual's four KiB: reads of low MSRs, reads of high ones, then the writes of both. */
  lemma BitLayout(msr: nat)
    ensures msr < 0x2000 ==> Covered(msr) && ReadBit(msr) == msr && WriteBit(msr) == 16384 + msr
    ensures 0xc000_0000 <= msr < 0xc000_2000 ==>
              Covered(msr) && ReadBit(msr) == 8192 + msr - 0xc000_0000 && WriteBit(msr) == 24576 + msr - 0xc000_0000
    ensures Covered(msr) ==> msr < 0x2000 || 0xc000_0000 <= msr < 0xc000_2000
  {
  }

  /** Every bit belongs to one MSR and one access. */
  lemma BitsAreDistinct(m: nat, n: nat)
    requires Covered(m) && Covered(n)
    ensures ReadBit(m) == ReadBit(n) <==> m == n
    ensures WriteBit(m) == WriteBit(n) <==> m == n
    ensures ReadBit(m) != WriteBit(n)
  {
  }

  predicate TableOk(t: seq<nat>) {
    && (forall i, j :: 0 <= i < j < |t| ==> t[i] != t[j])
    && (forall i :: 0 <= i < |t| ==> Covered(t[i]) && !(0x800 <= t[i] <= 0x8ff))
  }

  /** vmx_possible_passthrough_msrs. */
  const PASSTHROUGH_MSRS: seq<nat> :=
    [0x48, 0x49, 0x10b, 0x10, 0xc000_0100, 0xc000_0101, 0xc000_0102, 0x1c4, 0x1c5,
     0x174, 0x175, 0x176, 0x660, 0x3fc, 0x3fd, 0x3fe]

  lemma PassthroughTableOk()
    ensures TableOk(PASSTHROUGH_MSRS)
  {
  }

  /** Bit b belongs to one of the first n listed MSRs. */
  ghost predicate ListedBit(t: seq<nat>, n: nat, b: nat)
    requires TableOk(t) && n <= |t|
  {
    exists i :: 0 <= i < n && (b == ReadBit(t[i]) || b == WriteBit(t[i]))
  }

  /** What a full rebuild makes of bitmap p: listed MSRs from shadow and filter, the rest as it was. */
  ghost predicate IsRebuild(p: seq<bool>, q: seq<bool>, t: seq<nat>, shadowRead: seq<bool>, shadowWrite: seq<bool>,
                            denyRead: set<nat>, denyWrite: set<nat>)
    requires |p| == |q| == BITMAP_BITS && TableOk(t) && |shadowRead| == |shadowWrite| == |t|
  {
    && (forall i :: 0 <= i < |t| ==>
          && (q[ReadBit(t[i])] <==> shadowRead[i] || t[i] in denyRead)
          && (q[WriteBit(t[i])] <==> shadowWrite[i] || t[i] in denyWrite))
    && (forall b :: 0 <= b < BITMAP_BITS && !ListedBit(t, |t|, b) ==> q[b] == p[b])
  }

  /** A full rebuild is one definite bitmap. */
  lemma RebuildIsUnique(p: seq<bool>, q: seq<bool>, q': seq<bool>, t: seq<nat>, shadowRead: seq<bool>,
                        shadowWrite: seq<bool>, denyRead: set<nat>, denyWrite: set<nat>)
    requires |p| == |q| == |q'| == BITMAP_BITS && TableOk(t) && |shadowRead| == |shadowWrite| == |t|
    requires IsRebuild(p, q, t, shadowRead, shadowWrite, denyRead, denyWrite)
    requires IsRebuild(p, q', t, shadowRead, shadowWrite, denyRead, denyWrite)
    ensures q == q'
  {
    forall b | 0 <= b < BITMAP_BITS
      ensures q[b] == q'[b]
    {
      if ListedBit(t, |t|, b) {
        var i :| 0 <= i < |t| && (b == ReadBit(t[i]) || b == WriteBit(t[i]));
      }
    }
  }

  class VcpuVmx {
    const table: seq<nat>
    const bitmap: array<bool>
    var shadowRead: seq<bool>     // true: KVM wants the access intercepted
    var shadowWrite: seq<bool>
    var denyRead: set<nat>
    var denyWrite: set<nat>

    ghost predicate Valid()
      reads this, bitmap
    {
      && TableOk(table) && bitmap.Length == BITMAP_BITS && |shadowRead| == |shadowWrite| == |table|
      && (forall i :: 0 <= i < |table| ==>
            (shadowRead[i] ==> bitmap[ReadBit(table[i])]) && (shadowWrite[i] ==> bitmap[WriteBit(table[i])]))
    }

    /** The bitmap is what a full rebuild from the current shadow and filter would give. */
    ghost predicate InSync()
      reads this, bitmap
      requires Valid()
    {
      IsRebuild(bitmap[..], bitmap[..], table, shadowRead, shadowWrite, denyRead, denyWrite)
    }

    /** The bitmap and shadow of vmx_vcpu_create: all ones. */
    constructor (table: seq<nat>)
      requires TableOk(table)
      ensures Valid() && InSync() && this.table == table && denyRead == denyWrite == {}
      ensures forall b :: 0 <= b < BITMAP_BITS ==> bitmap[b]
    {
      this.table := table;
      bitmap := new bool[BITMAP_BITS](_ => true);
      shadowRead, shadowWrite := seq(|table|, _ => true), seq(|table|, _ => true);
      denyRead, denyWrite := {}, {};
    }

    method PossiblePassthroughMsrSlot(msr: nat) returns (slot: int)
      requires Valid()
      ensures slot == -1 ==> msr !in table
      ensures slot != -1 ==> 0 <= slot < |table| && table[slot] == msr
    {
      for i := 0 to |table|
        invariant msr !in table[..i]
      {
        if table[i] == msr { return i; }
      }
      return -1;
    }

    /** Marks the desired intercept state in the shadow bitmap. */
    method MarkShadow(msr: nat, read: bool, write: bool, intercept: bool)
      requires Valid()
      modifies `shadowRead, `shadowWrite
      ensures |shadowRead| == |shadowWrite| == |table|
      ensures forall i :: 0 <= i < |table| ==>
        shadowRead[i] == (if table[i] == msr && read then intercept else old(shadowRead)[i]) &&
        shadowWrite[i] == (if table[i] == msr && write then intercept else old(shadowWrite)[i])
    {
      var idx := PossiblePassthroughMsrSlot(msr);
      if idx != -1 {
        if read { shadowRead := shadowRead[idx := intercept]; }
        if write { shadowWrite := shadowWrite[idx := intercept]; }
      }
    }

    /** vmx_disable_intercept_for_msr for the accesses asked for. */
    method DisableIntercept(msr: nat, read: bool, write: bool)
      requires Valid() && Covered(msr)
      modifies `shadowRead, `shadowWrite, bitmap
      ensures Valid()
      ensures forall i :: 0 <= i < |table| ==>
        shadowRead[i] == (if table[i] == msr && read then false else old(shadowRead)[i]) &&
        shadowWrite[i] == (if table[i] == msr && write then false else old(shadowWrite)[i])
      ensures forall b :: 0 <= b < BITMAP_BITS ==>
        bitmap[b] == if read && b == ReadBit(msr) then msr in denyRead
                     else if write && b == WriteBit(msr) then msr in denyWrite
                     else old(bitmap[b])
    {
      MarkShadow(msr, read, write, false);
      var r, w := read, write;
      if r && msr in denyRead {
        bitmap[ReadBit(msr)] := true;
        r := false;
      }
      if w && msr in denyWrite {
        bitmap[WriteBit(msr)] := true;
        w := false;
      }
      if r { bitmap[ReadBit(msr)] := false; }
      if w { bitmap[WriteBit(msr)] := false; }
    }

    /** vmx_enable_intercept_for_msr for the accesses asked for. */
    method EnableIntercept(msr: nat, read: bool, write: bool)
      requires Valid() && Covered(msr)
      modifies `shadowRead, `shadowWrite, bitmap
      ensures Valid()
      ensures forall i :: 0 <= i < |table| ==>
        shadowRead[i] == (if table[i] == msr && read then true else old(shadowRead)[i]) &&
        shadowWrite[i] == (if table[i] == msr && write then true else old(shadowWrite)[i])
      ensures forall b :: 0 <= b < BITMAP_BITS ==>
        bitmap[b] == ((read && b == ReadBit(msr)) || (write && b == WriteBit(msr)) || old(bitmap[b]))
    {
      MarkShadow(msr, read, write, true);
      if read { bitmap[ReadBit(msr)] := true; }
      if write { bitmap[WriteBit(msr)] := true; }
    }

    /** vmx_set_intercept_for_msr keeps a bitmap that is in sync in sync. */
    method SetIntercept(msr: nat, read: bool, write: bool, intercept: bool)
      requires Valid() && InSync() && Covered(msr)
      modifies `shadowRead, `shadowWrite, bitmap
      ensures Valid() && InSync()
      ensures read ==> (bitmap[ReadBit(msr)] <==> intercept || msr in denyRead)
      ensures write ==> (bitmap[WriteBit(msr)] <==> intercept || msr in denyWrite)
    {
      if intercept {
        EnableIntercept(msr, read, write);
      } else {
        DisableIntercept(msr, read, write);
      }
    }

    /** Userspace installs a new filter. */
    method SetFilter(denyRead: set<nat>, denyWrite: set<nat>)
      requires Valid()
      modifies `denyRead, `denyWrite
      ensures Valid() && this.denyRead == denyRead && this.denyWrite == denyWrite
    {
      this.denyRead, this.denyWrite := denyRead, denyWrite;
    }

    /** The whole-word writes of vmx_update_msr_bitmap_x2apic: MSRs 0x800 to 0x83f only. */
    method WriteX2apicWords(readMask: seq<bool>)
      requires Valid() && |readMask| == 64
      modifies bitmap
      ensures Valid() && (old(InSync()) ==> InSync())
      ensures forall b :: 0 <= b < BITMAP_BITS ==>
        bitmap[b] == if 0x800 <= b < 0x840 then readMask[b - 0x800]
                     else if WRITE_LOW + 0x800 <= b < WRITE_LOW + 0x840 then true
                     else old(bitmap[b])
    {
      forall k | 0 <= k < 64 { bitmap[0x800 + k] := readMask[k]; }
      forall k | 0 <= k < 64 { bitmap[WRITE_LOW + 0x800 + k] := true; }
    }

    /** One turn of the loop of vmx_msr_filter_changed. */
    method RefreshListed(i: nat)
      requires Valid() && i < |table|
      modifies `shadowRead, `shadowWrite, bitmap
      ensures Valid() && shadowRead == old(shadowRead) && shadowWrite == old(shadowWrite)
      ensures bitmap[ReadBit(table[i])] <==> shadowRead[i] || table[i] in denyRead
      ensures bitmap[WriteBit(table[i])] <==> shadowWrite[i] || table[i] in denyWrite
      ensures forall b :: 0 <= b < BITMAP_BITS && b != ReadBit(table[i]) && b != WriteBit(table[i]) ==>
                bitmap[b] == old(bitmap[b])
    {
      var msr := table[i];
      if !shadowRead[i] {
        DisableIntercept(msr, true, false);
      }
      if !shadowWrite[i] {
        DisableIntercept(msr, false, true);
      }
      assert shadowRead == old(shadowRead) && shadowWrite == old(shadowWrite);
    }

    /**
     vmx_msr_filter_changed skips every access KVM wants intercepted, and still ends with the
     bitmap a full rebuild of the old one would give.  The shadow is unchanged.
    */
    method MsrFilterChanged()
      requires Valid()
      modifies `shadowRead, `shadowWrite, bitmap
      ensures Valid() && InSync()
      ensures shadowRead == old(shadowRead) && shadowWrite == old(shadowWrite)
      ensures IsRebuild(old(bitmap[..]), bitmap[..], table, shadowRead, shadowWrite, denyRead, denyWrite)
    {
      for i := 0 to |table|
        invariant Valid() && shadowRead == old(shadowRead) && shadowWrite == old(shadowWrite)
        invariant forall j :: 0 <= j < i ==>
          (bitmap[ReadBit(table[j])] <==> shadowRead[j] || table[j] in denyRead) &&
          (bitmap[WriteBit(table[j])] <==> shadowWrite[j] || table[j] in denyWrite)
        invariant forall b :: 0 <= b < BITMAP_BITS && !ListedBit(table, i, b) ==> bitmap[b] == old(bitmap[b])
      {
        RefreshListed(i);
      }
    }
  }
}
