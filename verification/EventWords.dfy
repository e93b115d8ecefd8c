/**
 The 32-bit word that describes an event to inject, or one whose delivery was interrupted.
 Intel and AMD share its layout and differ in the type codes.  The queues of events that wait in
 the vCPU are the same for both too.
*/
module EventWords {

  datatype Exception = Exception(pending: bool, injected: bool, vector: bv8, hasError: bool, error: bv32)

  datatype Interrupt = Interrupt(injected: bool, soft: bool, nr: bv8)

  /** kvm_exception_is_soft. */
  predicate IsSoftException(vector: bv8) { vector == 3 || vector == 4 }

  const VALID: bv32 := 0x8000_0000
  const VALID_ERR: bv32 := 0x800
  const TYPE_MASK: bv32 := 0x700

  function EventWord(vector: bv8, typ: bv32, withError: bool): bv32 {
    (vector as bv32) | VALID | typ | (if withError then VALID_ERR else 0)
  }

  function VectorOf(w: bv32): bv8 { (w & 0xff) as bv8 }
  function TypeOf(w: bv32): bv32 { w & TYPE_MASK }
  predicate IsValid(w: bv32) { w & VALID != 0 }
  predicate HasError(w: bv32) { w & VALID_ERR != 0 }

  /** The event word keeps vector, type and error flag apart. */
  lemma EventWordDecodes(vector: bv8, typ: bv32, withError: bool)
    requires typ & TYPE_MASK == typ
    ensures var w := EventWord(vector, typ, withError);
            VectorOf(w) == vector && TypeOf(w) == typ && IsValid(w) && HasError(w) == withError
  {
  }

  /** What the CPU reads: vector in bits 0 to 7, type in 8 to 10, error flag in 11, valid flag in 31, the rest clear. */
  predicate IsEvent(w: bv32, vector: bv8, typ: bv32, withError: bool) {
    && w & 0xff == vector as bv32 && w & 0x700 == typ
    && w & 0x800 == (if withError then 0x800 else 0) && w & 0xffff_f000 == 0x8000_0000
  }

  lemma EventWordLayout(vector: bv8, typ: bv32, withError: bool)
    requires typ & 0x700 == typ
    ensures IsEvent(EventWord(vector, typ, withError), vector, typ, withError)
  {
  }
}
