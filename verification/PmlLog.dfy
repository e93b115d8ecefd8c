/**
 The page-modification log (vmx.c): the CPU appends guest-physical addresses downwards through a
 512-entry buffer and vmx_flush_pml_buffer drains it into the dirty bitmap.

 The CPU's part follows section 29.3.6 of the Intel SDM (28.3.6 or 28.2.6 in earlier editions).
 The buffer page and the index, a 16-bit VMCS field, are updated in place.
*/
module PmlLog {
  import opened Arithmetic

  const PML_ENTITY_NUM: nat := 512
  const PAGE_SIZE: nat := 4096

  /** dirty holds the pages marked by kvm_vcpu_mark_page_dirty. */
  datatype Pml = Pml(buf: seq<nat>, index: nat, dirty: set<nat>)

  /** The index counts down from 511 and wraps below 0; nothing is written while it is out of range. */
  predicate PmlOk(s: Pml) {
    && |s.buf| == PML_ENTITY_NUM && (s.index < PML_ENTITY_NUM || s.index == TWO_16 - 1)
    && forall k :: FirstLive(s.index) <= k < PML_ENTITY_NUM ==> s.buf[k] % PAGE_SIZE == 0
  }

  /** The first slot in use. */
  function FirstLive(index: nat): nat { if index >= PML_ENTITY_NUM then 0 else index + 1 }

  function Live(s: Pml): seq<nat>
    requires PmlOk(s)
  {
    s.buf[FirstLive(s.index)..]
  }

  function Page(gpa: nat): nat { gpa / PAGE_SIZE }

  function Pages(gpas: seq<nat>): set<nat> { set gpa | gpa in gpas :: Page(gpa) }

  lemma PagesOfConcat(a: seq<nat>, b: seq<nat>)
    ensures Pages(a + b) == Pages(a) + Pages(b)
  {
    assert forall x :: x in a + b <==> x in a || x in b;
  }

  lemma PagesOfAppend(a: seq<nat>, gpa: nat)
    ensures Pages(a + [gpa]) == Pages(a) + {Page(gpa)}
  {
    PagesOfConcat(a, [gpa]);
    assert Pages([gpa]) == {Page(gpa)};
  }

  // ---------------------------------------------------------------- one step

  predicate Full(s: Pml) { s.index >= PML_ENTITY_NUM }

  /** A guest write sets a dirty flag: the CPU logs the page, or exits with PML full before the write. */
  function AfterWrite(s: Pml, gpa: nat): Pml
    requires PmlOk(s)
  {
    if Full(s) then s
    else s.(buf := s.buf[s.index := gpa], index := (s.index + TWO_16 - 1) % TWO_16)
  }

  /** vmx_flush_pml_buffer: every live entry is marked and the index is back at the top. */
  function AfterFlush(s: Pml): Pml
    requires PmlOk(s)
  {
    s.(index := PML_ENTITY_NUM - 1, dirty := s.dirty + Pages(Live(s)))
  }

  /** The CPU refuses exactly when all 512 slots are live; otherwise the address becomes the first live one. */
  lemma WritePrepends(s: Pml, gpa: nat)
    requires PmlOk(s) && gpa % PAGE_SIZE == 0
    ensures PmlOk(AfterWrite(s, gpa))
    ensures Full(s) <==> |Live(s)| == 512
    ensures Live(AfterWrite(s, gpa)) == if Full(s) then Live(s) else [gpa] + Live(s)
  {
  }

  lemma FlushEmpties(s: Pml)
    requires PmlOk(s)
    ensures PmlOk(AfterFlush(s)) && Live(AfterFlush(s)) == [] && !Full(AfterFlush(s))
  {
  }

  // ---------------------------------------------------------------- whole runs

  datatype Event = Write(gpa: nat) | Flush

  predicate EventsOk(events: seq<Event>) {
    forall i :: 0 <= i < |events| ==> events[i].Write? ==> events[i].gpa % PAGE_SIZE == 0
  }

  function AfterEvent(s: Pml, e: Event): Pml
    requires PmlOk(s)
  {
    match e
    case Write(gpa) => AfterWrite(s, gpa)
    case Flush => AfterFlush(s)
  }

  function Run(s: Pml, events: seq<Event>): (t: Pml)
    requires PmlOk(s) && EventsOk(events)
    ensures PmlOk(t)
  {
    if events == [] then s
    else
      var t := Run(s, events[..|events| - 1]);
      AfterEvent(t, events[|events| - 1])
  }

  /** The addresses of the writes the CPU went through with, that is, did not turn into a PML-full exit. */
  function Logged(s: Pml, events: seq<Event>): seq<nat>
    requires PmlOk(s) && EventsOk(events)
  {
    if events == [] then []
    else
      var before, e := events[..|events| - 1], events[|events| - 1];
      if e.Write? && !Full(Run(s, before)) then Logged(s, before) + [e.gpa] else Logged(s, before)
  }

  /**
   In every interleaving of guest writes and flushes, the pages marked dirty together with those in
   the live part of the buffer are exactly the pages logged: none is lost and none is invented.
  */
  lemma Conservation(s: Pml, events: seq<Event>, g: nat)
    requires PmlOk(s) && EventsOk(events)
    ensures var t := Run(s, events);
            g in t.dirty || g * 4096 in Live(t) <==>
            g in s.dirty || g * 4096 in Live(s) || g * 4096 in Logged(s, events)
  {
    var t := Run(s, events);
    PagesAreConserved(s, events);
    LiveIsAligned(s);
    LiveIsAligned(t);
    LoggedIsAligned(s, events);
    PageOfAddress(Live(s), g);
    PageOfAddress(Live(t), g);
    PageOfAddress(Logged(s, events), g);
    hide Pages, Live, Run, Logged, PmlOk, Aligned;
  }

  predicate Aligned(gpas: seq<nat>) { forall i :: 0 <= i < |gpas| ==> gpas[i] % PAGE_SIZE == 0 }

  lemma LiveIsAligned(s: Pml)
    requires PmlOk(s)
    ensures Aligned(Live(s))
  {
  }

  lemma {:induction false} LoggedIsAligned(s: Pml, events: seq<Event>)
    requires PmlOk(s) && EventsOk(events)
    ensures Aligned(Logged(s, events))
  {
    if events != [] {
      LoggedIsAligned(s, events[..|events| - 1]);
    }
  }

  /** Page g is the page of the addresses that are a multiple of 4096 exactly when g * 4096 is one of them. */
  lemma PageOfAddress(gpas: seq<nat>, g: nat)
    requires Aligned(gpas)
    ensures g in Pages(gpas) <==> g * 4096 in gpas
  {
    if g in Pages(gpas) {
      var gpa :| gpa in gpas && g == Page(gpa);
      assert gpa == g * 4096;
    }
    if g * 4096 in gpas {
      assert Page(g * 4096) == g;
    }
  }

  lemma {:induction false} PagesAreConserved(s: Pml, events: seq<Event>)
    requires PmlOk(s) && EventsOk(events)
    ensures var t := Run(s, events);
            t.dirty + Pages(Live(t)) == s.dirty + Pages(Live(s)) + Pages(Logged(s, events))
  {
    if events == [] {
      assert Pages([]) == {};
    } else {
      var before, e := events[..|events| - 1], events[|events| - 1];
      PagesAreConserved(s, before);
      var t, done := Run(s, before), Logged(s, before);
      match e
      case Write(gpa) =>
        WritePrepends(t, gpa);
        PagesOfConcat([gpa], Live(t));
        assert Pages([gpa]) == {Page(gpa)};
        PagesOfAppend(done, gpa);
      case Flush =>
        FlushEmpties(t);
        assert Pages([]) == {};
    }
  }

  /** A flush anywhere leaves every page logged so far marked dirty, and room to log the next write. */
  lemma FlushMarksEverythingLogged(s: Pml, events: seq<Event>, gpa: nat)
    requires PmlOk(s) && EventsOk(events) && gpa % PAGE_SIZE == 0
    ensures var t := Run(s, events + [Flush]);
            && (forall g: nat :: g in t.dirty <==> g in s.dirty || g * 4096 in Live(s) || g * 4096 in Logged(s, events))
            && Live(t) == [] && Live(AfterWrite(t, gpa)) == [gpa]
  {
    var all := events + [Flush];
    assert all[..|all| - 1] == events;
    FlushEmpties(Run(s, events));
    WritePrepends(Run(s, all), gpa);
    assert Logged(s, all) == Logged(s, events);
    hide Logged, Run, Live, PmlOk;
    forall g: nat
      ensures g in Run(s, all).dirty <==> g in s.dirty || g * 4096 in Live(s) || g * 4096 in Logged(s, events)
    {
      Conservation(s, all, g);
    }
  }

  // ---------------------------------------------------------------- in place

  class Vcpu {
    const pmlBuf: array<nat>
    var pmlIndex: nat                   // GUEST_PML_INDEX
    var dirty: set<nat>

    ghost predicate Valid()
      reads this, pmlBuf
    {
      PmlOk(View())
    }

    ghost function View(): Pml
      reads this, pmlBuf
    {
      Pml(pmlBuf[..], pmlIndex, dirty)
    }

    constructor ()
      ensures Valid() && Live(View()) == [] && dirty == {} && fresh(pmlBuf)
    {
      pmlBuf := new nat[PML_ENTITY_NUM](_ => 0);
      pmlIndex, dirty := PML_ENTITY_NUM - 1, {};
    }

    /** The CPU's part, with the out-parameter telling of a PML-full exit. */
    method LogWrite(gpa: nat) returns (full: bool)
      requires Valid() && gpa % PAGE_SIZE == 0
      modifies this`pmlIndex, pmlBuf
      ensures Valid() && View() == AfterWrite(old(View()), gpa) && full == Full(old(View()))
    {
      WritePrepends(View(), gpa);
      if pmlIndex >= PML_ENTITY_NUM {
        return true;
      }
      pmlBuf[pmlIndex] := gpa;
      pmlIndex := (pmlIndex + TWO_16 - 1) % TWO_16;
      return false;
    }

    /** vmx_flush_pml_buffer. */
    method FlushPmlBuffer()
      requires Valid()
      modifies this`pmlIndex, this`dirty
      ensures Valid() && View() == AfterFlush(old(View()))
    {
      FlushEmpties(View());
      assert Pages([]) == {};
      hide Pages;
      var pmlIdx := pmlIndex;
      if pmlIdx == PML_ENTITY_NUM - 1 {
        return;
      }
      if pmlIdx >= PML_ENTITY_NUM {
        pmlIdx := 0;
      } else {
        pmlIdx := pmlIdx + 1;
      }
      ghost var first := pmlIdx;
      assert pmlBuf[first..pmlIdx] == [];
      while pmlIdx < PML_ENTITY_NUM
        invariant first <= pmlIdx <= PML_ENTITY_NUM
        invariant dirty == old(dirty) + Pages(pmlBuf[first..pmlIdx])
      {
        var gpa := pmlBuf[pmlIdx];
        assert gpa % PAGE_SIZE == 0;     // the WARN_ON never fires
        dirty := dirty + {gpa / PAGE_SIZE};
        PagesOfAppend(pmlBuf[first..pmlIdx], gpa);
        assert pmlBuf[first..pmlIdx + 1] == pmlBuf[first..pmlIdx] + [gpa];
        pmlIdx := pmlIdx + 1;
      }
      assert pmlBuf[first..pmlIdx] == Live(old(View()));
      pmlIndex := PML_ENTITY_NUM - 1;
    }
  }
}
