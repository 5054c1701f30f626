/** The read-only page-table walker of src/memory/paging.rs: starting from
    the PML4 that CR3 points to, it reports every present entry of the
    4-level hierarchy (Intel SDM, Volume 3A, section 4.5), descends into
    the tables present entries point to, stops at huge pages, and
    reconstructs the virtual address a 2 MiB PD huge page maps. */
module Paging {
  import opened Memory

  // ---------------------------------------------------------------------
  // Virtual-address reconstruction

  /** A slot number, 0 to 511, as nine bits, counted up from zero. */
  function SlotBits(i: nat): bv9
    requires i < 512
  {
    if i == 0 then 0 else SlotBits(i - 1) + 1
  }

  lemma SuccBits(x: bv9)
    requires x as nat < 511
    ensures (x + 1) as nat == x as nat + 1
  {
  }

  lemma {:induction false} SlotBitsValue(i: nat)
    requires i < 512
    ensures SlotBits(i) as nat == i
  {
    if i > 0 {
      SlotBitsValue(i - 1);
      SuccBits(SlotBits(i - 1));
    }
  }

  lemma BitsToSlot(b: bv9)
    ensures b as nat < 512
    ensures SlotBits(b as nat) == b
  {
    SlotBitsValue(b as nat);
    BitsInjective(SlotBits(b as nat), b);
  }

  lemma BitsInjective(a: bv9, b: bv9)
    requires a as nat == b as nat
    ensures a == b
  {
    assert (a as nat) as bv9 == a;
    assert (b as nat) as bv9 == b;
  }

  /** The PML4, PDPT and PD slots placed at bits 47..39, 38..30, 29..21. */
  function RawVA(i4: bv9, i3: bv9, i2: bv9): bv64 {
    ((i4 as bv64) << 39) | ((i3 as bv64) << 30) | ((i2 as bv64) << 21)
  }

  /** The virtual address a huge PD entry at path (i4, i3, i2) maps. */
  function HugeVA(i4: nat, i3: nat, i2: nat): bv64
    requires i4 < ENTRIES && i3 < ENTRIES && i2 < ENTRIES
  {
    SignExtend48(RawVA(SlotBits(i4), SlotBits(i3), SlotBits(i2)))
  }

  lemma RawVAShape(i4: bv9, i3: bv9, i2: bv9)
    ensures RawVA(i4, i3, i2) >> 48 == 0 && RawVA(i4, i3, i2) & 0x1F_FFFF == 0
  {
  }

  lemma RawVAIndices(i4: bv9, i3: bv9, i2: bv9)
    ensures TableIndex(RawVA(i4, i3, i2), 39) == i4
    ensures TableIndex(RawVA(i4, i3, i2), 30) == i3
    ensures TableIndex(RawVA(i4, i3, i2), 21) == i2
  {
  }

  /** Setting bits 63..48 does not change a slot taken at bit 39 or below. */
  lemma TopBitsIgnored(x: bv64, shift: bv64)
    requires shift == 39 || shift == 30 || shift == 21
    ensures TableIndex(x | 0xFFFF_0000_0000_0000, shift) == TableIndex(x, shift)
  {
  }

  /** The reconstructed address is canonical and 2 MiB aligned. */
  lemma HugeVACanonical(i4: nat, i3: nat, i2: nat)
    requires i4 < ENTRIES && i3 < ENTRIES && i2 < ENTRIES
    ensures Canonical(HugeVA(i4, i3, i2))
    ensures HugeVA(i4, i3, i2) & 0x1F_FFFF == 0
  {
    RawVAShape(SlotBits(i4), SlotBits(i3), SlotBits(i2));
    SignExtend48Cases(RawVA(SlotBits(i4), SlotBits(i3), SlotBits(i2)));
  }

  lemma SignExtendedIndex(raw: bv64, shift: bv64)
    requires shift == 39 || shift == 30 || shift == 21
    ensures TableIndex(SignExtend48(raw), shift) == TableIndex(raw, shift)
  {
    SignExtend48Cases(raw);
    TopBitsIgnored(raw, shift);
  }

  /** The index helpers read the path back from the reconstructed address. */
  lemma HugeVAIndices(i4: nat, i3: nat, i2: nat)
    requires i4 < ENTRIES && i3 < ENTRIES && i2 < ENTRIES
    ensures Pml4Index(HugeVA(i4, i3, i2)) as nat == i4
    ensures PdptIndex(HugeVA(i4, i3, i2)) as nat == i3
    ensures PdIndex(HugeVA(i4, i3, i2)) as nat == i2
  {
    var raw := RawVA(SlotBits(i4), SlotBits(i3), SlotBits(i2));
    RawVAIndices(SlotBits(i4), SlotBits(i3), SlotBits(i2));
    SignExtendedIndex(raw, 39);
    SignExtendedIndex(raw, 30);
    SignExtendedIndex(raw, 21);
    SlotBitsValue(i4);
    SlotBitsValue(i3);
    SlotBitsValue(i2);
  }

  /** Bits 47..21 of a 2 MiB aligned address, rebuilt from its slots. */
  lemma RawVAOfIndices(va: bv64)
    requires va & 0x1F_FFFF == 0
    ensures RawVA(Pml4Index(va), PdptIndex(va), PdIndex(va)) == va & 0xFFFF_FFFF_FFFF
  {
  }

  /** Sign extension restores a canonical address from its low 48 bits. */
  lemma SignExtendLow(va: bv64)
    requires Canonical(va)
    ensures SignExtend48(va & 0xFFFF_FFFF_FFFF) == va
  {
    var raw := va & 0xFFFF_FFFF_FFFF;
    SignExtend48Cases(raw);
    if va & UPPER_BITS == 0 {
      assert raw == va;
    } else {
      assert raw & UPPER_BITS != 0;
      assert raw | 0xFFFF_0000_0000_0000 == va;
    }
  }

  /** Every canonical, 2 MiB aligned address is the reconstruction of its
      own slots. */
  lemma HugeVAOfIndices(va: bv64)
    requires Canonical(va) && va & 0x1F_FFFF == 0
    ensures HugeVA(Pml4Index(va) as nat, PdptIndex(va) as nat, PdIndex(va) as nat) == va
  {
    var a, b, c := Pml4Index(va), PdptIndex(va), PdIndex(va);
    BitsToSlot(a);
    BitsToSlot(b);
    BitsToSlot(c);
    assert HugeVA(a as nat, b as nat, c as nat) == SignExtend48(RawVA(a, b, c));
    RawVAOfIndices(va);
    SignExtendLow(va);
  }

  // ---------------------------------------------------------------------
  // Physical memory and reports

  /** Physical memory as the walker sees it: table frames by physical
      address. */
  type Mem = map<nat, seq<Entry>>

  /** The table at physical address `a`; a frame the map does not hold reads
      as zeroed memory. */
  function TableAt(mem: Mem, a: bv64): (t: seq<Entry>)
    ensures |t| == ENTRIES
  {
    if a as nat in mem && |mem[a as nat]| == ENTRIES then mem[a as nat] else Zeroed()
  }

  /** One line of the walker's output. */
  datatype Report =
    | Pml4Report(i4: nat, paddr: bv64)
    | PdptHugeReport(i3: nat, paddr: bv64)
    | PdptReport(i3: nat, paddr: bv64)
    | PdHugeReport(i2: nat, paddr: bv64, vaddr: bv64)
    | PdReport(i2: nat, paddr: bv64)
    | PtReport(i1: nat, paddr: bv64)

  /** The level a report comes from: 4 for the PML4 down to 1 for a PT. */
  function Depth(r: Report): nat {
    match r
    case Pml4Report(_, _) => 4
    case PdptHugeReport(_, _) => 3
    case PdptReport(_, _) => 3
    case PdHugeReport(_, _, _) => 2
    case PdReport(_, _) => 2
    case PtReport(_, _) => 1
  }

  // ---------------------------------------------------------------------
  // The walk, level by level, over the first `n` slots of a table

  function PtReports(pt: seq<Entry>, n: nat): seq<Report>
    requires n <= |pt|
  {
    if n == 0 then [] else PtReports(pt, n - 1) + [PtReport(n - 1, pt[n - 1].addr)]
  }

  function PdEntryReports(mem: Mem, i4: nat, i3: nat, i2: nat, e: Entry): seq<Report>
    requires i4 < ENTRIES && i3 < ENTRIES && i2 < ENTRIES
  {
    if !IsPresent(e) then []
    else if IsHuge(e) then [PdHugeReport(i2, e.addr, HugeVA(i4, i3, i2))]
    else [PdReport(i2, e.addr)] + PtReports(TableAt(mem, e.addr), ENTRIES)
  }

  function PdReports(mem: Mem, i4: nat, i3: nat, pd: seq<Entry>, n: nat): seq<Report>
    requires i4 < ENTRIES && i3 < ENTRIES && n <= |pd| == ENTRIES
  {
    if n == 0 then []
    else PdReports(mem, i4, i3, pd, n - 1) + PdEntryReports(mem, i4, i3, n - 1, pd[n - 1])
  }

  function PdptEntryReports(mem: Mem, i4: nat, i3: nat, e: Entry): seq<Report>
    requires i4 < ENTRIES && i3 < ENTRIES
  {
    if !IsPresent(e) then []
    else if IsHuge(e) then [PdptHugeReport(i3, e.addr)]
    else [PdptReport(i3, e.addr)] + PdReports(mem, i4, i3, TableAt(mem, e.addr), ENTRIES)
  }

  function PdptReports(mem: Mem, i4: nat, pdpt: seq<Entry>, n: nat): seq<Report>
    requires i4 < ENTRIES && n <= |pdpt| == ENTRIES
  {
    if n == 0 then []
    else PdptReports(mem, i4, pdpt, n - 1) + PdptEntryReports(mem, i4, n - 1, pdpt[n - 1])
  }

  function Pml4EntryReports(mem: Mem, i4: nat, e: Entry): seq<Report>
    requires i4 < ENTRIES
  {
    if !IsPresent(e) then []
    else [Pml4Report(i4, e.addr)] + PdptReports(mem, i4, TableAt(mem, e.addr), ENTRIES)
  }

  function Pml4Reports(mem: Mem, pml4: seq<Entry>, n: nat): seq<Report>
    requires n <= |pml4| == ENTRIES
  {
    if n == 0 then []
    else Pml4Reports(mem, pml4, n - 1) + Pml4EntryReports(mem, n - 1, pml4[n - 1])
  }

  /** Everything the walker reports, for the PML4 at `cr3`. */
  function WalkReports(mem: Mem, cr3: bv64): seq<Report> {
    Pml4Reports(mem, TableAt(mem, cr3), ENTRIES)
  }

  // ---------------------------------------------------------------------
  // The walker over mutable table frames

  /** Every frame holds a full table. */
  predicate ValidFrames(frames: map<nat, array<Entry>>) {
    forall a :: a in frames ==> frames[a].Length == ENTRIES
  }

  /** The current contents of the frames. */
  function Snapshot(frames: map<nat, array<Entry>>): (mem: Mem)
    reads frames.Values
    ensures forall a :: a in frames <==> a in mem
    ensures forall a :: a in frames ==> mem[a] == frames[a][..]
  {
    map a | a in frames :: frames[a][..]
  }

  /** Reads slot `i` of the table at physical address `table`. */
  method ReadEntry(frames: map<nat, array<Entry>>, ghost mem: Mem, table: bv64, i: nat) returns (e: Entry)
    requires ValidFrames(frames) && mem == Snapshot(frames) && i < ENTRIES
    ensures e == TableAt(mem, table)[i]
  {
    if table as nat in frames {
      e := frames[table as nat][i];
    } else {
      e := ZERO_ENTRY;
    }
  }

  method WalkPt(frames: map<nat, array<Entry>>, ghost mem: Mem, pt: bv64) returns (reports: seq<Report>)
    requires ValidFrames(frames) && mem == Snapshot(frames)
    ensures reports == PtReports(TableAt(mem, pt), ENTRIES)
  {
    ghost var table := TableAt(mem, pt);
    reports := [];
    for i1 := 0 to ENTRIES
      invariant reports == PtReports(table, i1)
    {
      var e1 := ReadEntry(frames, mem, pt, i1);
      reports := reports + [PtReport(i1, e1.addr)];
    }
  }

  /** The lines for one PD entry: none when absent, one for a huge page,
      else the entry's line followed by its PT. */
  method WalkPdEntry(frames: map<nat, array<Entry>>, ghost mem: Mem, i4: nat, i3: nat, i2: nat, e2: Entry)
    returns (reports: seq<Report>)
    requires ValidFrames(frames) && mem == Snapshot(frames) && i4 < ENTRIES && i3 < ENTRIES && i2 < ENTRIES
    ensures reports == PdEntryReports(mem, i4, i3, i2, e2)
  {
    reports := [];
    if IsPresent(e2) {
      if IsHuge(e2) {
        var va := HugeVA(i4, i3, i2);
        reports := [PdHugeReport(i2, e2.addr, va)];
      } else {
        var sub := WalkPt(frames, mem, e2.addr);
        reports := [PdReport(i2, e2.addr)] + sub;
      }
    }
  }

  method WalkPd(frames: map<nat, array<Entry>>, ghost mem: Mem, i4: nat, i3: nat, pd: bv64)
    returns (reports: seq<Report>)
    requires ValidFrames(frames) && mem == Snapshot(frames) && i4 < ENTRIES && i3 < ENTRIES
    ensures reports == PdReports(mem, i4, i3, TableAt(mem, pd), ENTRIES)
  {
    ghost var table := TableAt(mem, pd);
    reports := [];
    for i2 := 0 to ENTRIES
      invariant reports == PdReports(mem, i4, i3, table, i2)
    {
      var e2 := ReadEntry(frames, mem, pd, i2);
      var sub := WalkPdEntry(frames, mem, i4, i3, i2, e2);
      reports := reports + sub;
    }
  }

  /** The lines for one PDPT entry: none when absent, one for a 1 GiB page,
      else the entry's line followed by its PD. */
  method WalkPdptEntry(frames: map<nat, array<Entry>>, ghost mem: Mem, i4: nat, i3: nat, e3: Entry)
    returns (reports: seq<Report>)
    requires ValidFrames(frames) && mem == Snapshot(frames) && i4 < ENTRIES && i3 < ENTRIES
    ensures reports == PdptEntryReports(mem, i4, i3, e3)
  {
    reports := [];
    if IsPresent(e3) {
      if IsHuge(e3) {
        reports := [PdptHugeReport(i3, e3.addr)];
      } else {
        var sub := WalkPd(frames, mem, i4, i3, e3.addr);
        reports := [PdptReport(i3, e3.addr)] + sub;
      }
    }
  }

  method WalkPdpt(frames: map<nat, array<Entry>>, ghost mem: Mem, i4: nat, pdpt: bv64)
    returns (reports: seq<Report>)
    requires ValidFrames(frames) && mem == Snapshot(frames) && i4 < ENTRIES
    ensures reports == PdptReports(mem, i4, TableAt(mem, pdpt), ENTRIES)
  {
    ghost var table := TableAt(mem, pdpt);
    reports := [];
    for i3 := 0 to ENTRIES
      invariant reports == PdptReports(mem, i4, table, i3)
    {
      var e3 := ReadEntry(frames, mem, pdpt, i3);
      var sub := WalkPdptEntry(frames, mem, i4, i3, e3);
      reports := reports + sub;
    }
  }

  /** The lines for one PML4 entry: none when absent, else the entry's line
      followed by its PDPT. */
  method WalkPml4Entry(frames: map<nat, array<Entry>>, ghost mem: Mem, i4: nat, e4: Entry)
    returns (reports: seq<Report>)
    requires ValidFrames(frames) && mem == Snapshot(frames) && i4 < ENTRIES
    ensures reports == Pml4EntryReports(mem, i4, e4)
  {
    reports := [];
    if IsPresent(e4) {
      var sub := WalkPdpt(frames, mem, i4, e4.addr);
      reports := [Pml4Report(i4, e4.addr)] + sub;
    }
  }

  /** The walk of the whole hierarchy under the PML4 at `cr3`. It has no
      `modifies` clause: no table entry is written. */
  method Walk(frames: map<nat, array<Entry>>, cr3: bv64) returns (reports: seq<Report>)
    requires ValidFrames(frames)
    ensures reports == WalkReports(Snapshot(frames), cr3)
  {
    ghost var mem := Snapshot(frames);
    ghost var table := TableAt(mem, cr3);
    reports := [];
    for i4 := 0 to ENTRIES
      invariant reports == Pml4Reports(mem, table, i4)
    {
      var e4 := ReadEntry(frames, mem, cr3, i4);
      var sub := WalkPml4Entry(frames, mem, i4, e4);
      reports := reports + sub;
    }
  }

  /** Since the walk writes nothing, walking twice reports the same. */
  method WalkTwice(frames: map<nat, array<Entry>>, cr3: bv64) returns (first: seq<Report>, second: seq<Report>)
    requires ValidFrames(frames)
    ensures first == second == WalkReports(Snapshot(frames), cr3)
  {
    first := Walk(frames, cr3);
    second := Walk(frames, cr3);
  }

  // ---------------------------------------------------------------------
  // Properties of the walk

  /** A PT is reported whole: one line per slot, present or not, in slot
      order, with the entry's address. */
  lemma {:induction false} PtReportsAll(pt: seq<Entry>, n: nat)
    requires n <= |pt|
    ensures |PtReports(pt, n)| == n
    ensures forall k :: 0 <= k < n ==> PtReports(pt, n)[k] == PtReport(k, pt[k].addr)
  {
    if n > 0 {
      PtReportsAll(pt, n - 1);
    }
  }

  /** The slot number a report prints. */
  function Slot(r: Report): nat {
    match r
    case Pml4Report(i, _) => i
    case PdptHugeReport(i, _) => i
    case PdptReport(i, _) => i
    case PdHugeReport(i, _, _) => i
    case PdReport(i, _) => i
    case PtReport(i, _) => i
  }

  /** The lines of `rs` that come from level `d`, in order. */
  function Lines(rs: seq<Report>, d: nat): seq<Report> {
    if |rs| == 0 then []
    else Lines(rs[..|rs| - 1], d) + (if Depth(rs[|rs| - 1]) == d then [rs[|rs| - 1]] else [])
  }

  lemma {:induction false} LinesAppend(a: seq<Report>, b: seq<Report>, d: nat)
    ensures Lines(a + b, d) == Lines(a, d) + Lines(b, d)
  {
    if |b| > 0 {
      assert (a + b)[..|a + b| - 1] == a + b[..|b| - 1];
      LinesAppend(a, b[..|b| - 1], d);
    } else {
      assert a + b == a;
    }
  }

  lemma LinesOne(r: Report, d: nat)
    ensures Depth(r) == d ==> Lines([r], d) == [r]
    ensures Depth(r) != d ==> Lines([r], d) == []
  {
    assert [r][..0] == [];
  }

  /** A line is in an output exactly when it is among that output's lines of
      its own level. */
  lemma {:induction false} InLines(rs: seq<Report>, r: Report)
    ensures r in rs <==> r in Lines(rs, Depth(r))
  {
    if |rs| > 0 {
      InLines(rs[..|rs| - 1], r);
      assert rs == rs[..|rs| - 1] + [rs[|rs| - 1]];
    }
  }

  // Reference definitions: the line each entry prints about itself, and a
  // table's lines, one per present slot in slot order.

  function PdLine(i4: nat, i3: nat, i2: nat, e: Entry): seq<Report>
    requires i4 < ENTRIES && i3 < ENTRIES && i2 < ENTRIES
  {
    if !IsPresent(e) then []
    else if IsHuge(e) then [PdHugeReport(i2, e.addr, HugeVA(i4, i3, i2))]
    else [PdReport(i2, e.addr)]
  }

  function PresentPd(i4: nat, i3: nat, pd: seq<Entry>, n: nat): seq<Report>
    requires i4 < ENTRIES && i3 < ENTRIES && n <= |pd| == ENTRIES
  {
    if n == 0 then [] else PresentPd(i4, i3, pd, n - 1) + PdLine(i4, i3, n - 1, pd[n - 1])
  }

  function PdptLine(i3: nat, e: Entry): seq<Report> {
    if !IsPresent(e) then []
    else if IsHuge(e) then [PdptHugeReport(i3, e.addr)]
    else [PdptReport(i3, e.addr)]
  }

  function PresentPdpt(pdpt: seq<Entry>, n: nat): seq<Report>
    requires n <= |pdpt|
  {
    if n == 0 then [] else PresentPdpt(pdpt, n - 1) + PdptLine(n - 1, pdpt[n - 1])
  }

  function PresentPml4(pml4: seq<Entry>, n: nat): seq<Report>
    requires n <= |pml4|
  {
    if n == 0 then []
    else PresentPml4(pml4, n - 1) + (if IsPresent(pml4[n - 1]) then [Pml4Report(n - 1, pml4[n - 1].addr)] else [])
  }

  /** The PD lines under the first `n` slots of a PDPT: those of the PD each
      present, non-huge slot points to, slot by slot. */
  function PdLinesUnderPdpt(mem: Mem, i4: nat, pdpt: seq<Entry>, n: nat): seq<Report>
    requires i4 < ENTRIES && n <= |pdpt| == ENTRIES
  {
    if n == 0 then []
    else
      PdLinesUnderPdpt(mem, i4, pdpt, n - 1) +
      (if IsPresent(pdpt[n - 1]) && !IsHuge(pdpt[n - 1])
       then PresentPd(i4, n - 1, TableAt(mem, pdpt[n - 1].addr), ENTRIES) else [])
  }

  /** The PDPT lines under the first `n` slots of a PML4. */
  function PdptLinesUnder(mem: Mem, pml4: seq<Entry>, n: nat): seq<Report>
    requires n <= |pml4| == ENTRIES
  {
    if n == 0 then []
    else
      PdptLinesUnder(mem, pml4, n - 1) +
      (if IsPresent(pml4[n - 1]) then PresentPdpt(TableAt(mem, pml4[n - 1].addr), ENTRIES) else [])
  }

  /** The PD lines under the first `n` slots of a PML4. */
  function PdLinesUnder(mem: Mem, pml4: seq<Entry>, n: nat): seq<Report>
    requires n <= |pml4| == ENTRIES
  {
    if n == 0 then []
    else
      PdLinesUnder(mem, pml4, n - 1) +
      (if IsPresent(pml4[n - 1]) then PdLinesUnderPdpt(mem, n - 1, TableAt(mem, pml4[n - 1].addr), ENTRIES) else [])
  }

  // The walk's lines, level by level.

  lemma {:induction false} PtLines(pt: seq<Entry>, n: nat, d: nat)
    requires n <= |pt|
    ensures d == 1 ==> Lines(PtReports(pt, n), d) == PtReports(pt, n)
    ensures d != 1 ==> Lines(PtReports(pt, n), d) == []
  {
    if n > 0 {
      var r := PtReport(n - 1, pt[n - 1].addr);
      PtLines(pt, n - 1, d);
      LinesAppend(PtReports(pt, n - 1), [r], d);
      LinesOne(r, d);
    }
  }

  /** A PD entry prints its own line, and its PT is walked only when it is
      present and not a huge page. */
  lemma PdEntryLines(mem: Mem, i4: nat, i3: nat, i2: nat, e: Entry, d: nat)
    requires i4 < ENTRIES && i3 < ENTRIES && i2 < ENTRIES
    ensures d == 2 ==> Lines(PdEntryReports(mem, i4, i3, i2, e), d) == PdLine(i4, i3, i2, e)
    ensures d == 1 && IsPresent(e) && !IsHuge(e) ==>
      Lines(PdEntryReports(mem, i4, i3, i2, e), d) == PtReports(TableAt(mem, e.addr), ENTRIES)
    ensures d == 1 && !(IsPresent(e) && !IsHuge(e)) ==> Lines(PdEntryReports(mem, i4, i3, i2, e), d) == []
    ensures d > 2 ==> Lines(PdEntryReports(mem, i4, i3, i2, e), d) == []
  {
    if IsPresent(e) {
      if IsHuge(e) {
        LinesOne(PdHugeReport(i2, e.addr, HugeVA(i4, i3, i2)), d);
      } else {
        var sub := PtReports(TableAt(mem, e.addr), ENTRIES);
        PtLines(TableAt(mem, e.addr), ENTRIES, d);
        LinesAppend([PdReport(i2, e.addr)], sub, d);
        LinesOne(PdReport(i2, e.addr), d);
      }
    }
  }

  /** A PD's level-2 lines are its present slots in slot order. */
  lemma {:induction false} PdLinesExact(mem: Mem, i4: nat, i3: nat, pd: seq<Entry>, n: nat, d: nat)
    requires i4 < ENTRIES && i3 < ENTRIES && n <= |pd| == ENTRIES && d >= 2
    ensures d == 2 ==> Lines(PdReports(mem, i4, i3, pd, n), d) == PresentPd(i4, i3, pd, n)
    ensures d > 2 ==> Lines(PdReports(mem, i4, i3, pd, n), d) == []
  {
    if n > 0 {
      PdLinesExact(mem, i4, i3, pd, n - 1, d);
      PdEntryLines(mem, i4, i3, n - 1, pd[n - 1], d);
      LinesAppend(PdReports(mem, i4, i3, pd, n - 1), PdEntryReports(mem, i4, i3, n - 1, pd[n - 1]), d);
    }
  }

  /** A PDPT entry prints its own line, and its PD is walked only when it is
      present and not a 1 GiB page. */
  lemma PdptEntryLines(mem: Mem, i4: nat, i3: nat, e: Entry, d: nat)
    requires i4 < ENTRIES && i3 < ENTRIES
    ensures d == 3 ==> Lines(PdptEntryReports(mem, i4, i3, e), d) == PdptLine(i3, e)
    ensures d == 2 && IsPresent(e) && !IsHuge(e) ==>
      Lines(PdptEntryReports(mem, i4, i3, e), d) == PresentPd(i4, i3, TableAt(mem, e.addr), ENTRIES)
    ensures d > 3 || (d != 3 && !(IsPresent(e) && !IsHuge(e))) ==> Lines(PdptEntryReports(mem, i4, i3, e), d) == []
  {
    if IsPresent(e) {
      if IsHuge(e) {
        LinesOne(PdptHugeReport(i3, e.addr), d);
      } else if d >= 2 {
        var sub := PdReports(mem, i4, i3, TableAt(mem, e.addr), ENTRIES);
        PdLinesExact(mem, i4, i3, TableAt(mem, e.addr), ENTRIES, d);
        LinesAppend([PdptReport(i3, e.addr)], sub, d);
        LinesOne(PdptReport(i3, e.addr), d);
      }
    }
  }

  /** A PDPT's level-3 lines are its present slots in slot order, and its
      level-2 lines are those of the PDs its present, non-huge slots point
      to. */
  lemma {:induction false} PdptLinesExact(mem: Mem, i4: nat, pdpt: seq<Entry>, n: nat, d: nat)
    requires i4 < ENTRIES && n <= |pdpt| == ENTRIES && d >= 2
    ensures d == 3 ==> Lines(PdptReports(mem, i4, pdpt, n), d) == PresentPdpt(pdpt, n)
    ensures d == 2 ==> Lines(PdptReports(mem, i4, pdpt, n), d) == PdLinesUnderPdpt(mem, i4, pdpt, n)
    ensures d > 3 ==> Lines(PdptReports(mem, i4, pdpt, n), d) == []
  {
    if n > 0 {
      PdptLinesExact(mem, i4, pdpt, n - 1, d);
      PdptEntryLines(mem, i4, n - 1, pdpt[n - 1], d);
      LinesAppend(PdptReports(mem, i4, pdpt, n - 1), PdptEntryReports(mem, i4, n - 1, pdpt[n - 1]), d);
    }
  }

  /** A PML4 entry prints its own line when present and only then has its
      PDPT walked. */
  lemma Pml4EntryLines(mem: Mem, i4: nat, e: Entry, d: nat)
    requires i4 < ENTRIES && d >= 2
    ensures !IsPresent(e) || d > 4 ==> Lines(Pml4EntryReports(mem, i4, e), d) == []
    ensures IsPresent(e) && d == 4 ==> Lines(Pml4EntryReports(mem, i4, e), d) == [Pml4Report(i4, e.addr)]
    ensures IsPresent(e) && d == 3 ==> Lines(Pml4EntryReports(mem, i4, e), d) == PresentPdpt(TableAt(mem, e.addr), ENTRIES)
    ensures IsPresent(e) && d == 2 ==>
      Lines(Pml4EntryReports(mem, i4, e), d) == PdLinesUnderPdpt(mem, i4, TableAt(mem, e.addr), ENTRIES)
  {
    if IsPresent(e) {
      var sub := PdptReports(mem, i4, TableAt(mem, e.addr), ENTRIES);
      PdptLinesExact(mem, i4, TableAt(mem, e.addr), ENTRIES, d);
      LinesAppend([Pml4Report(i4, e.addr)], sub, d);
      LinesOne(Pml4Report(i4, e.addr), d);
    }
  }

  /** Levels 4, 3 and 2 of the walk: the present PML4 slots in slot order,
      then for each of them in turn its PDPT's present slots, and for each
      present, non-huge PDPT slot in turn its PD's present slots. */
  lemma {:induction false} Pml4LinesExact(mem: Mem, pml4: seq<Entry>, n: nat, d: nat)
    requires n <= |pml4| == ENTRIES && d >= 2
    ensures d == 4 ==> Lines(Pml4Reports(mem, pml4, n), d) == PresentPml4(pml4, n)
    ensures d == 3 ==> Lines(Pml4Reports(mem, pml4, n), d) == PdptLinesUnder(mem, pml4, n)
    ensures d == 2 ==> Lines(Pml4Reports(mem, pml4, n), d) == PdLinesUnder(mem, pml4, n)
    ensures d > 4 ==> Lines(Pml4Reports(mem, pml4, n), d) == []
  {
    if n > 0 {
      Pml4LinesExact(mem, pml4, n - 1, d);
      Pml4EntryLines(mem, n - 1, pml4[n - 1], d);
      LinesAppend(Pml4Reports(mem, pml4, n - 1), Pml4EntryReports(mem, n - 1, pml4[n - 1]), d);
    }
  }

  // Membership in, and order of, the reference lists.

  lemma {:induction false} InPresentPml4(pml4: seq<Entry>, n: nat, i: nat, a: bv64)
    requires n <= |pml4|
    ensures Pml4Report(i, a) in PresentPml4(pml4, n) <==>
      i < n && IsPresent(pml4[i]) && a == pml4[i].addr
  {
    if n > 0 {
      InPresentPml4(pml4, n - 1, i, a);
    }
  }

  /** A PDPT line is listed exactly for a present slot, with that slot's
      address, and it is a 1 GiB line exactly when the slot is huge. */
  lemma {:induction false} InPresentPdpt(pdpt: seq<Entry>, n: nat, r: Report)
    requires n <= |pdpt|
    ensures r in PresentPdpt(pdpt, n) <==>
      (r.PdptReport? || r.PdptHugeReport?) && r.i3 < n && IsPresent(pdpt[r.i3]) &&
      r.paddr == pdpt[r.i3].addr && (r.PdptHugeReport? <==> IsHuge(pdpt[r.i3]))
  {
    if n > 0 {
      InPresentPdpt(pdpt, n - 1, r);
    }
  }

  /** A PD line is listed exactly for a present slot, with that slot's
      address; it is a huge-page line, carrying the rebuilt virtual address,
      exactly when the slot is huge. */
  lemma {:induction false} InPresentPd(i4: nat, i3: nat, pd: seq<Entry>, n: nat, r: Report)
    requires i4 < ENTRIES && i3 < ENTRIES && n <= |pd| == ENTRIES
    ensures r in PresentPd(i4, i3, pd, n) <==>
      (r.PdReport? || r.PdHugeReport?) && r.i2 < n && IsPresent(pd[r.i2]) &&
      r.paddr == pd[r.i2].addr && (r.PdHugeReport? <==> IsHuge(pd[r.i2])) &&
      (r.PdHugeReport? ==> r.vaddr == HugeVA(i4, i3, r.i2))
  {
    if n > 0 {
      InPresentPd(i4, i3, pd, n - 1, r);
    }
  }

  /** The reference PML4 lines are strictly increasing in slot. */
  lemma {:induction false} PresentPml4Sorted(pml4: seq<Entry>, n: nat)
    requires n <= |pml4|
    ensures forall k :: 0 <= k < |PresentPml4(pml4, n)| ==> PresentPml4(pml4, n)[k].Pml4Report? && PresentPml4(pml4, n)[k].i4 < n
    ensures forall j, k :: 0 <= j < k < |PresentPml4(pml4, n)| ==> PresentPml4(pml4, n)[j].i4 < PresentPml4(pml4, n)[k].i4
  {
    if n > 0 {
      PresentPml4Sorted(pml4, n - 1);
    }
  }

  /** The reference PDPT lines are level-3 lines strictly increasing in slot. */
  lemma {:induction false} PresentPdptSorted(pdpt: seq<Entry>, n: nat)
    requires n <= |pdpt|
    ensures forall k :: 0 <= k < |PresentPdpt(pdpt, n)| ==> Depth(PresentPdpt(pdpt, n)[k]) == 3 && Slot(PresentPdpt(pdpt, n)[k]) < n
    ensures forall j, k :: 0 <= j < k < |PresentPdpt(pdpt, n)| ==> Slot(PresentPdpt(pdpt, n)[j]) < Slot(PresentPdpt(pdpt, n)[k])
  {
    if n > 0 {
      PresentPdptSorted(pdpt, n - 1);
    }
  }

  /** The reference PD lines are level-2 lines strictly increasing in slot. */
  lemma {:induction false} PresentPdSorted(i4: nat, i3: nat, pd: seq<Entry>, n: nat)
    requires i4 < ENTRIES && i3 < ENTRIES && n <= |pd| == ENTRIES
    ensures forall k :: 0 <= k < |PresentPd(i4, i3, pd, n)| ==> Depth(PresentPd(i4, i3, pd, n)[k]) == 2 && Slot(PresentPd(i4, i3, pd, n)[k]) < n
    ensures forall j, k :: 0 <= j < k < |PresentPd(i4, i3, pd, n)| ==> Slot(PresentPd(i4, i3, pd, n)[j]) < Slot(PresentPd(i4, i3, pd, n)[k])
  {
    if n > 0 {
      PresentPdSorted(i4, i3, pd, n - 1);
    }
  }

  /** The present PML4 slot whose PDPT lists a given PDPT line of the
      walk. */
  lemma {:induction false} PdptLineOrigin(mem: Mem, pml4: seq<Entry>, n: nat, r: Report) returns (i4: nat)
    requires n <= |pml4| == ENTRIES
    requires r in PdptLinesUnder(mem, pml4, n)
    ensures i4 < n && IsPresent(pml4[i4]) && r in PresentPdpt(TableAt(mem, pml4[i4].addr), ENTRIES)
  {
    if r in PdptLinesUnder(mem, pml4, n - 1) {
      i4 := PdptLineOrigin(mem, pml4, n - 1, r);
    } else {
      i4 := n - 1;
    }
  }

  /** Each present PML4 slot's PDPT lines are among the PDPT lines. */
  lemma {:induction false} InPdptLinesUnder(mem: Mem, pml4: seq<Entry>, n: nat, i4: nat, r: Report)
    requires n <= |pml4| == ENTRIES
    requires i4 < n && IsPresent(pml4[i4]) && r in PresentPdpt(TableAt(mem, pml4[i4].addr), ENTRIES)
    ensures r in PdptLinesUnder(mem, pml4, n)
  {
    if i4 < n - 1 {
      InPdptLinesUnder(mem, pml4, n - 1, i4, r);
    }
  }

  /** The present, non-huge PDPT slot whose PD lists a given PD line. */
  lemma {:induction false} PdLineOriginInPdpt(mem: Mem, i4: nat, pdpt: seq<Entry>, n: nat, r: Report) returns (i3: nat)
    requires i4 < ENTRIES && n <= |pdpt| == ENTRIES
    requires r in PdLinesUnderPdpt(mem, i4, pdpt, n)
    ensures i3 < n && IsPresent(pdpt[i3]) && !IsHuge(pdpt[i3])
    ensures r in PresentPd(i4, i3, TableAt(mem, pdpt[i3].addr), ENTRIES)
  {
    if r in PdLinesUnderPdpt(mem, i4, pdpt, n - 1) {
      i3 := PdLineOriginInPdpt(mem, i4, pdpt, n - 1, r);
    } else {
      i3 := n - 1;
    }
  }

  /** Each present, non-huge PDPT slot's PD lines are among the PD lines
      under the PDPT. */
  lemma {:induction false} InPdLinesUnderPdpt(mem: Mem, i4: nat, pdpt: seq<Entry>, n: nat, i3: nat, r: Report)
    requires i4 < ENTRIES && n <= |pdpt| == ENTRIES
    requires i3 < n && IsPresent(pdpt[i3]) && !IsHuge(pdpt[i3])
    requires r in PresentPd(i4, i3, TableAt(mem, pdpt[i3].addr), ENTRIES)
    ensures r in PdLinesUnderPdpt(mem, i4, pdpt, n)
  {
    if i3 < n - 1 {
      InPdLinesUnderPdpt(mem, i4, pdpt, n - 1, i3, r);
    }
  }

  /** The present PML4 slot under which a given PD line of the walk lies. */
  lemma {:induction false} PdLineOrigin(mem: Mem, pml4: seq<Entry>, n: nat, r: Report) returns (i4: nat)
    requires n <= |pml4| == ENTRIES
    requires r in PdLinesUnder(mem, pml4, n)
    ensures i4 < n && IsPresent(pml4[i4])
    ensures r in PdLinesUnderPdpt(mem, i4, TableAt(mem, pml4[i4].addr), ENTRIES)
  {
    if r in PdLinesUnder(mem, pml4, n - 1) {
      i4 := PdLineOrigin(mem, pml4, n - 1, r);
    } else {
      i4 := n - 1;
    }
  }

  /** The PD lines under each present PML4 slot are among the PD lines. */
  lemma {:induction false} InPdLinesUnder(mem: Mem, pml4: seq<Entry>, n: nat, i4: nat, r: Report)
    requires n <= |pml4| == ENTRIES
    requires i4 < n && IsPresent(pml4[i4])
    requires r in PdLinesUnderPdpt(mem, i4, TableAt(mem, pml4[i4].addr), ENTRIES)
    ensures r in PdLinesUnder(mem, pml4, n)
  {
    if i4 < n - 1 {
      InPdLinesUnder(mem, pml4, n - 1, i4, r);
    }
  }

  // The whole walk.

  /** The walk's lines of levels 4, 3 and 2, in order. */
  lemma WalkLines(mem: Mem, cr3: bv64)
    ensures Lines(WalkReports(mem, cr3), 4) == PresentPml4(TableAt(mem, cr3), ENTRIES)
    ensures Lines(WalkReports(mem, cr3), 3) == PdptLinesUnder(mem, TableAt(mem, cr3), ENTRIES)
    ensures Lines(WalkReports(mem, cr3), 2) == PdLinesUnder(mem, TableAt(mem, cr3), ENTRIES)
  {
    Pml4LinesExact(mem, TableAt(mem, cr3), ENTRIES, 4);
    Pml4LinesExact(mem, TableAt(mem, cr3), ENTRIES, 3);
    Pml4LinesExact(mem, TableAt(mem, cr3), ENTRIES, 2);
  }

  /** A PML4 line is reported exactly for each present slot of the PML4 at
      `cr3`, with that slot's address. */
  lemma WalkReportsPml4(mem: Mem, cr3: bv64, i: nat, a: bv64)
    ensures Pml4Report(i, a) in WalkReports(mem, cr3) <==>
      i < ENTRIES && IsPresent(TableAt(mem, cr3)[i]) && a == TableAt(mem, cr3)[i].addr
  {
    InLines(WalkReports(mem, cr3), Pml4Report(i, a));
    Pml4LinesExact(mem, TableAt(mem, cr3), ENTRIES, 4);
    InPresentPml4(TableAt(mem, cr3), ENTRIES, i, a);
  }

  /** A PDPT line is reported exactly when some present PML4 slot points to
      a PDPT that lists it: one per present slot, with that slot's address,
      and marked as a 1 GiB page exactly when the slot is huge. */
  lemma WalkReportsPdpt(mem: Mem, cr3: bv64, r: Report)
    requires r.PdptReport? || r.PdptHugeReport?
    ensures r in WalkReports(mem, cr3) <==>
      exists i4 :: 0 <= i4 < ENTRIES && IsPresent(TableAt(mem, cr3)[i4]) &&
        r in PresentPdpt(TableAt(mem, TableAt(mem, cr3)[i4].addr), ENTRIES)
  {
    var pml4 := TableAt(mem, cr3);
    InLines(WalkReports(mem, cr3), r);
    Pml4LinesExact(mem, pml4, ENTRIES, 3);
    if r in WalkReports(mem, cr3) {
      var i4 := PdptLineOrigin(mem, pml4, ENTRIES, r);
    }
    if exists i4 :: 0 <= i4 < ENTRIES && IsPresent(pml4[i4]) && r in PresentPdpt(TableAt(mem, pml4[i4].addr), ENTRIES) {
      var i4 :| 0 <= i4 < ENTRIES && IsPresent(pml4[i4]) && r in PresentPdpt(TableAt(mem, pml4[i4].addr), ENTRIES);
      InPdptLinesUnder(mem, pml4, ENTRIES, i4, r);
    }
  }

  /** A PD line is reported exactly when a present PML4 slot leads, through
      a present, non-huge PDPT slot, to a PD that lists it. */
  lemma WalkReportsPd(mem: Mem, cr3: bv64, r: Report)
    requires r.PdReport? || r.PdHugeReport?
    ensures r in WalkReports(mem, cr3) <==>
      exists i4 :: 0 <= i4 < ENTRIES && IsPresent(TableAt(mem, cr3)[i4]) &&
        r in PdLinesUnderPdpt(mem, i4, TableAt(mem, TableAt(mem, cr3)[i4].addr), ENTRIES)
  {
    var pml4 := TableAt(mem, cr3);
    InLines(WalkReports(mem, cr3), r);
    Pml4LinesExact(mem, pml4, ENTRIES, 2);
    if r in WalkReports(mem, cr3) {
      var i4 := PdLineOrigin(mem, pml4, ENTRIES, r);
    }
    if exists i4 :: 0 <= i4 < ENTRIES && IsPresent(pml4[i4]) && r in PdLinesUnderPdpt(mem, i4, TableAt(mem, pml4[i4].addr), ENTRIES) {
      var i4 :| 0 <= i4 < ENTRIES && IsPresent(pml4[i4]) && r in PdLinesUnderPdpt(mem, i4, TableAt(mem, pml4[i4].addr), ENTRIES);
      InPdLinesUnder(mem, pml4, ENTRIES, i4, r);
    }
  }

  // ---------------------------------------------------------------------
  // Huge-page reports against address translation

  /** The PD maps the 2 MiB page holding `va` to `pa`. */
  predicate PdMapsHuge(pd: seq<Entry>, va: bv64, pa: bv64)
    requires |pd| == ENTRIES
  {
    var e := pd[PdIndex(va)];
    IsPresent(e) && IsHuge(e) && e.addr == pa
  }

  predicate PdptMapsHuge(mem: Mem, pdpt: seq<Entry>, va: bv64, pa: bv64)
    requires |pdpt| == ENTRIES
  {
    var e := pdpt[PdptIndex(va)];
    IsPresent(e) && !IsHuge(e) && PdMapsHuge(TableAt(mem, e.addr), va, pa)
  }

  predicate Pml4MapsHuge(mem: Mem, pml4: seq<Entry>, va: bv64, pa: bv64)
    requires |pml4| == ENTRIES
  {
    var e := pml4[Pml4Index(va)];
    IsPresent(e) && PdptMapsHuge(mem, TableAt(mem, e.addr), va, pa)
  }

  /** Translation of `va` through the hierarchy at `cr3` ends in a present
      PD huge page at physical `pa` (Intel SDM, Volume 3A, section 4.5.4). */
  predicate MapsHuge(mem: Mem, cr3: bv64, va: bv64, pa: bv64) {
    Pml4MapsHuge(mem, TableAt(mem, cr3), va, pa)
  }

  /** Every huge-page line carries a canonical, 2 MiB aligned virtual
      address whose PD slot is the reported slot and which the tables
      translate to exactly the reported physical address. */
  lemma WalkHugeReportsSound(mem: Mem, cr3: bv64, r: Report)
    requires r in WalkReports(mem, cr3) && r.PdHugeReport?
    ensures Canonical(r.vaddr) && r.vaddr & 0x1F_FFFF == 0
    ensures PdIndex(r.vaddr) as nat == r.i2
    ensures MapsHuge(mem, cr3, r.vaddr, r.paddr)
  {
    var pml4 := TableAt(mem, cr3);
    InLines(WalkReports(mem, cr3), r);
    Pml4LinesExact(mem, pml4, ENTRIES, 2);
    var i4 := PdLineOrigin(mem, pml4, ENTRIES, r);
    var pdpt := TableAt(mem, pml4[i4].addr);
    var i3 := PdLineOriginInPdpt(mem, i4, pdpt, ENTRIES, r);
    InPresentPd(i4, i3, TableAt(mem, pdpt[i3].addr), ENTRIES, r);
    HugeVACanonical(i4, i3, r.i2);
    HugeVAIndices(i4, i3, r.i2);
  }

  /** A canonical, 2 MiB aligned address the PML4 maps through a PD huge
      page is among the PD lines under that PML4. */
  lemma MappedHugeListed(mem: Mem, pml4: seq<Entry>, va: bv64, pa: bv64)
    requires |pml4| == ENTRIES
    requires Canonical(va) && va & 0x1F_FFFF == 0
    requires Pml4MapsHuge(mem, pml4, va, pa)
    ensures PdHugeReport(PdIndex(va) as nat, pa, va) in PdLinesUnder(mem, pml4, ENTRIES)
  {
    var i4, i3, i2 := Pml4Index(va) as nat, PdptIndex(va) as nat, PdIndex(va) as nat;
    var pdpt := TableAt(mem, pml4[i4].addr);
    var r := PdHugeReport(i2, pa, va);
    HugeVAOfIndices(va);
    InPresentPd(i4, i3, TableAt(mem, pdpt[i3].addr), ENTRIES, r);
    InPdLinesUnderPdpt(mem, i4, pdpt, ENTRIES, i3, r);
    InPdLinesUnder(mem, pml4, ENTRIES, i4, r);
  }

  /** Conversely, every canonical, 2 MiB aligned address the tables map
      through a PD huge page is reported, with that page's address. */
  lemma WalkHugeReportsComplete(mem: Mem, cr3: bv64, va: bv64, pa: bv64)
    requires Canonical(va) && va & 0x1F_FFFF == 0
    requires MapsHuge(mem, cr3, va, pa)
    ensures PdHugeReport(PdIndex(va) as nat, pa, va) in WalkReports(mem, cr3)
  {
    MappedHugeListed(mem, TableAt(mem, cr3), va, pa);
    Pml4LinesExact(mem, TableAt(mem, cr3), ENTRIES, 2);
    InLines(WalkReports(mem, cr3), PdHugeReport(PdIndex(va) as nat, pa, va));
  }

  // ---------------------------------------------------------------------
  // The bootstrap hierarchy

  /** Physical memory holding the three bootstrap tables in their fixed
      frames. */
  function BootMem(kvStart: bv64): Mem {
    map[PML4_PA as nat := BootPml4(kvStart), PDPT_PA as nat := BootPdpt(kvStart), PD_PA as nat := BootPd()]
  }

  /** Each fixed frame of `BootMem` reads as its bootstrap table. */
  lemma BootMemTables(kvStart: bv64)
    ensures TableAt(BootMem(kvStart), PML4_PA) == BootPml4(kvStart)
    ensures TableAt(BootMem(kvStart), PDPT_PA) == BootPdpt(kvStart)
    ensures TableAt(BootMem(kvStart), PD_PA) == BootPd()
  {
  }

  /** The bootstrap PD maps PD slot 0 or 1 to that slot's huge page. */
  lemma BootPdMapsHuge(va: bv64, j: nat)
    requires j < 2 && PdIndex(va) as nat == j
    ensures PdMapsHuge(BootPd(), va, j as bv64 * LARGE_PAGE_SIZE)
  {
    assert BootPd()[j] == HugePageEntry(j as bv64);
  }

  /** The bootstrap tables translate any address in the kernel's PML4 and
      PDPT slots and in PD slot 0 or 1 through that slot's huge page. */
  lemma BootMapsHuge(kvStart: bv64, va: bv64, j: nat)
    requires Pml4Index(kvStart) != 511
    requires j < 2
    requires Pml4Index(va) as nat == Pml4Index(kvStart) as nat
    requires PdptIndex(va) as nat == PdptIndex(kvStart) as nat
    requires PdIndex(va) as nat == j
    ensures MapsHuge(BootMem(kvStart), PML4_PA, va, j as bv64 * LARGE_PAGE_SIZE)
  {
    var mem := BootMem(kvStart);
    BootMemTables(kvStart);
    BootPdMapsHuge(va, j);
    assert BootPdpt(kvStart)[PdptIndex(kvStart)] == KERNEL_PDPT_ENTRY;
    assert BootPml4(kvStart)[Pml4Index(kvStart)] == KERNEL_PML4_ENTRY;
  }

  /** Walking from CR3 = the PML4 frame reports both 2 MiB huge pages of the
      kernel's 1 GiB slot, mapping the first 4 MiB of physical memory. */
  lemma BootWalkReportsHugePages(kvStart: bv64, j: nat)
    requires Pml4Index(kvStart) != 511
    requires j < 2
    ensures
      var va := HugeVA(Pml4Index(kvStart) as nat, PdptIndex(kvStart) as nat, j);
      PdHugeReport(j, j as bv64 * LARGE_PAGE_SIZE, va) in WalkReports(BootMem(kvStart), PML4_PA)
  {
    var i4, i3 := Pml4Index(kvStart) as nat, PdptIndex(kvStart) as nat;
    var va := HugeVA(i4, i3, j);
    HugeVACanonical(i4, i3, j);
    HugeVAIndices(i4, i3, j);
    BootMapsHuge(kvStart, va, j);
    WalkHugeReportsComplete(BootMem(kvStart), PML4_PA, va, j as bv64 * LARGE_PAGE_SIZE);
  }
}
