/** Address-space bootstrap (src/memory/mod.rs): canonical sign extension,
    alignment, relocation of the bootloader information block and the
    construction of the PML4, PDPT and PD tables that map the kernel's
    higher-half window, following 4-level paging in the Intel SDM,
    Volume 3A, section 4.5. */
module Memory {

  const HIGHER_HALF: bv64 := 0xFFFF_8000_0000_0000

  // Constants of kernel/arch/x86_64/kernel.h.
  const KERNEL_PHYSICAL_START: bv64 := 0x40_0000
  const KERNEL_VIRTUAL_START: bv64 := HIGHER_HALF | KERNEL_PHYSICAL_START

  /** Bits 63..47. */
  const UPPER_BITS: bv64 := 0xFFFF_8000_0000_0000

  /** A 64-bit address is canonical when bits 63..47 are all equal
      (Intel SDM, Volume 1, section 3.3.7.1). */
  predicate Canonical(addr: bv64) {
    addr & UPPER_BITS == 0 || addr & UPPER_BITS == UPPER_BITS
  }
  /** Above 0x7FFF_FFFF_FFFF exactly when one of bits 63..47 is set. */
  lemma AboveLowHalf(addr: bv64)
    ensures addr > 0x7FFF_FFFF_FFFF <==> addr & UPPER_BITS != 0
  {
  }

  /** Copies bit 47 of a 48-bit address into bits 63..48: addresses above
      0x7FFF_FFFF_FFFF get the upper 16 bits set, the others get them
      cleared. */
  function SignExtend48(addr: bv64): bv64 {
    if addr > 0x0000_7FFF_FFFF_FFFF then
      addr | 0xFFFF_0000_0000_0000
    else
      addr & 0x0000_FFFF_FFFF_FFFF
  }

  /** A 48-bit input becomes canonical. */
  lemma SignExtend48Canonical(addr: bv64)
    requires addr >> 48 == 0
    ensures Canonical(SignExtend48(addr))
  {
    AboveLowHalf(addr);
  }

  /** A canonical input comes back unchanged. */
  lemma SignExtend48Fixes(addr: bv64)
    requires Canonical(addr)
    ensures SignExtend48(addr) == addr
  {
    AboveLowHalf(addr);
    if addr & UPPER_BITS == 0 {
      assert addr & 0xFFFF_FFFF_FFFF == addr;
    } else {
      assert addr | 0xFFFF_0000_0000_0000 == addr;
    }
  }

  /** The two branches, stated on the mask: bits 63..47 not all clear means
      above 0x7FFF_FFFF_FFFF. */
  lemma SignExtend48Cases(addr: bv64)
    ensures addr & UPPER_BITS != 0 ==> SignExtend48(addr) == addr | 0xFFFF_0000_0000_0000
    ensures addr & UPPER_BITS == 0 ==> SignExtend48(addr) == addr
  {
    AboveLowHalf(addr);
    if addr & UPPER_BITS == 0 {
      assert addr & 0xFFFF_FFFF_FFFF == addr;
    }
  }

  /** The low 48 bits pass through unchanged. */
  lemma SignExtend48KeepsLow(addr: bv64)
    ensures SignExtend48(addr) & 0xFFFF_FFFF_FFFF == addr & 0xFFFF_FFFF_FFFF
  {
    SignExtend48Cases(addr);
  }

  /** Extending twice is extending once. */
  lemma SignExtend48Idempotent(addr: bv64)
    ensures SignExtend48(SignExtend48(addr)) == SignExtend48(addr)
  {
    var r := SignExtend48(addr);
    SignExtend48Cases(addr);
    SignExtend48Cases(r);
    if addr & UPPER_BITS != 0 {
      assert r & UPPER_BITS != 0;
    }
  }

  /** An input wider than 48 bits whose bit 47 is clear is not made
      canonical: the comparison sees the high bits, not bit 47, so the upper
      16 bits are OR-ed with ones while bit 47 stays clear. */
  lemma SignExtend48WideInput(addr: bv64)
    requires addr >> 48 != 0 && addr & 0x8000_0000_0000 == 0
    ensures !Canonical(SignExtend48(addr))
  {
    AboveLowHalf(addr);
  }

  lemma SignExtend48Examples()
    ensures SignExtend48(0x0000_7FFF_FFFF_FFFF) == 0x0000_7FFF_FFFF_FFFF
    ensures SignExtend48(0x0000_8000_0000_0000) == 0xFFFF_8000_0000_0000
    ensures SignExtend48(0x0001_0000_0000_0000) == 0xFFFF_0000_0000_0000
  {
  }

  /** Rounds `addr` up to a multiple of `align`, in wrapping 64-bit
      arithmetic. */
  function AlignUp(addr: bv64, align: bv64): bv64 {
    var alignMask := align - 1;
    if addr & alignMask == 0 then
      addr
    else
      (addr | alignMask) + 1
  }

  predicate PowerOfTwo(align: bv64) {
    align != 0 && align & (align - 1) == 0
  }

  /** Without wrap-around the result lies less than one alignment above
      `addr`. */
  lemma AlignUpBound(addr: bv64, align: bv64)
    requires PowerOfTwo(align)
    requires addr | (align - 1) != 0xFFFF_FFFF_FFFF_FFFF
    ensures addr <= AlignUp(addr, align) && AlignUp(addr, align) - addr < align
  {
    var up := AlignUp(addr, align);
    if addr & (align - 1) == 0 {
      assert up == addr;
    } else {
      assert up == (addr | (align - 1)) + 1;
      RoundUpAbove(addr, align);
      RoundUpBelow(addr, align);
    }
  }

  /** The unaligned branch of `AlignUp` moves `addr` up unless the next
      boundary is past the top of the address space. */
  lemma RoundUpAbove(addr: bv64, align: bv64)
    requires PowerOfTwo(align)
    requires addr | (align - 1) != 0xFFFF_FFFF_FFFF_FFFF
    requires addr & (align - 1) != 0
    ensures addr <= (addr | (align - 1)) + 1
  {
  }

  /** The unaligned branch of `AlignUp` lands less than one alignment past
      `addr` (modulo 2^64). */
  lemma RoundUpBelow(addr: bv64, align: bv64)
    requires PowerOfTwo(align)
    requires addr & (align - 1) != 0
    ensures ((addr | (align - 1)) + 1) - addr < align
  {
  }

  /** For a power-of-two alignment, and unless the next boundary is past
      the top of the address space, the result is aligned, lies less than
      one alignment above `addr`, and equals `addr` exactly when `addr` is
      already aligned. */
  lemma AlignUpAligns(addr: bv64, align: bv64)
    requires PowerOfTwo(align)
    requires addr | (align - 1) != 0xFFFF_FFFF_FFFF_FFFF
    ensures AlignUp(addr, align) & (align - 1) == 0
    ensures addr <= AlignUp(addr, align) && AlignUp(addr, align) - addr < align
    ensures AlignUp(addr, align) == addr <==> addr & (align - 1) == 0
  {
    AlignUpBound(addr, align);
  }

  /** An unaligned address rounds to the end of its alignment block: the
      byte just below the result lies in the same block as `addr`. */
  lemma AlignUpNextBoundary(addr: bv64, align: bv64)
    requires PowerOfTwo(align)
    requires addr | (align - 1) != 0xFFFF_FFFF_FFFF_FFFF
    requires addr & (align - 1) != 0
    ensures (AlignUp(addr, align) - 1) & !(align - 1) == addr & !(align - 1)
  {
  }

  /** An unaligned address in the last block of the address space has no
      next boundary: the final addition wraps and the result is zero. */
  lemma AlignUpWraps(addr: bv64, align: bv64)
    requires PowerOfTwo(align)
    requires addr | (align - 1) == 0xFFFF_FFFF_FFFF_FFFF
    requires addr & (align - 1) != 0
    ensures AlignUp(addr, align) == 0
  {
  }

  lemma AlignUpExamples()
    ensures AlignUp(0xFFFF_FFFF_FFFF_F001, 0x1000) == 0
    ensures AlignUp(0x1001, 0x1000) == 0x2000 && AlignUp(0x2000, 0x1000) == 0x2000
  {
  }

  // ---------------------------------------------------------------------
  // Page-table entries

  /** A page-table entry as an (address, flags) pair. */
  datatype Entry = Entry(addr: bv64, flags: bv64)

  const FLAG_P: bv64 := 0x1
  const FLAG_RW: bv64 := 0x2
  const FLAG_PS: bv64 := 0x80

  const ZERO_ENTRY := Entry(0, 0)

  predicate IsPresent(e: Entry) {
    e.flags & FLAG_P != 0
  }

  predicate IsHuge(e: Entry) {
    e.flags & FLAG_PS != 0
  }

  const ENTRIES: nat := 512
  const BASE_PAGE_SIZE: bv64 := 0x1000
  /** The size of a PD-level huge page, 2 MiB. */
  const LARGE_PAGE_SIZE: bv64 := 0x20_0000

  // Fixed frames the bootstrap writes its tables to.
  const PML4_PA: bv64 := 0x10_0000
  const PDPT_PA: bv64 := 0x10_1000
  const PD_PA: bv64 := 0x10_2000

  /** The slot of a virtual address in a table: nine bits from `shift` up. */
  function TableIndex(va: bv64, shift: bv64): bv9
    requires shift < 64
  {
    ((va >> shift) & 511) as bv9
  }

  function Pml4Index(va: bv64): bv9 { TableIndex(va, 39) }
  function PdptIndex(va: bv64): bv9 { TableIndex(va, 30) }
  function PdIndex(va: bv64): bv9 { TableIndex(va, 21) }

  /** A table as `zeroed()` leaves it. */
  function Zeroed(): (t: seq<Entry>)
    ensures |t| == ENTRIES && forall i :: 0 <= i < ENTRIES ==> t[i] == ZERO_ENTRY
  {
    seq(ENTRIES, _ => ZERO_ENTRY)
  }

  const KERNEL_PML4_ENTRY := Entry(PDPT_PA, FLAG_P | FLAG_RW)
  const RECURSIVE_ENTRY := Entry(PML4_PA, FLAG_P)
  const KERNEL_PDPT_ENTRY := Entry(PD_PA, FLAG_P | FLAG_RW)

  /** The PML4 after the bootstrap: the kernel slot, then slot 511 written
      over it, in the source's order. */
  function BootPml4(kvStart: bv64): (t: seq<Entry>)
    ensures |t| == ENTRIES
  {
    Zeroed()[Pml4Index(kvStart) := KERNEL_PML4_ENTRY][511 := RECURSIVE_ENTRY]
  }

  function BootPdpt(kvStart: bv64): (t: seq<Entry>)
    ensures |t| == ENTRIES
  {
    Zeroed()[PdptIndex(kvStart) := KERNEL_PDPT_ENTRY]
  }

  /** The `i`-th huge page of the PD: 2 MiB at physical `i * LARGE_PAGE_SIZE`. */
  function HugePageEntry(i: bv64): Entry {
    Entry(i * LARGE_PAGE_SIZE, FLAG_P | FLAG_RW | FLAG_PS)
  }

  /** The PD after the bootstrap: slots 0 and 1, in loop order. */
  function BootPd(): (t: seq<Entry>)
    ensures |t| == ENTRIES
  {
    Zeroed()[0 := HugePageEntry(0)][1 := HugePageEntry(1)]
  }

  /** Unless the kernel's PML4 slot is 511, the PML4 is zero except for the
      kernel slot (present, writable, to the PDPT) and the recursive slot 511
      (present, not writable, to the PML4 itself). */
  lemma BootPml4Layout(kvStart: bv64)
    requires Pml4Index(kvStart) != 511
    ensures forall i :: 0 <= i < ENTRIES ==>
      BootPml4(kvStart)[i] ==
        if i == Pml4Index(kvStart) as int then KERNEL_PML4_ENTRY
        else if i == 511 then RECURSIVE_ENTRY
        else ZERO_ENTRY
    ensures IsPresent(RECURSIVE_ENTRY) && RECURSIVE_ENTRY.flags & FLAG_RW == 0
  {
  }

  /** Write order matters: when the kernel's PML4 slot is 511 the recursive
      entry replaces the kernel entry, which then appears nowhere. */
  lemma BootPml4Clash(kvStart: bv64)
    requires Pml4Index(kvStart) == 511
    ensures forall i :: 0 <= i < ENTRIES ==>
      BootPml4(kvStart)[i] == if i == 511 then RECURSIVE_ENTRY else ZERO_ENTRY
    ensures KERNEL_PML4_ENTRY !in BootPml4(kvStart)
  {
  }

  lemma BootPdptLayout(kvStart: bv64)
    ensures forall i :: 0 <= i < ENTRIES ==>
      BootPdpt(kvStart)[i] == if i == PdptIndex(kvStart) as int then KERNEL_PDPT_ENTRY else ZERO_ENTRY
  {
  }

  /** The PD holds two present, writable huge pages at physical 0 and 2 MiB
      and nothing else. */
  lemma BootPdLayout()
    ensures BootPd()[0] == Entry(0, FLAG_P | FLAG_RW | FLAG_PS)
    ensures BootPd()[1] == Entry(0x20_0000, FLAG_P | FLAG_RW | FLAG_PS)
    ensures forall i :: 2 <= i < ENTRIES ==> BootPd()[i] == ZERO_ENTRY
  {
  }

  /** Every address the bootstrap writes is aligned for its level: table
      pointers to 4 KiB, huge pages to 2 MiB. The three table frames are
      distinct and lie below 2 MiB. */
  lemma BootTablesAligned(kvStart: bv64)
    ensures forall i :: 0 <= i < ENTRIES ==> BootPml4(kvStart)[i].addr & (BASE_PAGE_SIZE - 1) == 0
    ensures forall i :: 0 <= i < ENTRIES ==> BootPdpt(kvStart)[i].addr & (BASE_PAGE_SIZE - 1) == 0
    ensures forall i :: 0 <= i < ENTRIES ==> BootPd()[i].addr & (LARGE_PAGE_SIZE - 1) == 0
    ensures PML4_PA != PDPT_PA && PDPT_PA != PD_PA && PML4_PA != PD_PA
    ensures PML4_PA < 0x20_0000 && PDPT_PA < 0x20_0000 && PD_PA < 0x20_0000
  {
    forall i | 0 <= i < ENTRIES
      ensures BootPml4(kvStart)[i].addr == 0 || BootPml4(kvStart)[i].addr == PDPT_PA || BootPml4(kvStart)[i].addr == PML4_PA
    {
    }
    forall i | 0 <= i < ENTRIES
      ensures BootPdpt(kvStart)[i].addr == 0 || BootPdpt(kvStart)[i].addr == PD_PA
    {
    }
    forall i | 0 <= i < ENTRIES
      ensures BootPd()[i].addr == 0 || BootPd()[i].addr == LARGE_PAGE_SIZE
    {
    }
  }

  /** With the kernel's virtual start from kernel.h the kernel uses PML4
      slot 256 and PDPT slot 0, so the recursive slot does not clash; the
      kernel's start itself falls in PD slot 2, which the bootstrap leaves
      empty: the two huge pages map only the first 4 MiB of the window. */
  lemma KernelStartSlots()
    ensures Pml4Index(KERNEL_VIRTUAL_START) == 256
    ensures PdptIndex(KERNEL_VIRTUAL_START) == 0
    ensures PdIndex(KERNEL_VIRTUAL_START) == 2
    ensures !IsPresent(BootPd()[PdIndex(KERNEL_VIRTUAL_START)])
  {
  }

  // ---------------------------------------------------------------------
  // Boot information and its relocation

  /** The record the earlier boot stage hands to the kernel. */
  class BootInfo {
    var mb2: bv64       // multiboot2 information block
    var gdt: bv64       // bootstrap GDT
    var kpStart: bv64   // kernel physical start
    var kpEnd: bv64     // kernel physical end
    var kvStart: bv64   // kernel virtual start
    var kvEnd: bv64     // kernel virtual end

    constructor (mb2: bv64, gdt: bv64, kpStart: bv64, kpEnd: bv64, kvStart: bv64, kvEnd: bv64)
      ensures this.mb2 == mb2 && this.gdt == gdt && this.kpStart == kpStart
      ensures this.kpEnd == kpEnd && this.kvStart == kvStart && this.kvEnd == kvEnd
    {
      this.mb2, this.gdt, this.kpStart, this.kpEnd, this.kvStart, this.kvEnd :=
        mb2, gdt, kpStart, kpEnd, kvStart, kvEnd;
    }
  }

  /** Byte-addressed memory, as raw pointers see it. */
  class Ram {
    var bytes: bv64 -> bv8

    constructor (bytes: bv64 -> bv8)
      ensures this.bytes == bytes
    {
      this.bytes := bytes;
    }
  }

  /** Whether `a` lies in the `size` bytes starting at `base`. */
  predicate InWindow(a: bv64, base: bv64, size: bv64) {
    a - base < size
  }

  /** The source address of the byte a copy from `src` to `dst` puts at `a`. */
  function CopiedFrom(a: bv64, src: bv64, dst: bv64): bv64 {
    src + (a - dst)
  }

  /** Copies the `size` bytes of the information block to `addr` (a
      memmove: the bytes read are those before the copy) and points the
      record at the copy. No other field of the record changes. */
  method RelocateMb2AtAddr(info: BootInfo, ram: Ram, addr: bv64, size: bv64)
    modifies info`mb2, ram
    ensures info.mb2 == addr
    ensures forall a :: InWindow(a, addr, size) ==> ram.bytes(a) == old(ram.bytes)(CopiedFrom(a, old(info.mb2), addr))
    ensures forall a :: !InWindow(a, addr, size) ==> ram.bytes(a) == old(ram.bytes)(a)
    ensures info.gdt == old(info.gdt) && info.kpStart == old(info.kpStart) && info.kpEnd == old(info.kpEnd)
    ensures info.kvStart == old(info.kvStart) && info.kvEnd == old(info.kvEnd)
  {
    var src := info.mb2;
    var before := ram.bytes;
    ram.bytes := a => if InWindow(a, addr, size) then before(CopiedFrom(a, src, addr)) else before(a);
    info.mb2 := addr;
  }

  /** Overwrites a whole table with zero entries. */
  method ZeroTable(t: array<Entry>)
    requires t.Length == ENTRIES
    modifies t
    ensures t[..] == Zeroed()
  {
    forall i | 0 <= i < t.Length {
      t[i] := ZERO_ENTRY;
    }
  }

  /** The PML4: zeroed, the kernel's 512 GiB slot, then the recursive slot. */
  method BuildPml4(pml4: array<Entry>, kvStart: bv64)
    requires pml4.Length == ENTRIES
    modifies pml4
    ensures pml4[..] == BootPml4(kvStart)
  {
    ZeroTable(pml4);
    pml4[Pml4Index(kvStart)] := KERNEL_PML4_ENTRY;
    pml4[511] := RECURSIVE_ENTRY;
  }

  /** The PDPT: zeroed, then the kernel's 1 GiB slot. */
  method BuildPdpt(pdpt: array<Entry>, kvStart: bv64)
    requires pdpt.Length == ENTRIES
    modifies pdpt
    ensures pdpt[..] == BootPdpt(kvStart)
  {
    ZeroTable(pdpt);
    pdpt[PdptIndex(kvStart)] := KERNEL_PDPT_ENTRY;
  }

  /** The PD: zeroed, then two huge pages from physical address 0. */
  method BuildPd(pd: array<Entry>)
    requires pd.Length == ENTRIES
    modifies pd
    ensures pd[..] == BootPd()
  {
    ZeroTable(pd);
    var i: bv64 := 0;
    while i < 2
      invariant i <= 2
      invariant pd[0] == if i == 0 then ZERO_ENTRY else HugePageEntry(0)
      invariant pd[1] == if i <= 1 then ZERO_ENTRY else HugePageEntry(1)
      invariant forall k :: 2 <= k < ENTRIES ==> pd[k] == ZERO_ENTRY
    {
      pd[i] := HugePageEntry(i);
      i := i + 1;
    }
  }

  /** The bootstrap: relocates the information block to the kernel's
      virtual end, then builds the PML4, PDPT and PD in their frames. */
  method InitMemory(info: BootInfo, ram: Ram, mb2Size: bv64,
                    pml4: array<Entry>, pdpt: array<Entry>, pd: array<Entry>)
    requires pml4.Length == ENTRIES && pdpt.Length == ENTRIES && pd.Length == ENTRIES
    requires pml4 != pdpt && pdpt != pd && pml4 != pd
    modifies info`mb2, ram, pml4, pdpt, pd
    ensures info.mb2 == old(info.kvEnd) && info.kvStart == old(info.kvStart) && info.kvEnd == old(info.kvEnd)
    ensures info.gdt == old(info.gdt) && info.kpStart == old(info.kpStart) && info.kpEnd == old(info.kpEnd)
    ensures forall a :: InWindow(a, info.kvEnd, mb2Size) ==>
      ram.bytes(a) == old(ram.bytes)(CopiedFrom(a, old(info.mb2), info.kvEnd))
    ensures forall a :: !InWindow(a, info.kvEnd, mb2Size) ==> ram.bytes(a) == old(ram.bytes)(a)
    ensures pml4[..] == BootPml4(info.kvStart)
    ensures pdpt[..] == BootPdpt(info.kvStart)
    ensures pd[..] == BootPd()
  {
    RelocateMb2AtAddr(info, ram, info.kvEnd, mb2Size);
    BuildPml4(pml4, info.kvStart);
    BuildPdpt(pdpt, info.kvStart);
    BuildPd(pd);
  }
}
