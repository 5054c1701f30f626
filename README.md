# Sonata kernel core in Dafny

A model of the early-boot core of the Sonata x86-64 kernel, written in Rust, together with proofs about it. It has one module per source file:

- **Interrupts** (`interrupts.dfy`, from `src/interrupts.rs`).
  - The options word of a gate descriptor: IST index, present flag, privilege level and gate type, as a class with setters and getters.
  - The 16-byte gate descriptor and the 256-slot interrupt descriptor table, with its fixed field-to-vector layout.
  - The handler installs the kernel entry point performs (`src/lib.rs`), and the limit it loads into the IDT register.
  - The page-fault error-code decoder.
- **Memory** (`memory.dfy`, from `src/memory/mod.rs`).
  - 48-bit canonical sign extension and `align_up`, both in wrapping 64-bit arithmetic.
  - The boot information record, and the relocation of the multiboot2 information block by a raw byte copy.
  - The bootstrap page tables: a PML4 with the kernel's 512 GiB slot and the recursive slot 511, a PDPT with the kernel's 1 GiB slot, and a PD with two 2 MiB huge pages. The source writes them to fixed frames below 2 MiB. The model's builders fill whatever arrays they are given. `Paging.BootWalkReportsHugePages` places the three tables in those frames and walks them from the PML4 frame.
- **Paging** (`paging.dfy`, from `src/memory/paging.rs`).
  - The read-only walker of the 4-level hierarchy under CR3.
  - Its output lines are modelled as a sequence of reports.
  - It rebuilds the virtual address of each 2 MiB huge page from its table slots.
- **VgaBuffer** (`vga_buffer.dfy`, from `src/vga_buffer.rs`).
  - The 80 x 25 text-mode grid and its 16 colours.
  - The attribute byte, and the writer's byte, string and newline operations, including scrolling.
- **Pic8259** (`pic8259.dfy`, from `src/pic8259.rs`).
  - The two cascaded 8259A controllers as seen through their I/O ports.
  - The initialisation sequence, per-line masking and unmasking, whole-mask writes and end-of-interrupt commands.

Code that updates state in place is modelled by classes and methods, over arrays where the source writes into a buffer or a table. Each method's new state is stated as a pure function of the old state:

- the options word and gate entries;
- the descriptor table;
- the writer;
- the port bus;
- the table builders;
- the walker.

The properties are proved about those functions.

The comment at `src/lib.rs:81`, that the low PD maps 0 to 2 GiB, belongs to the layout at `src/lib.rs:67-79`. That layout describes the assembly bootstrap's tables at 0x202000 to 0x207000. `init_memory` builds different tables at 0x100000 to 0x102000, and its PD holds two 2 MiB huge pages, 4 MiB in all. `Memory.KernelStartSlots` shows a consequence: the kernel's virtual start from `kernel/arch/x86_64/kernel.h` falls in PD slot 2, which is left empty.

## Model

| member | source | states |
|---|---|---|
| Memory.SignExtend48 | src/memory/mod.rs:17-23 | no contract of its own; specified by the SignExtend48 lemmas below |
| Memory.AboveLowHalf | src/memory/mod.rs:18 | the test `addr > 0x7FFF_FFFF_FFFF` holds exactly when one of bits 63..47 is set |
| Memory.SignExtend48Canonical | src/memory/mod.rs:17-23 | any address that fits in 48 bits becomes canonical after sign extension |
| Memory.SignExtend48Fixes | src/memory/mod.rs:17-23 | a canonical address is left unchanged |
| Memory.SignExtend48Cases | src/memory/mod.rs:17-23 | with a bit of 63..47 set the top 16 bits become ones; otherwise the address is unchanged |
| Memory.SignExtend48KeepsLow | src/memory/mod.rs:17-23 | the low 48 bits are always preserved |
| Memory.SignExtend48Idempotent | src/memory/mod.rs:17-23 | applying sign extension twice is the same as once |
| Memory.SignExtend48WideInput | src/memory/mod.rs:17-23 | an input with bits above 47 set but bit 47 clear stays non-canonical |
| Memory.SignExtend48Examples | src/memory/mod.rs:17-23 | the boundary values 0x7FFF_FFFF_FFFF, 0x8000_0000_0000 and 0x1_0000_0000_0000 map as `src/memory/mod.rs:17-23` computes: the first is kept, the second has its top 16 bits set, and the third, a wide input with bit 47 clear, keeps bits 63..48 set and comes out non-canonical |
| Memory.AlignUp | src/memory/mod.rs:25-32 | no contract of its own; specified by AlignUpBound, AlignUpAligns, AlignUpNextBoundary and AlignUpWraps |
| Memory.AlignUpBound | src/memory/mod.rs:25-32 | for a power-of-two alignment without overflow, the result is at least the input and less than one alignment above it |
| Memory.AlignUpAligns | src/memory/mod.rs:25-32 | for a power-of-two alignment without overflow, the result is aligned, at least the input and less than one alignment above it, and it equals the input exactly when the input was already aligned |
| Memory.AlignUpNextBoundary | src/memory/mod.rs:25-32 | an unaligned input is rounded to the next boundary: the result's predecessor lies in the input's block |
| Memory.AlignUpWraps | src/memory/mod.rs:25-32 | for every power-of-two alignment, an unaligned input in the last block of the address space wraps to 0 |
| Memory.AlignUpExamples | src/memory/mod.rs:25-32 | 0xFFFF_FFFF_FFFF_F001 wraps to 0 at 4 KiB; 0x1001 rounds up to 0x2000, which is kept |
| Memory.Zeroed | src/memory/mod.rs:73 | a zeroed table has 512 entries, all zero |
| Memory.BootPml4 | src/memory/mod.rs:73-85 | the PML4 the bootstrap builds has 512 entries; its layout is stated by BootPml4Layout |
| Memory.BootPdpt | src/memory/mod.rs:87-94 | the PDPT has 512 entries; its layout is stated by BootPdptLayout |
| Memory.BootPd | src/memory/mod.rs:96-104 | the PD has 512 entries; its layout is stated by BootPdLayout |
| Memory.BootPml4Layout | src/memory/mod.rs:76-85 | unless the kernel's slot is 511, the PML4 is zero apart from the kernel slot (present and writable, pointing to the PDPT) and slot 511 (present and read-only, pointing to the PML4 itself) |
| Memory.BootPml4Clash | src/memory/mod.rs:76-85 | when the kernel's slot is 511, the recursive entry overwrites the kernel entry, which then appears nowhere in the table |
| Memory.BootPdptLayout | src/memory/mod.rs:90-94 | the PDPT is zero apart from the kernel's 1 GiB slot, which points to the PD |
| Memory.BootPdLayout | src/memory/mod.rs:99-104 | the PD holds present, writable huge pages at physical 0 and 2 MiB in slots 0 and 1, and nothing else |
| Memory.BootTablesAligned | src/memory/mod.rs:69-104 | every table pointer is 4 KiB aligned and every huge page 2 MiB aligned; the three table frames are distinct and lie below 2 MiB |
| Memory.KernelStartSlots | kernel/arch/x86_64/kernel.h:7-9 | the kernel's virtual start uses PML4 slot 256 and PDPT slot 0, so it never clashes with slot 511; it falls in PD slot 2, which the bootstrap leaves unmapped |
| Memory.BootInfo.constructor | src/memory/mod.rs:36-49 | the record holds the six addresses it is given |
| Memory.Ram.constructor | src/memory/mod.rs:56 | byte memory holds the given contents |
| Memory.RelocateMb2AtAddr | src/memory/mod.rs:51-58 | the block is copied byte for byte from its old address to the new one, with overlapping windows handled like `memmove`; no byte outside the destination changes; the record points to the new copy and its other fields are unchanged |
| Memory.ZeroTable | src/memory/mod.rs:73 | every entry of the table becomes zero |
| Memory.BuildPml4 | src/memory/mod.rs:73-85 | the table ends up equal to BootPml4 |
| Memory.BuildPdpt | src/memory/mod.rs:87-94 | the table ends up equal to BootPdpt |
| Memory.BuildPd | src/memory/mod.rs:96-104 | the loop writes the two huge pages; the table ends up equal to BootPd |
| Memory.InitMemory | src/memory/mod.rs:60-108 | the multiboot2 block is moved to the kernel's virtual end and the record updated; the three tables equal BootPml4, BootPdpt and BootPd for the kernel's virtual start |
| Paging.SlotBitsValue | src/memory/paging.rs:26 | helper for the slot arithmetic, not a model of the counter itself: converting a slot number below 512 to nine bits keeps its value |
| Paging.BitsToSlot | src/memory/paging.rs:26 | helper for the slot arithmetic: every nine-bit value is the converted form of its own number |
| Paging.RawVAShape | src/memory/paging.rs:40-43 | an address composed from three slots fits in 48 bits and is 2 MiB aligned |
| Paging.RawVAIndices | src/memory/paging.rs:40-43 | the PML4, PDPT and PD index helpers read the three slots back from the composed address |
| Paging.TopBitsIgnored | src/memory/paging.rs:12-18 | setting bits 63..48 changes no table index |
| Paging.HugeVA | src/memory/paging.rs:40-44 | no contract of its own; specified by HugeVACanonical, HugeVAIndices and HugeVAOfIndices |
| Paging.HugeVACanonical | src/memory/paging.rs:40-44 | a huge page's rebuilt virtual address is canonical and 2 MiB aligned |
| Paging.SignExtendedIndex | src/memory/paging.rs:12-18 | sign extension changes no table index |
| Paging.HugeVAIndices | src/memory/paging.rs:40-44 | a rebuilt address translates back through the same PML4, PDPT and PD slots |
| Paging.RawVAOfIndices | src/memory/paging.rs:40-43 | the slots of a 2 MiB aligned address recompose its low 48 bits |
| Paging.SignExtendLow | src/memory/paging.rs:12-18 | sign extension restores a canonical address from its low 48 bits |
| Paging.HugeVAOfIndices | src/memory/paging.rs:40-44 | every canonical, 2 MiB aligned address is the rebuilt address of its own slots |
| Paging.TableAt | src/memory/paging.rs:29 | any physical address reads as a 512-entry table |
| Paging.PtReports | src/memory/paging.rs:48-51 | no contract of its own; specified by PtReportsAll and PtLines |
| Paging.PdEntryReports | src/memory/paging.rs:38-52 | no contract of its own; specified by PdEntryLines |
| Paging.PdReports | src/memory/paging.rs:37-54 | no contract of its own; specified by PdLinesExact |
| Paging.PdptEntryReports | src/memory/paging.rs:31-56 | no contract of its own; specified by PdptEntryLines |
| Paging.PdptReports | src/memory/paging.rs:30-58 | no contract of its own; specified by PdptLinesExact |
| Paging.Pml4EntryReports | src/memory/paging.rs:27-59 | no contract of its own; specified by Pml4EntryLines |
| Paging.Pml4Reports | src/memory/paging.rs:26-60 | no contract of its own; specified by Pml4LinesExact |
| Paging.WalkReports | src/memory/paging.rs:24-62 | no contract of its own; specified by WalkLines, WalkReportsPml4, WalkReportsPdpt, WalkReportsPd and the huge-page lemmas, and implemented by Walk |
| Paging.ReadEntry | src/memory/paging.rs:26 | reading slot i yields slot i of the table at that address |
| Paging.WalkPt | src/memory/paging.rs:48-51 | the PT loop reports every slot |
| Paging.WalkPdEntry | src/memory/paging.rs:38-52 | an absent PD entry reports nothing; a huge one reports its page and rebuilt address; any other reports itself and then its PT |
| Paging.WalkPd | src/memory/paging.rs:37-54 | the PD loop reports its entries in slot order |
| Paging.WalkPdptEntry | src/memory/paging.rs:31-56 | an absent PDPT entry reports nothing; a 1 GiB one reports itself without descending; any other reports itself and then its PD |
| Paging.WalkPdpt | src/memory/paging.rs:30-58 | the PDPT loop reports its entries in slot order |
| Paging.WalkPml4Entry | src/memory/paging.rs:27-59 | an absent PML4 entry reports nothing; a present one reports itself and then its PDPT |
| Paging.Walk | src/memory/paging.rs:24-62 | the walk from CR3 reports exactly the report sequence of the hierarchy and changes nothing |
| Paging.WalkTwice | src/memory/paging.rs:24-62 | the walk only reads, so walking twice gives the same report |
| Paging.PtReportsAll | src/memory/paging.rs:49-51 | a PT yields one line per slot, present or not, in slot order |
| Paging.LinesAppend | src/memory/paging.rs:24-62 | the lines of one level of two concatenated outputs are the concatenation of their lines of that level |
| Paging.LinesOne | src/memory/paging.rs:24-62 | a single line is kept exactly by the filter of its own level |
| Paging.InLines | src/memory/paging.rs:24-62 | a line is in an output exactly when it is among that output's lines of its own level |
| Paging.PtLines | src/memory/paging.rs:48-51 | every line a PT yields is a level-1 line, and it yields no line of any other level |
| Paging.PdEntryLines | src/memory/paging.rs:38-52 | a PD entry yields its own level-2 line when present; its PT's lines follow only when it is present and not a huge page, so a huge PD entry is never descended into; it yields no line of levels 3 and 4 |
| Paging.PdLinesExact | src/memory/paging.rs:37-54 | a PD's level-2 lines are the independent reference list of its present slots, in slot order; it yields no line of levels 3 and 4 |
| Paging.PdptEntryLines | src/memory/paging.rs:31-56 | a PDPT entry yields its own level-3 line when present; its PD's lines follow only when it is present and not a 1 GiB page, so a huge PDPT entry is never descended into |
| Paging.PdptLinesExact | src/memory/paging.rs:30-58 | a PDPT's level-3 lines are the reference list of its present slots in slot order, and its level-2 lines are those of the PDs under its present, non-huge slots, slot by slot |
| Paging.Pml4EntryLines | src/memory/paging.rs:27-59 | a PML4 entry yields lines only when present: its own level-4 line, then its PDPT's level-3 and level-2 lines |
| Paging.Pml4LinesExact | src/memory/paging.rs:26-60 | the lines of levels 4, 3 and 2 under a PML4 are, in order, its present slots, then the present slots of each present slot's PDPT, then the present slots of each PD under a present, non-huge PDPT slot; this is the (i4, i3, i2) order of the nested loops |
| Paging.InPresentPml4 | src/memory/paging.rs:26-29 | a line is in the reference list exactly when its slot is present and the line carries that slot's address |
| Paging.InPresentPdpt | src/memory/paging.rs:30-35 | a PDPT line is listed exactly for a present slot, with that slot's address, and it is a 1 GiB line exactly when the slot is huge |
| Paging.InPresentPd | src/memory/paging.rs:37-47 | a PD line is listed exactly for a present slot, with that slot's address; it is a huge-page line exactly when the slot is huge, and then it carries the rebuilt virtual address |
| Paging.PresentPml4Sorted | src/memory/paging.rs:26 | the reference PML4 lines have strictly increasing slots |
| Paging.PresentPdptSorted | src/memory/paging.rs:30 | the reference PDPT lines are level-3 lines with strictly increasing slots |
| Paging.PresentPdSorted | src/memory/paging.rs:37 | the reference PD lines are level-2 lines with strictly increasing slots |
| Paging.PdptLineOrigin | src/memory/paging.rs:26-35 | every PDPT line under a PML4 comes from the PDPT of a present PML4 slot |
| Paging.InPdptLinesUnder | src/memory/paging.rs:26-35 | every line of the PDPT of a present PML4 slot is among the PDPT lines under the PML4 |
| Paging.PdLineOriginInPdpt | src/memory/paging.rs:30-47 | every PD line under a PDPT comes from the PD of a present, non-huge PDPT slot |
| Paging.InPdLinesUnderPdpt | src/memory/paging.rs:30-47 | every line of the PD of a present, non-huge PDPT slot is among the PD lines under the PDPT |
| Paging.PdLineOrigin | src/memory/paging.rs:26-47 | every PD line under a PML4 lies under a present PML4 slot |
| Paging.InPdLinesUnder | src/memory/paging.rs:26-47 | the PD lines under each present PML4 slot are among the PD lines under the PML4 |
| Paging.WalkLines | src/memory/paging.rs:24-62 | the walk's lines of levels 4, 3 and 2 are, in order, the reference lists for the PML4 at CR3 |
| Paging.WalkReportsPml4 | src/memory/paging.rs:26-29 | the walk reports a PML4 line exactly for each present slot of the PML4 at CR3, with that slot's address |
| Paging.WalkReportsPdpt | src/memory/paging.rs:26-35 | the walk reports a PDPT line exactly when it is listed for the PDPT of some present PML4 slot |
| Paging.WalkReportsPd | src/memory/paging.rs:26-47 | the walk reports a PD line exactly when it is listed for a PD under some present PML4 slot and present, non-huge PDPT slot |
| Paging.WalkHugeReportsSound | src/memory/paging.rs:39-45 | every huge-page line carries a canonical, 2 MiB aligned virtual address whose PD slot is the reported slot, and the tables map that address to the page the line reports |
| Paging.MappedHugeListed | src/memory/paging.rs:26-45 | a canonical, 2 MiB aligned address a PML4 maps through a huge PD entry is among the PD lines under that PML4 |
| Paging.WalkHugeReportsComplete | src/memory/paging.rs:24-45 | every canonical, 2 MiB aligned address the tables map through a huge PD entry is reported with its page |
| Paging.BootMem | src/memory/mod.rs:69-104 | no contract of its own; physical memory holding the three bootstrap tables in their fixed frames |
| Paging.BootMemTables | src/memory/mod.rs:69-104 | each fixed frame reads back as the table the bootstrap writes there |
| Paging.BootPdMapsHuge | src/memory/mod.rs:96-104 | the bootstrap PD maps an address in PD slot 0 or 1 to that slot's 2 MiB page |
| Paging.BootMapsHuge | src/memory/mod.rs:69-104 | any address in the kernel's PML4 and PDPT slots and in PD slot 0 or 1 translates through the bootstrap tables to physical 0 or 2 MiB |
| Paging.BootWalkReportsHugePages | src/memory/mod.rs:69-104 | with the three bootstrap tables in their fixed frames and CR3 at the PML4 frame, the walk reports both 2 MiB huge pages of the kernel's 1 GiB slot, at physical 0 and 2 MiB |
| Interrupts.GateTypeBits | src/interrupts.rs:6-7 | a gate type is encoded as a low nibble: 0xE for an interrupt gate, 0xF for a trap gate; the nibble is the trap value exactly when the type is a trap gate |
| Interrupts.DecodeGateType | src/interrupts.rs:80-87 | decoding inverts the encoding on the low nibble |
| Interrupts.IDTEntryOptions.constructor | src/interrupts.rs:37-42 | a new word has the given gate type and present flag, privilege level 0 and IST index 0 |
| Interrupts.IDTEntryOptions.SetIstOffset | src/interrupts.rs:44-46 | the low three bits are ORed into the IST byte, so repeated calls accumulate; on a zero index the result is the masked value |
| Interrupts.IDTEntryOptions.GetPresent | src/interrupts.rs:60-62 | no contract of its own; specified by the constructor, SetPresent and OptionsRoundTrip, which state what it reads back |
| Interrupts.IDTEntryOptions.GetIstOffset | src/interrupts.rs:48-50 | the IST index is below 8 |
| Interrupts.IDTEntryOptions.SetPresent | src/interrupts.rs:52-58 | the present flag takes the given value, and every other bit, the privilege level, the IST index and the gate type are kept |
| Interrupts.IDTEntryOptions.SetDpl | src/interrupts.rs:64-66 | the two low bits are ORed into bits 5..6, so repeated calls accumulate; the present flag and gate type are kept |
| Interrupts.IDTEntryOptions.GetDpl | src/interrupts.rs:68-70 | the privilege level is below 4 |
| Interrupts.IDTEntryOptions.SetGateType | src/interrupts.rs:72-78 | bits 4..7 are kept and the gate type reads back as the one set |
| Interrupts.IDTEntryOptions.GetGateType | src/interrupts.rs:80-87 | defined only for nibbles 0xE and 0xF, where the source does not panic, and it inverts the encoding |
| Interrupts.IDTEntry.Missing | src/interrupts.rs:103-114 | a missing entry is all zero apart from a non-present interrupt-gate options word |
| Interrupts.IDTEntry.SetHandlerAddress | src/interrupts.rs:116-122 | the address is split into bits 0..15, 16..31 and 32..63 and reassembles exactly; the selector is the current code segment; the entry becomes present with its other options kept |
| Interrupts.IDTEntry.SetHandler | src/interrupts.rs:125-141 | a handler of the entry's own signature is installed: it changes only the offsets, the selector and the present bit, and leaves the entry present with that handler |
| Interrupts.Vector | src/interrupts.rs:143-191 | every field of the table sits at a vector below 256 |
| Interrupts.FieldAt | src/interrupts.rs:143-191 | every vector 0..255 belongs to a field sitting at it |
| Interrupts.ExceptionAt | src/interrupts.rs:146-169 | vectors 0..31 are the architectural exception fields |
| Interrupts.IrqAt | src/interrupts.rs:172-187 | vectors 32..47 are the remapped interrupt-line fields |
| Interrupts.MasterIrqAt | src/interrupts.rs:172-179 | vectors 32..39 are the master controller's lines |
| Interrupts.SlaveIrqAt | src/interrupts.rs:180-187 | vectors 40..47 are the slave controller's lines |
| Interrupts.VectorInjective | src/interrupts.rs:143-191 | no two fields share a vector, so the layout is a bijection onto 0..255 |
| Interrupts.VectorShapes | src/interrupts.rs:146-169 | only vector 8 takes a diverging handler; exactly vectors 10..14, 17 and 30 take an error code |
| Interrupts.InterruptDescriptorTable.constructor | src/interrupts.rs:194-240 | all 256 slots start out as missing entries, none present |
| Interrupts.InterruptDescriptorTable.SetHandler | src/interrupts.rs:125-141 | installing in one field makes its vector present with that handler and the current code segment; in that slot only the offsets, the selector and the present bit change, so the IST index, gate type, privilege level and reserved word are kept; every other slot is unchanged |
| Interrupts.Install | src/lib.rs:94-98 | one install adds exactly its vector to the set of present vectors, with the handler's address and the current code segment; every other slot keeps its descriptor |
| Interrupts.InstallIrqAndDoubleFault | src/lib.rs:94-95 | from an empty table, the keyboard and double-fault installs leave exactly vectors 8 and 33 present, each with its handler's address and the current code segment |
| Interrupts.InstallGpAndInvalidOpcode | src/lib.rs:96-97 | the general-protection and invalid-opcode installs add exactly vectors 13 and 6, with their handlers, and keep the descriptors at 33 and 8 |
| Interrupts.InstallPageFault | src/lib.rs:98 | the page-fault install adds exactly vector 14, with its handler, and keeps the descriptors at 33, 8, 13 and 6 |
| Interrupts.InstallKernelHandlers | src/lib.rs:93-98 | after the entry point's installs, exactly vectors 6, 8, 13, 14 and 33 are present, and each holds its own handler's address (keyboard at 33, double fault at 8, general protection at 13, invalid opcode at 6, page fault at 14) with the current code segment |
| Interrupts.OptionsRoundTrip | src/interrupts.rs:37-87 | a new word given a gate type, present flag, privilege level and IST index reads each of them back |
| Interrupts.HandlerRoundTrip | src/interrupts.rs:103-122 | a handler installed in a missing entry reads back as the same address and selector, present, interrupt gate, privilege level 0 and IST index 0 |
| Interrupts.GateBytes | src/interrupts.rs:90-100 | the 16-byte little-endian layout decodes back to the same descriptor |
| Interrupts.IdtLimitCoversTable | src/lib.rs:99 | for a well-formed table, the loaded limit plus one is the table's 256 slots times the 16 bytes each slot's descriptor encodes to |
| Interrupts.ToErrCode | src/interrupts.rs:256-267 | re-encoding the flags sets only bits 0..6 and 15 |
| Interrupts.FromErrCode | src/interrupts.rs:256-267 | decoding keeps exactly bits 0..6 and 15 of the code: re-encoding gives the code with the other bits cleared |
| Interrupts.FromErrCodeOfToErrCode | src/interrupts.rs:256-267 | decoding the encoding of a set of flags gives back the same flags |
| Interrupts.FromErrCodeIgnoresUndefinedBits | src/interrupts.rs:256-267 | codes that agree on bits 0..6 and 15 decode alike |
| Interrupts.FromErrCodeExamples | src/interrupts.rs:256-267 | bit 0 is the present flag, bits 1 and 4 are write and instruction fetch, and bit 15 is SGX |
| VgaBuffer.ColorValue | src/vga_buffer.rs:16-34 | every colour's discriminant fits in four bits |
| VgaBuffer.ColorOfNibble | src/vga_buffer.rs:16-34 | every four-bit value names a colour with that discriminant |
| VgaBuffer.ColorCode | src/vga_buffer.rs:40-42 | no contract of its own; specified by ColorCodeRoundTrip and ColorCodeInjective |
| VgaBuffer.ColorCodeRoundTrip | src/vga_buffer.rs:40-42 | the attribute byte holds the foreground in its low nibble and the background in its high nibble, and both colours can be read back |
| VgaBuffer.ColorOfNibbleOfValue | src/vga_buffer.rs:16-34 | a colour is recovered from its discriminant |
| VgaBuffer.ColorCodeInjective | src/vga_buffer.rs:40-42 | distinct colour pairs give distinct attribute bytes |
| VgaBuffer.Scrolled | src/vga_buffer.rs:92-96 | every row moves up by one and the last row becomes spaces in the writer's colour |
| VgaBuffer.ShownAs | src/vga_buffer.rs:80-83 | no contract of its own; specified by ShownAsCases |
| VgaBuffer.ShownAsCases | src/vga_buffer.rs:79-83 | printable ASCII and newline pass through; every other byte is shown as the full block 219 |
| VgaBuffer.AfterNewlineAsWritten | src/vga_buffer.rs:87-98 | as written, a newline keeps the 2000 cells |
| VgaBuffer.AfterWriteAsWritten | src/vga_buffer.rs:68-76 | as written, a byte write needs the cursor on the grid and keeps 2000 cells |
| VgaBuffer.NewlineAsWrittenOverruns | src/vga_buffer.rs:87-98 | as written, a newline with the cursor just past the grid moves it a further row past the end, without scrolling |
| VgaBuffer.LastCellThenNewlineOverruns | src/vga_buffer.rs:68-98 | as written, filling the last cell leaves the cursor at 2000, and a newline then leaves it off the grid |
| VgaBuffer.AfterNewline | src/vga_buffer.rs:87-98 | a newline always leaves the cursor on the grid, at the start of a row |
| VgaBuffer.AfterWrite | src/vga_buffer.rs:68-76 | a byte write keeps a full grid with the cursor on it or just past it |
| VgaBuffer.AfterString | src/vga_buffer.rs:78-85 | a string write keeps a full grid with the cursor on it or just past it |
| VgaBuffer.NewlineAgrees | src/vga_buffer.rs:87-98 | with the cursor on the grid, the corrected newline is the source's newline |
| VgaBuffer.WriteAgrees | src/vga_buffer.rs:68-76 | with the cursor on the grid, the corrected byte write is the source's byte write |
| VgaBuffer.NewlineMovesDown | src/vga_buffer.rs:87-89 | above the last row, a newline moves the cursor to the start of the next row and leaves the cells unchanged |
| VgaBuffer.NewlineScrolls | src/vga_buffer.rs:90-97 | on the last row, a newline scrolls up by one row, blanks the last row and puts the cursor at its start |
| VgaBuffer.WriteStores | src/vga_buffer.rs:71-74 | a byte other than newline is stored with the writer's colour at the cursor, which moves on by one; no other cell changes |
| VgaBuffer.StringLaidOut | src/vga_buffer.rs:78-85 | printable text that fits is laid out in order from the cursor, which ends just past it; no other cell changes |
| VgaBuffer.VGAWriter.constructor | src/vga_buffer.rs:64-66 | a new writer has its cursor at the top left and does not clear the buffer |
| VgaBuffer.VGAWriter.Scroll | src/vga_buffer.rs:92-96 | after the copy loop and the fill loop, the buffer equals Scrolled of the old buffer |
| VgaBuffer.VGAWriter.Newline | src/vga_buffer.rs:87-98 | the writer's new state is AfterNewline of its old state; the colour is unchanged |
| VgaBuffer.VGAWriter.WriteByte | src/vga_buffer.rs:68-76 | the writer's new state is AfterWrite of its old state; the colour is unchanged |
| VgaBuffer.VGAWriter.WriteString | src/vga_buffer.rs:78-85 | the writer's new state is AfterString of its old state; the colour is unchanged |
| Pic8259.Latched | src/pic8259.rs:5-8 | after a write to a data port, that port reads back the written value; every other data port reads back what it did before, so a command-port write changes no mask |
| Pic8259.PortBus.constructor | src/pic8259.rs:1 | a new bus has the given masks and no writes yet |
| Pic8259.PortBus.Outb | src/pic8259.rs:1 | a write is appended to the trace and latched into the mask registers |
| Pic8259.PortBus.Inb | src/pic8259.rs:1 | reading a data port returns that controller's mask |
| Pic8259.WriteThenRead | src/pic8259.rs:1 | a data port read right after a write to it returns the value written; the other data port still returns its old mask |
| Pic8259.RemapPic | src/pic8259.rs:10-30 | both controllers get ICW1 0x11, vector offsets 0x20 and 0x28, cascade identities 4 and 2 and 8086 mode, in order; every line then ends up masked |
| Pic8259.SetBit | src/pic8259.rs:42 | the bit is set and every other bit kept |
| Pic8259.ClearBit | src/pic8259.rs:57 | the bit is cleared and every other bit kept |
| Pic8259.SetClearRestores | src/pic8259.rs:42-57 | setting a clear bit and clearing it again gives the mask back, and the other way round |
| Pic8259.LineTarget | src/pic8259.rs:33-40 | lines 0..7 are on the master's data port and lines 8..15 on the slave's; the line is the controller's base plus the bit |
| Pic8259.MaskLine | src/pic8259.rs:32-45 | no contract of its own; specified by MaskLineExact and MaskLineAt, and implemented by SetPicIrqLine |
| Pic8259.UnmaskLine | src/pic8259.rs:47-60 | no contract of its own; specified by UnmaskLineExact and UnmaskLineAt, and implemented by ClearPicIrqLine |
| Pic8259.MaskLineExact | src/pic8259.rs:32-45 | masking a line masks exactly that line in addition to those already masked; the other controller's mask is unchanged |
| Pic8259.MaskLineAt | src/pic8259.rs:32-45 | masking line irq masks line j exactly when j is irq or j was already masked |
| Pic8259.UnmaskLineExact | src/pic8259.rs:47-60 | unmasking a line unmasks exactly that line; the other controller's mask is unchanged |
| Pic8259.UnmaskLineAt | src/pic8259.rs:47-60 | unmasking line irq leaves line j masked exactly when j is not irq and j was masked |
| Pic8259.MaskUnmaskRestores | src/pic8259.rs:32-60 | masking an unmasked line and unmasking it again restores both masks, and the other way round |
| Pic8259.RemapMasksAll | src/pic8259.rs:26-28 | after initialisation all 16 lines are masked, and unmasking one line enables exactly that line |
| Pic8259.SetPicIrqLine | src/pic8259.rs:32-45 | the masks become MaskLine of the old masks, with one write of the new mask to the line's data port |
| Pic8259.ClearPicIrqLine | src/pic8259.rs:47-60 | the masks become UnmaskLine of the old masks, with one write of the new mask to the line's data port |
| Pic8259.SetPic1Mask | src/pic8259.rs:62-66 | the master's mask is replaced and the slave's kept, with one write to port 0x21 |
| Pic8259.SetPic2Mask | src/pic8259.rs:68-72 | the slave's mask is replaced and the master's kept, with one write to port 0xA1 |
| Pic8259.Pic1EndOfIntr | src/pic8259.rs:74-78 | the end-of-interrupt command 0x20 is written to port 0x20 and the masks are unchanged |
| Pic8259.Pic2EndOfIntr | src/pic8259.rs:80-84 | the end-of-interrupt command 0x20 is written to port 0xA0 and the masks are unchanged |

## Left out

- `without_interrupts` (`src/interrupts.rs:270-277`): disabling and enabling the interrupt flag is processor state with no value to model. It re-enables interrupts unconditionally rather than restoring the previous state.
- The interrupt handlers, the panic handler, the global `WRITER` behind its `lazy_static` spin lock, `_print` and the `print!`/`println!` macros are not part of this model. The `fmt::Write` implementation always returns `Ok`, so it is modelled by `WriteString`.
- The entry point `kmain` (`src/lib.rs`) is modelled only through the pieces it calls. Left out of it:
  - the cursor-disable writes to ports 0x3D4/0x3D5;
  - the `lidt` instruction itself (its limit is in `IdtLimitCoversTable`);
  - enabling interrupts.
- The CR3 write at `src/memory/mod.rs:107` is commented out in the source. The model builds the tables but does not activate them.
- `src/memory/heap.rs`, `src/memory/pmm.rs`, `src/memory.rs` and the `vmm` module are not part of this model.
- Memory.RelocateMb2AtAddr: `multiboot2::load(...).unwrap()` (`src/memory/mod.rs:53` and `:63`) panics on a malformed information block. The model does not parse the block; it assumes it is well formed and takes its size as a parameter.
- Foreign calls become parameters:
  - the current code segment `cs()` becomes `cs`;
  - `cr3()` becomes `cr3`;
  - multiboot2's `total_size()` becomes the block size `size` / `mb2Size`;
  - handler function pointers become their addresses.
- Port I/O goes to the `PortBus` class. It records every write in order. A data-port read returns the last mask written to that port. Command-port writes are recorded but change no register, and the controllers' internal initialisation state machine is not modelled.
- Memory.Entry: page-table entries are (address, flags) pairs. The bit packing of the `x86` crate's entry types is left out, and so is address masking.
- Paging.TableAt: a physical frame the walker is given no table for reads as 512 zero entries.
- Memory.InitMemory: the three table arrays and the relocation's byte memory are separate objects, so the model assumes the tables do not alias the multiboot2 block or its destination.
- Paging.Walk: printing is modelled as the sequence of reports the walker would print. Lines of levels 4, 3 and 2 are proved walk-wide, in order and exactly. PT lines are proved per table (`PtReportsAll`, `PtLines`) and per PD entry (`PdEntryLines`), but not as one walk-wide list: that would need a fourth layer of nested reference lists, and it is left out to keep the proofs small.
- Memory.AlignUp: `align - 1` and the final `+ 1` are modelled as wrapping 64-bit arithmetic. A debug build would panic where they overflow.
- Memory.BootPd: `LARGE_PAGE_SIZE` is taken to be the 2 MiB of a PD-level page in the `x86` crate.
- Pic8259.SetPicIrqLine: lines 16 and above are excluded by a precondition. For those lines the source's shift `1 << value` overflows an 8-bit value.
- Pic8259.ClearPicIrqLine: lines 16 and above are excluded by a precondition, for the same reason.
- VgaBuffer.VGAWriter.Newline: implements the corrected newline described under Findings. It agrees with the source whenever the cursor is on the grid (`NewlineAgrees`).
- VgaBuffer.VGAWriter.WriteByte: implements the corrected byte write described under Findings. It agrees with the source whenever the cursor is on the grid (`WriteAgrees`).
- VgaBuffer.AfterWrite: is the corrected byte step of the Findings row. It agrees with the source's `write_byte` while the cursor is below 2000 (`WriteAgrees`). With the cursor at 2000 the source panics on the next non-newline byte.
- VgaBuffer.AfterString: applies the corrected byte step to every byte. It agrees with the source's `write_string` as long as the cursor stays below 2000. For example, with the cursor at 1999 and the string "ab", the source stores 'a' at 1999 and then panics indexing cell 2000 (`src/vga_buffer.rs:72`), whereas the model scrolls and stores 'b' at 1920.
- VgaBuffer.VGAWriter.WriteString: implements AfterString, so it shares that difference: it scrolls where the source's `write_string` panics once the cursor reaches 2000.
- VgaBuffer: the cursor offset is an unbounded natural number rather than `usize`. The grid is an array of (character, colour) pairs. Memory-mapped I/O at 0xB8000 and volatile-write semantics are not modelled.

## Findings

| source | as written | input that shows it | evidently intended | confidence | as-written member | corrected member |
|---|---|---|---|---|---|---|
| src/vga_buffer.rs:68-98 | `newline` scrolls only when the advanced offset equals exactly 2000, and `write_byte` never wraps the cursor | writing a non-newline byte with the cursor at 1999 leaves the offset at 2000; a newline then sets it to 2080 without scrolling, and the next byte indexes cell 2080 (a byte written at offset 2000 instead indexes cell 2000), which is out of bounds and panics | the cursor stays on the grid and the screen scrolls when text reaches the end of the last row | not executed; medium | VgaBuffer.LastCellThenNewlineOverruns | VgaBuffer.AfterNewline |
