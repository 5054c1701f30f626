/** Programming the two cascaded 8259A interrupt controllers
    (src/pic8259.rs): the initialisation sequence, the interrupt mask
    registers and end-of-interrupt commands, all as port writes. */
module Pic8259 {

  const PIC1_CMD: nat := 0x20
  const PIC2_CMD: nat := 0xA0
  const PIC1_DATA: nat := 0x21
  const PIC2_DATA: nat := 0xA1

  /** The end-of-interrupt command byte. */
  const EOI: bv8 := 0x20

  datatype PortWrite = PortWrite(port: nat, value: bv8)

  /** The two interrupt mask registers, master's and slave's. */
  datatype Masks = Masks(master: bv8, slave: bv8)

  predicate IsDataPort(port: nat) {
    port == PIC1_DATA || port == PIC2_DATA
  }

  /** What a read of a data port returns: the mask last written to it. */
  function MaskAt(m: Masks, port: nat): bv8
    requires IsDataPort(port)
  {
    if port == PIC1_DATA then m.master else m.slave
  }

  /** The registers after a write: a data-port write replaces that
      controller's mask; a command-port write leaves both masks alone. */
  function Latched(m: Masks, port: nat, value: bv8): (r: Masks)
    ensures IsDataPort(port) ==> MaskAt(r, port) == value
    ensures forall q :: IsDataPort(q) && q != port ==> MaskAt(r, q) == MaskAt(m, q)
  {
    if port == PIC1_DATA then m.(master := value)
    else if port == PIC2_DATA then m.(slave := value)
    else m
  }

  /** The I/O ports as the controllers see them: the mask registers behind
      the data ports and every byte written, in order. */
  class PortBus {
    var masks: Masks
    var trace: seq<PortWrite>

    /** A bus with the given masks that has seen no write yet. */
    constructor (masks: Masks)
      ensures this.masks == masks && trace == []
    {
      this.masks := masks;
      trace := [];
    }

    method Outb(port: nat, value: bv8)
      modifies this
      ensures masks == Latched(old(masks), port, value)
      ensures trace == old(trace) + [PortWrite(port, value)]
    {
      masks := Latched(masks, port, value);
      trace := trace + [PortWrite(port, value)];
    }

    method Inb(port: nat) returns (value: bv8)
      requires IsDataPort(port)
      ensures value == MaskAt(masks, port)
    {
      value := MaskAt(masks, port);
    }
  }

  /** A data-port read returns the value last written to that port, and a
      write to one data port leaves the other port's mask as it was. */
  method WriteThenRead(bus: PortBus, port: nat, value: bv8, other: nat) returns (read: bv8, otherRead: bv8)
    requires IsDataPort(port) && IsDataPort(other) && other != port
    modifies bus
    ensures read == value
    ensures otherRead == MaskAt(old(bus.masks), other)
  {
    bus.Outb(port, value);
    read := bus.Inb(port);
    otherRead := bus.Inb(other);
  }

  // ---------------------------------------------------------------------
  // Initialisation

  /** Every line of both controllers masked. */
  const ALL_MASKED := Masks(0xFF, 0xFF)

  /** ICW1 to both controllers, then the vector offsets 0x20 and 0x28, the
      cascade wiring on line 2, 8086 mode, and finally every line masked. */
  const REMAP_WRITES: seq<PortWrite> := [
    PortWrite(PIC1_CMD, 0x11), PortWrite(PIC2_CMD, 0x11),
    PortWrite(PIC1_DATA, 0x20), PortWrite(PIC2_DATA, 0x28),
    PortWrite(PIC1_DATA, 0x04), PortWrite(PIC2_DATA, 0x02),
    PortWrite(PIC1_DATA, 0x01), PortWrite(PIC2_DATA, 0x01),
    PortWrite(PIC1_DATA, 0xFF), PortWrite(PIC2_DATA, 0xFF)
  ]

  method RemapPic(bus: PortBus)
    modifies bus
    ensures bus.trace == old(bus.trace) + REMAP_WRITES
    ensures bus.masks == ALL_MASKED
  {
    bus.Outb(PIC1_CMD, 0x11);
    bus.Outb(PIC2_CMD, 0x11);
    bus.Outb(PIC1_DATA, 0x20);
    bus.Outb(PIC2_DATA, 0x28);
    bus.Outb(PIC1_DATA, 0x04);
    bus.Outb(PIC2_DATA, 0x02);
    bus.Outb(PIC1_DATA, 0x01);
    bus.Outb(PIC2_DATA, 0x01);
    bus.Outb(PIC1_DATA, 0xFF);
    bus.Outb(PIC2_DATA, 0xFF);
  }

  // ---------------------------------------------------------------------
  // Interrupt mask registers

  /** Bit `j` of a mask. */
  predicate BitOf(m: bv8, j: bv8)
    requires j < 8
  {
    (m >> j) & 1 == 1
  }

  function SetBit(m: bv8, j: bv8): (r: bv8)
    requires j < 8
    ensures forall i: bv8 :: i < 8 ==> (BitOf(r, i) <==> i == j || BitOf(m, i))
  {
    m | (1 << j)
  }

  function ClearBit(m: bv8, j: bv8): (r: bv8)
    requires j < 8
    ensures forall i: bv8 :: i < 8 ==> (BitOf(r, i) <==> i != j && BitOf(m, i))
  {
    m & !(1 << j)
  }

  /** Clearing a bit that setting put there gives the mask back, and
      setting a bit that clearing removed does too. */
  lemma SetClearRestores(m: bv8, j: bv8)
    requires j < 8
    ensures !BitOf(m, j) ==> ClearBit(SetBit(m, j), j) == m
    ensures BitOf(m, j) ==> SetBit(ClearBit(m, j), j) == m
  {
  }

  /** The mask register and bit that govern IRQ line `irq`: lines 0 to 7 on
      the master's data port, lines 8 to 15 on the slave's. */
  function LineTarget(irq: bv8): (t: (nat, bv8))
    requires irq < 16
    ensures t.1 < 8
    ensures t.0 == PIC1_DATA <==> irq < 8
    ensures t.0 == PIC2_DATA <==> irq >= 8
    ensures (if t.0 == PIC1_DATA then 0 else 8) + t.1 == irq
  {
    if irq < 8 then (PIC1_DATA, irq) else (PIC2_DATA, irq - 8)
  }

  /** Whether line `irq` is masked. */
  predicate LineMasked(m: Masks, irq: bv8)
    requires irq < 16
  {
    BitOf(MaskAt(m, LineTarget(irq).0), LineTarget(irq).1)
  }

  /** The registers after masking line `irq`. */
  function MaskLine(m: Masks, irq: bv8): Masks
    requires irq < 16
  {
    var t := LineTarget(irq);
    Latched(m, t.0, SetBit(MaskAt(m, t.0), t.1))
  }

  /** The registers after unmasking line `irq`. */
  function UnmaskLine(m: Masks, irq: bv8): Masks
    requires irq < 16
  {
    var t := LineTarget(irq);
    Latched(m, t.0, ClearBit(MaskAt(m, t.0), t.1))
  }

  /** Masking a line masks it and no other line, and leaves the other
      controller's register as it was. */
  lemma MaskLineExact(m: Masks, irq: bv8)
    requires irq < 16
    ensures forall j: bv8 :: j < 16 ==> (LineMasked(MaskLine(m, irq), j) <==> j == irq || LineMasked(m, j))
    ensures forall p :: IsDataPort(p) && p != LineTarget(irq).0 ==> MaskAt(MaskLine(m, irq), p) == MaskAt(m, p)
  {
    forall j: bv8 | j < 16
      ensures LineMasked(MaskLine(m, irq), j) <==> j == irq || LineMasked(m, j)
    {
      MaskLineAt(m, irq, j);
    }
  }

  lemma MaskLineAt(m: Masks, irq: bv8, j: bv8)
    requires irq < 16 && j < 16
    ensures LineMasked(MaskLine(m, irq), j) <==> j == irq || LineMasked(m, j)
  {
    var r := MaskLine(m, irq);
    if irq < 8 {
      assert r == m.(master := SetBit(m.master, irq));
    } else {
      assert r == m.(slave := SetBit(m.slave, irq - 8));
    }
    if j < 8 {
      assert LineMasked(r, j) == BitOf(r.master, j);
    } else {
      assert LineMasked(r, j) == BitOf(r.slave, j - 8);
    }
  }

  /** Unmasking a line unmasks it and no other line, and leaves the other
      controller's register as it was. */
  lemma UnmaskLineExact(m: Masks, irq: bv8)
    requires irq < 16
    ensures forall j: bv8 :: j < 16 ==> (LineMasked(UnmaskLine(m, irq), j) <==> j != irq && LineMasked(m, j))
    ensures forall p :: IsDataPort(p) && p != LineTarget(irq).0 ==> MaskAt(UnmaskLine(m, irq), p) == MaskAt(m, p)
  {
    forall j: bv8 | j < 16
      ensures LineMasked(UnmaskLine(m, irq), j) <==> j != irq && LineMasked(m, j)
    {
      UnmaskLineAt(m, irq, j);
    }
  }

  lemma UnmaskLineAt(m: Masks, irq: bv8, j: bv8)
    requires irq < 16 && j < 16
    ensures LineMasked(UnmaskLine(m, irq), j) <==> j != irq && LineMasked(m, j)
  {
    var r := UnmaskLine(m, irq);
    if irq < 8 {
      assert r == m.(master := ClearBit(m.master, irq));
    } else {
      assert r == m.(slave := ClearBit(m.slave, irq - 8));
    }
    if j < 8 {
      assert LineMasked(r, j) == BitOf(r.master, j);
    } else {
      assert LineMasked(r, j) == BitOf(r.slave, j - 8);
    }
  }

  /** Masking a line that was unmasked and unmasking it again restores the
      registers; likewise the other way round. */
  lemma MaskUnmaskRestores(m: Masks, irq: bv8)
    requires irq < 16
    ensures !LineMasked(m, irq) ==> UnmaskLine(MaskLine(m, irq), irq) == m
    ensures LineMasked(m, irq) ==> MaskLine(UnmaskLine(m, irq), irq) == m
  {
    var t := LineTarget(irq);
    SetClearRestores(MaskAt(m, t.0), t.1);
  }

  /** After the initialisation every line is masked, and unmasking one line
      then leaves exactly that line enabled. */
  lemma RemapMasksAll(irq: bv8)
    requires irq < 16
    ensures forall j: bv8 :: j < 16 ==> LineMasked(ALL_MASKED, j)
    ensures forall j: bv8 :: j < 16 ==> (LineMasked(UnmaskLine(ALL_MASKED, irq), j) <==> j != irq)
  {
    UnmaskLineExact(ALL_MASKED, irq);
  }

  method SetPicIrqLine(bus: PortBus, irq: bv8)
    requires irq < 16
    modifies bus
    ensures bus.masks == MaskLine(old(bus.masks), irq)
    ensures bus.trace == old(bus.trace) + [PortWrite(LineTarget(irq).0, MaskAt(bus.masks, LineTarget(irq).0))]
  {
    var value := irq;
    var port: nat;
    if value < 8 {
      port := PIC1_DATA;
    } else {
      value := value - 8;
      port := PIC2_DATA;
    }
    var current := bus.Inb(port);
    value := current | (1 << value);
    bus.Outb(port, value);
  }

  method ClearPicIrqLine(bus: PortBus, irq: bv8)
    requires irq < 16
    modifies bus
    ensures bus.masks == UnmaskLine(old(bus.masks), irq)
    ensures bus.trace == old(bus.trace) + [PortWrite(LineTarget(irq).0, MaskAt(bus.masks, LineTarget(irq).0))]
  {
    var value := irq;
    var port: nat;
    if value < 8 {
      port := PIC1_DATA;
    } else {
      value := value - 8;
      port := PIC2_DATA;
    }
    var current := bus.Inb(port);
    value := current & !(1 << value);
    bus.Outb(port, value);
  }

  method SetPic1Mask(bus: PortBus, mask: bv8)
    modifies bus
    ensures bus.masks == old(bus.masks).(master := mask)
    ensures bus.trace == old(bus.trace) + [PortWrite(PIC1_DATA, mask)]
  {
    bus.Outb(PIC1_DATA, mask);
  }

  method SetPic2Mask(bus: PortBus, mask: bv8)
    modifies bus
    ensures bus.masks == old(bus.masks).(slave := mask)
    ensures bus.trace == old(bus.trace) + [PortWrite(PIC2_DATA, mask)]
  {
    bus.Outb(PIC2_DATA, mask);
  }

  method Pic1EndOfIntr(bus: PortBus)
    modifies bus
    ensures bus.masks == old(bus.masks)
    ensures bus.trace == old(bus.trace) + [PortWrite(PIC1_CMD, EOI)]
  {
    bus.Outb(PIC1_CMD, EOI);
  }

  method Pic2EndOfIntr(bus: PortBus)
    modifies bus
    ensures bus.masks == old(bus.masks)
    ensures bus.trace == old(bus.trace) + [PortWrite(PIC2_CMD, EOI)]
  {
    bus.Outb(PIC2_CMD, EOI);
  }
}
