/** Interrupt gate descriptors, the 256-slot interrupt descriptor table and
    the page-fault error-code decoder (src/interrupts.rs).

    The layout follows the 64-bit IDT gate descriptor of the Intel SDM,
    Volume 3A, section 6.14.1: a 16-byte record made of the low 16 bits of
    the handler offset, the code-segment selector, the IST byte, the
    type/attribute byte, offset bits 16..31, offset bits 32..63 and a
    reserved 32-bit word. */
module Interrupts {

  const GATE_TYPE_INTERRUPT: bv8 := 0xE
  const GATE_TYPE_TRAP: bv8 := 0xF

  // Masks of the options word (the IST byte and the type/attribute byte).
  const IST_MASK: bv8 := 0x07
  const PRESENT_BIT: bv8 := 0x80
  const DPL_MASK: bv8 := 0x60
  const GATE_TYPE_MASK: bv8 := 0x0F

  datatype InterruptGateType = Interrupt | Trap

  /** The nibble a gate type is encoded as. */
  function GateTypeBits(gt: InterruptGateType): (nibble: bv8)
    ensures nibble & 0xF0 == 0
    ensures gt == Interrupt <==> nibble == GATE_TYPE_INTERRUPT
    ensures gt == Trap <==> nibble == GATE_TYPE_TRAP
  {
    match gt
    case Interrupt => GATE_TYPE_INTERRUPT
    case Trap => GATE_TYPE_TRAP
  }

  /** A type/attribute byte whose low nibble names a gate type; any other
      nibble makes the getter abort. */
  predicate HasGateType(typeAttr: bv8) {
    typeAttr & GATE_TYPE_MASK == GATE_TYPE_INTERRUPT || typeAttr & GATE_TYPE_MASK == GATE_TYPE_TRAP
  }

  /** Decoding the gate-type nibble: the inverse of GateTypeBits. */
  function DecodeGateType(typeAttr: bv8): (gt: InterruptGateType)
    requires HasGateType(typeAttr)
    ensures GateTypeBits(gt) == typeAttr & GATE_TYPE_MASK
  {
    if typeAttr & GATE_TYPE_MASK == GATE_TYPE_INTERRUPT then Interrupt else Trap
  }

  /** The options word of a gate: IST index, present flag, privilege level
      and gate type packed into two bytes. */
  class IDTEntryOptions {
    var ist: bv8
    var typeAttr: bv8

    /** A zero word on which the gate type and then the present flag are set. */
    constructor (gt: InterruptGateType, present: bool)
      ensures ist == 0
      ensures typeAttr == GateTypeBits(gt) | (if present then PRESENT_BIT else 0)
      ensures HasValidGateType() && GetGateType() == gt
      ensures GetPresent() == present && GetDpl() == 0 && GetIstOffset() == 0
    {
      ist := 0;
      typeAttr := 0;
      new;
      SetGateType(gt);
      SetPresent(present);
    }

    /** ORs the low three bits of `offset` into the IST byte: repeated calls
        accumulate rather than replace. */
    method SetIstOffset(offset: bv8)
      modifies this`ist
      ensures ist == old(ist) | (offset & IST_MASK)
      ensures GetIstOffset() == old(GetIstOffset()) | (offset & IST_MASK)
      ensures old(GetIstOffset()) == 0 ==> GetIstOffset() == offset & IST_MASK
    {
      ist := ist | (offset & IST_MASK);
    }

    function GetIstOffset(): (offset: bv8)
      reads this
      ensures offset < 8
    {
      ist & IST_MASK
    }

    method SetPresent(present: bool)
      modifies this`typeAttr
      ensures GetPresent() == present
      ensures typeAttr & !PRESENT_BIT == old(typeAttr) & !PRESENT_BIT
      ensures GetDpl() == old(GetDpl()) && GetIstOffset() == old(GetIstOffset())
      ensures HasValidGateType() == old(HasValidGateType())
      ensures HasValidGateType() ==> GetGateType() == old(GetGateType())
    {
      if present {
        typeAttr := typeAttr | PRESENT_BIT;
      } else {
        typeAttr := typeAttr & !PRESENT_BIT;
      }
    }

    function GetPresent(): bool
      reads this
    {
      typeAttr & PRESENT_BIT != 0
    }

    /** ORs the two low bits of `dpl` into bits 5..6: accumulates like SetIstOffset. */
    method SetDpl(dpl: bv8)
      modifies this`typeAttr
      ensures typeAttr == old(typeAttr) | ((dpl << 5) & DPL_MASK)
      ensures GetDpl() == old(GetDpl()) | (dpl & 3)
      ensures old(GetDpl()) == 0 ==> GetDpl() == dpl & 3
      ensures GetPresent() == old(GetPresent()) && typeAttr & GATE_TYPE_MASK == old(typeAttr) & GATE_TYPE_MASK
    {
      typeAttr := typeAttr | ((dpl << 5) & DPL_MASK);
    }

    function GetDpl(): (dpl: bv8)
      reads this
      ensures dpl < 4
    {
      (typeAttr & DPL_MASK) >> 5
    }

    /** Clears the low nibble and ORs in the gate type; bits 4..7 are kept. */
    method SetGateType(gt: InterruptGateType)
      modifies this`typeAttr
      ensures typeAttr & 0xF0 == old(typeAttr) & 0xF0
      ensures HasValidGateType() && GetGateType() == gt
      ensures GetPresent() == old(GetPresent()) && GetDpl() == old(GetDpl())
    {
      typeAttr := typeAttr & 0xF0;
      match gt
      case Interrupt => typeAttr := typeAttr | GATE_TYPE_INTERRUPT;
      case Trap => typeAttr := typeAttr | GATE_TYPE_TRAP;
    }

    predicate HasValidGateType()
      reads this
    {
      HasGateType(typeAttr)
    }

    /** Partial: a low nibble other than 0xE or 0xF makes the source panic. */
    function GetGateType(): (gt: InterruptGateType)
      reads this
      requires HasValidGateType()
      ensures GateTypeBits(gt) == typeAttr & GATE_TYPE_MASK
    {
      DecodeGateType(typeAttr)
    }
  }

  /** The three handler signatures the table distinguishes by type. */
  datatype HandlerShape =
    | Plain          // fn(frame)
    | WithErrorCode  // fn(frame, err_code)
    | Diverging      // fn(frame, err_code) -> !

  /** The value of one 16-byte gate descriptor, field by field. */
  datatype Gate = Gate(offset1: bv16, selector: bv16, ist: bv8, typeAttr: bv8,
                       offset2: bv16, offset3: bv32, zero: bv32)
  {
    /** The handler address the three offset fields hold. */
    function HandlerAddress(): bv64 {
      (offset1 as bv64) | ((offset2 as bv64) << 16) | ((offset3 as bv64) << 32)
    }

    predicate Present() {
      typeAttr & PRESENT_BIT != 0
    }
  }

  /** The value `IDTEntry::missing()` produces: every field zero except the
      interrupt gate type in the type/attribute byte. */
  const MISSING_GATE := Gate(0, 0, 0, GATE_TYPE_INTERRUPT, 0, 0, 0)

  /** One gate descriptor; `shape` stands for the handler type parameter. */
  class IDTEntry {
    var offset1: bv16
    var selector: bv16
    const options: IDTEntryOptions
    var offset2: bv16
    var offset3: bv32
    var zero: bv32
    const shape: HandlerShape

    function Value(): Gate
      reads this, options
    {
      Gate(offset1, selector, options.ist, options.typeAttr, offset2, offset3, zero)
    }

    constructor Missing(shape: HandlerShape)
      ensures fresh(options) && this.shape == shape
      ensures Value() == MISSING_GATE
      ensures !options.GetPresent() && options.HasValidGateType() && options.GetGateType() == Interrupt
    {
      options := new IDTEntryOptions(Interrupt, false);
      offset1, selector, offset2, offset3, zero := 0, 0, 0, 0, 0;
      this.shape := shape;
    }

    /** Splits `address` over the three offset fields, takes the selector
        from the current code segment `cs` and marks the gate present. */
    method SetHandlerAddress(address: bv64, cs: bv16)
      modifies this, options
      ensures Value().HandlerAddress() == address
      ensures offset1 as bv64 == address & 0xFFFF
      ensures offset2 as bv64 == (address >> 16) & 0xFFFF
      ensures offset3 as bv64 == address >> 32
      ensures selector == cs && zero == old(zero)
      ensures options.GetPresent()
      ensures options.ist == old(options.ist)
      ensures options.typeAttr & !PRESENT_BIT == old(options.typeAttr) & !PRESENT_BIT
    {
      offset1 := (address & 0xFFFF) as bv16;
      offset2 := ((address >> 16) & 0xFFFF) as bv16;
      offset3 := (address >> 32) as bv32;
      selector := cs;
      options.SetPresent(true);
    }

    /** Installs a handler whose signature matches this entry's shape. */
    method SetHandler(handlerShape: HandlerShape, handler: bv64, cs: bv16)
      requires handlerShape == shape
      modifies this, options
      ensures Value() == old(Value()).(offset1 := offset1, offset2 := offset2, offset3 := offset3,
                                        selector := cs, typeAttr := old(options.typeAttr) | PRESENT_BIT)
      ensures Value().HandlerAddress() == handler && Value().Present()
    {
      SetHandlerAddress(handler, cs);
    }
  }

  /** The named fields of the table, in declaration order. */
  datatype Field =
    | DivideByZero | Debug | NonMaskableInterrupt | Breakpoint | Overflow
    | BoundRangeExceeded | InvalidOpcode | DeviceNotAvailable | DoubleFault
    | ReservedExceptions9 | InvalidTss | SegmentNotPresent | StackSegmentFault
    | GeneralProtectionFault | PageFault | ReservedExceptions15 | X87FloatingPoint
    | AlignmentCheck | MachineCheck | SimdFloatingPoint | Virtualization
    | ReservedExceptions21To29(k: nat) | SecurityException | ReservedExceptions31
    | ProgrammableTimer | Keyboard | ReservedIrq2Cascade | Serial2 | Serial1
    | Parallel2 | Floppy | Parallel1Spurious | CmosRtc | Peripherals1
    | Peripherals2 | Peripherals3 | Ps2Mouse | Fpu | PrimaryAta | SecondaryAta
    | Interrupts(k: nat)

  /** The array fields hold 9 and 256 - 32 - 16 entries. */
  predicate ValidField(f: Field) {
    match f
    case ReservedExceptions21To29(k) => k < 9
    case Interrupts(k) => k < 256 - 32 - 16
    case _ => true
  }

  /** The vector a field sits at: its position in the table's layout. */
  function Vector(f: Field): (v: nat)
    requires ValidField(f)
    ensures v < 256
  {
    match f
    case DivideByZero => 0
    case Debug => 1
    case NonMaskableInterrupt => 2
    case Breakpoint => 3
    case Overflow => 4
    case BoundRangeExceeded => 5
    case InvalidOpcode => 6
    case DeviceNotAvailable => 7
    case DoubleFault => 8
    case ReservedExceptions9 => 9
    case InvalidTss => 10
    case SegmentNotPresent => 11
    case StackSegmentFault => 12
    case GeneralProtectionFault => 13
    case PageFault => 14
    case ReservedExceptions15 => 15
    case X87FloatingPoint => 16
    case AlignmentCheck => 17
    case MachineCheck => 18
    case SimdFloatingPoint => 19
    case Virtualization => 20
    case ReservedExceptions21To29(k) => 21 + k
    case SecurityException => 30
    case ReservedExceptions31 => 31
    case ProgrammableTimer => 32
    case Keyboard => 33
    case ReservedIrq2Cascade => 34
    case Serial2 => 35
    case Serial1 => 36
    case Parallel2 => 37
    case Floppy => 38
    case Parallel1Spurious => 39
    case CmosRtc => 40
    case Peripherals1 => 41
    case Peripherals2 => 42
    case Peripherals3 => 43
    case Ps2Mouse => 44
    case Fpu => 45
    case PrimaryAta => 46
    case SecondaryAta => 47
    case Interrupts(k) => 48 + k
  }

  /** The field at a vector: every vector 0..255 belongs to exactly one field. */
  function FieldAt(v: nat): (f: Field)
    requires v < 256
    ensures ValidField(f) && Vector(f) == v
  {
    if v < 32 then ExceptionAt(v)
    else if v < 48 then IrqAt(v)
    else Interrupts(v - 48)
  }

  /** Vectors 0..31: the architectural exceptions. */
  function ExceptionAt(v: nat): (f: Field)
    requires v < 32
    ensures ValidField(f) && Vector(f) == v
  {
    if v == 0 then DivideByZero
    else if v == 1 then Debug
    else if v == 2 then NonMaskableInterrupt
    else if v == 3 then Breakpoint
    else if v == 4 then Overflow
    else if v == 5 then BoundRangeExceeded
    else if v == 6 then InvalidOpcode
    else if v == 7 then DeviceNotAvailable
    else if v == 8 then DoubleFault
    else if v == 9 then ReservedExceptions9
    else if v == 10 then InvalidTss
    else if v == 11 then SegmentNotPresent
    else if v == 12 then StackSegmentFault
    else if v == 13 then GeneralProtectionFault
    else if v == 14 then PageFault
    else if v == 15 then ReservedExceptions15
    else if v == 16 then X87FloatingPoint
    else if v == 17 then AlignmentCheck
    else if v == 18 then MachineCheck
    else if v == 19 then SimdFloatingPoint
    else if v == 20 then Virtualization
    else if v < 30 then ReservedExceptions21To29(v - 21)
    else if v == 30 then SecurityException
    else ReservedExceptions31
  }

  /** Vectors 32..47: the remapped legacy interrupt lines. */
  function IrqAt(v: nat): (f: Field)
    requires 32 <= v < 48
    ensures ValidField(f) && Vector(f) == v
  {
    if v < 40 then MasterIrqAt(v) else SlaveIrqAt(v)
  }

  /** Lines 0..7, on the master controller. */
  function MasterIrqAt(v: nat): (f: Field)
    requires 32 <= v < 40
    ensures ValidField(f) && Vector(f) == v
  {
    if v == 32 then ProgrammableTimer
    else if v == 33 then Keyboard
    else if v == 34 then ReservedIrq2Cascade
    else if v == 35 then Serial2
    else if v == 36 then Serial1
    else if v == 37 then Parallel2
    else if v == 38 then Floppy
    else Parallel1Spurious
  }

  /** Lines 8..15, on the slave controller. */
  function SlaveIrqAt(v: nat): (f: Field)
    requires 40 <= v < 48
    ensures ValidField(f) && Vector(f) == v
  {
    if v == 40 then CmosRtc
    else if v == 41 then Peripherals1
    else if v == 42 then Peripherals2
    else if v == 43 then Peripherals3
    else if v == 44 then Ps2Mouse
    else if v == 45 then Fpu
    else if v == 46 then PrimaryAta
    else SecondaryAta
  }

  /** No two fields share a vector. */
  lemma VectorInjective(f: Field)
    requires ValidField(f)
    ensures FieldAt(Vector(f)) == f
  {
  }

  /** The handler type each field is declared with. */
  function Shape(f: Field): HandlerShape {
    match f
    case DoubleFault => Diverging
    case InvalidTss => WithErrorCode
    case SegmentNotPresent => WithErrorCode
    case StackSegmentFault => WithErrorCode
    case GeneralProtectionFault => WithErrorCode
    case PageFault => WithErrorCode
    case AlignmentCheck => WithErrorCode
    case SecurityException => WithErrorCode
    case _ => Plain
  }

  function VectorShape(v: nat): HandlerShape
    requires v < 256
  {
    Shape(FieldAt(v))
  }

  /** Vector 8 alone diverges; 10..14, 17 and 30 receive an error code. */
  lemma VectorShapes(v: nat)
    requires v < 256
    ensures VectorShape(v) == Diverging <==> v == 8
    ensures VectorShape(v) == WithErrorCode <==> v in {10, 11, 12, 13, 14, 17, 30}
    ensures VectorShape(v) == Plain <==> v !in {8, 10, 11, 12, 13, 14, 17, 30}
  {
  }

  /** The table: 256 distinct entries, one per vector. */
  class InterruptDescriptorTable {
    const slots: seq<IDTEntry>
    ghost const Repr: set<object>

    ghost predicate Valid() {
      && |slots| == 256
      && (forall v :: 0 <= v < 256 ==> slots[v] in Repr && slots[v].options in Repr)
      && (forall v :: 0 <= v < 256 ==> slots[v].shape == VectorShape(v))
      && (forall v, w :: 0 <= v < w < 256 ==> slots[v] != slots[w] && slots[v].options != slots[w].options)
    }

    predicate Present(v: nat)
      requires v < |slots|
      reads slots[v].options
    {
      slots[v].options.GetPresent()
    }

    /** Every slot starts out as `missing()`. */
    constructor ()
      ensures Valid() && fresh(Repr)
      ensures forall v :: 0 <= v < 256 ==> slots[v].Value() == MISSING_GATE
      ensures forall v :: 0 <= v < 256 ==> !Present(v)
    {
      var s: seq<IDTEntry> := [];
      while |s| < 256
        invariant |s| <= 256
        invariant forall v :: 0 <= v < |s| ==> fresh(s[v]) && fresh(s[v].options)
        invariant forall v :: 0 <= v < |s| ==> s[v].shape == VectorShape(v) && s[v].Value() == MISSING_GATE
        invariant forall v, w :: 0 <= v < w < |s| ==> s[v] != s[w] && s[v].options != s[w].options
      {
        var e := new IDTEntry.Missing(VectorShape(|s|));
        s := s + [e];
      }
      slots := s;
      Repr := (set v | 0 <= v < 256 :: s[v] as object) + (set v | 0 <= v < 256 :: s[v].options as object);
    }

    /** Installs a handler in the slot of field `f`; the handler's shape
        must be the one the field is declared with. Nothing else changes. */
    method SetHandler(f: Field, handlerShape: HandlerShape, handler: bv64, cs: bv16)
      requires Valid() && ValidField(f) && handlerShape == Shape(f)
      modifies slots[Vector(f)], slots[Vector(f)].options
      ensures Present(Vector(f))
      ensures slots[Vector(f)].Value().HandlerAddress() == handler
      ensures slots[Vector(f)].Value() ==
        old(slots[Vector(f)].Value()).(offset1 := slots[Vector(f)].offset1, offset2 := slots[Vector(f)].offset2,
                                       offset3 := slots[Vector(f)].offset3, selector := cs,
                                       typeAttr := old(slots[Vector(f)].options.typeAttr) | PRESENT_BIT)
      ensures forall w :: 0 <= w < 256 && w != Vector(f) ==> slots[w].Value() == old(slots[w].Value())
      ensures forall w :: 0 <= w < 256 ==> (Present(w) <==> w == Vector(f) || old(Present(w)))
    {
      VectorInjective(f);
      slots[Vector(f)].SetHandler(handlerShape, handler, cs);
    }
  }

  /** The vectors the kernel entry point installs before loading the table. */
  const KERNEL_VECTORS: set<nat> := {6, 8, 13, 14, 33}

  /** Installs one handler at vector `v`, tracking the set of present vectors. */
  method Install(idt: InterruptDescriptorTable, f: Field, v: nat, handlerShape: HandlerShape,
                 handler: bv64, cs: bv16, ghost before: set<nat>)
    requires idt.Valid() && ValidField(f) && Vector(f) == v && handlerShape == Shape(f)
    requires forall w :: 0 <= w < 256 ==> (idt.Present(w) <==> w in before)
    modifies idt.Repr
    ensures forall w :: 0 <= w < 256 ==> (idt.Present(w) <==> w in before || w == v)
    ensures idt.slots[v].Value().HandlerAddress() == handler
    ensures idt.slots[v].Value().selector == cs
    ensures forall w :: 0 <= w < 256 && w != v ==> idt.slots[w].Value() == old(idt.slots[w].Value())
  {
    idt.SetHandler(f, handlerShape, handler, cs);
  }

  /** The first two installs of the kernel entry point: keyboard, then
      double fault. */
  method InstallIrqAndDoubleFault(idt: InterruptDescriptorTable, keyboard: bv64, doubleFault: bv64, cs: bv16)
    requires idt.Valid()
    requires forall v :: 0 <= v < 256 ==> !idt.Present(v)
    modifies idt.Repr
    ensures forall v :: 0 <= v < 256 ==> (idt.Present(v) <==> v in {8, 33})
    ensures idt.slots[33].Value().HandlerAddress() == keyboard && idt.slots[33].Value().selector == cs
    ensures idt.slots[8].Value().HandlerAddress() == doubleFault && idt.slots[8].Value().selector == cs
  {
    Install(idt, Keyboard, 33, Plain, keyboard, cs, {});
    ghost var kb := idt.slots[33].Value();
    Install(idt, DoubleFault, 8, Diverging, doubleFault, cs, {33});
    assert idt.slots[33].Value() == kb;
  }

  /** The next two installs of the kernel entry point: general protection,
      then invalid opcode; the two earlier slots are kept. */
  method InstallGpAndInvalidOpcode(idt: InterruptDescriptorTable, gpFault: bv64, invalidOpcode: bv64, cs: bv16)
    requires idt.Valid()
    requires forall v :: 0 <= v < 256 ==> (idt.Present(v) <==> v in {8, 33})
    modifies idt.Repr
    ensures forall v :: 0 <= v < 256 ==> (idt.Present(v) <==> v in {6, 8, 13, 33})
    ensures idt.slots[13].Value().HandlerAddress() == gpFault && idt.slots[13].Value().selector == cs
    ensures idt.slots[6].Value().HandlerAddress() == invalidOpcode && idt.slots[6].Value().selector == cs
    ensures idt.slots[33].Value() == old(idt.slots[33].Value()) && idt.slots[8].Value() == old(idt.slots[8].Value())
  {
    Install(idt, GeneralProtectionFault, 13, WithErrorCode, gpFault, cs, {8, 33});
    ghost var gp := idt.slots[13].Value();
    Install(idt, InvalidOpcode, 6, Plain, invalidOpcode, cs, {8, 13, 33});
    assert idt.slots[13].Value() == gp;
  }

  /** The last install of the kernel entry point: page fault; the four
      earlier slots are kept. */
  method InstallPageFault(idt: InterruptDescriptorTable, pageFault: bv64, cs: bv16)
    requires idt.Valid()
    requires forall v :: 0 <= v < 256 ==> (idt.Present(v) <==> v in {6, 8, 13, 33})
    modifies idt.Repr
    ensures forall v :: 0 <= v < 256 ==> (idt.Present(v) <==> v in KERNEL_VECTORS)
    ensures idt.slots[14].Value().HandlerAddress() == pageFault && idt.slots[14].Value().selector == cs
    ensures idt.slots[33].Value() == old(idt.slots[33].Value()) && idt.slots[8].Value() == old(idt.slots[8].Value())
    ensures idt.slots[13].Value() == old(idt.slots[13].Value()) && idt.slots[6].Value() == old(idt.slots[6].Value())
  {
    Install(idt, PageFault, 14, WithErrorCode, pageFault, cs, {6, 8, 13, 33});
  }

  /** The install sequence of the kernel entry point: keyboard, double fault,
      general protection, invalid opcode and page fault, in that order. */
  method InstallKernelHandlers(idt: InterruptDescriptorTable,
                               keyboard: bv64, doubleFault: bv64, gpFault: bv64,
                               invalidOpcode: bv64, pageFault: bv64, cs: bv16)
    requires idt.Valid()
    requires forall v :: 0 <= v < 256 ==> !idt.Present(v)
    modifies idt.Repr
    ensures forall v :: 0 <= v < 256 ==> (idt.Present(v) <==> v in KERNEL_VECTORS)
    ensures idt.slots[33].Value().HandlerAddress() == keyboard && idt.slots[33].Value().selector == cs
    ensures idt.slots[8].Value().HandlerAddress() == doubleFault && idt.slots[8].Value().selector == cs
    ensures idt.slots[13].Value().HandlerAddress() == gpFault && idt.slots[13].Value().selector == cs
    ensures idt.slots[6].Value().HandlerAddress() == invalidOpcode && idt.slots[6].Value().selector == cs
    ensures idt.slots[14].Value().HandlerAddress() == pageFault && idt.slots[14].Value().selector == cs
  {
    InstallIrqAndDoubleFault(idt, keyboard, doubleFault, cs);
    InstallGpAndInvalidOpcode(idt, gpFault, invalidOpcode, cs);
    InstallPageFault(idt, pageFault, cs);
  }

  /** Options round trip: a fresh word given a gate type, a present flag,
      a privilege level and an IST index reads back each of them. */
  method OptionsRoundTrip(gt: InterruptGateType, present: bool, dpl: bv8, ist: bv8)
    returns (gt': InterruptGateType, present': bool, dpl': bv8, ist': bv8)
    requires dpl < 4 && ist < 8
    ensures gt' == gt && present' == present && dpl' == dpl && ist' == ist
  {
    var o := new IDTEntryOptions(gt, present);
    o.SetDpl(dpl);
    o.SetIstOffset(ist);
    gt', present', dpl', ist' := o.GetGateType(), o.GetPresent(), o.GetDpl(), o.GetIstOffset();
  }

  /** Installing a handler in a missing entry: the offsets give back the
      address, the selector is the code segment, and the gate is a present
      interrupt gate with privilege level 0 and no IST index. */
  method HandlerRoundTrip(shape: HandlerShape, handler: bv64, cs: bv16)
    returns (address: bv64, selector: bv16, present: bool, gt: InterruptGateType, dpl: bv8, ist: bv8)
    ensures address == handler && selector == cs && present
    ensures gt == Interrupt && dpl == 0 && ist == 0
  {
    var e := new IDTEntry.Missing(shape);
    e.SetHandler(shape, handler, cs);
    address := e.Value().HandlerAddress();
    selector := e.selector;
    present := e.options.GetPresent();
    gt := e.options.GetGateType();
    dpl := e.options.GetDpl();
    ist := e.options.GetIstOffset();
  }

  /** The 16 bytes of a gate in memory order, little-endian. */
  function GateBytes(g: Gate): (b: seq<bv8>)
    ensures |b| == GATE_SIZE
    ensures DecodeGate(b) == g
  {
    [ (g.offset1 & 0xFF) as bv8, (g.offset1 >> 8) as bv8,
      (g.selector & 0xFF) as bv8, (g.selector >> 8) as bv8,
      g.ist, g.typeAttr,
      (g.offset2 & 0xFF) as bv8, (g.offset2 >> 8) as bv8,
      (g.offset3 & 0xFF) as bv8, ((g.offset3 >> 8) & 0xFF) as bv8,
      ((g.offset3 >> 16) & 0xFF) as bv8, (g.offset3 >> 24) as bv8,
      (g.zero & 0xFF) as bv8, ((g.zero >> 8) & 0xFF) as bv8,
      ((g.zero >> 16) & 0xFF) as bv8, (g.zero >> 24) as bv8 ]
  }

  function Le16(lo: bv8, hi: bv8): bv16 {
    (lo as bv16) | ((hi as bv16) << 8)
  }

  function Le32(b0: bv8, b1: bv8, b2: bv8, b3: bv8): bv32 {
    (b0 as bv32) | ((b1 as bv32) << 8) | ((b2 as bv32) << 16) | ((b3 as bv32) << 24)
  }

  /** Reads a gate back from its 16 bytes. */
  function DecodeGate(b: seq<bv8>): Gate
    requires |b| == GATE_SIZE
  {
    Gate(Le16(b[0], b[1]), Le16(b[2], b[3]), b[4], b[5], Le16(b[6], b[7]),
         Le32(b[8], b[9], b[10], b[11]), Le32(b[12], b[13], b[14], b[15]))
  }

  const GATE_SIZE: nat := 2 + 2 + 1 + 1 + 2 + 4 + 4

  /** The limit the kernel loads into the IDT register. */
  const IDT_LIMIT: nat := 256 * 16 - 1

  /** The limit covers exactly the table's gates: the last byte of its last
      16-byte descriptor is at offset IDT_LIMIT. */
  lemma IdtLimitCoversTable(idt: InterruptDescriptorTable)
    requires idt.Valid()
    ensures forall v :: 0 <= v < |idt.slots| ==> IDT_LIMIT + 1 == |idt.slots| * |GateBytes(idt.slots[v].Value())|
  {
  }

  /** The flags of a page-fault error code. */
  datatype PageFaultInfo = PageFaultInfo(
    present: bool, write: bool, user: bool, reservedWrite: bool,
    instrFetch: bool, protection: bool, shadowStack: bool, softwareGuardExt: bool)

  /** The bits of the error code the decoder looks at: 0..6 and 15. */
  const DEFINED_ERR_BITS: bv64 := 0x807F

  function FlagBit(flag: bool, k: bv64): bv64
    requires k < 64
  {
    if flag then 1 << k else 0
  }

  /** Re-encodes the flags at their bit positions: the decoder's partner. */
  function ToErrCode(info: PageFaultInfo): (code: bv64)
    ensures code & !DEFINED_ERR_BITS == 0
  {
    FlagBit(info.present, 0) | FlagBit(info.write, 1) | FlagBit(info.user, 2)
    | FlagBit(info.reservedWrite, 3) | FlagBit(info.instrFetch, 4)
    | FlagBit(info.protection, 5) | FlagBit(info.shadowStack, 6)
    | FlagBit(info.softwareGuardExt, 15)
  }

  /** Each flag is one bit of the code; re-encoding keeps exactly the
      defined bits, so no other bit affects the result. */
  function FromErrCode(code: bv64): (info: PageFaultInfo)
    ensures ToErrCode(info) == code & DEFINED_ERR_BITS
  {
    PageFaultInfo(
      present := code & (1 << 0) > 0,
      write := code & (1 << 1) > 0,
      user := code & (1 << 2) > 0,
      reservedWrite := code & (1 << 3) > 0,
      instrFetch := code & (1 << 4) > 0,
      protection := code & (1 << 5) > 0,
      shadowStack := code & (1 << 6) > 0,
      softwareGuardExt := code & (1 << 15) > 0)
  }

  lemma FromErrCodeOfToErrCode(info: PageFaultInfo)
    ensures FromErrCode(ToErrCode(info)) == info
  {
  }

  /** Codes that agree on bits 0..6 and 15 decode alike. */
  lemma FromErrCodeIgnoresUndefinedBits(c1: bv64, c2: bv64)
    requires c1 & DEFINED_ERR_BITS == c2 & DEFINED_ERR_BITS
    ensures FromErrCode(c1) == FromErrCode(c2)
  {
    FromErrCodeOfToErrCode(FromErrCode(c1));
    FromErrCodeOfToErrCode(FromErrCode(c2));
  }

  const NO_FAULT_FLAGS := PageFaultInfo(false, false, false, false, false, false, false, false)

  lemma FromErrCodeExamples()
    ensures FromErrCode(1) == NO_FAULT_FLAGS.(present := true)
    ensures FromErrCode((1 << 4) | (1 << 1)) == NO_FAULT_FLAGS.(write := true, instrFetch := true)
    ensures FromErrCode(1 << 15) == NO_FAULT_FLAGS.(softwareGuardExt := true)
  {
  }
}
