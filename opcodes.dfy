/**
 * cpu/instructions.go (initInstructions) and cpu/instructionscb.go
 * (initInstructionsCB): the two tables of 256 closures the core dispatches on.
 * In Go each entry is a closure that runs a template on fixed operands and
 * returns the instruction's length, its cycle count and its name. Here an
 * entry names the template and the operands it is bound to (`Instr`,
 * `CbInstr`) with the length and cycles it returns; `Instructions.Exec` gives
 * each template its meaning.
 *
 * The tables are written out entry by entry as in Go. `Encode` and `Expected`
 * say independently where each instruction sits and what it costs, and the
 * lemmas at the end prove that the tables agree with them everywhere.
 */
module Opcodes {
  import opened Bits
  import opened Errors

  /** An 8-bit operand: a register, or the byte HL points at. In operand-field order. */
  datatype Operand = B | C | D | E | H | L | AtHl | A

  /** A register pair. SP appears in the arithmetic forms, AF in PUSH and POP. */
  datatype Pair = BC | DE | HL | SP | AF

  /** The condition a jump, call or return tests: none, or Z or C clear or set. */
  datatype Cond = Always | IfNz | IfZ | IfNc | IfC

  /** The eight accumulator operations, in operation-field order (AddAn … CpN). */
  datatype AluOp = AddOp | AdcOp | SubOp | SbcOp | AndOp | XorOp | OrOp | CpOp

  /** The eight CB shifts and rotations, in operation-field order (RlcR … SrlR). */
  datatype Shift = RlcOp | RrcOp | RlOp | RrOp | SlaOp | SraOp | SwapOp | SrlOp

  /** What a CB-table closure runs. */
  datatype CbInstr =
    | Shifted(op: Shift, x: Operand)
    | TestBit(n: nat, x: Operand)
    | ResetBit(n: nat, x: Operand)
    | SetBit(n: nat, x: Operand)

  /** What a base-table closure runs. */
  datatype Instr =
    | Nop | Stop | Halt | Di | Ei
      /** 0xCB: read the next byte and run that entry of the CB table. */
    | PrefixCb
      /** LD r, r' and the (HL) forms. */
    | Load(dst: Operand, src: Operand)
      /** LD r, d8 and LD (HL), d8. */
    | LoadImm(dst: Operand)
      /** LD rr, d16. */
    | LoadPairImm(rr: Pair)
      /** LD (a16), SP. */
    | StoreSp
      /** LD HL, SP + r8. */
    | LoadHlSpOffset
      /** LD SP, HL. */
    | LoadSpHl
    | Pop(rr: Pair)
    | Push(rr: Pair)
    | IncPair(rr: Pair)
    | DecPair(rr: Pair)
      /** ADD HL, rr. */
    | AddHl(rr: Pair)
      /** ADD SP, r8. */
    | AddSpOffset
      /** LD (BC), A and LD (DE), A. */
    | StoreAtPair(rr: Pair)
      /** LD A, (BC) and LD A, (DE). */
    | LoadAtPair(rr: Pair)
      /** LD (HL+), A when `up`, else LD (HL-), A. */
    | StoreHlStep(up: bool)
      /** LD A, (HL+) when `up`, else LD A, (HL-). */
    | LoadHlStep(up: bool)
      /** LDH (a8), A and LDH A, (a8). */
    | StoreHigh | LoadHigh
      /** LD (C), A and LD A, (C). */
    | StoreHighC | LoadHighC
      /** LD (a16), A and LD A, (a16). */
    | StoreAbs | LoadAbs
      /** The accumulator operation on a register or (HL), and on d8. */
    | Alu(op: AluOp, x: Operand)
    | AluImm(op: AluOp)
    | Inc(x: Operand)
    | Dec(x: Operand)
    | Daa | Cpl | Scf | Ccf
      /** RLCA, RRCA, RLA and RRA: the CB rotation templates on A, with Z cleared. */
    | RotateA(rot: Shift)
    | Jr(cc: Cond)
    | Jp(cc: Cond)
      /** JP (HL). */
    | JpHl
    | Call(cc: Cond)
    | Ret(cc: Cond)
    | Reti
    | Rst(target: u16)

  /** A base-table entry: its instruction, length, and cycles when taken and when not (equal unless conditional). */
  datatype Entry = Entry(ins: Instr, length: nat, cycles: nat, skipped: nat)

  /** A CB-table entry. */
  datatype CbEntry = CbEntry(ins: CbInstr, length: nat, cycles: nat)

  function Fixed(ins: Instr, length: nat, cycles: nat): Entry
  {
    Entry(ins, length, cycles, cycles)
  }

  function Branch(ins: Instr, length: nat, taken: nat, skipped: nat): Entry
  {
    Entry(ins, length, taken, skipped)
  }

  // ---- where each instruction sits ----

  function OperandCode(x: Operand): (k: nat)
    ensures k < 8
  {
    match x
    case B => 0 case C => 1 case D => 2 case E => 3 case H => 4 case L => 5 case AtHl => 6 case A => 7
  }

  /** The pair field: BC, DE, HL, then SP or AF, which share code 3. */
  function PairCode(rr: Pair): (k: nat)
    ensures k < 4
  {
    match rr
    case BC => 0 case DE => 1 case HL => 2 case SP => 3 case AF => 3
  }

  function CondCode(cc: Cond): (k: nat)
    requires cc != Always
    ensures k < 4
  {
    match cc
    case IfNz => 0 case IfZ => 1 case IfNc => 2 case IfC => 3
  }

  function AluCode(op: AluOp): (k: nat)
    ensures k < 8
  {
    match op
    case AddOp => 0 case AdcOp => 1 case SubOp => 2 case SbcOp => 3
    case AndOp => 4 case XorOp => 5 case OrOp => 6 case CpOp => 7
  }

  function ShiftCode(op: Shift): (k: nat)
    ensures k < 8
  {
    match op
    case RlcOp => 0 case RrcOp => 1 case RlOp => 2 case RrOp => 3
    case SlaOp => 4 case SraOp => 5 case SwapOp => 6 case SrlOp => 7
  }

  predicate ArithmeticPair(rr: Pair) { rr != AF }

  predicate StackPair(rr: Pair) { rr != SP }

  /** The instructions the base table can hold: operand combinations the encoding has room for. */
  predicate WellFormed(i: Instr)
  {
    match i
    case Load(dst, src) => !(dst == AtHl && src == AtHl)
    case LoadPairImm(rr) => ArithmeticPair(rr)
    case Pop(rr) => StackPair(rr)
    case Push(rr) => StackPair(rr)
    case IncPair(rr) => ArithmeticPair(rr)
    case DecPair(rr) => ArithmeticPair(rr)
    case AddHl(rr) => ArithmeticPair(rr)
    case StoreAtPair(rr) => rr == BC || rr == DE
    case LoadAtPair(rr) => rr == BC || rr == DE
    case RotateA(rot) => ShiftCode(rot) < 4
    case Rst(t) => t % 8 == 0 && t <= 0x38
    case _ => true
  }

  predicate WellFormedCb(i: CbInstr)
  {
    match i
    case Shifted(_, _) => true
    case TestBit(n, _) => n < 8
    case ResetBit(n, _) => n < 8
    case SetBit(n, _) => n < 8
  }

  /** The opcode of a base-table instruction, by the fields of the Game Boy encoding. */
  function Encode(i: Instr): (op: u8)
    requires WellFormed(i)
  {
    match i
    case Nop => 0x00
    case Stop => 0x10
    case Halt => 0x76
    case Di => 0xF3
    case Ei => 0xFB
    case PrefixCb => 0xCB
    case Load(dst, src) => 0x40 + 8 * OperandCode(dst) + OperandCode(src)
    case LoadImm(dst) => 0x06 + 8 * OperandCode(dst)
    case LoadPairImm(rr) => 0x01 + 0x10 * PairCode(rr)
    case StoreSp => 0x08
    case LoadHlSpOffset => 0xF8
    case LoadSpHl => 0xF9
    case Pop(rr) => 0xC1 + 0x10 * PairCode(rr)
    case Push(rr) => 0xC5 + 0x10 * PairCode(rr)
    case IncPair(rr) => 0x03 + 0x10 * PairCode(rr)
    case DecPair(rr) => 0x0B + 0x10 * PairCode(rr)
    case AddHl(rr) => 0x09 + 0x10 * PairCode(rr)
    case AddSpOffset => 0xE8
    case StoreAtPair(rr) => 0x02 + 0x10 * PairCode(rr)
    case LoadAtPair(rr) => 0x0A + 0x10 * PairCode(rr)
    case StoreHlStep(up) => if up then 0x22 else 0x32
    case LoadHlStep(up) => if up then 0x2A else 0x3A
    case StoreHigh => 0xE0
    case LoadHigh => 0xF0
    case StoreHighC => 0xE2
    case LoadHighC => 0xF2
    case StoreAbs => 0xEA
    case LoadAbs => 0xFA
    case Alu(op, x) => 0x80 + 8 * AluCode(op) + OperandCode(x)
    case AluImm(op) => 0xC6 + 8 * AluCode(op)
    case Inc(x) => 0x04 + 8 * OperandCode(x)
    case Dec(x) => 0x05 + 8 * OperandCode(x)
    case Daa => 0x27
    case Cpl => 0x2F
    case Scf => 0x37
    case Ccf => 0x3F
    case RotateA(rot) => 0x07 + 8 * ShiftCode(rot)
    case Jr(cc) => if cc == Always then 0x18 else 0x20 + 8 * CondCode(cc)
    case Jp(cc) => if cc == Always then 0xC3 else 0xC2 + 8 * CondCode(cc)
    case JpHl => 0xE9
    case Call(cc) => if cc == Always then 0xCD else 0xC4 + 8 * CondCode(cc)
    case Ret(cc) => if cc == Always then 0xC9 else 0xC0 + 8 * CondCode(cc)
    case Reti => 0xD9
    case Rst(t) => 0xC7 + t
  }

  /** The opcode of a CB-table instruction: the operation in bits 3-7, the operand in bits 0-2. */
  function EncodeCb(i: CbInstr): (op: u8)
    requires WellFormedCb(i)
  {
    match i
    case Shifted(op, x) => 8 * ShiftCode(op) + OperandCode(x)
    case TestBit(n, x) => 0x40 + 8 * n + OperandCode(x)
    case ResetBit(n, x) => 0x80 + 8 * n + OperandCode(x)
    case SetBit(n, x) => 0xC0 + 8 * n + OperandCode(x)
  }

  // ---- what each instruction costs ----

  predicate TouchesHl(i: Instr)
  {
    match i
    case Load(dst, src) => dst == AtHl || src == AtHl
    case LoadImm(dst) => dst == AtHl
    case Alu(_, x) => x == AtHl
    case Inc(x) => x == AtHl
    case Dec(x) => x == AtHl
    case _ => false
  }

  /** The length each closure returns on success: opcode plus immediate bytes (LD (C), A says 2). */
  function Length(i: Instr): nat
  {
    match i
    case LoadImm(_) => 2
    case AluImm(_) => 2
    case Jr(_) => 2
    case Stop => 2
    case StoreHigh => 2
    case LoadHigh => 2
    case StoreHighC => 2
    case LoadHighC => 2
    case AddSpOffset => 2
    case LoadHlSpOffset => 2
    case LoadPairImm(_) => 3
    case StoreSp => 3
    case StoreAbs => 3
    case LoadAbs => 3
    case Jp(cc) => 3
    case Call(cc) => 3
    case _ => 1
  }

  /** The cycles a closure returns when its condition holds (always, for the unconditional ones). */
  function Cycles(i: Instr): nat
  {
    match i
    case Load(_, _) => if TouchesHl(i) then 8 else 4
    case LoadImm(_) => if TouchesHl(i) then 12 else 8
    case Alu(_, _) => if TouchesHl(i) then 8 else 4
    case Inc(_) => if TouchesHl(i) then 12 else 4
    case Dec(_) => if TouchesHl(i) then 12 else 4
    case AluImm(_) => 8
    case LoadPairImm(_) => 12
    case StoreSp => 20
    case LoadHlSpOffset => 12
    case LoadSpHl => 8
    case Pop(_) => 12
    case Push(_) => 16
    case IncPair(_) => 8
    case DecPair(_) => 8
    case AddHl(_) => 8
    case AddSpOffset => 16
    case StoreAtPair(_) => 8
    case LoadAtPair(_) => 8
    case StoreHlStep(_) => 8
    case LoadHlStep(_) => 8
    case StoreHigh => 12
    case LoadHigh => 12
    case StoreHighC => 8
    case LoadHighC => 8
    case StoreAbs => 16
    case LoadAbs => 16
    case Jr(_) => 12
    case Jp(_) => 16
    case Call(_) => 24
    case Ret(cc) => if cc == Always then 16 else 20
    case Reti => 16
    case Rst(_) => 16
    case _ => 4
  }

  /** The cycles a conditional closure returns when its condition fails. */
  function Skipped(i: Instr): nat
  {
    match i
    case Jr(cc) => if cc == Always then 12 else 8
    case Jp(cc) => if cc == Always then 16 else 12
    case Call(cc) => if cc == Always then 24 else 12
    case Ret(cc) => if cc == Always then 16 else 8
    case _ => Cycles(i)
  }

  /** The entry an instruction should have. */
  function Expected(i: Instr): Entry
  {
    Entry(i, Length(i), Cycles(i), Skipped(i))
  }

  /** Every CB instruction is two bytes; 8 cycles on a register, 16 on (HL) (BIT included). */
  function ExpectedCb(i: CbInstr): CbEntry
  {
    CbEntry(i, 2, if i.x == AtHl then 16 else 8)
  }

  /** The eleven opcodes the base table leaves empty. */
  predicate Unassigned(op: u8)
  {
    op == 0xD3 || op == 0xDB || op == 0xDD || op == 0xE3 || op == 0xE4 || op == 0xEB ||
    op == 0xEC || op == 0xED || op == 0xF4 || op == 0xFC || op == 0xFD
  }

  // ---- the tables ----

  /** c.instructions: the closure for each opcode, if there is one. */
  function Table(op: u8): Option<Entry>
  {
    if op < 0x40 then Table0(op) else if op < 0x80 then Table1(op) else if op < 0xC0 then Table2(op) else Table3(op)
  }

  /** c.instructionsCB, which has an entry for every byte. */
  function TableCb(op: u8): CbEntry
  {
    if op < 0x40 then TableCb0(op) else if op < 0x80 then TableCb1(op) else if op < 0xC0 then TableCb2(op) else TableCb3(op)
  }

  /** Entries 0x00 to 0x3F of the base table. */
  function Table0(op: u8): Option<Entry>
    requires 0x00 <= op <= 0x3F
  {
    match op
    case 0x00 => Some(Fixed(Nop, 1, 4))
    case 0x01 => Some(Fixed(LoadPairImm(BC), 3, 12))
    case 0x02 => Some(Fixed(StoreAtPair(BC), 1, 8))
    case 0x03 => Some(Fixed(IncPair(BC), 1, 8))
    case 0x04 => Some(Fixed(Inc(B), 1, 4))
    case 0x05 => Some(Fixed(Dec(B), 1, 4))
    case 0x06 => Some(Fixed(LoadImm(B), 2, 8))
    case 0x07 => Some(Fixed(RotateA(RlcOp), 1, 4))
    case 0x08 => Some(Fixed(StoreSp, 3, 20))
    case 0x09 => Some(Fixed(AddHl(BC), 1, 8))
    case 0x0A => Some(Fixed(LoadAtPair(BC), 1, 8))
    case 0x0B => Some(Fixed(DecPair(BC), 1, 8))
    case 0x0C => Some(Fixed(Inc(C), 1, 4))
    case 0x0D => Some(Fixed(Dec(C), 1, 4))
    case 0x0E => Some(Fixed(LoadImm(C), 2, 8))
    case 0x0F => Some(Fixed(RotateA(RrcOp), 1, 4))
    case 0x10 => Some(Fixed(Stop, 2, 4))
    case 0x11 => Some(Fixed(LoadPairImm(DE), 3, 12))
    case 0x12 => Some(Fixed(StoreAtPair(DE), 1, 8))
    case 0x13 => Some(Fixed(IncPair(DE), 1, 8))
    case 0x14 => Some(Fixed(Inc(D), 1, 4))
    case 0x15 => Some(Fixed(Dec(D), 1, 4))
    case 0x16 => Some(Fixed(LoadImm(D), 2, 8))
    case 0x17 => Some(Fixed(RotateA(RlOp), 1, 4))
    case 0x18 => Some(Fixed(Jr(Always), 2, 12))
    case 0x19 => Some(Fixed(AddHl(DE), 1, 8))
    case 0x1A => Some(Fixed(LoadAtPair(DE), 1, 8))
    case 0x1B => Some(Fixed(DecPair(DE), 1, 8))
    case 0x1C => Some(Fixed(Inc(E), 1, 4))
    case 0x1D => Some(Fixed(Dec(E), 1, 4))
    case 0x1E => Some(Fixed(LoadImm(E), 2, 8))
    case 0x1F => Some(Fixed(RotateA(RrOp), 1, 4))
    case 0x20 => Some(Branch(Jr(IfNz), 2, 12, 8))
    case 0x21 => Some(Fixed(LoadPairImm(HL), 3, 12))
    case 0x22 => Some(Fixed(StoreHlStep(true), 1, 8))
    case 0x23 => Some(Fixed(IncPair(HL), 1, 8))
    case 0x24 => Some(Fixed(Inc(H), 1, 4))
    case 0x25 => Some(Fixed(Dec(H), 1, 4))
    case 0x26 => Some(Fixed(LoadImm(H), 2, 8))
    case 0x27 => Some(Fixed(Daa, 1, 4))
    case 0x28 => Some(Branch(Jr(IfZ), 2, 12, 8))
    case 0x29 => Some(Fixed(AddHl(HL), 1, 8))
    case 0x2A => Some(Fixed(LoadHlStep(true), 1, 8))
    case 0x2B => Some(Fixed(DecPair(HL), 1, 8))
    case 0x2C => Some(Fixed(Inc(L), 1, 4))
    case 0x2D => Some(Fixed(Dec(L), 1, 4))
    case 0x2E => Some(Fixed(LoadImm(L), 2, 8))
    case 0x2F => Some(Fixed(Cpl, 1, 4))
    case 0x30 => Some(Branch(Jr(IfNc), 2, 12, 8))
    case 0x31 => Some(Fixed(LoadPairImm(SP), 3, 12))
    case 0x32 => Some(Fixed(StoreHlStep(false), 1, 8))
    case 0x33 => Some(Fixed(IncPair(SP), 1, 8))
    case 0x34 => Some(Fixed(Inc(AtHl), 1, 12))
    case 0x35 => Some(Fixed(Dec(AtHl), 1, 12))
    case 0x36 => Some(Fixed(LoadImm(AtHl), 2, 12))
    case 0x37 => Some(Fixed(Scf, 1, 4))
    case 0x38 => Some(Branch(Jr(IfC), 2, 12, 8))
    case 0x39 => Some(Fixed(AddHl(SP), 1, 8))
    case 0x3A => Some(Fixed(LoadHlStep(false), 1, 8))
    case 0x3B => Some(Fixed(DecPair(SP), 1, 8))
    case 0x3C => Some(Fixed(Inc(A), 1, 4))
    case 0x3D => Some(Fixed(Dec(A), 1, 4))
    case 0x3E => Some(Fixed(LoadImm(A), 2, 8))
    case 0x3F => Some(Fixed(Ccf, 1, 4))
    case _ => None
  }

  /** Entries 0x40 to 0x7F of the base table. */
  function Table1(op: u8): Option<Entry>
    requires 0x40 <= op <= 0x7F
  {
    match op
    case 0x40 => Some(Fixed(Load(B, B), 1, 4))
    case 0x41 => Some(Fixed(Load(B, C), 1, 4))
    case 0x42 => Some(Fixed(Load(B, D), 1, 4))
    case 0x43 => Some(Fixed(Load(B, E), 1, 4))
    case 0x44 => Some(Fixed(Load(B, H), 1, 4))
    case 0x45 => Some(Fixed(Load(B, L), 1, 4))
    case 0x46 => Some(Fixed(Load(B, AtHl), 1, 8))
    case 0x47 => Some(Fixed(Load(B, A), 1, 4))
    case 0x48 => Some(Fixed(Load(C, B), 1, 4))
    case 0x49 => Some(Fixed(Load(C, C), 1, 4))
    case 0x4A => Some(Fixed(Load(C, D), 1, 4))
    case 0x4B => Some(Fixed(Load(C, E), 1, 4))
    case 0x4C => Some(Fixed(Load(C, H), 1, 4))
    case 0x4D => Some(Fixed(Load(C, L), 1, 4))
    case 0x4E => Some(Fixed(Load(C, AtHl), 1, 8))
    case 0x4F => Some(Fixed(Load(C, A), 1, 4))
    case 0x50 => Some(Fixed(Load(D, B), 1, 4))
    case 0x51 => Some(Fixed(Load(D, C), 1, 4))
    case 0x52 => Some(Fixed(Load(D, D), 1, 4))
    case 0x53 => Some(Fixed(Load(D, E), 1, 4))
    case 0x54 => Some(Fixed(Load(D, H), 1, 4))
    case 0x55 => Some(Fixed(Load(D, L), 1, 4))
    case 0x56 => Some(Fixed(Load(D, AtHl), 1, 8))
    case 0x57 => Some(Fixed(Load(D, A), 1, 4))
    case 0x58 => Some(Fixed(Load(E, B), 1, 4))
    case 0x59 => Some(Fixed(Load(E, C), 1, 4))
    case 0x5A => Some(Fixed(Load(E, D), 1, 4))
    case 0x5B => Some(Fixed(Load(E, E), 1, 4))
    case 0x5C => Some(Fixed(Load(E, H), 1, 4))
    case 0x5D => Some(Fixed(Load(E, L), 1, 4))
    case 0x5E => Some(Fixed(Load(E, AtHl), 1, 8))
    case 0x5F => Some(Fixed(Load(E, A), 1, 4))
    case 0x60 => Some(Fixed(Load(H, B), 1, 4))
    case 0x61 => Some(Fixed(Load(H, C), 1, 4))
    case 0x62 => Some(Fixed(Load(H, D), 1, 4))
    case 0x63 => Some(Fixed(Load(H, E), 1, 4))
    case 0x64 => Some(Fixed(Load(H, H), 1, 4))
    case 0x65 => Some(Fixed(Load(H, L), 1, 4))
    case 0x66 => Some(Fixed(Load(H, AtHl), 1, 8))
    case 0x67 => Some(Fixed(Load(H, A), 1, 4))
    case 0x68 => Some(Fixed(Load(L, B), 1, 4))
    case 0x69 => Some(Fixed(Load(L, C), 1, 4))
    case 0x6A => Some(Fixed(Load(L, D), 1, 4))
    case 0x6B => Some(Fixed(Load(L, E), 1, 4))
    case 0x6C => Some(Fixed(Load(L, H), 1, 4))
    case 0x6D => Some(Fixed(Load(L, L), 1, 4))
    case 0x6E => Some(Fixed(Load(L, AtHl), 1, 8))
    case 0x6F => Some(Fixed(Load(L, A), 1, 4))
    case 0x70 => Some(Fixed(Load(AtHl, B), 1, 8))
    case 0x71 => Some(Fixed(Load(AtHl, C), 1, 8))
    case 0x72 => Some(Fixed(Load(AtHl, D), 1, 8))
    case 0x73 => Some(Fixed(Load(AtHl, E), 1, 8))
    case 0x74 => Some(Fixed(Load(AtHl, H), 1, 8))
    case 0x75 => Some(Fixed(Load(AtHl, L), 1, 8))
    case 0x76 => Some(Fixed(Halt, 1, 4))
    case 0x77 => Some(Fixed(Load(AtHl, A), 1, 8))
    case 0x78 => Some(Fixed(Load(A, B), 1, 4))
    case 0x79 => Some(Fixed(Load(A, C), 1, 4))
    case 0x7A => Some(Fixed(Load(A, D), 1, 4))
    case 0x7B => Some(Fixed(Load(A, E), 1, 4))
    case 0x7C => Some(Fixed(Load(A, H), 1, 4))
    case 0x7D => Some(Fixed(Load(A, L), 1, 4))
    case 0x7E => Some(Fixed(Load(A, AtHl), 1, 8))
    case 0x7F => Some(Fixed(Load(A, A), 1, 4))
    case _ => None
  }

  /** Entries 0x80 to 0xBF of the base table. */
  function Table2(op: u8): Option<Entry>
    requires 0x80 <= op <= 0xBF
  {
    match op
    case 0x80 => Some(Fixed(Alu(AddOp, B), 1, 4))
    case 0x81 => Some(Fixed(Alu(AddOp, C), 1, 4))
    case 0x82 => Some(Fixed(Alu(AddOp, D), 1, 4))
    case 0x83 => Some(Fixed(Alu(AddOp, E), 1, 4))
    case 0x84 => Some(Fixed(Alu(AddOp, H), 1, 4))
    case 0x85 => Some(Fixed(Alu(AddOp, L), 1, 4))
    case 0x86 => Some(Fixed(Alu(AddOp, AtHl), 1, 8))
    case 0x87 => Some(Fixed(Alu(AddOp, A), 1, 4))
    case 0x88 => Some(Fixed(Alu(AdcOp, B), 1, 4))
    case 0x89 => Some(Fixed(Alu(AdcOp, C), 1, 4))
    case 0x8A => Some(Fixed(Alu(AdcOp, D), 1, 4))
    case 0x8B => Some(Fixed(Alu(AdcOp, E), 1, 4))
    case 0x8C => Some(Fixed(Alu(AdcOp, H), 1, 4))
    case 0x8D => Some(Fixed(Alu(AdcOp, L), 1, 4))
    case 0x8E => Some(Fixed(Alu(AdcOp, AtHl), 1, 8))
    case 0x8F => Some(Fixed(Alu(AdcOp, A), 1, 4))
    case 0x90 => Some(Fixed(Alu(SubOp, B), 1, 4))
    case 0x91 => Some(Fixed(Alu(SubOp, C), 1, 4))
    case 0x92 => Some(Fixed(Alu(SubOp, D), 1, 4))
    case 0x93 => Some(Fixed(Alu(SubOp, E), 1, 4))
    case 0x94 => Some(Fixed(Alu(SubOp, H), 1, 4))
    case 0x95 => Some(Fixed(Alu(SubOp, L), 1, 4))
    case 0x96 => Some(Fixed(Alu(SubOp, AtHl), 1, 8))
    case 0x97 => Some(Fixed(Alu(SubOp, A), 1, 4))
    case 0x98 => Some(Fixed(Alu(SbcOp, B), 1, 4))
    case 0x99 => Some(Fixed(Alu(SbcOp, C), 1, 4))
    case 0x9A => Some(Fixed(Alu(SbcOp, D), 1, 4))
    case 0x9B => Some(Fixed(Alu(SbcOp, E), 1, 4))
    case 0x9C => Some(Fixed(Alu(SbcOp, H), 1, 4))
    case 0x9D => Some(Fixed(Alu(SbcOp, L), 1, 4))
    case 0x9E => Some(Fixed(Alu(SbcOp, AtHl), 1, 8))
    case 0x9F => Some(Fixed(Alu(SbcOp, A), 1, 4))
    case 0xA0 => Some(Fixed(Alu(AndOp, B), 1, 4))
    case 0xA1 => Some(Fixed(Alu(AndOp, C), 1, 4))
    case 0xA2 => Some(Fixed(Alu(AndOp, D), 1, 4))
    case 0xA3 => Some(Fixed(Alu(AndOp, E), 1, 4))
    case 0xA4 => Some(Fixed(Alu(AndOp, H), 1, 4))
    case 0xA5 => Some(Fixed(Alu(AndOp, L), 1, 4))
    case 0xA6 => Some(Fixed(Alu(AndOp, AtHl), 1, 8))
    case 0xA7 => Some(Fixed(Alu(AndOp, A), 1, 4))
    case 0xA8 => Some(Fixed(Alu(XorOp, B), 1, 4))
    case 0xA9 => Some(Fixed(Alu(XorOp, C), 1, 4))
    case 0xAA => Some(Fixed(Alu(XorOp, D), 1, 4))
    case 0xAB => Some(Fixed(Alu(XorOp, E), 1, 4))
    case 0xAC => Some(Fixed(Alu(XorOp, H), 1, 4))
    case 0xAD => Some(Fixed(Alu(XorOp, L), 1, 4))
    case 0xAE => Some(Fixed(Alu(XorOp, AtHl), 1, 8))
    case 0xAF => Some(Fixed(Alu(XorOp, A), 1, 4))
    case 0xB0 => Some(Fixed(Alu(OrOp, B), 1, 4))
    case 0xB1 => Some(Fixed(Alu(OrOp, C), 1, 4))
    case 0xB2 => Some(Fixed(Alu(OrOp, D), 1, 4))
    case 0xB3 => Some(Fixed(Alu(OrOp, E), 1, 4))
    case 0xB4 => Some(Fixed(Alu(OrOp, H), 1, 4))
    case 0xB5 => Some(Fixed(Alu(OrOp, L), 1, 4))
    case 0xB6 => Some(Fixed(Alu(OrOp, AtHl), 1, 8))
    case 0xB7 => Some(Fixed(Alu(OrOp, A), 1, 4))
    case 0xB8 => Some(Fixed(Alu(CpOp, B), 1, 4))
    case 0xB9 => Some(Fixed(Alu(CpOp, C), 1, 4))
    case 0xBA => Some(Fixed(Alu(CpOp, D), 1, 4))
    case 0xBB => Some(Fixed(Alu(CpOp, E), 1, 4))
    case 0xBC => Some(Fixed(Alu(CpOp, H), 1, 4))
    case 0xBD => Some(Fixed(Alu(CpOp, L), 1, 4))
    case 0xBE => Some(Fixed(Alu(CpOp, AtHl), 1, 8))
    case 0xBF => Some(Fixed(Alu(CpOp, A), 1, 4))
    case _ => None
  }

  /** Entries 0xC0 to 0xFF of the base table. */
  function Table3(op: u8): Option<Entry>
    requires 0xC0 <= op <= 0xFF
  {
    match op
    case 0xC0 => Some(Branch(Ret(IfNz), 1, 20, 8))
    case 0xC1 => Some(Fixed(Pop(BC), 1, 12))
    case 0xC2 => Some(Branch(Jp(IfNz), 3, 16, 12))
    case 0xC3 => Some(Fixed(Jp(Always), 3, 16))
    case 0xC4 => Some(Branch(Call(IfNz), 3, 24, 12))
    case 0xC5 => Some(Fixed(Push(BC), 1, 16))
    case 0xC6 => Some(Fixed(AluImm(AddOp), 2, 8))
    case 0xC7 => Some(Fixed(Rst(0x0000), 1, 16))
    case 0xC8 => Some(Branch(Ret(IfZ), 1, 20, 8))
    case 0xC9 => Some(Fixed(Ret(Always), 1, 16))
    case 0xCA => Some(Branch(Jp(IfZ), 3, 16, 12))
    case 0xCB => Some(Fixed(PrefixCb, 1, 4))
    case 0xCC => Some(Branch(Call(IfZ), 3, 24, 12))
    case 0xCD => Some(Fixed(Call(Always), 3, 24))
    case 0xCE => Some(Fixed(AluImm(AdcOp), 2, 8))
    case 0xCF => Some(Fixed(Rst(0x0008), 1, 16))
    case 0xD0 => Some(Branch(Ret(IfNc), 1, 20, 8))
    case 0xD1 => Some(Fixed(Pop(DE), 1, 12))
    case 0xD2 => Some(Branch(Jp(IfNc), 3, 16, 12))
    case 0xD4 => Some(Branch(Call(IfNc), 3, 24, 12))
    case 0xD5 => Some(Fixed(Push(DE), 1, 16))
    case 0xD6 => Some(Fixed(AluImm(SubOp), 2, 8))
    case 0xD7 => Some(Fixed(Rst(0x0010), 1, 16))
    case 0xD8 => Some(Branch(Ret(IfC), 1, 20, 8))
    case 0xD9 => Some(Fixed(Reti, 1, 16))
    case 0xDA => Some(Branch(Jp(IfC), 3, 16, 12))
    case 0xDC => Some(Branch(Call(IfC), 3, 24, 12))
    case 0xDE => Some(Fixed(AluImm(SbcOp), 2, 8))
    case 0xDF => Some(Fixed(Rst(0x0018), 1, 16))
    case 0xE0 => Some(Fixed(StoreHigh, 2, 12))
    case 0xE1 => Some(Fixed(Pop(HL), 1, 12))
    case 0xE2 => Some(Fixed(StoreHighC, 2, 8))
    case 0xE5 => Some(Fixed(Push(HL), 1, 16))
    case 0xE6 => Some(Fixed(AluImm(AndOp), 2, 8))
    case 0xE7 => Some(Fixed(Rst(0x0020), 1, 16))
    case 0xE8 => Some(Fixed(AddSpOffset, 2, 16))
    case 0xE9 => Some(Fixed(JpHl, 1, 4))
    case 0xEA => Some(Fixed(StoreAbs, 3, 16))
    case 0xEE => Some(Fixed(AluImm(XorOp), 2, 8))
    case 0xEF => Some(Fixed(Rst(0x0028), 1, 16))
    case 0xF0 => Some(Fixed(LoadHigh, 2, 12))
    case 0xF1 => Some(Fixed(Pop(AF), 1, 12))
    case 0xF2 => Some(Fixed(LoadHighC, 2, 8))
    case 0xF3 => Some(Fixed(Di, 1, 4))
    case 0xF5 => Some(Fixed(Push(AF), 1, 16))
    case 0xF6 => Some(Fixed(AluImm(OrOp), 2, 8))
    case 0xF7 => Some(Fixed(Rst(0x0030), 1, 16))
    case 0xF8 => Some(Fixed(LoadHlSpOffset, 2, 12))
    case 0xF9 => Some(Fixed(LoadSpHl, 1, 8))
    case 0xFA => Some(Fixed(LoadAbs, 3, 16))
    case 0xFB => Some(Fixed(Ei, 1, 4))
    case 0xFE => Some(Fixed(AluImm(CpOp), 2, 8))
    case 0xFF => Some(Fixed(Rst(0x0038), 1, 16))
    case _ => None
  }

  /** Entries 0x00 to 0x3F of the CB table. */
  function TableCb0(op: u8): CbEntry
    requires 0x00 <= op <= 0x3F
  {
    match op
    case 0x00 => CbEntry(Shifted(RlcOp, B), 2, 8)
    case 0x01 => CbEntry(Shifted(RlcOp, C), 2, 8)
    case 0x02 => CbEntry(Shifted(RlcOp, D), 2, 8)
    case 0x03 => CbEntry(Shifted(RlcOp, E), 2, 8)
    case 0x04 => CbEntry(Shifted(RlcOp, H), 2, 8)
    case 0x05 => CbEntry(Shifted(RlcOp, L), 2, 8)
    case 0x06 => CbEntry(Shifted(RlcOp, AtHl), 2, 16)
    case 0x07 => CbEntry(Shifted(RlcOp, A), 2, 8)
    case 0x08 => CbEntry(Shifted(RrcOp, B), 2, 8)
    case 0x09 => CbEntry(Shifted(RrcOp, C), 2, 8)
    case 0x0A => CbEntry(Shifted(RrcOp, D), 2, 8)
    case 0x0B => CbEntry(Shifted(RrcOp, E), 2, 8)
    case 0x0C => CbEntry(Shifted(RrcOp, H), 2, 8)
    case 0x0D => CbEntry(Shifted(RrcOp, L), 2, 8)
    case 0x0E => CbEntry(Shifted(RrcOp, AtHl), 2, 16)
    case 0x0F => CbEntry(Shifted(RrcOp, A), 2, 8)
    case 0x10 => CbEntry(Shifted(RlOp, B), 2, 8)
    case 0x11 => CbEntry(Shifted(RlOp, C), 2, 8)
    case 0x12 => CbEntry(Shifted(RlOp, D), 2, 8)
    case 0x13 => CbEntry(Shifted(RlOp, E), 2, 8)
    case 0x14 => CbEntry(Shifted(RlOp, H), 2, 8)
    case 0x15 => CbEntry(Shifted(RlOp, L), 2, 8)
    case 0x16 => CbEntry(Shifted(RlOp, AtHl), 2, 16)
    case 0x17 => CbEntry(Shifted(RlOp, A), 2, 8)
    case 0x18 => CbEntry(Shifted(RrOp, B), 2, 8)
    case 0x19 => CbEntry(Shifted(RrOp, C), 2, 8)
    case 0x1A => CbEntry(Shifted(RrOp, D), 2, 8)
    case 0x1B => CbEntry(Shifted(RrOp, E), 2, 8)
    case 0x1C => CbEntry(Shifted(RrOp, H), 2, 8)
    case 0x1D => CbEntry(Shifted(RrOp, L), 2, 8)
    case 0x1E => CbEntry(Shifted(RrOp, AtHl), 2, 16)
    case 0x1F => CbEntry(Shifted(RrOp, A), 2, 8)
    case 0x20 => CbEntry(Shifted(SlaOp, B), 2, 8)
    case 0x21 => CbEntry(Shifted(SlaOp, C), 2, 8)
    case 0x22 => CbEntry(Shifted(SlaOp, D), 2, 8)
    case 0x23 => CbEntry(Shifted(SlaOp, E), 2, 8)
    case 0x24 => CbEntry(Shifted(SlaOp, H), 2, 8)
    case 0x25 => CbEntry(Shifted(SlaOp, L), 2, 8)
    case 0x26 => CbEntry(Shifted(SlaOp, AtHl), 2, 16)
    case 0x27 => CbEntry(Shifted(SlaOp, A), 2, 8)
    case 0x28 => CbEntry(Shifted(SraOp, B), 2, 8)
    case 0x29 => CbEntry(Shifted(SraOp, C), 2, 8)
    case 0x2A => CbEntry(Shifted(SraOp, D), 2, 8)
    case 0x2B => CbEntry(Shifted(SraOp, E), 2, 8)
    case 0x2C => CbEntry(Shifted(SraOp, H), 2, 8)
    case 0x2D => CbEntry(Shifted(SraOp, L), 2, 8)
    case 0x2E => CbEntry(Shifted(SraOp, AtHl), 2, 16)
    case 0x2F => CbEntry(Shifted(SraOp, A), 2, 8)
    case 0x30 => CbEntry(Shifted(SwapOp, B), 2, 8)
    case 0x31 => CbEntry(Shifted(SwapOp, C), 2, 8)
    case 0x32 => CbEntry(Shifted(SwapOp, D), 2, 8)
    case 0x33 => CbEntry(Shifted(SwapOp, E), 2, 8)
    case 0x34 => CbEntry(Shifted(SwapOp, H), 2, 8)
    case 0x35 => CbEntry(Shifted(SwapOp, L), 2, 8)
    case 0x36 => CbEntry(Shifted(SwapOp, AtHl), 2, 16)
    case 0x37 => CbEntry(Shifted(SwapOp, A), 2, 8)
    case 0x38 => CbEntry(Shifted(SrlOp, B), 2, 8)
    case 0x39 => CbEntry(Shifted(SrlOp, C), 2, 8)
    case 0x3A => CbEntry(Shifted(SrlOp, D), 2, 8)
    case 0x3B => CbEntry(Shifted(SrlOp, E), 2, 8)
    case 0x3C => CbEntry(Shifted(SrlOp, H), 2, 8)
    case 0x3D => CbEntry(Shifted(SrlOp, L), 2, 8)
    case 0x3E => CbEntry(Shifted(SrlOp, AtHl), 2, 16)
    case _ => CbEntry(Shifted(SrlOp, A), 2, 8)
  }

  /** Entries 0x40 to 0x7F of the CB table. */
  function TableCb1(op: u8): CbEntry
    requires 0x40 <= op <= 0x7F
  {
    match op
    case 0x40 => CbEntry(TestBit(0, B), 2, 8)
    case 0x41 => CbEntry(TestBit(0, C), 2, 8)
    case 0x42 => CbEntry(TestBit(0, D), 2, 8)
    case 0x43 => CbEntry(TestBit(0, E), 2, 8)
    case 0x44 => CbEntry(TestBit(0, H), 2, 8)
    case 0x45 => CbEntry(TestBit(0, L), 2, 8)
    case 0x46 => CbEntry(TestBit(0, AtHl), 2, 16)
    case 0x47 => CbEntry(TestBit(0, A), 2, 8)
    case 0x48 => CbEntry(TestBit(1, B), 2, 8)
    case 0x49 => CbEntry(TestBit(1, C), 2, 8)
    case 0x4A => CbEntry(TestBit(1, D), 2, 8)
    case 0x4B => CbEntry(TestBit(1, E), 2, 8)
    case 0x4C => CbEntry(TestBit(1, H), 2, 8)
    case 0x4D => CbEntry(TestBit(1, L), 2, 8)
    case 0x4E => CbEntry(TestBit(1, AtHl), 2, 16)
    case 0x4F => CbEntry(TestBit(1, A), 2, 8)
    case 0x50 => CbEntry(TestBit(2, B), 2, 8)
    case 0x51 => CbEntry(TestBit(2, C), 2, 8)
    case 0x52 => CbEntry(TestBit(2, D), 2, 8)
    case 0x53 => CbEntry(TestBit(2, E), 2, 8)
    case 0x54 => CbEntry(TestBit(2, H), 2, 8)
    case 0x55 => CbEntry(TestBit(2, L), 2, 8)
    case 0x56 => CbEntry(TestBit(2, AtHl), 2, 16)
    case 0x57 => CbEntry(TestBit(2, A), 2, 8)
    case 0x58 => CbEntry(TestBit(3, B), 2, 8)
    case 0x59 => CbEntry(TestBit(3, C), 2, 8)
    case 0x5A => CbEntry(TestBit(3, D), 2, 8)
    case 0x5B => CbEntry(TestBit(3, E), 2, 8)
    case 0x5C => CbEntry(TestBit(3, H), 2, 8)
    case 0x5D => CbEntry(TestBit(3, L), 2, 8)
    case 0x5E => CbEntry(TestBit(3, AtHl), 2, 16)
    case 0x5F => CbEntry(TestBit(3, A), 2, 8)
    case 0x60 => CbEntry(TestBit(4, B), 2, 8)
    case 0x61 => CbEntry(TestBit(4, C), 2, 8)
    case 0x62 => CbEntry(TestBit(4, D), 2, 8)
    case 0x63 => CbEntry(TestBit(4, E), 2, 8)
    case 0x64 => CbEntry(TestBit(4, H), 2, 8)
    case 0x65 => CbEntry(TestBit(4, L), 2, 8)
    case 0x66 => CbEntry(TestBit(4, AtHl), 2, 16)
    case 0x67 => CbEntry(TestBit(4, A), 2, 8)
    case 0x68 => CbEntry(TestBit(5, B), 2, 8)
    case 0x69 => CbEntry(TestBit(5, C), 2, 8)
    case 0x6A => CbEntry(TestBit(5, D), 2, 8)
    case 0x6B => CbEntry(TestBit(5, E), 2, 8)
    case 0x6C => CbEntry(TestBit(5, H), 2, 8)
    case 0x6D => CbEntry(TestBit(5, L), 2, 8)
    case 0x6E => CbEntry(TestBit(5, AtHl), 2, 16)
    case 0x6F => CbEntry(TestBit(5, A), 2, 8)
    case 0x70 => CbEntry(TestBit(6, B), 2, 8)
    case 0x71 => CbEntry(TestBit(6, C), 2, 8)
    case 0x72 => CbEntry(TestBit(6, D), 2, 8)
    case 0x73 => CbEntry(TestBit(6, E), 2, 8)
    case 0x74 => CbEntry(TestBit(6, H), 2, 8)
    case 0x75 => CbEntry(TestBit(6, L), 2, 8)
    case 0x76 => CbEntry(TestBit(6, AtHl), 2, 16)
    case 0x77 => CbEntry(TestBit(6, A), 2, 8)
    case 0x78 => CbEntry(TestBit(7, B), 2, 8)
    case 0x79 => CbEntry(TestBit(7, C), 2, 8)
    case 0x7A => CbEntry(TestBit(7, D), 2, 8)
    case 0x7B => CbEntry(TestBit(7, E), 2, 8)
    case 0x7C => CbEntry(TestBit(7, H), 2, 8)
    case 0x7D => CbEntry(TestBit(7, L), 2, 8)
    case 0x7E => CbEntry(TestBit(7, AtHl), 2, 16)
    case _ => CbEntry(TestBit(7, A), 2, 8)
  }

  /** Entries 0x80 to 0xBF of the CB table. */
  function TableCb2(op: u8): CbEntry
    requires 0x80 <= op <= 0xBF
  {
    match op
    case 0x80 => CbEntry(ResetBit(0, B), 2, 8)
    case 0x81 => CbEntry(ResetBit(0, C), 2, 8)
    case 0x82 => CbEntry(ResetBit(0, D), 2, 8)
    case 0x83 => CbEntry(ResetBit(0, E), 2, 8)
    case 0x84 => CbEntry(ResetBit(0, H), 2, 8)
    case 0x85 => CbEntry(ResetBit(0, L), 2, 8)
    case 0x86 => CbEntry(ResetBit(0, AtHl), 2, 16)
    case 0x87 => CbEntry(ResetBit(0, A), 2, 8)
    case 0x88 => CbEntry(ResetBit(1, B), 2, 8)
    case 0x89 => CbEntry(ResetBit(1, C), 2, 8)
    case 0x8A => CbEntry(ResetBit(1, D), 2, 8)
    case 0x8B => CbEntry(ResetBit(1, E), 2, 8)
    case 0x8C => CbEntry(ResetBit(1, H), 2, 8)
    case 0x8D => CbEntry(ResetBit(1, L), 2, 8)
    case 0x8E => CbEntry(ResetBit(1, AtHl), 2, 16)
    case 0x8F => CbEntry(ResetBit(1, A), 2, 8)
    case 0x90 => CbEntry(ResetBit(2, B), 2, 8)
    case 0x91 => CbEntry(ResetBit(2, C), 2, 8)
    case 0x92 => CbEntry(ResetBit(2, D), 2, 8)
    case 0x93 => CbEntry(ResetBit(2, E), 2, 8)
    case 0x94 => CbEntry(ResetBit(2, H), 2, 8)
    case 0x95 => CbEntry(ResetBit(2, L), 2, 8)
    case 0x96 => CbEntry(ResetBit(2, AtHl), 2, 16)
    case 0x97 => CbEntry(ResetBit(2, A), 2, 8)
    case 0x98 => CbEntry(ResetBit(3, B), 2, 8)
    case 0x99 => CbEntry(ResetBit(3, C), 2, 8)
    case 0x9A => CbEntry(ResetBit(3, D), 2, 8)
    case 0x9B => CbEntry(ResetBit(3, E), 2, 8)
    case 0x9C => CbEntry(ResetBit(3, H), 2, 8)
    case 0x9D => CbEntry(ResetBit(3, L), 2, 8)
    case 0x9E => CbEntry(ResetBit(3, AtHl), 2, 16)
    case 0x9F => CbEntry(ResetBit(3, A), 2, 8)
    case 0xA0 => CbEntry(ResetBit(4, B), 2, 8)
    case 0xA1 => CbEntry(ResetBit(4, C), 2, 8)
    case 0xA2 => CbEntry(ResetBit(4, D), 2, 8)
    case 0xA3 => CbEntry(ResetBit(4, E), 2, 8)
    case 0xA4 => CbEntry(ResetBit(4, H), 2, 8)
    case 0xA5 => CbEntry(ResetBit(4, L), 2, 8)
    case 0xA6 => CbEntry(ResetBit(4, AtHl), 2, 16)
    case 0xA7 => CbEntry(ResetBit(4, A), 2, 8)
    case 0xA8 => CbEntry(ResetBit(5, B), 2, 8)
    case 0xA9 => CbEntry(ResetBit(5, C), 2, 8)
    case 0xAA => CbEntry(ResetBit(5, D), 2, 8)
    case 0xAB => CbEntry(ResetBit(5, E), 2, 8)
    case 0xAC => CbEntry(ResetBit(5, H), 2, 8)
    case 0xAD => CbEntry(ResetBit(5, L), 2, 8)
    case 0xAE => CbEntry(ResetBit(5, AtHl), 2, 16)
    case 0xAF => CbEntry(ResetBit(5, A), 2, 8)
    case 0xB0 => CbEntry(ResetBit(6, B), 2, 8)
    case 0xB1 => CbEntry(ResetBit(6, C), 2, 8)
    case 0xB2 => CbEntry(ResetBit(6, D), 2, 8)
    case 0xB3 => CbEntry(ResetBit(6, E), 2, 8)
    case 0xB4 => CbEntry(ResetBit(6, H), 2, 8)
    case 0xB5 => CbEntry(ResetBit(6, L), 2, 8)
    case 0xB6 => CbEntry(ResetBit(6, AtHl), 2, 16)
    case 0xB7 => CbEntry(ResetBit(6, A), 2, 8)
    case 0xB8 => CbEntry(ResetBit(7, B), 2, 8)
    case 0xB9 => CbEntry(ResetBit(7, C), 2, 8)
    case 0xBA => CbEntry(ResetBit(7, D), 2, 8)
    case 0xBB => CbEntry(ResetBit(7, E), 2, 8)
    case 0xBC => CbEntry(ResetBit(7, H), 2, 8)
    case 0xBD => CbEntry(ResetBit(7, L), 2, 8)
    case 0xBE => CbEntry(ResetBit(7, AtHl), 2, 16)
    case _ => CbEntry(ResetBit(7, A), 2, 8)
  }

  /** Entries 0xC0 to 0xFF of the CB table. */
  function TableCb3(op: u8): CbEntry
    requires 0xC0 <= op <= 0xFF
  {
    match op
    case 0xC0 => CbEntry(SetBit(0, B), 2, 8)
    case 0xC1 => CbEntry(SetBit(0, C), 2, 8)
    case 0xC2 => CbEntry(SetBit(0, D), 2, 8)
    case 0xC3 => CbEntry(SetBit(0, E), 2, 8)
    case 0xC4 => CbEntry(SetBit(0, H), 2, 8)
    case 0xC5 => CbEntry(SetBit(0, L), 2, 8)
    case 0xC6 => CbEntry(SetBit(0, AtHl), 2, 16)
    case 0xC7 => CbEntry(SetBit(0, A), 2, 8)
    case 0xC8 => CbEntry(SetBit(1, B), 2, 8)
    case 0xC9 => CbEntry(SetBit(1, C), 2, 8)
    case 0xCA => CbEntry(SetBit(1, D), 2, 8)
    case 0xCB => CbEntry(SetBit(1, E), 2, 8)
    case 0xCC => CbEntry(SetBit(1, H), 2, 8)
    case 0xCD => CbEntry(SetBit(1, L), 2, 8)
    case 0xCE => CbEntry(SetBit(1, AtHl), 2, 16)
    case 0xCF => CbEntry(SetBit(1, A), 2, 8)
    case 0xD0 => CbEntry(SetBit(2, B), 2, 8)
    case 0xD1 => CbEntry(SetBit(2, C), 2, 8)
    case 0xD2 => CbEntry(SetBit(2, D), 2, 8)
    case 0xD3 => CbEntry(SetBit(2, E), 2, 8)
    case 0xD4 => CbEntry(SetBit(2, H), 2, 8)
    case 0xD5 => CbEntry(SetBit(2, L), 2, 8)
    case 0xD6 => CbEntry(SetBit(2, AtHl), 2, 16)
    case 0xD7 => CbEntry(SetBit(2, A), 2, 8)
    case 0xD8 => CbEntry(SetBit(3, B), 2, 8)
    case 0xD9 => CbEntry(SetBit(3, C), 2, 8)
    case 0xDA => CbEntry(SetBit(3, D), 2, 8)
    case 0xDB => CbEntry(SetBit(3, E), 2, 8)
    case 0xDC => CbEntry(SetBit(3, H), 2, 8)
    case 0xDD => CbEntry(SetBit(3, L), 2, 8)
    case 0xDE => CbEntry(SetBit(3, AtHl), 2, 16)
    case 0xDF => CbEntry(SetBit(3, A), 2, 8)
    case 0xE0 => CbEntry(SetBit(4, B), 2, 8)
    case 0xE1 => CbEntry(SetBit(4, C), 2, 8)
    case 0xE2 => CbEntry(SetBit(4, D), 2, 8)
    case 0xE3 => CbEntry(SetBit(4, E), 2, 8)
    case 0xE4 => CbEntry(SetBit(4, H), 2, 8)
    case 0xE5 => CbEntry(SetBit(4, L), 2, 8)
    case 0xE6 => CbEntry(SetBit(4, AtHl), 2, 16)
    case 0xE7 => CbEntry(SetBit(4, A), 2, 8)
    case 0xE8 => CbEntry(SetBit(5, B), 2, 8)
    case 0xE9 => CbEntry(SetBit(5, C), 2, 8)
    case 0xEA => CbEntry(SetBit(5, D), 2, 8)
    case 0xEB => CbEntry(SetBit(5, E), 2, 8)
    case 0xEC => CbEntry(SetBit(5, H), 2, 8)
    case 0xED => CbEntry(SetBit(5, L), 2, 8)
    case 0xEE => CbEntry(SetBit(5, AtHl), 2, 16)
    case 0xEF => CbEntry(SetBit(5, A), 2, 8)
    case 0xF0 => CbEntry(SetBit(6, B), 2, 8)
    case 0xF1 => CbEntry(SetBit(6, C), 2, 8)
    case 0xF2 => CbEntry(SetBit(6, D), 2, 8)
    case 0xF3 => CbEntry(SetBit(6, E), 2, 8)
    case 0xF4 => CbEntry(SetBit(6, H), 2, 8)
    case 0xF5 => CbEntry(SetBit(6, L), 2, 8)
    case 0xF6 => CbEntry(SetBit(6, AtHl), 2, 16)
    case 0xF7 => CbEntry(SetBit(6, A), 2, 8)
    case 0xF8 => CbEntry(SetBit(7, B), 2, 8)
    case 0xF9 => CbEntry(SetBit(7, C), 2, 8)
    case 0xFA => CbEntry(SetBit(7, D), 2, 8)
    case 0xFB => CbEntry(SetBit(7, E), 2, 8)
    case 0xFC => CbEntry(SetBit(7, H), 2, 8)
    case 0xFD => CbEntry(SetBit(7, L), 2, 8)
    case 0xFE => CbEntry(SetBit(7, AtHl), 2, 16)
    case _ => CbEntry(SetBit(7, A), 2, 8)
  }

  // ---- the tables agree with the encoding and the timings ----

  /** The entry at `op` is empty exactly when `op` is unassigned, and otherwise holds the instruction that encodes to `op`, with its expected length and cycles. */
  predicate Agrees(op: u8, r: Option<Entry>)
  {
    (r.None? <==> Unassigned(op)) &&
    (r.Some? ==> WellFormed(r.value.ins) && Encode(r.value.ins) == op && r.value == Expected(r.value.ins))
  }

  /** The CB entry at `op` holds the instruction that encodes to `op`, with its expected length and cycles. */
  predicate AgreesCb(op: u8, r: CbEntry)
  {
    WellFormedCb(r.ins) && EncodeCb(r.ins) == op && r == ExpectedCb(r.ins)
  }

  lemma AgreesFrom00(op: u8)
    requires 0x00 <= op < 0x04
    ensures Agrees(op, Table(op))
  {
  }

  lemma AgreesFrom04(op: u8)
    requires 0x04 <= op < 0x08
    ensures Agrees(op, Table(op))
  {
  }

  lemma AgreesFrom08(op: u8)
    requires 0x08 <= op < 0x0C
    ensures Agrees(op, Table(op))
  {
  }

  lemma AgreesFrom0C(op: u8)
    requires 0x0C <= op < 0x10
    ensures Agrees(op, Table(op))
  {
  }

  lemma AgreesFrom10(op: u8)
    requires 0x10 <= op < 0x14
    ensures Agrees(op, Table(op))
  {
  }

  lemma AgreesFrom14(op: u8)
    requires 0x14 <= op < 0x18
    ensures Agrees(op, Table(op))
  {
  }

  lemma AgreesFrom18(op: u8)
    requires 0x18 <= op < 0x1C
    ensures Agrees(op, Table(op))
  {
  }

  lemma AgreesFrom1C(op: u8)
    requires 0x1C <= op < 0x20
    ensures Agrees(op, Table(op))
  {
  }

  lemma AgreesFrom20(op: u8)
    requires 0x20 <= op < 0x24
    ensures Agrees(op, Table(op))
  {
  }

  lemma AgreesFrom24(op: u8)
    requires 0x24 <= op < 0x28
    ensures Agrees(op, Table(op))
  {
  }

  lemma AgreesFrom28(op: u8)
    requires 0x28 <= op < 0x2C
    ensures Agrees(op, Table(op))
  {
  }

  lemma AgreesFrom2C(op: u8)
    requires 0x2C <= op < 0x30
    ensures Agrees(op, Table(op))
  {
  }

  lemma AgreesFrom30(op: u8)
    requires 0x30 <= op < 0x34
    ensures Agrees(op, Table(op))
  {
  }

  lemma AgreesFrom34(op: u8)
    requires 0x34 <= op < 0x38
    ensures Agrees(op, Table(op))
  {
  }

  lemma AgreesFrom38(op: u8)
    requires 0x38 <= op < 0x3C
    ensures Agrees(op, Table(op))
  {
  }

  lemma AgreesFrom3C(op: u8)
    requires 0x3C <= op < 0x40
    ensures Agrees(op, Table(op))
  {
  }

  lemma AgreesFrom40(op: u8)
    requires 0x40 <= op < 0x44
    ensures Agrees(op, Table(op))
  {
  }

  lemma AgreesFrom44(op: u8)
    requires 0x44 <= op < 0x48
    ensures Agrees(op, Table(op))
  {
  }

  lemma AgreesFrom48(op: u8)
    requires 0x48 <= op < 0x4C
    ensures Agrees(op, Table(op))
  {
  }

  lemma AgreesFrom4C(op: u8)
    requires 0x4C <= op < 0x50
    ensures Agrees(op, Table(op))
  {
  }

  lemma AgreesFrom50(op: u8)
    requires 0x50 <= op < 0x54
    ensures Agrees(op, Table(op))
  {
  }

  lemma AgreesFrom54(op: u8)
    requires 0x54 <= op < 0x58
    ensures Agrees(op, Table(op))
  {
  }

  lemma AgreesFrom58(op: u8)
    requires 0x58 <= op < 0x5C
    ensures Agrees(op, Table(op))
  {
  }

  lemma AgreesFrom5C(op: u8)
    requires 0x5C <= op < 0x60
    ensures Agrees(op, Table(op))
  {
  }

  lemma AgreesFrom60(op: u8)
    requires 0x60 <= op < 0x64
    ensures Agrees(op, Table(op))
  {
  }

  lemma AgreesFrom64(op: u8)
    requires 0x64 <= op < 0x68
    ensures Agrees(op, Table(op))
  {
  }

  lemma AgreesFrom68(op: u8)
    requires 0x68 <= op < 0x6C
    ensures Agrees(op, Table(op))
  {
  }

  lemma AgreesFrom6C(op: u8)
    requires 0x6C <= op < 0x70
    ensures Agrees(op, Table(op))
  {
  }

  lemma AgreesFrom70(op: u8)
    requires 0x70 <= op < 0x74
    ensures Agrees(op, Table(op))
  {
  }

  lemma AgreesFrom74(op: u8)
    requires 0x74 <= op < 0x78
    ensures Agrees(op, Table(op))
  {
  }

  lemma AgreesFrom78(op: u8)
    requires 0x78 <= op < 0x7C
    ensures Agrees(op, Table(op))
  {
  }

  lemma AgreesFrom7C(op: u8)
    requires 0x7C <= op < 0x80
    ensures Agrees(op, Table(op))
  {
  }

  lemma AgreesFrom80(op: u8)
    requires 0x80 <= op < 0x84
    ensures Agrees(op, Table(op))
  {
  }

  lemma AgreesFrom84(op: u8)
    requires 0x84 <= op < 0x88
    ensures Agrees(op, Table(op))
  {
  }

  lemma AgreesFrom88(op: u8)
    requires 0x88 <= op < 0x8C
    ensures Agrees(op, Table(op))
  {
  }

  lemma AgreesFrom8C(op: u8)
    requires 0x8C <= op < 0x90
    ensures Agrees(op, Table(op))
  {
  }

  lemma AgreesFrom90(op: u8)
    requires 0x90 <= op < 0x94
    ensures Agrees(op, Table(op))
  {
  }

  lemma AgreesFrom94(op: u8)
    requires 0x94 <= op < 0x98
    ensures Agrees(op, Table(op))
  {
  }

  lemma AgreesFrom98(op: u8)
    requires 0x98 <= op < 0x9C
    ensures Agrees(op, Table(op))
  {
  }

  lemma AgreesFrom9C(op: u8)
    requires 0x9C <= op < 0xA0
    ensures Agrees(op, Table(op))
  {
  }

  lemma AgreesFromA0(op: u8)
    requires 0xA0 <= op < 0xA4
    ensures Agrees(op, Table(op))
  {
  }

  lemma AgreesFromA4(op: u8)
    requires 0xA4 <= op < 0xA8
    ensures Agrees(op, Table(op))
  {
  }

  lemma AgreesFromA8(op: u8)
    requires 0xA8 <= op < 0xAC
    ensures Agrees(op, Table(op))
  {
  }

  lemma AgreesFromAC(op: u8)
    requires 0xAC <= op < 0xB0
    ensures Agrees(op, Table(op))
  {
  }

  lemma AgreesFromB0(op: u8)
    requires 0xB0 <= op < 0xB4
    ensures Agrees(op, Table(op))
  {
  }

  lemma AgreesFromB4(op: u8)
    requires 0xB4 <= op < 0xB8
    ensures Agrees(op, Table(op))
  {
  }

  lemma AgreesFromB8(op: u8)
    requires 0xB8 <= op < 0xBC
    ensures Agrees(op, Table(op))
  {
  }

  lemma AgreesFromBC(op: u8)
    requires 0xBC <= op < 0xC0
    ensures Agrees(op, Table(op))
  {
  }

  lemma AgreesFromC0(op: u8)
    requires 0xC0 <= op < 0xC4
    ensures Agrees(op, Table(op))
  {
  }

  lemma AgreesFromC4(op: u8)
    requires 0xC4 <= op < 0xC8
    ensures Agrees(op, Table(op))
  {
  }

  lemma AgreesFromC8(op: u8)
    requires 0xC8 <= op < 0xCC
    ensures Agrees(op, Table(op))
  {
  }

  lemma AgreesFromCC(op: u8)
    requires 0xCC <= op < 0xD0
    ensures Agrees(op, Table(op))
  {
  }

  lemma AgreesFromD0(op: u8)
    requires 0xD0 <= op < 0xD4
    ensures Agrees(op, Table(op))
  {
  }

  lemma AgreesFromD4(op: u8)
    requires 0xD4 <= op < 0xD8
    ensures Agrees(op, Table(op))
  {
  }

  lemma AgreesFromD8(op: u8)
    requires 0xD8 <= op < 0xDC
    ensures Agrees(op, Table(op))
  {
  }

  lemma AgreesFromDC(op: u8)
    requires 0xDC <= op < 0xE0
    ensures Agrees(op, Table(op))
  {
  }

  lemma AgreesFromE0(op: u8)
    requires 0xE0 <= op < 0xE4
    ensures Agrees(op, Table(op))
  {
  }

  lemma AgreesFromE4(op: u8)
    requires 0xE4 <= op < 0xE8
    ensures Agrees(op, Table(op))
  {
  }

  lemma AgreesFromE8(op: u8)
    requires 0xE8 <= op < 0xEC
    ensures Agrees(op, Table(op))
  {
  }

  lemma AgreesFromEC(op: u8)
    requires 0xEC <= op < 0xF0
    ensures Agrees(op, Table(op))
  {
  }

  lemma AgreesFromF0(op: u8)
    requires 0xF0 <= op < 0xF4
    ensures Agrees(op, Table(op))
  {
  }

  lemma AgreesFromF4(op: u8)
    requires 0xF4 <= op < 0xF8
    ensures Agrees(op, Table(op))
  {
  }

  lemma AgreesFromF8(op: u8)
    requires 0xF8 <= op < 0xFC
    ensures Agrees(op, Table(op))
  {
  }

  lemma AgreesFromFC(op: u8)
    requires 0xFC <= op < 0x100
    ensures Agrees(op, Table(op))
  {
  }

  lemma AgreesCbFrom00(op: u8)
    requires 0x00 <= op < 0x08
    ensures AgreesCb(op, TableCb(op))
  {
  }

  lemma AgreesCbFrom08(op: u8)
    requires 0x08 <= op < 0x10
    ensures AgreesCb(op, TableCb(op))
  {
  }

  lemma AgreesCbFrom10(op: u8)
    requires 0x10 <= op < 0x18
    ensures AgreesCb(op, TableCb(op))
  {
  }

  lemma AgreesCbFrom18(op: u8)
    requires 0x18 <= op < 0x20
    ensures AgreesCb(op, TableCb(op))
  {
  }

  lemma AgreesCbFrom20(op: u8)
    requires 0x20 <= op < 0x28
    ensures AgreesCb(op, TableCb(op))
  {
  }

  lemma AgreesCbFrom28(op: u8)
    requires 0x28 <= op < 0x30
    ensures AgreesCb(op, TableCb(op))
  {
  }

  lemma AgreesCbFrom30(op: u8)
    requires 0x30 <= op < 0x38
    ensures AgreesCb(op, TableCb(op))
  {
  }

  lemma AgreesCbFrom38(op: u8)
    requires 0x38 <= op < 0x40
    ensures AgreesCb(op, TableCb(op))
  {
  }

  lemma AgreesCbFrom40(op: u8)
    requires 0x40 <= op < 0x48
    ensures AgreesCb(op, TableCb(op))
  {
  }

  lemma AgreesCbFrom48(op: u8)
    requires 0x48 <= op < 0x50
    ensures AgreesCb(op, TableCb(op))
  {
  }

  lemma AgreesCbFrom50(op: u8)
    requires 0x50 <= op < 0x58
    ensures AgreesCb(op, TableCb(op))
  {
  }

  lemma AgreesCbFrom58(op: u8)
    requires 0x58 <= op < 0x60
    ensures AgreesCb(op, TableCb(op))
  {
  }

  lemma AgreesCbFrom60(op: u8)
    requires 0x60 <= op < 0x68
    ensures AgreesCb(op, TableCb(op))
  {
  }

  lemma AgreesCbFrom68(op: u8)
    requires 0x68 <= op < 0x70
    ensures AgreesCb(op, TableCb(op))
  {
  }

  lemma AgreesCbFrom70(op: u8)
    requires 0x70 <= op < 0x78
    ensures AgreesCb(op, TableCb(op))
  {
  }

  lemma AgreesCbFrom78(op: u8)
    requires 0x78 <= op < 0x80
    ensures AgreesCb(op, TableCb(op))
  {
  }

  lemma AgreesCbFrom80(op: u8)
    requires 0x80 <= op < 0x88
    ensures AgreesCb(op, TableCb(op))
  {
  }

  lemma AgreesCbFrom88(op: u8)
    requires 0x88 <= op < 0x90
    ensures AgreesCb(op, TableCb(op))
  {
  }

  lemma AgreesCbFrom90(op: u8)
    requires 0x90 <= op < 0x98
    ensures AgreesCb(op, TableCb(op))
  {
  }

  lemma AgreesCbFrom98(op: u8)
    requires 0x98 <= op < 0xA0
    ensures AgreesCb(op, TableCb(op))
  {
  }

  lemma AgreesCbFromA0(op: u8)
    requires 0xA0 <= op < 0xA8
    ensures AgreesCb(op, TableCb(op))
  {
  }

  lemma AgreesCbFromA8(op: u8)
    requires 0xA8 <= op < 0xB0
    ensures AgreesCb(op, TableCb(op))
  {
  }

  lemma AgreesCbFromB0(op: u8)
    requires 0xB0 <= op < 0xB8
    ensures AgreesCb(op, TableCb(op))
  {
  }

  lemma AgreesCbFromB8(op: u8)
    requires 0xB8 <= op < 0xC0
    ensures AgreesCb(op, TableCb(op))
  {
  }

  lemma AgreesCbFromC0(op: u8)
    requires 0xC0 <= op < 0xC8
    ensures AgreesCb(op, TableCb(op))
  {
  }

  lemma AgreesCbFromC8(op: u8)
    requires 0xC8 <= op < 0xD0
    ensures AgreesCb(op, TableCb(op))
  {
  }

  lemma AgreesCbFromD0(op: u8)
    requires 0xD0 <= op < 0xD8
    ensures AgreesCb(op, TableCb(op))
  {
  }

  lemma AgreesCbFromD8(op: u8)
    requires 0xD8 <= op < 0xE0
    ensures AgreesCb(op, TableCb(op))
  {
  }

  lemma AgreesCbFromE0(op: u8)
    requires 0xE0 <= op < 0xE8
    ensures AgreesCb(op, TableCb(op))
  {
  }

  lemma AgreesCbFromE8(op: u8)
    requires 0xE8 <= op < 0xF0
    ensures AgreesCb(op, TableCb(op))
  {
  }

  lemma AgreesCbFromF0(op: u8)
    requires 0xF0 <= op < 0xF8
    ensures AgreesCb(op, TableCb(op))
  {
  }

  lemma AgreesCbFromF8(op: u8)
    requires 0xF8 <= op < 0x100
    ensures AgreesCb(op, TableCb(op))
  {
  }

  /**
   * Decoding: the opcode's entry, if any, holds the instruction whose
   * encoding is that opcode, with the expected length and cycles; exactly the
   * eleven unassigned opcodes have none.
   */
  lemma TableAgrees(op: u8)
    ensures Table(op).None? <==> Unassigned(op)
    ensures Table(op).Some? ==> WellFormed(Table(op).value.ins) && Encode(Table(op).value.ins) == op
    ensures Table(op).Some? ==> Table(op).value == Expected(Table(op).value.ins)
  {
    if op < 0x04 {
      AgreesFrom00(op);
    } else if op < 0x08 {
      AgreesFrom04(op);
    } else if op < 0x0C {
      AgreesFrom08(op);
    } else if op < 0x10 {
      AgreesFrom0C(op);
    } else if op < 0x14 {
      AgreesFrom10(op);
    } else if op < 0x18 {
      AgreesFrom14(op);
    } else if op < 0x1C {
      AgreesFrom18(op);
    } else if op < 0x20 {
      AgreesFrom1C(op);
    } else if op < 0x24 {
      AgreesFrom20(op);
    } else if op < 0x28 {
      AgreesFrom24(op);
    } else if op < 0x2C {
      AgreesFrom28(op);
    } else if op < 0x30 {
      AgreesFrom2C(op);
    } else if op < 0x34 {
      AgreesFrom30(op);
    } else if op < 0x38 {
      AgreesFrom34(op);
    } else if op < 0x3C {
      AgreesFrom38(op);
    } else if op < 0x40 {
      AgreesFrom3C(op);
    } else if op < 0x44 {
      AgreesFrom40(op);
    } else if op < 0x48 {
      AgreesFrom44(op);
    } else if op < 0x4C {
      AgreesFrom48(op);
    } else if op < 0x50 {
      AgreesFrom4C(op);
    } else if op < 0x54 {
      AgreesFrom50(op);
    } else if op < 0x58 {
      AgreesFrom54(op);
    } else if op < 0x5C {
      AgreesFrom58(op);
    } else if op < 0x60 {
      AgreesFrom5C(op);
    } else if op < 0x64 {
      AgreesFrom60(op);
    } else if op < 0x68 {
      AgreesFrom64(op);
    } else if op < 0x6C {
      AgreesFrom68(op);
    } else if op < 0x70 {
      AgreesFrom6C(op);
    } else if op < 0x74 {
      AgreesFrom70(op);
    } else if op < 0x78 {
      AgreesFrom74(op);
    } else if op < 0x7C {
      AgreesFrom78(op);
    } else if op < 0x80 {
      AgreesFrom7C(op);
    } else if op < 0x84 {
      AgreesFrom80(op);
    } else if op < 0x88 {
      AgreesFrom84(op);
    } else if op < 0x8C {
      AgreesFrom88(op);
    } else if op < 0x90 {
      AgreesFrom8C(op);
    } else if op < 0x94 {
      AgreesFrom90(op);
    } else if op < 0x98 {
      AgreesFrom94(op);
    } else if op < 0x9C {
      AgreesFrom98(op);
    } else if op < 0xA0 {
      AgreesFrom9C(op);
    } else if op < 0xA4 {
      AgreesFromA0(op);
    } else if op < 0xA8 {
      AgreesFromA4(op);
    } else if op < 0xAC {
      AgreesFromA8(op);
    } else if op < 0xB0 {
      AgreesFromAC(op);
    } else if op < 0xB4 {
      AgreesFromB0(op);
    } else if op < 0xB8 {
      AgreesFromB4(op);
    } else if op < 0xBC {
      AgreesFromB8(op);
    } else if op < 0xC0 {
      AgreesFromBC(op);
    } else if op < 0xC4 {
      AgreesFromC0(op);
    } else if op < 0xC8 {
      AgreesFromC4(op);
    } else if op < 0xCC {
      AgreesFromC8(op);
    } else if op < 0xD0 {
      AgreesFromCC(op);
    } else if op < 0xD4 {
      AgreesFromD0(op);
    } else if op < 0xD8 {
      AgreesFromD4(op);
    } else if op < 0xDC {
      AgreesFromD8(op);
    } else if op < 0xE0 {
      AgreesFromDC(op);
    } else if op < 0xE4 {
      AgreesFromE0(op);
    } else if op < 0xE8 {
      AgreesFromE4(op);
    } else if op < 0xEC {
      AgreesFromE8(op);
    } else if op < 0xF0 {
      AgreesFromEC(op);
    } else if op < 0xF4 {
      AgreesFromF0(op);
    } else if op < 0xF8 {
      AgreesFromF4(op);
    } else if op < 0xFC {
      AgreesFromF8(op);
    } else {
      AgreesFromFC(op);
    }
  }

  /** Decoding the CB table: every entry holds the instruction that encodes to its opcode, with the expected cycles. */
  lemma TableCbAgrees(op: u8)
    ensures WellFormedCb(TableCb(op).ins) && EncodeCb(TableCb(op).ins) == op
    ensures TableCb(op) == ExpectedCb(TableCb(op).ins)
  {
    if op < 0x08 {
      AgreesCbFrom00(op);
    } else if op < 0x10 {
      AgreesCbFrom08(op);
    } else if op < 0x18 {
      AgreesCbFrom10(op);
    } else if op < 0x20 {
      AgreesCbFrom18(op);
    } else if op < 0x28 {
      AgreesCbFrom20(op);
    } else if op < 0x30 {
      AgreesCbFrom28(op);
    } else if op < 0x38 {
      AgreesCbFrom30(op);
    } else if op < 0x40 {
      AgreesCbFrom38(op);
    } else if op < 0x48 {
      AgreesCbFrom40(op);
    } else if op < 0x50 {
      AgreesCbFrom48(op);
    } else if op < 0x58 {
      AgreesCbFrom50(op);
    } else if op < 0x60 {
      AgreesCbFrom58(op);
    } else if op < 0x68 {
      AgreesCbFrom60(op);
    } else if op < 0x70 {
      AgreesCbFrom68(op);
    } else if op < 0x78 {
      AgreesCbFrom70(op);
    } else if op < 0x80 {
      AgreesCbFrom78(op);
    } else if op < 0x88 {
      AgreesCbFrom80(op);
    } else if op < 0x90 {
      AgreesCbFrom88(op);
    } else if op < 0x98 {
      AgreesCbFrom90(op);
    } else if op < 0xA0 {
      AgreesCbFrom98(op);
    } else if op < 0xA8 {
      AgreesCbFromA0(op);
    } else if op < 0xB0 {
      AgreesCbFromA8(op);
    } else if op < 0xB8 {
      AgreesCbFromB0(op);
    } else if op < 0xC0 {
      AgreesCbFromB8(op);
    } else if op < 0xC8 {
      AgreesCbFromC0(op);
    } else if op < 0xD0 {
      AgreesCbFromC8(op);
    } else if op < 0xD8 {
      AgreesCbFromD0(op);
    } else if op < 0xE0 {
      AgreesCbFromD8(op);
    } else if op < 0xE8 {
      AgreesCbFromE0(op);
    } else if op < 0xF0 {
      AgreesCbFromE8(op);
    } else if op < 0xF8 {
      AgreesCbFromF0(op);
    } else {
      AgreesCbFromF8(op);
    }
  }

  lemma EncodeLoadB(src: Operand)
    requires WellFormed(Load(B, src))
    ensures Table(Encode(Load(B, src))) == Some(Expected(Load(B, src)))
  {
  }

  lemma EncodeLoadC(src: Operand)
    requires WellFormed(Load(C, src))
    ensures Table(Encode(Load(C, src))) == Some(Expected(Load(C, src)))
  {
  }

  lemma EncodeLoadD(src: Operand)
    requires WellFormed(Load(D, src))
    ensures Table(Encode(Load(D, src))) == Some(Expected(Load(D, src)))
  {
  }

  lemma EncodeLoadE(src: Operand)
    requires WellFormed(Load(E, src))
    ensures Table(Encode(Load(E, src))) == Some(Expected(Load(E, src)))
  {
  }

  lemma EncodeLoadH(src: Operand)
    requires WellFormed(Load(H, src))
    ensures Table(Encode(Load(H, src))) == Some(Expected(Load(H, src)))
  {
  }

  lemma EncodeLoadL(src: Operand)
    requires WellFormed(Load(L, src))
    ensures Table(Encode(Load(L, src))) == Some(Expected(Load(L, src)))
  {
  }

  lemma EncodeLoadAtHl(src: Operand)
    requires WellFormed(Load(AtHl, src))
    ensures Table(Encode(Load(AtHl, src))) == Some(Expected(Load(AtHl, src)))
  {
  }

  lemma EncodeLoadA(src: Operand)
    requires WellFormed(Load(A, src))
    ensures Table(Encode(Load(A, src))) == Some(Expected(Load(A, src)))
  {
  }

  lemma EncodeAluAdd(x: Operand)
    ensures Table(Encode(Alu(AddOp, x))) == Some(Expected(Alu(AddOp, x)))
  {
  }

  lemma EncodeAluAdc(x: Operand)
    ensures Table(Encode(Alu(AdcOp, x))) == Some(Expected(Alu(AdcOp, x)))
  {
  }

  lemma EncodeAluSub(x: Operand)
    ensures Table(Encode(Alu(SubOp, x))) == Some(Expected(Alu(SubOp, x)))
  {
  }

  lemma EncodeAluSbc(x: Operand)
    ensures Table(Encode(Alu(SbcOp, x))) == Some(Expected(Alu(SbcOp, x)))
  {
  }

  lemma EncodeAluAnd(x: Operand)
    ensures Table(Encode(Alu(AndOp, x))) == Some(Expected(Alu(AndOp, x)))
  {
  }

  lemma EncodeAluXor(x: Operand)
    ensures Table(Encode(Alu(XorOp, x))) == Some(Expected(Alu(XorOp, x)))
  {
  }

  lemma EncodeAluOr(x: Operand)
    ensures Table(Encode(Alu(OrOp, x))) == Some(Expected(Alu(OrOp, x)))
  {
  }

  lemma EncodeAluCp(x: Operand)
    ensures Table(Encode(Alu(CpOp, x))) == Some(Expected(Alu(CpOp, x)))
  {
  }

  lemma EncodeLoadImm(x: Operand)
    ensures Table(Encode(LoadImm(x))) == Some(Expected(LoadImm(x)))
  {
  }

  lemma EncodeInc(x: Operand)
    ensures Table(Encode(Inc(x))) == Some(Expected(Inc(x)))
  {
  }

  lemma EncodeDec(x: Operand)
    ensures Table(Encode(Dec(x))) == Some(Expected(Dec(x)))
  {
  }

  lemma EncodeAluImm(op: AluOp)
    ensures Table(Encode(AluImm(op))) == Some(Expected(AluImm(op)))
  {
  }

  lemma EncodeRotateA(rot: Shift)
    requires WellFormed(RotateA(rot))
    ensures Table(Encode(RotateA(rot))) == Some(Expected(RotateA(rot)))
  {
  }

  lemma EncodeRst(t: u16)
    requires WellFormed(Rst(t))
    ensures Table(Encode(Rst(t))) == Some(Expected(Rst(t)))
  {
    assert t == 0x00 || t == 0x08 || t == 0x10 || t == 0x18 || t == 0x20 || t == 0x28 || t == 0x30 || t == 0x38;
  }

  lemma EncodeBranch(i: Instr)
    requires i.Jr? || i.Jp? || i.Call? || i.Ret?
    ensures Table(Encode(i)) == Some(Expected(i))
  {
  }

  lemma EncodePair(i: Instr)
    requires i.LoadPairImm? || i.Pop? || i.Push? || i.IncPair? || i.DecPair? || i.AddHl? || i.StoreAtPair? || i.LoadAtPair?
    requires WellFormed(i)
    ensures Table(Encode(i)) == Some(Expected(i))
  {
  }

  lemma EncodeLoad(i: Instr)
    requires i.Load? && WellFormed(i)
    ensures Table(Encode(i)) == Some(Expected(i))
  {
    match i.dst

    case B => EncodeLoadB(i.src);
    case C => EncodeLoadC(i.src);
    case D => EncodeLoadD(i.src);
    case E => EncodeLoadE(i.src);
    case H => EncodeLoadH(i.src);
    case L => EncodeLoadL(i.src);
    case AtHl => EncodeLoadAtHl(i.src);
    case A => EncodeLoadA(i.src);
  }

  lemma EncodeAlu(i: Instr)
    requires i.Alu?
    ensures Table(Encode(i)) == Some(Expected(i))
  {
    match i.op
    case AddOp => EncodeAluAdd(i.x);
    case AdcOp => EncodeAluAdc(i.x);
    case SubOp => EncodeAluSub(i.x);
    case SbcOp => EncodeAluSbc(i.x);
    case AndOp => EncodeAluAnd(i.x);
    case XorOp => EncodeAluXor(i.x);
    case OrOp => EncodeAluOr(i.x);
    case CpOp => EncodeAluCp(i.x);
  }

  lemma EncodeControl(i: Instr)
    requires i.Nop? || i.Stop? || i.Halt? || i.Di? || i.Ei? || i.PrefixCb? || i.JpHl? || i.Reti?
    ensures Table(Encode(i)) == Some(Expected(i))
  {
    match i
    case Nop =>
    case Stop =>
    case Halt =>
    case Di =>
    case Ei =>
    case PrefixCb =>
    case JpHl =>
    case Reti =>
  }

  lemma EncodeStack(i: Instr)
    requires i.StoreSp? || i.LoadHlSpOffset? || i.LoadSpHl? || i.AddSpOffset?
    ensures Table(Encode(i)) == Some(Expected(i))
  {
    match i
    case StoreSp =>
    case LoadHlSpOffset =>
    case LoadSpHl =>
    case AddSpOffset =>
  }

  lemma EncodeFlags(i: Instr)
    requires i.Daa? || i.Cpl? || i.Scf? || i.Ccf?
    ensures Table(Encode(i)) == Some(Expected(i))
  {
    match i
    case Daa =>
    case Cpl =>
    case Scf =>
    case Ccf =>
  }

  lemma EncodeHlStep(i: Instr)
    requires i.StoreHlStep? || i.LoadHlStep?
    ensures Table(Encode(i)) == Some(Expected(i))
  {
    match i
    case StoreHlStep(up) =>
      if up {
        assert i == StoreHlStep(true);
      } else {
        assert i == StoreHlStep(false);
      }
    case LoadHlStep(up) =>
      if up {
        assert i == LoadHlStep(true);
      } else {
        assert i == LoadHlStep(false);
      }
  }

  lemma EncodeTransfer(i: Instr)
    requires i.StoreHigh? || i.LoadHigh? || i.StoreHighC? || i.LoadHighC? || i.StoreAbs? || i.LoadAbs?
    ensures Table(Encode(i)) == Some(Expected(i))
  {
    match i
    case StoreHigh =>
    case LoadHigh =>
    case StoreHighC =>
    case LoadHighC =>
    case StoreAbs =>
    case LoadAbs =>
  }

  /** Encoding: every instruction has its entry at its opcode. */
  lemma EncodeAgrees(i: Instr)
    requires WellFormed(i)
    ensures Table(Encode(i)) == Some(Expected(i))
  {
    if i.Load? {
      EncodeLoad(i);
    } else if i.Alu? {
      EncodeAlu(i);
    } else if i.LoadImm? {
      EncodeLoadImm(i.dst);
    } else if i.Inc? {
      EncodeInc(i.x);
    } else if i.Dec? {
      EncodeDec(i.x);
    } else if i.AluImm? {
      EncodeAluImm(i.op);
    } else if i.RotateA? {
      EncodeRotateA(i.rot);
    } else if i.Rst? {
      EncodeRst(i.target);
    } else if i.Jr? || i.Jp? || i.Call? || i.Ret? {
      EncodeBranch(i);
    } else if i.LoadPairImm? || i.Pop? || i.Push? || i.IncPair? || i.DecPair? || i.AddHl? || i.StoreAtPair? || i.LoadAtPair? {
      EncodePair(i);
    } else if i.Nop? || i.Stop? || i.Halt? || i.Di? || i.Ei? || i.PrefixCb? || i.JpHl? || i.Reti? {
      EncodeControl(i);
    } else if i.StoreSp? || i.LoadHlSpOffset? || i.LoadSpHl? || i.AddSpOffset? {
      EncodeStack(i);
    } else if i.Daa? || i.Cpl? || i.Scf? || i.Ccf? {
      EncodeFlags(i);
    } else if i.StoreHlStep? || i.LoadHlStep? {
      EncodeHlStep(i);
    } else {
      EncodeTransfer(i);
    }
  }

  lemma EncodeShiftRlc(x: Operand)
    ensures TableCb(EncodeCb(Shifted(RlcOp, x))) == ExpectedCb(Shifted(RlcOp, x))
  {
  }

  lemma EncodeShiftRrc(x: Operand)
    ensures TableCb(EncodeCb(Shifted(RrcOp, x))) == ExpectedCb(Shifted(RrcOp, x))
  {
  }

  lemma EncodeShiftRl(x: Operand)
    ensures TableCb(EncodeCb(Shifted(RlOp, x))) == ExpectedCb(Shifted(RlOp, x))
  {
  }

  lemma EncodeShiftRr(x: Operand)
    ensures TableCb(EncodeCb(Shifted(RrOp, x))) == ExpectedCb(Shifted(RrOp, x))
  {
  }

  lemma EncodeShiftSla(x: Operand)
    ensures TableCb(EncodeCb(Shifted(SlaOp, x))) == ExpectedCb(Shifted(SlaOp, x))
  {
  }

  lemma EncodeShiftSra(x: Operand)
    ensures TableCb(EncodeCb(Shifted(SraOp, x))) == ExpectedCb(Shifted(SraOp, x))
  {
  }

  lemma EncodeShiftSwap(x: Operand)
    ensures TableCb(EncodeCb(Shifted(SwapOp, x))) == ExpectedCb(Shifted(SwapOp, x))
  {
  }

  lemma EncodeShiftSrl(x: Operand)
    ensures TableCb(EncodeCb(Shifted(SrlOp, x))) == ExpectedCb(Shifted(SrlOp, x))
  {
  }

  lemma EncodeTestBit0(x: Operand)
    ensures TableCb(EncodeCb(TestBit(0, x))) == ExpectedCb(TestBit(0, x))
  {
  }

  lemma EncodeTestBit1(x: Operand)
    ensures TableCb(EncodeCb(TestBit(1, x))) == ExpectedCb(TestBit(1, x))
  {
  }

  lemma EncodeTestBit2(x: Operand)
    ensures TableCb(EncodeCb(TestBit(2, x))) == ExpectedCb(TestBit(2, x))
  {
  }

  lemma EncodeTestBit3(x: Operand)
    ensures TableCb(EncodeCb(TestBit(3, x))) == ExpectedCb(TestBit(3, x))
  {
  }

  lemma EncodeTestBit4(x: Operand)
    ensures TableCb(EncodeCb(TestBit(4, x))) == ExpectedCb(TestBit(4, x))
  {
  }

  lemma EncodeTestBit5(x: Operand)
    ensures TableCb(EncodeCb(TestBit(5, x))) == ExpectedCb(TestBit(5, x))
  {
  }

  lemma EncodeTestBit6(x: Operand)
    ensures TableCb(EncodeCb(TestBit(6, x))) == ExpectedCb(TestBit(6, x))
  {
  }

  lemma EncodeTestBit7(x: Operand)
    ensures TableCb(EncodeCb(TestBit(7, x))) == ExpectedCb(TestBit(7, x))
  {
  }

  lemma EncodeResetBit0(x: Operand)
    ensures TableCb(EncodeCb(ResetBit(0, x))) == ExpectedCb(ResetBit(0, x))
  {
  }

  lemma EncodeResetBit1(x: Operand)
    ensures TableCb(EncodeCb(ResetBit(1, x))) == ExpectedCb(ResetBit(1, x))
  {
  }

  lemma EncodeResetBit2(x: Operand)
    ensures TableCb(EncodeCb(ResetBit(2, x))) == ExpectedCb(ResetBit(2, x))
  {
  }

  lemma EncodeResetBit3(x: Operand)
    ensures TableCb(EncodeCb(ResetBit(3, x))) == ExpectedCb(ResetBit(3, x))
  {
  }

  lemma EncodeResetBit4(x: Operand)
    ensures TableCb(EncodeCb(ResetBit(4, x))) == ExpectedCb(ResetBit(4, x))
  {
  }

  lemma EncodeResetBit5(x: Operand)
    ensures TableCb(EncodeCb(ResetBit(5, x))) == ExpectedCb(ResetBit(5, x))
  {
  }

  lemma EncodeResetBit6(x: Operand)
    ensures TableCb(EncodeCb(ResetBit(6, x))) == ExpectedCb(ResetBit(6, x))
  {
  }

  lemma EncodeResetBit7(x: Operand)
    ensures TableCb(EncodeCb(ResetBit(7, x))) == ExpectedCb(ResetBit(7, x))
  {
  }

  lemma EncodeSetBit0(x: Operand)
    ensures TableCb(EncodeCb(SetBit(0, x))) == ExpectedCb(SetBit(0, x))
  {
  }

  lemma EncodeSetBit1(x: Operand)
    ensures TableCb(EncodeCb(SetBit(1, x))) == ExpectedCb(SetBit(1, x))
  {
  }

  lemma EncodeSetBit2(x: Operand)
    ensures TableCb(EncodeCb(SetBit(2, x))) == ExpectedCb(SetBit(2, x))
  {
  }

  lemma EncodeSetBit3(x: Operand)
    ensures TableCb(EncodeCb(SetBit(3, x))) == ExpectedCb(SetBit(3, x))
  {
  }

  lemma EncodeSetBit4(x: Operand)
    ensures TableCb(EncodeCb(SetBit(4, x))) == ExpectedCb(SetBit(4, x))
  {
  }

  lemma EncodeSetBit5(x: Operand)
    ensures TableCb(EncodeCb(SetBit(5, x))) == ExpectedCb(SetBit(5, x))
  {
  }

  lemma EncodeSetBit6(x: Operand)
    ensures TableCb(EncodeCb(SetBit(6, x))) == ExpectedCb(SetBit(6, x))
  {
  }

  lemma EncodeSetBit7(x: Operand)
    ensures TableCb(EncodeCb(SetBit(7, x))) == ExpectedCb(SetBit(7, x))
  {
  }

  /** Encoding the CB table: every CB instruction has its entry at its opcode. */
  lemma EncodeCbAgrees(i: CbInstr)
    requires WellFormedCb(i)
    ensures TableCb(EncodeCb(i)) == ExpectedCb(i)
  {
    match i
    case Shifted(op, x) =>
      match op {
      case RlcOp => EncodeShiftRlc(x);
      case RrcOp => EncodeShiftRrc(x);
      case RlOp => EncodeShiftRl(x);
      case RrOp => EncodeShiftRr(x);
      case SlaOp => EncodeShiftSla(x);
      case SraOp => EncodeShiftSra(x);
      case SwapOp => EncodeShiftSwap(x);
      case SrlOp => EncodeShiftSrl(x);
      }
    case TestBit(n, x) =>
      if n == 0 {
        EncodeTestBit0(x);
      } else if n == 1 {
        EncodeTestBit1(x);
      } else if n == 2 {
        EncodeTestBit2(x);
      } else if n == 3 {
        EncodeTestBit3(x);
      } else if n == 4 {
        EncodeTestBit4(x);
      } else if n == 5 {
        EncodeTestBit5(x);
      } else if n == 6 {
        EncodeTestBit6(x);
      } else {
        EncodeTestBit7(x);
      }
    case ResetBit(n, x) =>
      if n == 0 {
        EncodeResetBit0(x);
      } else if n == 1 {
        EncodeResetBit1(x);
      } else if n == 2 {
        EncodeResetBit2(x);
      } else if n == 3 {
        EncodeResetBit3(x);
      } else if n == 4 {
        EncodeResetBit4(x);
      } else if n == 5 {
        EncodeResetBit5(x);
      } else if n == 6 {
        EncodeResetBit6(x);
      } else {
        EncodeResetBit7(x);
      }
    case SetBit(n, x) =>
      if n == 0 {
        EncodeSetBit0(x);
      } else if n == 1 {
        EncodeSetBit1(x);
      } else if n == 2 {
        EncodeSetBit2(x);
      } else if n == 3 {
        EncodeSetBit3(x);
      } else if n == 4 {
        EncodeSetBit4(x);
      } else if n == 5 {
        EncodeSetBit5(x);
      } else if n == 6 {
        EncodeSetBit6(x);
      } else {
        EncodeSetBit7(x);
      }
  }

  /** Every CB entry is one the CB closures can run. */
  lemma CbWellFormed(op: u8)
    ensures WellFormedCb(TableCb(op).ins)
  {
    TableCbAgrees(op);
  }
}
