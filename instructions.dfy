/**
 * cpu/instructiontemplates.go, cpu/instructions.go, cpu/instructionscb.go,
 * cpu/interrupts.go and the fetch step of cpu/core.go: what each closure of
 * the two instruction tables does to the core's registers and to memory.
 *
 * An instruction's memory accesses run one after the other, and each can
 * fail. The functions here take the bus's replies as a log: the k-th access
 * an instruction makes is answered by the k-th entry of `log`, and an access
 * the log does not cover fails. They return the registers, the accesses made
 * (address, value written, reply) and the first error, in the order the Go
 * code makes them, so a failing access leaves exactly the effects Go has
 * already applied. `Cpu.Core` runs the same steps on its own fields and on
 * `Bus.Machine`, and its methods are proved to agree with these functions.
 */
module Instructions {
  import opened Bits
  import opened Errors
  import opened Flags
  import opened Registers
  import Arith = Alu
  import opened Opcodes
  import Irq
  import Bus

  type Access = Bus.Access

  /** The core's registers and its three flags. */
  datatype State = State(a: u8, f: u8, b: u8, c: u8, d: u8, e: u8, h: u8, l: u8,
                         sp: u16, pc: u16, ime: bool, halt: bool, stop: bool)

  // ---- registers ----

  /** The register an operand names. */
  function Get(s: State, x: Operand): u8
    requires x != AtHl
  {
    match x
    case B => s.b case C => s.c case D => s.d case E => s.e
    case H => s.h case L => s.l case _ => s.a
  }

  function Put(s: State, x: Operand, v: u8): (r: State)
    requires x != AtHl
    ensures Get(r, x) == v
    ensures forall y :: y != AtHl && y != x ==> Get(r, y) == Get(s, y)
    ensures r.f == s.f && r.sp == s.sp && r.pc == s.pc && r.ime == s.ime && r.halt == s.halt && r.stop == s.stop
  {
    match x
    case B => s.(b := v) case C => s.(c := v) case D => s.(d := v) case E => s.(e := v)
    case H => s.(h := v) case L => s.(l := v) case _ => s.(a := v)
  }

  /** Register16.get: high byte first. */
  function GetPair(s: State, rr: Pair): u16
  {
    match rr
    case BC => Word(s.b, s.c) case DE => Word(s.d, s.e) case HL => Word(s.h, s.l)
    case SP => s.sp case AF => Word(s.a, s.f)
  }

  /** Register16.setHigh. */
  function PutHigh(s: State, rr: Pair, v: u8): State
  {
    match rr
    case BC => s.(b := v) case DE => s.(d := v) case HL => s.(h := v)
    case SP => s.(sp := Word(v, Lo(s.sp))) case AF => s.(a := v)
  }

  /** Register16.setLow. */
  function PutLow(s: State, rr: Pair, v: u8): State
  {
    match rr
    case BC => s.(c := v) case DE => s.(e := v) case HL => s.(l := v)
    case SP => s.(sp := Word(Hi(s.sp), v)) case AF => s.(f := v)
  }

  /** Register16.set: the low byte, then the high byte. */
  function PutPair(s: State, rr: Pair, w: u16): State
  {
    PutHigh(PutLow(s, rr, Lo(w)), rr, Hi(w))
  }

  function Hl(s: State): u16 { Word(s.h, s.l) }

  /** A set a pair holds the value set, and no other register changes. */
  lemma PutPairGets(s: State, rr: Pair, w: u16)
    ensures GetPair(PutPair(s, rr, w), rr) == w
    ensures forall qq :: qq != rr && !(rr == AF && qq == AF) ==> GetPair(PutPair(s, rr, w), qq) == GetPair(s, qq)
    ensures PutPair(s, rr, w).pc == s.pc && PutPair(s, rr, w).ime == s.ime
  {
    WordOfHalves(w);
    WordOfHalves(s.sp);
  }

  // ---- the bus, as the log answers it ----

  /** The reply to an instruction's k-th access, a read of `addr`. */
  function Reply(log: seq<Access>, k: nat, addr: u16): Result<u8>
  {
    if k < |log| && log[k].ReadAt? then log[k].r else Err(ReadAccessViolation(addr))
  }

  /** The reply to an instruction's k-th access, a write to `addr`. */
  function Ack(log: seq<Access>, k: nat, addr: u16): Status
  {
    if k < |log| && log[k].WriteAt? then log[k].s else Failure(WriteAccessViolation(addr))
  }

  /** Registers, the accesses made so far, and success or the error that ended the instruction. */
  datatype Effect = Effect(s: State, trace: seq<Access>, status: Status)

  /** The same after a read, with the byte read. */
  datatype Fetched = Fetched(s: State, trace: seq<Access>, r: Result<u8>)

  datatype Fetched16 = Fetched16(s: State, trace: seq<Access>, r: Result<u16>)

  function Read(s: State, t: seq<Access>, log: seq<Access>, addr: u16): (v: Fetched)
    ensures v.s == s && v.trace == t + [Bus.ReadAt(addr, v.r)]
  {
    var r := Reply(log, |t|, addr);
    Fetched(s, t + [Bus.ReadAt(addr, r)], r)
  }

  function Write(s: State, t: seq<Access>, log: seq<Access>, addr: u16, d: u8): (w: Effect)
    ensures w.s == s && w.trace == t + [Bus.WriteAt(addr, d, w.status)]
  {
    var st := Ack(log, |t|, addr);
    Effect(s, t + [Bus.WriteAt(addr, d, st)], st)
  }

  /** The read failed: the instruction ends with its error. */
  function Fail(v: Fetched): Effect
    requires v.r.Err?
  {
    Effect(v.s, v.trace, Failure(v.r.error))
  }

  function Done(s: State, t: seq<Access>): Effect
  {
    Effect(s, t, Success)
  }

  /** loadImmediate8: step PC, then read the byte it points at. */
  function LoadImmediate8(s: State, t: seq<Access>, log: seq<Access>): Fetched
  {
    var s1 := s.(pc := Inc16(s.pc));
    Read(s1, t, log, s1.pc)
  }

  /** A read looks only at its own reply: accesses logged after it change nothing. */
  lemma ReadLaterLog(s: State, t: seq<Access>, log: seq<Access>, more: seq<Access>)
    requires |t| < |log|
    ensures LoadImmediate8(s, t, log + more) == LoadImmediate8(s, t, log)
  {
    assert (log + more)[|t|] == log[|t|];
  }

  /** loadImmediate16: two loadImmediate8 steps, the low byte first. */
  function LoadImmediate16(s: State, t: seq<Access>, log: seq<Access>): Fetched16
  {
    var lo := LoadImmediate8(s, t, log);
    if lo.r.Err? then Fetched16(lo.s, lo.trace, Err(lo.r.error)) else
    var hi := LoadImmediate8(lo.s, lo.trace, log);
    if hi.r.Err? then Fetched16(hi.s, hi.trace, Err(hi.r.error)) else
    Fetched16(hi.s, hi.trace, Ok(Word(hi.r.value, lo.r.value)))
  }

  /** loadImmediate16 reads PC+1 and PC+2, leaves PC at PC+2 and puts the first byte low. */
  lemma LoadImmediate16LittleEndian(s: State, log: seq<Access>)
    requires |log| >= 2 && log[0].ReadAt? && log[1].ReadAt? && log[0].r.Ok? && log[1].r.Ok?
    ensures var w := LoadImmediate16(s, [], log);
      w.r == Ok(log[1].r.value * 0x100 + log[0].r.value) &&
      w.s == s.(pc := (s.pc + 2) % 0x1_0000) &&
      w.trace == [Bus.ReadAt((s.pc + 1) % 0x1_0000, log[0].r), Bus.ReadAt((s.pc + 2) % 0x1_0000, log[1].r)]
  {
    var lo := LoadImmediate8(s, [], log);
    assert Inc16(s.pc) == (s.pc + 1) % 0x1_0000;
    assert Inc16(Inc16(s.pc)) == (s.pc + 2) % 0x1_0000;
  }

  // ---- templates (instructiontemplates.go) ----

  /** LdRm: read `addr` into a register. */
  function LdRm(s: State, t: seq<Access>, log: seq<Access>, x: Operand, addr: u16): Effect
    requires x != AtHl
  {
    var v := Read(s, t, log, addr);
    if v.r.Err? then Fail(v) else Done(Put(v.s, x, v.r.value), v.trace)
  }

  /** LdRd8: the immediate byte into a register. */
  function LdRd8(s: State, t: seq<Access>, log: seq<Access>, x: Operand): Effect
    requires x != AtHl
  {
    var v := LoadImmediate8(s, t, log);
    if v.r.Err? then Fail(v) else Done(Put(v.s, x, v.r.value), v.trace)
  }

  /** LdRrD16: the immediate word into a pair. */
  function LdRrD16(s: State, t: seq<Access>, log: seq<Access>, rr: Pair): Effect
  {
    var w := LoadImmediate16(s, t, log);
    if w.r.Err? then Effect(w.s, w.trace, Failure(w.r.error)) else Done(PutPair(w.s, rr, w.r.value), w.trace)
  }

  /** PopRr: the low byte from SP, SP+1, the high byte, SP+1. A byte read stays set if the next read fails. */
  function PopRr(s: State, t: seq<Access>, log: seq<Access>, rr: Pair): Effect
  {
    var lo := Read(s, t, log, s.sp);
    if lo.r.Err? then Fail(lo) else
    var s1 := PutLow(lo.s, rr, lo.r.value);
    PopHigh(s1.(sp := Inc16(s1.sp)), lo.trace, log, rr)
  }

  /** PopRr's second half: the high byte from SP, then SP+1. */
  function PopHigh(s: State, t: seq<Access>, log: seq<Access>, rr: Pair): Effect
  {
    var hi := Read(s, t, log, s.sp);
    if hi.r.Err? then Fail(hi) else
    var s1 := PutHigh(hi.s, rr, hi.r.value);
    Done(s1.(sp := Inc16(s1.sp)), hi.trace)
  }

  /** PushRr: SP-1, the high byte, SP-1, the low byte. */
  function PushRr(s: State, t: seq<Access>, log: seq<Access>, rr: Pair): Effect
  {
    var s1 := s.(sp := Dec16(s.sp));
    var w := Write(s1, t, log, s1.sp, Hi(GetPair(s1, rr)));
    if w.status.Failure? then w else
    var s2 := s1.(sp := Dec16(s1.sp));
    Write(s2, w.trace, log, s2.sp, Lo(GetPair(s2, rr)))
  }

  /** The push of PC that Rst, CallCondA16 and jumpToISR write out. */
  function PushPc(s: State, t: seq<Access>, log: seq<Access>): Effect
  {
    var s1 := s.(sp := Dec16(s.sp));
    var w := Write(s1, t, log, s1.sp, Hi(s1.pc));
    if w.status.Failure? then w else
    var s2 := s1.(sp := Dec16(s1.sp));
    Write(s2, w.trace, log, s2.sp, Lo(s2.pc))
  }

  /** Rst: push the address of the next instruction, leave PC one before the target. */
  function Rst(s: State, t: seq<Access>, log: seq<Access>, addr: u16): Effect
  {
    var p := PushPc(s.(pc := Inc16(s.pc)), t, log);
    if p.status.Failure? then p else Done(p.s.(pc := Dec16(addr)), p.trace)
  }

  /** CallCondA16: read the target; if `cond`, push the next instruction's address and leave PC before the target. */
  function CallCondA16(s: State, t: seq<Access>, log: seq<Access>, cond: bool): Effect
  {
    var w := LoadImmediate16(s, t, log);
    if w.r.Err? then Effect(w.s, w.trace, Failure(w.r.error)) else
    if !cond then Done(w.s, w.trace) else
    var p := PushPc(w.s.(pc := Inc16(w.s.pc)), w.trace, log);
    if p.status.Failure? then p else Done(p.s.(pc := Dec16(w.r.value)), p.trace)
  }

  /** JpCondA16: read the target; if `cond`, leave PC before it. */
  function JpCondA16(s: State, t: seq<Access>, log: seq<Access>, cond: bool): Effect
  {
    var w := LoadImmediate16(s, t, log);
    if w.r.Err? then Effect(w.s, w.trace, Failure(w.r.error)) else
    if cond then Done(w.s.(pc := Dec16(w.r.value)), w.trace) else Done(w.s, w.trace)
  }

  /** RetCond: if `cond`, PC's low byte from SP, SP+1, its high byte, SP+1, then PC-1. */
  function RetCond(s: State, t: seq<Access>, log: seq<Access>, cond: bool): Effect
  {
    if !cond then Done(s, t) else
    var lo := Read(s, t, log, s.sp);
    if lo.r.Err? then Fail(lo) else
    var s1 := lo.s.(pc := Word(Hi(lo.s.pc), lo.r.value));
    var s2 := s1.(sp := Inc16(s1.sp));
    var hi := Read(s2, lo.trace, log, s2.sp);
    if hi.r.Err? then Fail(hi) else
    var s3 := hi.s.(pc := Word(hi.r.value, Lo(hi.s.pc)));
    Done(s3.(sp := Inc16(s3.sp), pc := Dec16(s3.pc)), hi.trace)
  }

  /** JrCondR8: read the offset; if `cond`, add it, sign-extended, to PC (already past the offset). */
  function JrCondR8(s: State, t: seq<Access>, log: seq<Access>, cond: bool): Effect
  {
    var v := LoadImmediate8(s, t, log);
    if v.r.Err? then Fail(v) else
    if cond then Done(v.s.(pc := (v.s.pc + Signed8(v.r.value)) % 0x1_0000), v.trace) else Done(v.s, v.trace)
  }

  /** The accumulator templates AddAn … CpN. */
  function ApplyAlu(op: AluOp, a: u8, f: u8, n: u8): Arith.Flagged
  {
    match op
    case AddOp => Arith.Add(a, f, n) case AdcOp => Arith.Adc(a, f, n)
    case SubOp => Arith.Sub(a, f, n) case SbcOp => Arith.Sbc(a, f, n)
    case AndOp => Arith.And(a, f, n) case XorOp => Arith.Xor(a, f, n)
    case OrOp => Arith.Or(a, f, n) case CpOp => Arith.Cp(a, f, n)
  }

  function AluOn(s: State, op: AluOp, n: u8): State
  {
    var r := ApplyAlu(op, s.a, s.f, n);
    s.(a := r.v, f := r.f)
  }

  /** The shift and rotation templates; `cb` only matters to the four rotations. */
  function ApplyShift(op: Shift, x: u8, f: u8, cb: bool): Arith.Flagged
  {
    match op
    case RlcOp => Arith.Rlc(x, f, cb) case RrcOp => Arith.Rrc(x, f, cb)
    case RlOp => Arith.Rl(x, f, cb) case RrOp => Arith.Rr(x, f, cb)
    case SlaOp => Arith.Sla(x, f) case SraOp => Arith.Sra(x, f)
    case SwapOp => Arith.Swap(x, f) case SrlOp => Arith.Srl(x, f)
  }

  /** A CB template on one byte: the byte it leaves and the F register. */
  function ApplyCb(i: CbInstr, x: u8, f: u8): Arith.Flagged
    requires WellFormedCb(i)
  {
    match i
    case Shifted(op, _) => ApplyShift(op, x, f, true)
    case TestBit(n, _) => Arith.Flagged(x, Arith.TestBit(n, x, f))
    case ResetBit(n, _) => Arith.Flagged(Arith.ResetBit(n, x), f)
    case SetBit(n, _) => Arith.Flagged(Arith.SetBit(n, x), f)
  }

  /** The condition a conditional closure reads from the flags before it runs its template. */
  predicate Holds(cc: Cond, f: u8)
  {
    match cc
    case Always => true
    case IfNz => !Zero(f) case IfZ => Zero(f)
    case IfNc => !Carry(f) case IfC => Carry(f)
  }

  // ---- the closures of the base table (instructions.go) ----

  /** A write of A to `addr`, then one step of HL if it succeeded (LD (HL+), A and LD (HL-), A). */
  function StepHl(s: State, w: Effect, up: bool): Effect
  {
    if w.status.Failure? then w else Done(PutPair(w.s, HL, if up then Inc16(Hl(s)) else Dec16(Hl(s))), w.trace)
  }

  /** The loads and stores. */
  function RunTransfer(s: State, t: seq<Access>, log: seq<Access>, i: Instr): Effect
    requires i.Load? || i.LoadImm? || i.LoadPairImm? || i.StoreSp? || i.LoadSpHl? || i.StoreAtPair? || i.LoadAtPair? ||
             i.StoreHlStep? || i.LoadHlStep? || i.StoreHigh? || i.LoadHigh? || i.StoreHighC? || i.LoadHighC? ||
             i.StoreAbs? || i.LoadAbs?
  {
    match i
    case Load(dst, src) =>
      if dst == AtHl then (if src == AtHl then Done(s, t) else Write(s, t, log, Hl(s), Get(s, src)))
      else if src == AtHl then LdRm(s, t, log, dst, Hl(s))
      else Done(Put(s, dst, Get(s, src)), t)
    case LoadImm(dst) =>
      if dst != AtHl then LdRd8(s, t, log, dst) else
      var v := LoadImmediate8(s, t, log);
      if v.r.Err? then Fail(v) else Write(v.s, v.trace, log, Hl(v.s), v.r.value)
    case LoadPairImm(rr) => LdRrD16(s, t, log, rr)
    case StoreSp =>
      var w := LoadImmediate16(s, t, log);
      if w.r.Err? then Effect(w.s, w.trace, Failure(w.r.error)) else
      var lo := Write(w.s, w.trace, log, w.r.value, Lo(w.s.sp));
      if lo.status.Failure? then lo else Write(lo.s, lo.trace, log, Inc16(w.r.value), Hi(lo.s.sp))
    case LoadSpHl => Done(s.(sp := Hl(s)), t)
    case StoreAtPair(rr) => Write(s, t, log, GetPair(s, rr), s.a)
    case LoadAtPair(rr) => LdRm(s, t, log, A, GetPair(s, rr))
    case StoreHlStep(up) => StepHl(s, Write(s, t, log, Hl(s), s.a), up)
    case LoadHlStep(up) => StepHl(s, LdRm(s, t, log, A, Hl(s)), up)
    case StoreHigh =>
      var v := LoadImmediate8(s, t, log);
      if v.r.Err? then Fail(v) else Write(v.s, v.trace, log, 0xFF00 + v.r.value, v.s.a)
    case LoadHigh =>
      var v := LoadImmediate8(s, t, log);
      if v.r.Err? then Fail(v) else LdRm(v.s, v.trace, log, A, 0xFF00 + v.r.value)
    case StoreHighC => Write(s, t, log, 0xFF00 + s.c, s.a)
    case LoadHighC => LdRm(s, t, log, A, 0xFF00 + s.c)
    case StoreAbs =>
      var w := LoadImmediate16(s, t, log);
      if w.r.Err? then Effect(w.s, w.trace, Failure(w.r.error)) else Write(w.s, w.trace, log, w.r.value, w.s.a)
    case LoadAbs =>
      var w := LoadImmediate16(s, t, log);
      if w.r.Err? then Effect(w.s, w.trace, Failure(w.r.error)) else LdRm(w.s, w.trace, log, A, w.r.value)
  }

  /** The 8-bit arithmetic, including INC and DEC of (HL), which set the flags before the write-back can fail. */
  function RunArith(s: State, t: seq<Access>, log: seq<Access>, i: Instr): Effect
    requires i.Alu? || i.AluImm? || i.Inc? || i.Dec? || i.Daa? || i.Cpl? || i.Scf? || i.Ccf? || i.RotateA?
  {
    match i
    case Alu(op, x) =>
      if x != AtHl then Done(AluOn(s, op, Get(s, x)), t) else
      var v := Read(s, t, log, Hl(s));
      if v.r.Err? then Fail(v) else Done(AluOn(v.s, op, v.r.value), v.trace)
    case AluImm(op) =>
      var v := LoadImmediate8(s, t, log);
      if v.r.Err? then Fail(v) else Done(AluOn(v.s, op, v.r.value), v.trace)
    case Inc(x) =>
      if x != AtHl then (var r := Arith.Inc(Get(s, x), s.f); Done(Put(s, x, r.v).(f := r.f), t)) else
      var v := Read(s, t, log, Hl(s));
      if v.r.Err? then Fail(v) else
      var r := Arith.Inc(v.r.value, v.s.f);
      Write(v.s.(f := r.f), v.trace, log, Hl(s), r.v)
    case Dec(x) =>
      if x != AtHl then (var r := Arith.Dec(Get(s, x), s.f); Done(Put(s, x, r.v).(f := r.f), t)) else
      var v := Read(s, t, log, Hl(s));
      if v.r.Err? then Fail(v) else
      var r := Arith.Dec(v.r.value, v.s.f);
      Write(v.s.(f := r.f), v.trace, log, Hl(s), r.v)
    case Daa => var r := Arith.Daa(s.a, s.f); Done(s.(a := r.v, f := r.f), t)
    case Cpl => var r := Arith.Cpl(s.a, s.f); Done(s.(a := r.v, f := r.f), t)
    case Scf => Done(s.(f := Arith.Scf(s.f)), t)
    case Ccf => Done(s.(f := Arith.Ccf(s.f)), t)
    case RotateA(rot) => var r := ApplyShift(rot, s.a, s.f, false); Done(s.(a := r.v, f := r.f), t)
  }

  /** RunArith's ADD-family on an immediate, on its own. */
  lemma AluImmRuns(s: State, t: seq<Access>, log: seq<Access>, op: AluOp, v: Fetched)
    requires v == LoadImmediate8(s, t, log)
    ensures RunArith(s, t, log, AluImm(op)) == if v.r.Err? then Fail(v) else Done(AluOn(v.s, op, v.r.value), v.trace)
  {
  }

  /** POP AF (0xF1): PopRr, then the low nibble of F back as it was. */
  function PopAf(s: State, t: seq<Access>, log: seq<Access>): Effect
  {
    var p := PopRr(s, t, log, AF);
    if p.status.Failure? then p else Done(p.s.(f := p.s.f - p.s.f % 0x10 + s.f % 0x10), p.trace)
  }

  /** The 16-bit arithmetic and the stack. */
  function RunWords(s: State, t: seq<Access>, log: seq<Access>, i: Instr): Effect
    requires i.LoadHlSpOffset? || i.Pop? || i.Push? || i.IncPair? || i.DecPair? || i.AddHl? || i.AddSpOffset?
  {
    match i
    case LoadHlSpOffset =>
      var v := LoadImmediate8(s, t, log);
      if v.r.Err? then Fail(v) else
      var r := Arith.AddOffset(v.s.sp, v.s.f, v.r.value);
      Done(PutPair(v.s, HL, r.w).(f := r.f), v.trace)
    case AddSpOffset =>
      var v := LoadImmediate8(s, t, log);
      if v.r.Err? then Fail(v) else
      var r := Arith.AddOffset(v.s.sp, v.s.f, v.r.value);
      Done(v.s.(sp := r.w, f := r.f), v.trace)
    case Pop(rr) => if rr == AF then PopAf(s, t, log) else PopRr(s, t, log, rr)
    case Push(rr) => PushRr(s, t, log, rr)
    case IncPair(rr) => Done(PutPair(s, rr, Inc16(GetPair(s, rr))), t)
    case DecPair(rr) => Done(PutPair(s, rr, Dec16(GetPair(s, rr))), t)
    case AddHl(rr) =>
      var r := Arith.AddWords(Hl(s), s.f, GetPair(s, rr));
      Done(PutPair(s, HL, r.w).(f := r.f), t)
  }

  /** RETI (0xD9): RetCond, then IME on if the return succeeded. */
  function Reti(s: State, t: seq<Access>, log: seq<Access>): Effect
  {
    var r := RetCond(s, t, log, true);
    if r.status.Failure? then r else Done(r.s.(ime := true), r.trace)
  }

  /** Jumps, calls, returns and the control instructions. */
  function RunControl(s: State, t: seq<Access>, log: seq<Access>, i: Instr): Effect
    requires i.Nop? || i.Stop? || i.Halt? || i.Di? || i.Ei? || i.Jr? || i.Jp? || i.JpHl? || i.Call? || i.Ret? ||
             i.Reti? || i.Rst?
  {
    match i
    case Nop => Done(s, t)
    case Stop => Done(s.(pc := Inc16(s.pc), stop := true), t)
    case Halt => Done(s.(halt := true), t)
    case Di => Done(s.(ime := false), t)
    case Ei => Done(s.(ime := true), t)
    case Jr(cc) => JrCondR8(s, t, log, Holds(cc, s.f))
    case Jp(cc) => JpCondA16(s, t, log, Holds(cc, s.f))
    case JpHl => Done(s.(pc := Dec16(Hl(s))), t)
    case Call(cc) => CallCondA16(s, t, log, Holds(cc, s.f))
    case Ret(cc) => RetCond(s, t, log, Holds(cc, s.f))
    case Reti => Reti(s, t, log)
    case Rst(target) => Rst(s, t, log, target)
  }

  predicate IsTransfer(i: Instr)
  {
    i.Load? || i.LoadImm? || i.LoadPairImm? || i.StoreSp? || i.LoadSpHl? || i.StoreAtPair? || i.LoadAtPair? ||
    i.StoreHlStep? || i.LoadHlStep? || i.StoreHigh? || i.LoadHigh? || i.StoreHighC? || i.LoadHighC? ||
    i.StoreAbs? || i.LoadAbs?
  }

  predicate IsArith(i: Instr)
  {
    i.Alu? || i.AluImm? || i.Inc? || i.Dec? || i.Daa? || i.Cpl? || i.Scf? || i.Ccf? || i.RotateA?
  }

  predicate IsWords(i: Instr)
  {
    i.LoadHlSpOffset? || i.Pop? || i.Push? || i.IncPair? || i.DecPair? || i.AddHl? || i.AddSpOffset?
  }

  /** Every closure but PREFIX CB, which runs a second closure. */
  function Run(s: State, t: seq<Access>, log: seq<Access>, i: Instr): Effect
    requires !i.PrefixCb?
  {
    if IsTransfer(i) then RunTransfer(s, t, log, i)
    else if IsArith(i) then RunArith(s, t, log, i)
    else if IsWords(i) then RunWords(s, t, log, i)
    else RunControl(s, t, log, i)
  }

  // ---- the closures of the CB table (instructionscb.go) ----

  /** A CB closure: on a register, or on a copy of the byte at HL that is written back unless it only tests a bit. */
  function ExecCb(s: State, t: seq<Access>, log: seq<Access>, i: CbInstr): Effect
    requires WellFormedCb(i)
  {
    if i.x != AtHl then
      var r := ApplyCb(i, Get(s, i.x), s.f);
      Done(Put(s, i.x, r.v).(f := r.f), t)
    else
      var v := Read(s, t, log, Hl(s));
      if v.r.Err? then Fail(v) else
      var r := ApplyCb(i, v.r.value, v.s.f);
      if i.TestBit? then Done(v.s.(f := r.f), v.trace) else Write(v.s.(f := r.f), v.trace, log, Hl(s), r.v)
  }

  // ---- one entry, and one step of Start ----

  /** An entry's effect and the cycle count its closure reports. */
  datatype Outcome = Outcome(s: State, trace: seq<Access>, status: Status, cycles: nat)

  /** Taken unless the entry is a conditional jump, call or return whose condition fails. */
  predicate Taken(i: Instr, f: u8)
  {
    match i
    case Jr(cc) => Holds(cc, f) case Jp(cc) => Holds(cc, f)
    case Call(cc) => Holds(cc, f) case Ret(cc) => Holds(cc, f)
    case _ => true
  }

  /**
   * Run an entry. The conditional closures report their taken count only when
   * the template succeeded and the condition held; PREFIX CB reports 4 if
   * its operand cannot be read and the CB entry's count otherwise.
   */
  function Exec(s: State, t: seq<Access>, log: seq<Access>, e: Entry): Outcome
  {
    if e.ins.PrefixCb? then ExecPrefixCb(s, t, log)
    else
      var r := Run(s, t, log, e.ins);
      Outcome(r.s, r.trace, r.status, if r.status.Success? && Taken(e.ins, s.f) then e.cycles else e.skipped)
  }

  /** The PREFIX CB entry: read the CB opcode after PC and run that entry of the CB table. */
  function ExecPrefixCb(s: State, t: seq<Access>, log: seq<Access>): Outcome
  {
    var v := LoadImmediate8(s, t, log);
    if v.r.Err? then Outcome(v.s, v.trace, Failure(v.r.error), 4) else
    var ce := TableCb(v.r.value);
    CbWellFormed(v.r.value);
    var r := ExecCb(v.s, v.trace, log, ce.ins);
    Outcome(r.s, r.trace, r.status, ce.cycles)
  }

  /** Start's loop body up to the clocks: read the opcode at PC, run its entry, and step PC past the instruction. */
  function Step(s: State, log: seq<Access>): Outcome
  {
    var op := Reply(log, 0, s.pc);
    var t := [Bus.ReadAt(s.pc, op)];
    if op.Err? then Outcome(s, t, Failure(op.error), 0) else
    match Table(op.value)
    case None => Outcome(s, t, Failure(NoSuchInstruction(op.value)), 0)
    case Some(e) =>
      var o := Exec(s, t, log, e);
      if o.status.Failure? then o else o.(s := o.s.(pc := Inc16(o.s.pc)))
  }

  /** Step, once the opcode has been read and its entry run. */
  lemma StepRuns(s: State, t: seq<Access>, rest: seq<Access>, op: u8, e: Entry, o: Outcome)
    requires t == [Bus.ReadAt(s.pc, Ok(op))] && Table(op) == Some(e)
    requires Exec(s, t, t + rest, e) == o
    ensures Step(s, t + rest) == if o.status.Failure? then o else o.(s := o.s.(pc := Inc16(o.s.pc)))
  {
    assert (t + rest)[0] == t[0];
  }

  /** Concatenation of traces is associative (stated once, so that callers need no sequence extensionality). */
  lemma Assoc(a: seq<Access>, b: seq<Access>, c: seq<Access>)
    ensures a + b + c == a + (b + c)
  {
  }

  // ---- interrupts (interrupts.go) ----

  /** The registers, the IF byte, the accesses and the outcome of handleInterrupts. */
  datatype Serviced = Serviced(s: State, ifd: u8, trace: seq<Access>, status: Status)

  /** jumpToISR: IME off, push PC, jump. */
  function JumpToIsr(s: State, t: seq<Access>, log: seq<Access>, addr: u16): Effect
  {
    var p := PushPc(s.(ime := false), t, log);
    if p.status.Failure? then p else Done(p.s.(pc := addr), p.trace)
  }

  /** Clear interrupt k's IF bit and jump to its routine. */
  function Service(s: State, ifd: u8, log: seq<Access>, k: nat, addr: u16): Serviced
    requires k < 8
  {
    var e := JumpToIsr(s, [], log, addr);
    Serviced(e.s, Arith.ResetBit(k, ifd), e.trace, e.status)
  }

  /** handleInterrupts, given IE and IF. */
  function HandleInterrupts(s: State, ie: u8, ifd: u8, log: seq<Access>): Serviced
  {
    var s1 := if ifd != 0 then s.(halt := false, stop := false) else s;
    if !s1.ime then Serviced(s1, ifd, [], Success) else
    var mask := And8(ie, ifd);
    if And8(mask, Irq.VerticalBlankFlag) != 0 then Service(s1, ifd, log, 0, Irq.AddrVerticalBlank)
    else if And8(mask, Irq.LcdStatusTriggersFlag) != 0 then Service(s1, ifd, log, 1, Irq.AddrLcdStatusTriggers)
    else if And8(mask, Irq.TimerOverflowFlag) != 0 then Service(s1, ifd, log, 2, Irq.AddrTimerOverflow)
    else if And8(mask, Irq.SerialLinkFlag) != 0 then Service(s1, ifd, log, 3, Irq.AddrSerialLink)
    else if And8(mask, Irq.JoypadPressFlag) != 0 then Service(s1, ifd, log, 4, Irq.AddrJoypadPress)
    else Serviced(s1, ifd, [], Success)
  }

  // ---- what the instructions promise ----

  /** The byte the last successful write to `addr` in `t` stored, if there was one. */
  function LastStored(t: seq<Access>, addr: u16): Option<u8>
  {
    if t == [] then None
    else if t[|t| - 1].WriteAt? && t[|t| - 1].addr == addr && t[|t| - 1].s.Success? then Some(t[|t| - 1].d)
    else LastStored(t[..|t| - 1], addr)
  }

  /** Memory that behaves like RAM over `log`: a read of an address written earlier returns the byte written last. */
  predicate Coherent(log: seq<Access>)
  {
    forall j :: 0 <= j < |log| && log[j].ReadAt? && LastStored(log[..j], log[j].addr).Some? ==>
      log[j].r == Ok(LastStored(log[..j], log[j].addr).value)
  }

  /**
   * Two successful writes below SP from the k-th access on, then reads of
   * both, over memory that behaves like RAM: the reads return the bytes written.
   */
  lemma ReadsBack(log: seq<Access>, k: nat, sp: u16)
    requires Coherent(log) && |log| >= k + 3
    requires log[k].WriteAt? && log[k].addr == Dec16(sp) && log[k].s.Success?
    requires log[k + 1].WriteAt? && log[k + 1].addr == Dec16(Dec16(sp)) && log[k + 1].s.Success?
    requires log[k + 2].ReadAt? && log[k + 2].addr == Dec16(Dec16(sp))
    ensures log[k + 2].r == Ok(log[k + 1].d)
    ensures |log| >= k + 4 && log[k + 3].ReadAt? && log[k + 3].addr == Dec16(sp) ==> log[k + 3].r == Ok(log[k].d)
  {
    assert Dec16(sp) != Dec16(Dec16(sp));
    assert log[..k + 2][..k + 1] == log[..k + 1] && log[..k + 1][..k] == log[..k];
    assert LastStored(log[..k + 2], log[k + 2].addr) == Some(log[k + 1].d);
    if |log| >= k + 4 && log[k + 3].ReadAt? && log[k + 3].addr == Dec16(sp) {
      assert log[..k + 3][..k + 2] == log[..k + 2];
      assert LastStored(log[..k + 1], log[k + 3].addr) == Some(log[k].d);
      assert LastStored(log[..k + 2], log[k + 3].addr) == Some(log[k].d);
      assert LastStored(log[..k + 3], log[k + 3].addr) == Some(log[k].d);
    }
  }

  /** PushRr then PopRr of the same pair, other than SP, over RAM-like memory restores every register. */
  lemma PushThenPop(s: State, rr: Pair, log: seq<Access>)
    requires rr != SP && Coherent(log)
    requires PushRr(s, [], log, rr).status.Success?
    requires PopRr(PushRr(s, [], log, rr).s, PushRr(s, [], log, rr).trace, log, rr).trace == log
    ensures PopRr(PushRr(s, [], log, rr).s, PushRr(s, [], log, rr).trace, log, rr) == Done(s, log)
  {
    var p := PushRr(s, [], log, rr);
    var q := PopRr(p.s, p.trace, log, rr);
    assert |p.trace| == 2;
    ReadsBack(log, 0, s.sp);
    WordOfHalves(GetPair(s, rr));
    IncDec16Inverse(Dec16(s.sp));
    IncDec16Inverse(s.sp);
  }

  /** PUSH AF then POP AF (0xF5, 0xF1) over RAM-like memory restores A and all of F. */
  lemma PushThenPopAf(s: State, log: seq<Access>)
    requires Coherent(log)
    requires PushRr(s, [], log, AF).status.Success?
    requires PopAf(PushRr(s, [], log, AF).s, PushRr(s, [], log, AF).trace, log).trace == log
    ensures PopAf(PushRr(s, [], log, AF).s, PushRr(s, [], log, AF).trace, log) == Done(s, log)
  {
    var p := PushRr(s, [], log, AF);
    assert |p.trace| == 2;
    ReadsBack(log, 0, s.sp);
    WordOfHalves(GetPair(s, AF));
    IncDec16Inverse(Dec16(s.sp));
    IncDec16Inverse(s.sp);
  }

  /**
   * A POP AF that succeeds keeps F's low nibble, so a low nibble of 0 stays
   * 0; the high nibble comes from the stack. (If the second read fails, F
   * keeps the whole byte the first read set.)
   */
  lemma PopAfKeepsLowNibble(s: State, t: seq<Access>, log: seq<Access>)
    ensures var r := PopAf(s, t, log);
      r.status.Success? ==>
        r.s.f % 0x10 == s.f % 0x10 && r.s.f / 0x10 == r.trace[|t|].r.value / 0x10 && r.s.sp == Inc16(Inc16(s.sp))
  {
    var p := PopRr(s, t, log, AF);
    if p.status.Success? {
      var lo := p.trace[|t|].r.value;
      assert p.s.f == lo;
      assert lo - lo % 0x10 == lo / 0x10 * 0x10;
      DivUnique(lo - lo % 0x10 + s.f % 0x10, 0x10, lo / 0x10, s.f % 0x10);
      ModUnique(lo - lo % 0x10 + s.f % 0x10, 0x10, lo / 0x10, s.f % 0x10);
    }
  }

  /** A push of PC that succeeds: two writes below SP, the high byte first. */
  lemma PushPcSucceeds(s: State, t: seq<Access>, log: seq<Access>)
    requires PushPc(s, t, log).status.Success?
    ensures PushPc(s, t, log) == Done(s.(sp := Dec16(Dec16(s.sp))),
      t + [Bus.WriteAt(Dec16(s.sp), Hi(s.pc), Success), Bus.WriteAt(Dec16(Dec16(s.sp)), Lo(s.pc), Success)])
  {
  }

  /** A taken RetCond: the reads it makes and what each outcome leaves. */
  lemma RetTaken(s: State, t: seq<Access>, log: seq<Access>)
    ensures var r := RetCond(s, t, log, true);
      var lo := Reply(log, |t|, s.sp);
      var hi := Reply(log, |t| + 1, Inc16(s.sp));
      if lo.Err? then r == Effect(s, t + [Bus.ReadAt(s.sp, lo)], Failure(lo.error))
      else if hi.Err? then r.trace == t + [Bus.ReadAt(s.sp, lo), Bus.ReadAt(Inc16(s.sp), hi)] && r.status.Failure?
      else r == Done(s.(sp := Inc16(Inc16(s.sp)), pc := Dec16(Word(hi.value, lo.value))),
                     t + [Bus.ReadAt(s.sp, lo), Bus.ReadAt(Inc16(s.sp), hi)])
  {
  }

  /**
   * CALL a16 then RET over RAM-like memory: the call leaves PC one before the
   * target; the return restores SP and leaves PC at the call's last byte, so
   * the step's increment lands on the next instruction.
   */
  lemma CallThenRet(s: State, log: seq<Access>)
    requires Coherent(log)
    requires CallCondA16(s, [], log, true).status.Success?
    requires RetCond(CallCondA16(s, [], log, true).s, CallCondA16(s, [], log, true).trace, log, true).trace == log
    ensures var c := CallCondA16(s, [], log, true);
      c.s.pc == Dec16(Word(log[1].r.value, log[0].r.value)) && c.s.sp == Dec16(Dec16(s.sp)) &&
      RetCond(c.s, c.trace, log, true) == Done(s.(pc := Inc16(Inc16(s.pc))), log)
  {
    var c := CallCondA16(s, [], log, true);
    CallTaken(s, log);
    assert c.trace <= log;
    RetAfterPush(c.s, c.trace, log, s.sp, Inc16(Inc16(Inc16(s.pc))));
    IncDec16Inverse(Inc16(Inc16(s.pc)));
  }

  /**
   * A taken RET right after a push of `ret` below `sp`, over RAM-like memory:
   * it reads the two bytes back, restores SP and leaves PC one before `ret`.
   */
  lemma RetAfterPush(s: State, t: seq<Access>, log: seq<Access>, sp: u16, ret: u16)
    requires Coherent(log) && |t| >= 2 && t <= log
    requires t[|t| - 2] == Bus.WriteAt(Dec16(sp), Hi(ret), Success)
    requires t[|t| - 1] == Bus.WriteAt(Dec16(Dec16(sp)), Lo(ret), Success)
    requires s.sp == Dec16(Dec16(sp))
    requires RetCond(s, t, log, true).trace == log
    ensures RetCond(s, t, log, true) == Done(s.(sp := sp, pc := Dec16(ret)), log)
  {
    RetTaken(s, t, log);
    ReadsBack(log, |t| - 2, sp);
    WordOfHalves(ret);
    IncDec16Inverse(Dec16(sp));
  }

  /** A taken CALL a16 that succeeds: two operand reads, then the push of the next instruction's address. */
  lemma CallTaken(s: State, log: seq<Access>)
    requires CallCondA16(s, [], log, true).status.Success?
    ensures |log| >= 2 && log[0].ReadAt? && log[1].ReadAt? && log[0].r.Ok? && log[1].r.Ok?
    ensures var c := CallCondA16(s, [], log, true); var ret := Inc16(Inc16(Inc16(s.pc)));
      c.s == s.(pc := Dec16(Word(log[1].r.value, log[0].r.value)), sp := Dec16(Dec16(s.sp))) &&
      c.trace == [Bus.ReadAt(Inc16(s.pc), log[0].r), Bus.ReadAt(Inc16(Inc16(s.pc)), log[1].r),
                  Bus.WriteAt(Dec16(s.sp), Hi(ret), Success), Bus.WriteAt(Dec16(Dec16(s.sp)), Lo(ret), Success)]
  {
    var w := LoadImmediate16(s, [], log);
    var ret := w.s.(pc := Inc16(w.s.pc));
    PushPcSucceeds(ret, w.trace, log);
    assert |w.trace| == 2;
  }

  /**
   * An interrupt's jumpToISR then RETI over RAM-like memory: SP is restored,
   * IME is set again and PC is one before the interrupted instruction, which
   * the step's increment then runs.
   */
  lemma IsrThenReti(s: State, addr: u16, log: seq<Access>)
    requires Coherent(log)
    requires JumpToIsr(s, [], log, addr).status.Success?
    requires Reti(JumpToIsr(s, [], log, addr).s, JumpToIsr(s, [], log, addr).trace, log).trace == log
    ensures var j := JumpToIsr(s, [], log, addr);
      j.s == s.(ime := false, sp := Dec16(Dec16(s.sp)), pc := addr) &&
      Reti(j.s, j.trace, log) == Done(s.(pc := Dec16(s.pc), ime := true), log)
  {
    var j := JumpToIsr(s, [], log, addr);
    PushPcSucceeds(s.(ime := false), [], log);
    assert j.trace <= log;
    RetAfterPush(j.s, j.trace, log, s.sp, s.pc);
  }

  /** LD (HL±), A and LD A, (HL±) step HL only when the access succeeded; a failure leaves every register as it was. */
  lemma HlStepOnlyOnSuccess(s: State, t: seq<Access>, log: seq<Access>, up: bool)
    ensures var w := RunTransfer(s, t, log, StoreHlStep(up));
      w.trace == t + [Bus.WriteAt(Hl(s), s.a, w.status)] &&
      (w.status.Failure? ==> w.s == s) &&
      (w.status.Success? ==> Hl(w.s) == (if up then Inc16(Hl(s)) else Dec16(Hl(s))) && w.s.a == s.a)
    ensures var r := RunTransfer(s, t, log, LoadHlStep(up));
      r.trace == t + [Bus.ReadAt(Hl(s), Reply(log, |t|, Hl(s)))] &&
      (r.status.Failure? ==> r.s == s) &&
      (r.status.Success? ==> Hl(r.s) == (if up then Inc16(Hl(s)) else Dec16(Hl(s))) && r.s.a == Reply(log, |t|, Hl(s)).value)
  {
    var step := if up then Inc16(Hl(s)) else Dec16(Hl(s));
    PutPairGets(s, HL, step);
    var v := Reply(log, |t|, Hl(s));
    if v.Ok? {
      var s1 := Put(s, A, v.value);
      PutPairGets(s1, HL, step);
      assert Hl(s1) == Hl(s);
    }
  }

  /** DI (0xF3) clears IME, makes no access and reports 4 cycles. */
  lemma DiEntry(s: State, t: seq<Access>, log: seq<Access>)
    ensures Table(0xF3).Some? && Exec(s, t, log, Table(0xF3).value) == Outcome(s.(ime := false), t, Success, 4)
  {
    assert Table(0xF3) == Some(Fixed(Di, 1, 4));
  }

  /** EI (0xFB) sets IME at once, makes no access and reports 4 cycles. */
  lemma EiEntry(s: State, t: seq<Access>, log: seq<Access>)
    ensures Table(0xFB).Some? && Exec(s, t, log, Table(0xFB).value) == Outcome(s.(ime := true), t, Success, 4)
  {
    assert Table(0xFB) == Some(Fixed(Ei, 1, 4));
  }

  /** HALT (0x76) sets the halt flag, makes no access and reports 4 cycles. */
  lemma HaltEntry(s: State, t: seq<Access>, log: seq<Access>)
    ensures Table(0x76).Some? && Exec(s, t, log, Table(0x76).value) == Outcome(s.(halt := true), t, Success, 4)
  {
    assert Table(0x76) == Some(Fixed(Halt, 1, 4));
  }

  /** STOP (0x10) skips its second byte, sets the stop flag, makes no access and reports 4 cycles. */
  lemma StopEntry(s: State, t: seq<Access>, log: seq<Access>)
    ensures Table(0x10).Some? &&
      Exec(s, t, log, Table(0x10).value) == Outcome(s.(pc := Inc16(s.pc), stop := true), t, Success, 4)
  {
    assert Table(0x10) == Some(Fixed(Stop, 2, 4));
  }

  /** A step on an opcode with no entry reads it, changes no register and fails with NoSuchInstruction. */
  lemma UnassignedFails(s: State, log: seq<Access>)
    requires |log| > 0 && log[0].ReadAt? && log[0].r.Ok? && Unassigned(log[0].r.value)
    ensures Step(s, log) == Outcome(s, [Bus.ReadAt(s.pc, log[0].r)], Failure(NoSuchInstruction(log[0].r.value)), 0)
  {
    TableAgrees(log[0].r.value);
  }

  /** RES and SET leave F alone and change only bit n of their operand. */
  lemma ResSetKeepFlags(s: State, t: seq<Access>, log: seq<Access>, i: CbInstr)
    requires WellFormedCb(i) && (i.ResetBit? || i.SetBit?)
    ensures ExecCb(s, t, log, i).s.f == s.f
    ensures i.x != AtHl ==> forall j :: 0 <= j < 8 ==>
      (Bit(Get(ExecCb(s, t, log, i).s, i.x), j) <==> if j == i.n then i.SetBit? else Bit(Get(s, i.x), j))
  {
  }

  /** BIT n, (HL) reads the byte at HL and never writes; Z says bit n was clear, H is set, N clear, C kept. */
  lemma TestBitAtHlOnlyReads(s: State, t: seq<Access>, log: seq<Access>, n: nat)
    requires n < 8
    ensures var r := ExecCb(s, t, log, TestBit(n, AtHl));
      var v := Reply(log, |t|, Hl(s));
      r.trace == t + [Bus.ReadAt(Hl(s), v)] &&
      (r.status.Success? ==> r.s == s.(f := r.s.f) && (Zero(r.s.f) <==> !Bit(v.value, n)) &&
                              !Subtract(r.s.f) && HalfCarry(r.s.f) && Carry(r.s.f) == Carry(s.f))
  {
  }

  /**
   * PREFIX CB reads the CB opcode after PC and runs that entry: 16 cycles on
   * (HL), 8 on a register; if the byte cannot be read it fails after 4.
   */
  lemma PrefixRunsCbEntry(s: State, t: seq<Access>, log: seq<Access>)
    ensures Table(0xCB).Some?
    ensures var o := Exec(s, t, log, Table(0xCB).value);
      var v := LoadImmediate8(s, t, log);
      if v.r.Err? then o == Outcome(v.s, v.trace, Failure(v.r.error), 4)
      else o.cycles == (if TableCb(v.r.value).ins.x == AtHl then 16 else 8) &&
           WellFormedCb(TableCb(v.r.value).ins) &&
           Effect(o.s, o.trace, o.status) == ExecCb(v.s, v.trace, log, TableCb(v.r.value).ins)
  {
    TableAgrees(0xCB);
    var v := LoadImmediate8(s, t, log);
    if v.r.Ok? {
      TableCbAgrees(v.r.value);
    }
  }

  /**
   * The conditional jumps, calls and returns report the taken count only
   * when they succeed and the condition holds: JR 12/8, JP 16/12, CALL 24/12,
   * RET 20/8. Unconditional JR, JP, CALL and RET report 12, 16, 24 and 16.
   */
  lemma BranchCycles(s: State, t: seq<Access>, log: seq<Access>, i: Instr)
    requires i.Jr? || i.Jp? || i.Call? || i.Ret?
    ensures var o := Exec(s, t, log, Expected(i));
      var taken := o.status.Success? && Holds(i.cc, s.f);
      (i.Jr? ==> o.cycles == if i.cc == Always || taken then 12 else 8) &&
      (i.Jp? ==> o.cycles == if i.cc == Always || taken then 16 else 12) &&
      (i.Call? ==> o.cycles == if i.cc == Always || taken then 24 else 12) &&
      (i.Ret? ==> o.cycles == if i.cc == Always then 16 else if taken then 20 else 8)
  {
  }

  // ---- what interrupt handling promises ----

  /** An IF flag bit is set in a mask exactly when `mask & flag` is non-zero. */
  lemma FlagTest(mask: u8, k: nat)
    requires k < 8
    ensures Pow2(k) < 0x100 && (And8(mask, Pow2(k)) != 0 <==> Bit(mask, k))
  {
    Pow2Table();
    assert Pow2(k) < 0x100 by {
      assert k == 0 || k == 1 || k == 2 || k == 3 || k == 4 || k == 5 || k == 6 || k == 7;
    }
    var m := And8(mask, Pow2(k));
    forall i | 0 <= i < 8
      ensures Bit(m, i) <==> i == k && Bit(mask, k)
    {
      AndBit(mask, Pow2(k), i);
      Pow2Bit(k, i);
    }
    ZeroIffNoBit(m);
    if Bit(mask, k) {
      assert Bit(m, k);
    } else {
      assert forall i :: 0 <= i < 8 ==> !Bit(m, i);
    }
  }

  /** Which of the five interrupts handleInterrupts tests IE & IF for, in its order. */
  lemma PendingTests(ie: u8, ifd: u8)
    ensures var mask := And8(ie, ifd);
      (And8(mask, Irq.VerticalBlankFlag) != 0 <==> Bit(ie, 0) && Bit(ifd, 0)) &&
      (And8(mask, Irq.LcdStatusTriggersFlag) != 0 <==> Bit(ie, 1) && Bit(ifd, 1)) &&
      (And8(mask, Irq.TimerOverflowFlag) != 0 <==> Bit(ie, 2) && Bit(ifd, 2)) &&
      (And8(mask, Irq.SerialLinkFlag) != 0 <==> Bit(ie, 3) && Bit(ifd, 3)) &&
      (And8(mask, Irq.JoypadPressFlag) != 0 <==> Bit(ie, 4) && Bit(ifd, 4))
  {
    Pow2Table();
    var mask := And8(ie, ifd);
    FlagTest(mask, 0);
    FlagTest(mask, 1);
    FlagTest(mask, 2);
    FlagTest(mask, 3);
    FlagTest(mask, 4);
    AndBit(ie, ifd, 0);
    AndBit(ie, ifd, 1);
    AndBit(ie, ifd, 2);
    AndBit(ie, ifd, 3);
    AndBit(ie, ifd, 4);
  }

  /** A pending request (IF non-zero) ends HALT and STOP, whatever IME says. */
  lemma RequestWakes(s: State, ie: u8, ifd: u8, log: seq<Access>)
    requires ifd != 0
    ensures !HandleInterrupts(s, ie, ifd, log).s.halt && !HandleInterrupts(s, ie, ifd, log).s.stop
  {
  }

  /** handleInterrupts only ever ends HALT: a running CPU stays running. */
  lemma NeverHalts(s: State, ie: u8, ifd: u8, log: seq<Access>)
    ensures HandleInterrupts(s, ie, ifd, log).s.halt ==> s.halt
  {
  }

  /**
   * With IME off, or with none of the five interrupts both enabled and
   * requested, handleInterrupts makes no access and changes nothing but
   * HALT and STOP, which a non-zero IF clears.
   */
  lemma NothingServiced(s: State, ie: u8, ifd: u8, log: seq<Access>)
    requires !s.ime || forall j :: 0 <= j < 5 ==> !(Bit(ie, j) && Bit(ifd, j))
    ensures HandleInterrupts(s, ie, ifd, log) ==
      Serviced(if ifd != 0 then s.(halt := false, stop := false) else s, ifd, [], Success)
  {
    PendingTests(ie, ifd);
  }

  /**
   * With IME on, the lowest-numbered interrupt k that is both enabled and
   * requested is the one serviced: only its IF bit is cleared, IME goes off,
   * PC is pushed high byte first, and PC moves to 0x40 + 8k.
   */
  lemma ServicesFirstPending(s: State, ie: u8, ifd: u8, log: seq<Access>, k: nat)
    requires s.ime && k < 5 && Bit(ie, k) && Bit(ifd, k)
    requires forall j :: 0 <= j < k ==> !(Bit(ie, j) && Bit(ifd, j))
    ensures var r := HandleInterrupts(s, ie, ifd, log);
      (forall i :: 0 <= i < 8 ==> (Bit(r.ifd, i) <==> i != k && Bit(ifd, i))) &&
      (r.status.Success? ==>
        r.s == s.(halt := false, stop := false, ime := false, sp := Dec16(Dec16(s.sp)), pc := 0x40 + 8 * k) &&
        r.trace == [Bus.WriteAt(Dec16(s.sp), Hi(s.pc), Success), Bus.WriteAt(Dec16(Dec16(s.sp)), Lo(s.pc), Success)])
  {
    PendingTests(ie, ifd);
    assert ifd != 0 by {
      if ifd == 0 {
        ZeroBit(k);
      }
    }
    var s1 := s.(halt := false, stop := false);
    var p := PushPc(s1.(ime := false), [], log);
    if p.status.Success? {
      PushPcSucceeds(s1.(ime := false), [], log);
    }
  }
}
