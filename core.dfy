/**
 * cpu/core.go, with the closures of cpu/instructions.go and
 * cpu/instructionscb.go, the templates of cpu/instructiontemplates.go and
 * cpu/interrupts.go run on the core's own registers: the CPU of the machine.
 *
 * `Core` keeps the registers as fields, as the Go struct does, and reaches
 * memory through `Bus.Machine`, whose ghost `trace` records every access.
 * Each method that runs part of an instruction takes the accesses the
 * instruction has made so far (`t`) and returns the ones it made itself
 * (`acc`); it is proved to leave the registers, the accesses and the error
 * that the matching function of `Instructions` computes when the bus's
 * replies are the ones it got. What an instruction promises is proved about
 * those functions.
 */
module Cpu {
  import opened Bits
  import opened Errors
  import opened Registers
  import Op = Opcodes
  import I = Instructions
  import Bus
  import Irq
  import Flags
  import Arith = Alu

  type Access = Bus.Access

  class Core {
    /** The MMU and every unit behind it. */
    const bus: Bus.Machine

    var a: u8
    var f: u8
    var b: u8
    var c: u8
    var d: u8
    var e: u8
    var h: u8
    var l: u8
    var sp: u16
    var pc: u16
    /** The interrupt master enable. */
    var ime: bool
    var halt: bool
    var stop: bool
    /** Set by Stop: Start's loop ends. */
    var quit: bool
    /** The units told of every instruction's cycles, in registration order. */
    var timedUnits: seq<Bus.TimedUnit>

    /** The bus keeps its invariants, and the core is not one of its parts. */
    ghost predicate Valid()
      reads bus.Repr
    {
      BusSealed(1) && this !in bus.Repr
    }

    /*
     * The bus's invariant sits behind one level of recursion, so that a proof
     * that only carries it past a change of registers never looks inside it.
     */
    ghost predicate BusSealed(depth: nat)
      reads bus.Repr
      decreases depth
    {
      if depth == 0 then bus.Valid() else BusSealed(depth - 1)
    }

    lemma OpenBus()
      requires BusSealed(1)
      ensures bus.Valid()
    {
      assert BusSealed(0);
    }

    lemma SealBus()
      requires bus.Valid()
      ensures BusSealed(1)
    {
      assert BusSealed(0);
    }

    /** The registers and the three flags, as a value. */
    function Snap(): I.State
      reads this
    {
      I.State(a, f, b, c, d, e, h, l, sp, pc, ime, halt, stop)
    }

    /** NewCore, on a bus whose table already maps IF at 0xFF0F and IE at 0xFFFF: every register zero, no unit clocked. */
    constructor (bus: Bus.Machine)
      requires bus.Valid()
      ensures this.bus == bus && Valid()
      ensures Snap() == I.State(0, 0, 0, 0, 0, 0, 0, 0, 0, 0, false, false, false)
      ensures !quit && timedUnits == []
    {
      this.bus := bus;
      a, f, b, c, d, e, h, l := 0, 0, 0, 0, 0, 0, 0, 0;
      sp, pc := 0, 0;
      ime, halt, stop, quit := false, false, false, false;
      timedUnits := [];
      new;
      SealBus();
    }

    // ---- registers ----

    /** The register an operand names. */
    function Reg(x: Op.Operand): (v: u8)
      requires x != Op.AtHl
      reads this
      ensures v == I.Get(Snap(), x)
    {
      match x
      case B => b case C => c case D => d case E => e
      case H => h case L => l case A => a
    }

    method SetReg(x: Op.Operand, v: u8)
      requires x != Op.AtHl
      modifies this
      ensures Snap() == I.Put(old(Snap()), x, v)
      ensures quit == old(quit) && timedUnits == old(timedUnits)
    {
      match x
      case B => b := v;
      case C => c := v;
      case D => d := v;
      case E => e := v;
      case H => h := v;
      case L => l := v;
      case A => a := v;
    }

    /** Register16.get. */
    function Pair(rr: Op.Pair): (w: u16)
      reads this
      ensures w == I.GetPair(Snap(), rr)
    {
      match rr
      case BC => Word(b, c) case DE => Word(d, e) case HL => Word(h, l)
      case SP => sp case AF => Word(a, f)
    }

    method SetHigh(rr: Op.Pair, v: u8)
      modifies this
      ensures Snap() == I.PutHigh(old(Snap()), rr, v)
      ensures quit == old(quit) && timedUnits == old(timedUnits)
    {
      match rr
      case BC => b := v;
      case DE => d := v;
      case HL => h := v;
      case SP => sp := Word(v, Lo(sp));
      case AF => a := v;
    }

    method SetLow(rr: Op.Pair, v: u8)
      modifies this
      ensures Snap() == I.PutLow(old(Snap()), rr, v)
      ensures quit == old(quit) && timedUnits == old(timedUnits)
    {
      match rr
      case BC => c := v;
      case DE => e := v;
      case HL => l := v;
      case SP => sp := Word(Hi(sp), v);
      case AF => f := v;
    }

    /** Register16.set. */
    method SetPair(rr: Op.Pair, w: u16)
      modifies this
      ensures Snap() == I.PutPair(old(Snap()), rr, w)
      ensures quit == old(quit) && timedUnits == old(timedUnits)
    {
      SetLow(rr, Lo(w));
      SetHigh(rr, Hi(w));
    }

    // ---- the bus ----

    /** c.mmu.Read: one access, recorded on the bus's trace. */
    method ReadBus(addr: u16) returns (r: Result<u8>)
      requires Valid()
      modifies bus`trace, bus.Repr
      ensures Valid() && bus.trace == old(bus.trace) + [Bus.ReadAt(addr, r)]
    {
      OpenBus();
      bus.FootprintsInRepr(bus.Owner(bus.Resolve(addr)));
      r := bus.Read(addr);
      SealBus();
    }

    /** c.mmu.Write. */
    method WriteBus(addr: u16, v: u8) returns (st: Status)
      requires Valid()
      modifies bus`trace, bus.Repr
      ensures Valid() && bus.trace == old(bus.trace) + [Bus.WriteAt(addr, v, st)]
    {
      OpenBus();
      bus.FootprintsInRepr(bus.Owner(bus.Resolve(addr)));
      st := bus.Write(addr, v);
      SealBus();
    }

    /** loadImmediate8: step PC and read the byte it points at. */
    method LoadImmediate8(ghost t: seq<Access>) returns (r: Result<u8>, ghost acc: seq<Access>)
      requires Valid()
      modifies this, bus`trace, bus.Repr
      ensures Valid() && bus.trace == old(bus.trace) + acc
      ensures acc == [Bus.ReadAt(Inc16(old(pc)), r)] && Snap() == old(Snap()).(pc := Inc16(old(pc)))
      ensures I.LoadImmediate8(old(Snap()), t, t + acc) == I.Fetched(Snap(), t + acc, r)
      ensures quit == old(quit) && timedUnits == old(timedUnits)
    {
      pc := Inc16(pc);
      r := ReadBus(pc);
      acc := [Bus.ReadAt(pc, r)];
    }

    /** loadImmediate16: the low byte, then the high byte. */
    method LoadImmediate16(ghost t: seq<Access>) returns (r: Result<u16>, ghost acc: seq<Access>)
      requires Valid()
      modifies this, bus`trace, bus.Repr
      ensures Valid() && bus.trace == old(bus.trace) + acc
      ensures I.LoadImmediate16(old(Snap()), t, t + acc) == I.Fetched16(Snap(), t + acc, r)
      ensures quit == old(quit) && timedUnits == old(timedUnits)
    {
      ghost var s0 := Snap();
      var lo;
      lo, acc := LoadImmediate8(t);
      if lo.Err? {
        return Err(lo.error), acc;
      }
      var hi, acc2 := LoadImmediate8(t + acc);
      I.Assoc(t, acc, acc2);
      acc := acc + acc2;
      if hi.Err? {
        return Err(hi.error), acc;
      }
      r := Ok(Word(hi.value, lo.value));
    }
  
    // ---- templates (instructiontemplates.go) ----

    /** LdRm. */
    method LdRm(ghost t: seq<Access>, x: Op.Operand, addr: u16) returns (st: Status, ghost acc: seq<Access>)
      requires Valid() && x != Op.AtHl
      modifies this, bus`trace, bus.Repr
      ensures Valid() && bus.trace == old(bus.trace) + acc
      ensures I.LdRm(old(Snap()), t, t + acc, x, addr) == I.Effect(Snap(), t + acc, st)
      ensures quit == old(quit) && timedUnits == old(timedUnits)
    {
      var v := ReadBus(addr);
      acc := [Bus.ReadAt(addr, v)];
      if v.Err? {
        return Failure(v.error), acc;
      }
      SetReg(x, v.value);
      st := Success;
    }

    /** LdRd8. */
    method LdRd8(ghost t: seq<Access>, x: Op.Operand) returns (st: Status, ghost acc: seq<Access>)
      requires Valid() && x != Op.AtHl
      modifies this, bus`trace, bus.Repr
      ensures Valid() && bus.trace == old(bus.trace) + acc
      ensures I.LdRd8(old(Snap()), t, t + acc, x) == I.Effect(Snap(), t + acc, st)
      ensures quit == old(quit) && timedUnits == old(timedUnits)
    {
      var v;
      v, acc := LoadImmediate8(t);
      if v.Err? {
        return Failure(v.error), acc;
      }
      SetReg(x, v.value);
      st := Success;
    }

    /** LdRrD16. */
    method LdRrD16(ghost t: seq<Access>, rr: Op.Pair) returns (st: Status, ghost acc: seq<Access>)
      requires Valid()
      modifies this, bus`trace, bus.Repr
      ensures Valid() && bus.trace == old(bus.trace) + acc
      ensures I.LdRrD16(old(Snap()), t, t + acc, rr) == I.Effect(Snap(), t + acc, st)
      ensures quit == old(quit) && timedUnits == old(timedUnits)
    {
      var w;
      w, acc := LoadImmediate16(t);
      if w.Err? {
        return Failure(w.error), acc;
      }
      SetPair(rr, w.value);
      st := Success;
    }

    /** PopRr. */
    method PopRr(ghost t: seq<Access>, rr: Op.Pair) returns (st: Status, ghost acc: seq<Access>)
      requires Valid()
      modifies this, bus`trace, bus.Repr
      ensures Valid() && bus.trace == old(bus.trace) + acc
      ensures I.PopRr(old(Snap()), t, t + acc, rr) == I.Effect(Snap(), t + acc, st)
      ensures quit == old(quit) && timedUnits == old(timedUnits)
    {
      var lo := ReadBus(sp);
      acc := [Bus.ReadAt(sp, lo)];
      if lo.Err? {
        return Failure(lo.error), acc;
      }
      SetLow(rr, lo.value);
      sp := Inc16(sp);
      ghost var acc2;
      st, acc2 := PopHigh(t + acc, rr);
      I.Assoc(t, acc, acc2);
      I.Assoc(old(bus.trace), acc, acc2);
      acc := acc + acc2;
    }

    /** PopRr's second half. */
    method PopHigh(ghost t: seq<Access>, rr: Op.Pair) returns (st: Status, ghost acc: seq<Access>)
      requires Valid()
      modifies this, bus`trace, bus.Repr
      ensures Valid() && bus.trace == old(bus.trace) + acc
      ensures I.PopHigh(old(Snap()), t, t + acc, rr) == I.Effect(Snap(), t + acc, st)
      ensures quit == old(quit) && timedUnits == old(timedUnits)
    {
      var hi := ReadBus(sp);
      acc := [Bus.ReadAt(sp, hi)];
      if hi.Err? {
        return Failure(hi.error), acc;
      }
      SetHigh(rr, hi.value);
      sp := Inc16(sp);
      st := Success;
    }

    /** PushRr. */
    method PushRr(ghost t: seq<Access>, rr: Op.Pair) returns (st: Status, ghost acc: seq<Access>)
      requires Valid()
      modifies this, bus`trace, bus.Repr
      ensures Valid() && bus.trace == old(bus.trace) + acc
      ensures I.PushRr(old(Snap()), t, t + acc, rr) == I.Effect(Snap(), t + acc, st)
      ensures quit == old(quit) && timedUnits == old(timedUnits)
    {
      sp := Dec16(sp);
      var hi := Hi(Pair(rr));
      st := WriteBus(sp, hi);
      acc := [Bus.WriteAt(sp, hi, st)];
      if st.Failure? {
        return;
      }
      sp := Dec16(sp);
      var lo := Lo(Pair(rr));
      st := WriteBus(sp, lo);
      acc := acc + [Bus.WriteAt(sp, lo, st)];
    }

    /** The push of PC in Rst, CallCondA16 and jumpToISR. */
    method PushPc(ghost t: seq<Access>) returns (st: Status, ghost acc: seq<Access>)
      requires Valid()
      modifies this, bus`trace, bus.Repr
      ensures Valid() && bus.trace == old(bus.trace) + acc
      ensures I.PushPc(old(Snap()), t, t + acc) == I.Effect(Snap(), t + acc, st)
      ensures quit == old(quit) && timedUnits == old(timedUnits)
    {
      sp := Dec16(sp);
      st := WriteBus(sp, Hi(pc));
      acc := [Bus.WriteAt(sp, Hi(pc), st)];
      if st.Failure? {
        return;
      }
      sp := Dec16(sp);
      st := WriteBus(sp, Lo(pc));
      acc := acc + [Bus.WriteAt(sp, Lo(pc), st)];
    }

    /** Rst. */
    method Rst(ghost t: seq<Access>, addr: u16) returns (st: Status, ghost acc: seq<Access>)
      requires Valid()
      modifies this, bus`trace, bus.Repr
      ensures Valid() && bus.trace == old(bus.trace) + acc
      ensures I.Rst(old(Snap()), t, t + acc, addr) == I.Effect(Snap(), t + acc, st)
      ensures quit == old(quit) && timedUnits == old(timedUnits)
    {
      pc := Inc16(pc);
      st, acc := PushPc(t);
      if st.Failure? {
        return;
      }
      pc := Dec16(addr);
    }

    /** CallCondA16. */
    method CallCondA16(ghost t: seq<Access>, cond: bool) returns (st: Status, ghost acc: seq<Access>)
      requires Valid()
      modifies this, bus`trace, bus.Repr
      ensures Valid() && bus.trace == old(bus.trace) + acc
      ensures I.CallCondA16(old(Snap()), t, t + acc, cond) == I.Effect(Snap(), t + acc, st)
      ensures quit == old(quit) && timedUnits == old(timedUnits)
    {
      var w;
      w, acc := LoadImmediate16(t);
      if w.Err? {
        return Failure(w.error), acc;
      }
      if !cond {
        return Success, acc;
      }
      pc := Inc16(pc);
      ghost var acc2;
      st, acc2 := PushPc(t + acc);
      I.Assoc(t, acc, acc2);
      acc := acc + acc2;
      if st.Failure? {
        return;
      }
      pc := Dec16(w.value);
    }

    /** JpCondA16. */
    method JpCondA16(ghost t: seq<Access>, cond: bool) returns (st: Status, ghost acc: seq<Access>)
      requires Valid()
      modifies this, bus`trace, bus.Repr
      ensures Valid() && bus.trace == old(bus.trace) + acc
      ensures I.JpCondA16(old(Snap()), t, t + acc, cond) == I.Effect(Snap(), t + acc, st)
      ensures quit == old(quit) && timedUnits == old(timedUnits)
    {
      var w;
      w, acc := LoadImmediate16(t);
      if w.Err? {
        return Failure(w.error), acc;
      }
      if cond {
        pc := Dec16(w.value);
      }
      st := Success;
    }

    /** RetCond. */
    method RetCond(ghost t: seq<Access>, cond: bool) returns (st: Status, ghost acc: seq<Access>)
      requires Valid()
      modifies this, bus`trace, bus.Repr
      ensures Valid() && bus.trace == old(bus.trace) + acc
      ensures I.RetCond(old(Snap()), t, t + acc, cond) == I.Effect(Snap(), t + acc, st)
      ensures quit == old(quit) && timedUnits == old(timedUnits)
    {
      acc := [];
      if !cond {
        return Success, acc;
      }
      var lo := ReadBus(sp);
      acc := [Bus.ReadAt(sp, lo)];
      if lo.Err? {
        return Failure(lo.error), acc;
      }
      pc := Word(Hi(pc), lo.value);
      sp := Inc16(sp);
      var hi := ReadBus(sp);
      acc := acc + [Bus.ReadAt(sp, hi)];
      if hi.Err? {
        return Failure(hi.error), acc;
      }
      pc := Word(hi.value, Lo(pc));
      sp := Inc16(sp);
      pc := Dec16(pc);
      st := Success;
    }

    /** JrCondR8. */
    method JrCondR8(ghost t: seq<Access>, cond: bool) returns (st: Status, ghost acc: seq<Access>)
      requires Valid()
      modifies this, bus`trace, bus.Repr
      ensures Valid() && bus.trace == old(bus.trace) + acc
      ensures I.JrCondR8(old(Snap()), t, t + acc, cond) == I.Effect(Snap(), t + acc, st)
      ensures quit == old(quit) && timedUnits == old(timedUnits)
    {
      var v;
      v, acc := LoadImmediate8(t);
      if v.Err? {
        return Failure(v.error), acc;
      }
      if cond {
        pc := (pc + Signed8(v.value)) % 0x1_0000;
      }
      st := Success;
    }
  
    // ---- the closures of the base table (instructions.go) ----

    /** LD r, r' and its (HL) forms. */
    method LdRR(ghost t: seq<Access>, dst: Op.Operand, src: Op.Operand) returns (st: Status, ghost acc: seq<Access>)
      requires Valid()
      modifies this, bus`trace, bus.Repr
      ensures Valid() && bus.trace == old(bus.trace) + acc
      ensures I.RunTransfer(old(Snap()), t, t + acc, Op.Load(dst, src)) == I.Effect(Snap(), t + acc, st)
      ensures quit == old(quit) && timedUnits == old(timedUnits)
    {
      acc := [];
      if dst == Op.AtHl {
        if src == Op.AtHl {
          return Success, acc;
        }
        var v := Reg(src);
        st := WriteBus(Pair(Op.HL), v);
        acc := [Bus.WriteAt(Pair(Op.HL), v, st)];
      } else if src == Op.AtHl {
        st, acc := LdRm(t, dst, Pair(Op.HL));
      } else {
        SetReg(dst, Reg(src));
        st := Success;
      }
    }

    /** LD r, d8 and LD (HL), d8. */
    method LdRImm(ghost t: seq<Access>, dst: Op.Operand) returns (st: Status, ghost acc: seq<Access>)
      requires Valid()
      modifies this, bus`trace, bus.Repr
      ensures Valid() && bus.trace == old(bus.trace) + acc
      ensures I.RunTransfer(old(Snap()), t, t + acc, Op.LoadImm(dst)) == I.Effect(Snap(), t + acc, st)
      ensures quit == old(quit) && timedUnits == old(timedUnits)
    {
      if dst != Op.AtHl {
        st, acc := LdRd8(t, dst);
        return;
      }
      var v;
      v, acc := LoadImmediate8(t);
      if v.Err? {
        return Failure(v.error), acc;
      }
      var addr := Pair(Op.HL);
      st := WriteBus(addr, v.value);
      acc := acc + [Bus.WriteAt(addr, v.value, st)];
    }

    /** LD (a16), SP: the low byte at a16, the high byte at a16 + 1. */
    method LdA16Sp(ghost t: seq<Access>) returns (st: Status, ghost acc: seq<Access>)
      requires Valid()
      modifies this, bus`trace, bus.Repr
      ensures Valid() && bus.trace == old(bus.trace) + acc
      ensures I.RunTransfer(old(Snap()), t, t + acc, Op.StoreSp) == I.Effect(Snap(), t + acc, st)
      ensures quit == old(quit) && timedUnits == old(timedUnits)
    {
      var w;
      w, acc := LoadImmediate16(t);
      if w.Err? {
        return Failure(w.error), acc;
      }
      st := WriteBus(w.value, Lo(sp));
      acc := acc + [Bus.WriteAt(w.value, Lo(sp), st)];
      if st.Failure? {
        return;
      }
      st := WriteBus(Inc16(w.value), Hi(sp));
      acc := acc + [Bus.WriteAt(Inc16(w.value), Hi(sp), st)];
    }

    /** LD (HL+), A and LD (HL-), A. */
    method LdHlStepA(ghost t: seq<Access>, up: bool) returns (st: Status, ghost acc: seq<Access>)
      requires Valid()
      modifies this, bus`trace, bus.Repr
      ensures Valid() && bus.trace == old(bus.trace) + acc
      ensures I.RunTransfer(old(Snap()), t, t + acc, Op.StoreHlStep(up)) == I.Effect(Snap(), t + acc, st)
      ensures quit == old(quit) && timedUnits == old(timedUnits)
    {
      var hl := Pair(Op.HL);
      st := WriteBus(hl, a);
      acc := [Bus.WriteAt(hl, a, st)];
      if st.Failure? {
        return;
      }
      SetPair(Op.HL, if up then Inc16(hl) else Dec16(hl));
    }

    /** LD A, (HL+) and LD A, (HL-). */
    method LdAHlStep(ghost t: seq<Access>, up: bool) returns (st: Status, ghost acc: seq<Access>)
      requires Valid()
      modifies this, bus`trace, bus.Repr
      ensures Valid() && bus.trace == old(bus.trace) + acc
      ensures I.RunTransfer(old(Snap()), t, t + acc, Op.LoadHlStep(up)) == I.Effect(Snap(), t + acc, st)
      ensures quit == old(quit) && timedUnits == old(timedUnits)
    {
      var hl := Pair(Op.HL);
      st, acc := LdRm(t, Op.A, hl);
      if st.Failure? {
        return;
      }
      SetPair(Op.HL, if up then Inc16(hl) else Dec16(hl));
    }

    /** LDH (a8), A and LDH A, (a8). */
    method LdHigh(ghost t: seq<Access>, store: bool) returns (st: Status, ghost acc: seq<Access>)
      requires Valid()
      modifies this, bus`trace, bus.Repr
      ensures Valid() && bus.trace == old(bus.trace) + acc
      ensures I.RunTransfer(old(Snap()), t, t + acc, if store then Op.StoreHigh else Op.LoadHigh) ==
              I.Effect(Snap(), t + acc, st)
      ensures quit == old(quit) && timedUnits == old(timedUnits)
    {
      var v;
      v, acc := LoadImmediate8(t);
      if v.Err? {
        return Failure(v.error), acc;
      }
      ghost var acc2;
      if store {
        st := WriteBus(0xFF00 + v.value, a);
        acc2 := [Bus.WriteAt(0xFF00 + v.value, a, st)];
      } else {
        st, acc2 := LdRm(t + acc, Op.A, 0xFF00 + v.value);
      }
      I.Assoc(t, acc, acc2);
      acc := acc + acc2;
    }

    /** LD (a16), A and LD A, (a16). */
    method LdAbs(ghost t: seq<Access>, store: bool) returns (st: Status, ghost acc: seq<Access>)
      requires Valid()
      modifies this, bus`trace, bus.Repr
      ensures Valid() && bus.trace == old(bus.trace) + acc
      ensures I.RunTransfer(old(Snap()), t, t + acc, if store then Op.StoreAbs else Op.LoadAbs) ==
              I.Effect(Snap(), t + acc, st)
      ensures quit == old(quit) && timedUnits == old(timedUnits)
    {
      var w;
      w, acc := LoadImmediate16(t);
      if w.Err? {
        return Failure(w.error), acc;
      }
      ghost var acc2;
      if store {
        st := WriteBus(w.value, a);
        acc2 := [Bus.WriteAt(w.value, a, st)];
      } else {
        st, acc2 := LdRm(t + acc, Op.A, w.value);
      }
      I.Assoc(t, acc, acc2);
      acc := acc + acc2;
    }

    /** The loads and stores. */
    method RunTransfer(ghost t: seq<Access>, i: Op.Instr) returns (st: Status, ghost acc: seq<Access>)
      requires Valid() && I.IsTransfer(i)
      modifies this, bus`trace, bus.Repr
      ensures Valid() && bus.trace == old(bus.trace) + acc
      ensures I.RunTransfer(old(Snap()), t, t + acc, i) == I.Effect(Snap(), t + acc, st)
      ensures quit == old(quit) && timedUnits == old(timedUnits)
    {
      match i
      case Load(dst, src) => st, acc := LdRR(t, dst, src);
      case LoadImm(dst) => st, acc := LdRImm(t, dst);
      case LoadPairImm(rr) => st, acc := LdRrD16(t, rr);
      case StoreSp => st, acc := LdA16Sp(t);
      case LoadSpHl =>
        sp := Pair(Op.HL);
        st, acc := Success, [];
      case StoreAtPair(rr) =>
        var addr := Pair(rr);
        st := WriteBus(addr, a);
        acc := [Bus.WriteAt(addr, a, st)];
      case LoadAtPair(rr) => st, acc := LdRm(t, Op.A, Pair(rr));
      case StoreHlStep(up) => st, acc := LdHlStepA(t, up);
      case LoadHlStep(up) => st, acc := LdAHlStep(t, up);
      case StoreHigh => st, acc := LdHigh(t, true);
      case LoadHigh => st, acc := LdHigh(t, false);
      case StoreHighC =>
        var addr := 0xFF00 + c;
        st := WriteBus(addr, a);
        acc := [Bus.WriteAt(addr, a, st)];
      case LoadHighC => st, acc := LdRm(t, Op.A, 0xFF00 + c);
      case StoreAbs => st, acc := LdAbs(t, true);
      case LoadAbs => st, acc := LdAbs(t, false);
    }
  
    /** The accumulator templates: A and F from A, F and the operand. */
    method AluOn(op: Op.AluOp, n: u8)
      modifies this
      ensures Snap() == I.AluOn(old(Snap()), op, n)
      ensures quit == old(quit) && timedUnits == old(timedUnits)
    {
      var r := I.ApplyAlu(op, a, f, n);
      a, f := r.v, r.f;
    }

    /** The accumulator operation on (HL). */
    method AluHl(ghost t: seq<Access>, op: Op.AluOp) returns (st: Status, ghost acc: seq<Access>)
      requires Valid()
      modifies this, bus`trace, bus.Repr
      ensures Valid() && bus.trace == old(bus.trace) + acc
      ensures I.RunArith(old(Snap()), t, t + acc, Op.Alu(op, Op.AtHl)) == I.Effect(Snap(), t + acc, st)
      ensures quit == old(quit) && timedUnits == old(timedUnits)
    {
      var hl := Pair(Op.HL);
      var n := ReadBus(hl);
      acc := [Bus.ReadAt(hl, n)];
      if n.Err? {
        return Failure(n.error), acc;
      }
      AluOn(op, n.value);
      st := Success;
    }

    /** The accumulator operation on d8. */
    method AluImm(ghost t: seq<Access>, op: Op.AluOp) returns (st: Status, ghost acc: seq<Access>)
      requires Valid()
      modifies this, bus`trace, bus.Repr
      ensures Valid() && bus.trace == old(bus.trace) + acc
      ensures I.RunArith(old(Snap()), t, t + acc, Op.AluImm(op)) == I.Effect(Snap(), t + acc, st)
      ensures quit == old(quit) && timedUnits == old(timedUnits)
    {
      ghost var s0 := Snap();
      var n;
      n, acc := LoadImmediate8(t);
      I.AluImmRuns(s0, t, t + acc, op, I.Fetched(Snap(), t + acc, n));
      if n.Err? {
        return Failure(n.error), acc;
      }
      AluOn(op, n.value);
      st := Success;
    }

    /** INC r and DEC r. */
    method IncDecR(x: Op.Operand, up: bool)
      requires x != Op.AtHl
      modifies this
      ensures var r := if up then Arith.Inc(old(Reg(x)), old(f)) else Arith.Dec(old(Reg(x)), old(f));
        Snap() == I.Put(old(Snap()), x, r.v).(f := r.f)
      ensures quit == old(quit) && timedUnits == old(timedUnits)
    {
      var r := if up then Arith.Inc(Reg(x), f) else Arith.Dec(Reg(x), f);
      SetReg(x, r.v);
      f := r.f;
    }

    /** INC (HL) and DEC (HL): F is set before the write-back, which can fail. */
    method IncDecHl(ghost t: seq<Access>, up: bool) returns (st: Status, ghost acc: seq<Access>)
      requires Valid()
      modifies this, bus`trace, bus.Repr
      ensures Valid() && bus.trace == old(bus.trace) + acc
      ensures I.RunArith(old(Snap()), t, t + acc, if up then Op.Inc(Op.AtHl) else Op.Dec(Op.AtHl)) ==
              I.Effect(Snap(), t + acc, st)
      ensures quit == old(quit) && timedUnits == old(timedUnits)
    {
      var hl := Pair(Op.HL);
      var v := ReadBus(hl);
      acc := [Bus.ReadAt(hl, v)];
      if v.Err? {
        return Failure(v.error), acc;
      }
      var r := if up then Arith.Inc(v.value, f) else Arith.Dec(v.value, f);
      f := r.f;
      st := WriteBus(hl, r.v);
      acc := acc + [Bus.WriteAt(hl, r.v, st)];
    }

    /** The 8-bit arithmetic that touches only registers. */
    method ArithOnRegisters(ghost t: seq<Access>, i: Op.Instr)
      requires I.IsArith(i) && !i.AluImm? && (i.Alu? || i.Inc? || i.Dec? ==> i.x != Op.AtHl)
      modifies this
      ensures I.RunArith(old(Snap()), t, t, i) == I.Effect(Snap(), t, Success)
      ensures quit == old(quit) && timedUnits == old(timedUnits)
    {
      if i.Alu? {
        var v := Reg(i.x);
        AluOn(i.op, v);
      } else if i.Inc? || i.Dec? {
        IncDecR(i.x, i.Inc?);
      } else {
        OnAccumulator(t, i);
      }
    }

    /** DAA, CPL, SCF, CCF and the accumulator rotations: A and F only. */
    method OnAccumulator(ghost t: seq<Access>, i: Op.Instr)
      requires i.Daa? || i.Cpl? || i.Scf? || i.Ccf? || i.RotateA?
      modifies this
      ensures I.RunArith(old(Snap()), t, t, i) == I.Effect(Snap(), t, Success)
      ensures quit == old(quit) && timedUnits == old(timedUnits)
    {
      match i
      case Daa =>
        var r := Arith.Daa(a, f);
        a, f := r.v, r.f;
      case Cpl =>
        var r := Arith.Cpl(a, f);
        a, f := r.v, r.f;
      case Scf => f := Arith.Scf(f);
      case Ccf => f := Arith.Ccf(f);
      case RotateA(rot) =>
        var r := I.ApplyShift(rot, a, f, false);
        a, f := r.v, r.f;
    }

    /** The 8-bit arithmetic. */
    method RunArith(ghost t: seq<Access>, i: Op.Instr) returns (st: Status, ghost acc: seq<Access>)
      requires Valid() && I.IsArith(i)
      modifies this, bus`trace, bus.Repr
      ensures Valid() && bus.trace == old(bus.trace) + acc
      ensures I.RunArith(old(Snap()), t, t + acc, i) == I.Effect(Snap(), t + acc, st)
      ensures quit == old(quit) && timedUnits == old(timedUnits)
    {
      if i.AluImm? {
        st, acc := AluImm(t, i.op);
      } else if i.Alu? && i.x == Op.AtHl {
        st, acc := AluHl(t, i.op);
      } else if i.Inc? && i.x == Op.AtHl {
        st, acc := IncDecHl(t, true);
      } else if i.Dec? && i.x == Op.AtHl {
        st, acc := IncDecHl(t, false);
      } else {
        ArithOnRegisters(t, i);
        st, acc := Success, [];
      }
    }

    /** POP AF: PopRr, then F's low nibble back as it was. */
    method PopAf(ghost t: seq<Access>) returns (st: Status, ghost acc: seq<Access>)
      requires Valid()
      modifies this, bus`trace, bus.Repr
      ensures Valid() && bus.trace == old(bus.trace) + acc
      ensures I.PopAf(old(Snap()), t, t + acc) == I.Effect(Snap(), t + acc, st)
      ensures quit == old(quit) && timedUnits == old(timedUnits)
    {
      var low := f % 0x10;
      st, acc := PopRr(t, Op.AF);
      if st.Failure? {
        return;
      }
      f := f - f % 0x10 + low;
    }

    /** LD HL, SP + r8 and ADD SP, r8. */
    method SpOffset(ghost t: seq<Access>, toHl: bool) returns (st: Status, ghost acc: seq<Access>)
      requires Valid()
      modifies this, bus`trace, bus.Repr
      ensures Valid() && bus.trace == old(bus.trace) + acc
      ensures I.RunWords(old(Snap()), t, t + acc, if toHl then Op.LoadHlSpOffset else Op.AddSpOffset) ==
              I.Effect(Snap(), t + acc, st)
      ensures quit == old(quit) && timedUnits == old(timedUnits)
    {
      var v;
      v, acc := LoadImmediate8(t);
      if v.Err? {
        return Failure(v.error), acc;
      }
      var r := Arith.AddOffset(sp, f, v.value);
      if toHl {
        SetPair(Op.HL, r.w);
      } else {
        sp := r.w;
      }
      f := r.f;
      st := Success;
    }

    /** The 16-bit arithmetic and the stack. */
    method RunWords(ghost t: seq<Access>, i: Op.Instr) returns (st: Status, ghost acc: seq<Access>)
      requires Valid() && I.IsWords(i)
      modifies this, bus`trace, bus.Repr
      ensures Valid() && bus.trace == old(bus.trace) + acc
      ensures I.RunWords(old(Snap()), t, t + acc, i) == I.Effect(Snap(), t + acc, st)
      ensures quit == old(quit) && timedUnits == old(timedUnits)
    {
      acc := [];
      st := Success;
      match i
      case LoadHlSpOffset => st, acc := SpOffset(t, true);
      case AddSpOffset => st, acc := SpOffset(t, false);
      case Pop(rr) =>
        if rr == Op.AF {
          st, acc := PopAf(t);
        } else {
          st, acc := PopRr(t, rr);
        }
      case Push(rr) => st, acc := PushRr(t, rr);
      case IncPair(rr) => SetPair(rr, Inc16(Pair(rr)));
      case DecPair(rr) => SetPair(rr, Dec16(Pair(rr)));
      case AddHl(rr) =>
        var r := Arith.AddWords(Pair(Op.HL), f, Pair(rr));
        SetPair(Op.HL, r.w);
        f := r.f;
    }

    /** RETI: RetCond, then IME on. */
    method Reti(ghost t: seq<Access>) returns (st: Status, ghost acc: seq<Access>)
      requires Valid()
      modifies this, bus`trace, bus.Repr
      ensures Valid() && bus.trace == old(bus.trace) + acc
      ensures I.Reti(old(Snap()), t, t + acc) == I.Effect(Snap(), t + acc, st)
      ensures quit == old(quit) && timedUnits == old(timedUnits)
    {
      st, acc := RetCond(t, true);
      if st.Success? {
        ime := true;
      }
    }

    /** The flag test a conditional closure makes before it runs its template. */
    function Holds(cc: Op.Cond): (r: bool)
      reads this
      ensures r == I.Holds(cc, f)
    {
      match cc
      case Always => true
      case IfNz => !Flags.Zero(f) case IfZ => Flags.Zero(f)
      case IfNc => !Flags.Carry(f) case IfC => Flags.Carry(f)
    }

    /** Jumps, calls, returns and the control instructions. */
    method RunControl(ghost t: seq<Access>, i: Op.Instr) returns (st: Status, ghost acc: seq<Access>)
      requires Valid() && !i.PrefixCb? && !I.IsTransfer(i) && !I.IsArith(i) && !I.IsWords(i)
      modifies this, bus`trace, bus.Repr
      ensures Valid() && bus.trace == old(bus.trace) + acc
      ensures I.RunControl(old(Snap()), t, t + acc, i) == I.Effect(Snap(), t + acc, st)
      ensures quit == old(quit) && timedUnits == old(timedUnits)
    {
      acc := [];
      st := Success;
      match i
      case Nop =>
      case Stop =>
        pc := Inc16(pc);
        stop := true;
      case Halt => halt := true;
      case Di => ime := false;
      case Ei => ime := true;
      case Jr(cc) => st, acc := JrCondR8(t, Holds(cc));
      case Jp(cc) => st, acc := JpCondA16(t, Holds(cc));
      case JpHl => pc := Dec16(Pair(Op.HL));
      case Call(cc) => st, acc := CallCondA16(t, Holds(cc));
      case Ret(cc) => st, acc := RetCond(t, Holds(cc));
      case Reti => st, acc := Reti(t);
      case Rst(target) => st, acc := Rst(t, target);
    }

    // ---- the closures of the CB table (instructionscb.go) ----

    /** A CB closure on a register, or on (HL): read, apply, and write back unless it only tests a bit. */
    method ExecCb(ghost t: seq<Access>, i: Op.CbInstr) returns (st: Status, ghost acc: seq<Access>)
      requires Valid() && Op.WellFormedCb(i)
      modifies this, bus`trace, bus.Repr
      ensures Valid() && bus.trace == old(bus.trace) + acc
      ensures I.ExecCb(old(Snap()), t, t + acc, i) == I.Effect(Snap(), t + acc, st)
      ensures quit == old(quit) && timedUnits == old(timedUnits)
    {
      if i.x != Op.AtHl {
        var r := I.ApplyCb(i, Reg(i.x), f);
        SetReg(i.x, r.v);
        f := r.f;
        return Success, [];
      }
      var hl := Pair(Op.HL);
      var v := ReadBus(hl);
      acc := [Bus.ReadAt(hl, v)];
      if v.Err? {
        return Failure(v.error), acc;
      }
      var r := I.ApplyCb(i, v.value, f);
      f := r.f;
      if i.TestBit? {
        return Success, acc;
      }
      st := WriteBus(hl, r.v);
      acc := acc + [Bus.WriteAt(hl, r.v, st)];
    }
  
    // ---- one entry, and one step of Start ----

    /** Every closure but PREFIX CB. */
    method Run(ghost t: seq<Access>, i: Op.Instr) returns (st: Status, ghost acc: seq<Access>)
      requires Valid() && !i.PrefixCb?
      modifies this, bus`trace, bus.Repr
      ensures Valid() && bus.trace == old(bus.trace) + acc
      ensures I.Run(old(Snap()), t, t + acc, i) == I.Effect(Snap(), t + acc, st)
      ensures quit == old(quit) && timedUnits == old(timedUnits)
    {
      if I.IsTransfer(i) {
        st, acc := RunTransfer(t, i);
      } else if I.IsArith(i) {
        st, acc := RunArith(t, i);
      } else if I.IsWords(i) {
        st, acc := RunWords(t, i);
      } else {
        st, acc := RunControl(t, i);
      }
    }

    /** PREFIX CB: read the CB opcode after PC and run that entry of the CB table. */
    method PrefixCb(ghost t: seq<Access>) returns (st: Status, cycles: nat, ghost acc: seq<Access>)
      requires Valid()
      modifies this, bus`trace, bus.Repr
      ensures Valid() && bus.trace == old(bus.trace) + acc
      ensures I.ExecPrefixCb(old(Snap()), t, t + acc) == I.Outcome(Snap(), t + acc, st, cycles)
      ensures quit == old(quit) && timedUnits == old(timedUnits)
    {
      ghost var s0 := Snap();
      var v;
      v, acc := LoadImmediate8(t);
      if v.Err? {
        return Failure(v.error), 4, acc;
      }
      var ce := Op.TableCb(v.value);
      Op.CbWellFormed(v.value);
      ghost var acc2;
      st, acc2 := ExecCb(t + acc, ce.ins);
      I.Assoc(t, acc, acc2);
      I.ReadLaterLog(s0, t, t + acc, acc2);
      acc := acc + acc2;
      cycles := ce.cycles;
    }

    /** Run an entry's closure and report its cycles. */
    method Exec(ghost t: seq<Access>, en: Op.Entry) returns (st: Status, cycles: nat, ghost acc: seq<Access>)
      requires Valid()
      modifies this, bus`trace, bus.Repr
      ensures Valid() && bus.trace == old(bus.trace) + acc
      ensures I.Exec(old(Snap()), t, t + acc, en) == I.Outcome(Snap(), t + acc, st, cycles)
      ensures quit == old(quit) && timedUnits == old(timedUnits)
    {
      if en.ins.PrefixCb? {
        st, cycles, acc := PrefixCb(t);
      } else {
        var taken := I.Taken(en.ins, f);
        st, acc := Run(t, en.ins);
        cycles := if st.Success? && taken then en.cycles else en.skipped;
      }
    }

    /** Start's loop body up to the clocks: fetch the opcode at PC, run its entry, step PC. */
    method Step() returns (st: Status, cycles: nat, ghost acc: seq<Access>)
      requires Valid()
      modifies this, bus`trace, bus.Repr
      ensures Valid() && bus.trace == old(bus.trace) + acc
      ensures I.Step(old(Snap()), acc) == I.Outcome(Snap(), acc, st, cycles)
      ensures quit == old(quit) && timedUnits == old(timedUnits)
    {
      var op := ReadBus(pc);
      ghost var t := [Bus.ReadAt(pc, op)];
      if op.Err? {
        return Failure(op.error), 0, t;
      }
      var en := Op.Table(op.value);
      if en.None? {
        return Failure(NoSuchInstruction(op.value)), 0, t;
      }
      ghost var s0 := Snap();
      ghost var rest;
      st, cycles, rest := Exec(t, en.value);
      acc := t + rest;
      I.Assoc(old(bus.trace), t, rest);
      I.StepRuns(s0, t, rest, op.value, en.value, I.Outcome(Snap(), acc, st, cycles));
      if st.Success? {
        pc := Inc16(pc);
      }
    }

    // ---- interrupts (interrupts.go) ----

    /** RequestInterrupt: OR the flag into IF. */
    method RequestInterrupt(flag: u8)
      requires Valid()
      modifies bus.ifr
      ensures Valid() && bus.ifr.data == Or8(old(bus.ifr.data), flag)
    {
      OpenBus();
      Irq.Request(bus.ifr, flag);
      SealBus();
    }

    /** c.ifr = v. */
    method SetIf(v: u8)
      requires Valid()
      modifies bus.ifr
      ensures Valid() && bus.ifr.data == v
    {
      OpenBus();
      bus.ifr.data := v;
      SealBus();
    }

    /** jumpToISR: IME off, push PC, jump to `addr`. */
    method JumpToIsr(ghost t: seq<Access>, addr: u16) returns (st: Status, ghost acc: seq<Access>)
      requires Valid()
      modifies this, bus`trace, bus.Repr
      ensures Valid() && bus.trace == old(bus.trace) + acc
      ensures I.JumpToIsr(old(Snap()), t, t + acc, addr) == I.Effect(Snap(), t + acc, st)
      ensures quit == old(quit) && timedUnits == old(timedUnits)
    {
      ime := false;
      st, acc := PushPc(t);
      if st.Failure? {
        return;
      }
      pc := addr;
    }

    /** Clear interrupt k's IF bit and jump to its routine; `ifd` is the IF byte it stores. */
    method Service(k: nat, addr: u16) returns (st: Status, ifd: u8, ghost acc: seq<Access>)
      requires Valid() && k < 8
      modifies this, bus`trace, bus.Repr
      ensures Valid() && bus.trace == old(bus.trace) + acc
      ensures I.Service(old(Snap()), old(bus.ifr.data), acc, k, addr) == I.Serviced(Snap(), ifd, acc, st)
      ensures quit == old(quit) && timedUnits == old(timedUnits)
    {
      OpenBus();
      ifd := Arith.ResetBit(k, bus.ifr.data);
      SealBus();
      SetIf(ifd);
      st, acc := JumpToIsr([], addr);
    }

    /**
     * handleInterrupts: any request ends HALT and STOP; with IME on, the first
     * interrupt in priority order that is enabled and requested is serviced.
     * `ifd` is the IF byte after its bit is cleared, before PC is pushed.
     */
    method HandleInterrupts() returns (st: Status, ifd: u8, ghost acc: seq<Access>)
      requires Valid()
      modifies this, bus`trace, bus.Repr
      ensures Valid() && bus.trace == old(bus.trace) + acc
      ensures I.HandleInterrupts(old(Snap()), old(bus.ier.data), old(bus.ifr.data), acc) ==
              I.Serviced(Snap(), ifd, acc, st)
      ensures quit == old(quit) && timedUnits == old(timedUnits)
    {
      var ifr := bus.ifr.data;
      ifd, acc := ifr, [];
      if ifr != 0 {
        halt := false;
        stop := false;
      }
      if !ime {
        return Success, ifd, acc;
      }
      var mask := And8(bus.ier.data, ifr);
      if And8(mask, Irq.VerticalBlankFlag) != 0 {
        st, ifd, acc := Service(0, Irq.AddrVerticalBlank);
      } else if And8(mask, Irq.LcdStatusTriggersFlag) != 0 {
        st, ifd, acc := Service(1, Irq.AddrLcdStatusTriggers);
      } else if And8(mask, Irq.TimerOverflowFlag) != 0 {
        st, ifd, acc := Service(2, Irq.AddrTimerOverflow);
      } else if And8(mask, Irq.SerialLinkFlag) != 0 {
        st, ifd, acc := Service(3, Irq.AddrSerialLink);
      } else if And8(mask, Irq.JoypadPressFlag) != 0 {
        st, ifd, acc := Service(4, Irq.AddrJoypadPress);
      } else {
        st := Success;
      }
    }

    // ---- the run loop (core.go) ----

    /** RegisterToClockChanges: `u` is told the cycles of every instruction from now on, after the units before it. */
    method RegisterToClockChanges(u: Bus.TimedUnit)
      modifies this
      ensures timedUnits == old(timedUnits) + [u]
      ensures Snap() == old(Snap()) && quit == old(quit)
    {
      timedUnits := timedUnits + [u];
    }

    /** Stop: Start's loop ends before its next instruction. */
    method Stop()
      modifies this
      ensures quit && Snap() == old(Snap()) && timedUnits == old(timedUnits)
    {
      quit := true;
    }

    /** ReturnFromStop0: the STOP state ends and the loop goes on. */
    method ReturnFromStop0()
      modifies this
      ensures Snap() == old(Snap()).(stop := false)
      ensures quit == old(quit) && timedUnits == old(timedUnits)
    {
      stop := false;
    }

    /**
     * One pass of the clocks: every registered unit, in registration order,
     * told the same `cycles`; the first failure ends the pass. `clocked` is
     * the calls made, the failing one included. Only the picture unit can fail.
     */
    method ClockUnits(cycles: nat, samplesCount: nat) returns (st: Status, ghost clocked: seq<Clocked>)
      requires Valid()
      modifies bus.Repr
      ensures Valid() && Snap() == old(Snap()) && bus.trace == old(bus.trace)
      ensures |clocked| <= |timedUnits| && clocked == Ticks(timedUnits[..|clocked|], cycles)
      ensures st.Success? ==> |clocked| == |timedUnits|
      ensures st.Failure? ==> 0 < |clocked| && timedUnits[|clocked| - 1].GpuClock? && st.error.SpriteOffScreen?
    {
      var k := 0;
      st, clocked := Success, [];
      while k < |timedUnits|
        invariant k <= |timedUnits| && Valid() && Snap() == old(Snap()) && bus.trace == old(bus.trace)
        invariant clocked == Ticks(timedUnits[..k], cycles) && st == Success
      {
        var u := timedUnits[k];
        OpenBus();
        bus.ClockFootprintInRepr(u);
        st := bus.ClockUnit(u, cycles, samplesCount);
        SealBus();
        assert timedUnits[..k + 1] == timedUnits[..k] + [u];
        clocked := clocked + [Clocked(u, cycles)];
        k := k + 1;
        if st.Failure? {
          return;
        }
      }
      assert timedUnits[..k] == timedUnits;
    }

    /**
     * The do-while of Start: the clocks, then handleInterrupts, again while
     * the CPU is halted and not quitting; at most `fuel` passes. A CPU that
     * is not halted makes exactly one pass.
     */
    method Tick(cycles: nat, samplesCount: nat, fuel: nat)
      returns (st: Status, passes: nat, ghost clocked: seq<Clocked>, ghost acc: seq<Access>)
      requires Valid()
      modifies this, bus`trace, bus.Repr
      ensures Valid() && bus.trace == old(bus.trace) + acc
      ensures quit == old(quit) && timedUnits == old(timedUnits)
      ensures passes <= fuel
      ensures st.Success? ==> clocked == Repeat(Ticks(timedUnits, cycles), passes)
      ensures st.Success? ==> !halt || quit || passes == fuel
      ensures st.Success? && !old(halt) && 0 < fuel ==> passes == 1
    {
      passes, clocked, acc := 0, [], [];
      st := Success;
      var again := true;
      while again && passes < fuel
        invariant Valid() && bus.trace == old(bus.trace) + acc && passes <= fuel
        invariant quit == old(quit) && timedUnits == old(timedUnits) && st == Success
        invariant clocked == Repeat(Ticks(timedUnits, cycles), passes)
        invariant !again ==> !halt || quit
        invariant !old(halt) ==> !halt
        invariant !old(halt) && 0 < passes ==> !again
        invariant again ==> passes == 0 || halt
        invariant passes == 0 ==> again
        invariant !old(halt) ==> passes <= 1
        decreases fuel - passes
      {
        ghost var c;
        st, c := ClockUnits(cycles, samplesCount);
        if st.Failure? {
          return;
        }
        clocked := clocked + c;
        ghost var s0, ie0, if0 := Snap(), bus.ier.data, bus.ifr.data;
        var ifd;
        ghost var a2;
        st, ifd, a2 := HandleInterrupts();
        I.NeverHalts(s0, ie0, if0, a2);
        I.Assoc(old(bus.trace), acc, a2);
        acc := acc + a2;
        passes := passes + 1;
        if st.Failure? {
          return;
        }
        again := halt && !quit;
      }
    }

    /** STOP's busy wait: read the joypad register while stopped and not quitting, at most `fuel` times. */
    method WaitWhileStopped(fuel: nat) returns (st: Status, polls: nat, ghost acc: seq<Access>)
      requires Valid()
      modifies bus`trace, bus.Repr
      ensures Valid() && bus.trace == old(bus.trace) + acc && Snap() == old(Snap())
      ensures polls <= fuel && |acc| == polls
      ensures forall k :: 0 <= k < polls ==> acc[k].ReadAt? && acc[k].addr == 0xFF00
      ensures !stop || quit ==> polls == 0 && st == Success
      ensures st.Success? ==> !stop || quit || polls == fuel
      ensures st.Failure? ==> 0 < polls && acc[polls - 1].r.Err? && st.error == acc[polls - 1].r.error
    {
      polls, acc := 0, [];
      st := Success;
      while stop && !quit && polls < fuel
        invariant Valid() && bus.trace == old(bus.trace) + acc && Snap() == old(Snap())
        invariant polls <= fuel && |acc| == polls && st == Success && quit == old(quit)
        invariant !stop || quit ==> polls == 0
        invariant forall k :: 0 <= k < polls ==> acc[k].ReadAt? && acc[k].addr == 0xFF00
        decreases fuel - polls
      {
        var r := ReadBus(0xFF00);
        I.Assoc(old(bus.trace), acc, [Bus.ReadAt(0xFF00, r)]);
        acc := acc + [Bus.ReadAt(0xFF00, r)];
        polls := polls + 1;
        if r.Err? {
          return Failure(r.error), polls, acc;
        }
      }
    }

    /**
     * Start: PC := `pc0`, then, until Stop: fetch and run an instruction,
     * wait while stopped, clock the units and service interrupts. Every
     * failure ends the loop with its error. `fuel` bounds each loop, and
     * `finished` is false when one of them ran out; nothing the loop runs
     * sets `quit`, so a finished run that did not fail was stopped before it began.
     */
    method Start(pc0: u16, samplesCount: nat, fuel: nat) returns (st: Status, finished: bool, ghost acc: seq<Access>)
      requires Valid()
      modifies this, bus`trace, bus.Repr
      ensures Valid() && bus.trace == old(bus.trace) + acc
      ensures quit == old(quit) && timedUnits == old(timedUnits)
      ensures old(quit) ==> st == Success && finished && acc == [] && Snap() == old(Snap()).(pc := pc0)
      ensures st.Success? && finished ==> old(quit)
    {
      pc := pc0;
      st, finished, acc := Success, true, [];
      var steps := 0;
      while !quit
        invariant Valid() && bus.trace == old(bus.trace) + acc && steps <= fuel
        invariant quit == old(quit) && timedUnits == old(timedUnits) && st == Success && finished
        invariant old(quit) ==> acc == [] && Snap() == old(Snap()).(pc := pc0)
        decreases fuel - steps
      {
        if steps == fuel {
          return Success, false, acc;
        }
        var cycles;
        ghost var a1;
        st, cycles, a1 := Step();
        I.Assoc(old(bus.trace), acc, a1);
        acc := acc + a1;
        if st.Failure? {
          return;
        }
        var polls;
        st, polls, a1 := WaitWhileStopped(fuel);
        I.Assoc(old(bus.trace), acc, a1);
        acc := acc + a1;
        if st.Failure? {
          return;
        }
        if stop && !quit {
          return Success, false, acc;
        }
        var passes;
        ghost var c;
        st, passes, c, a1 := Tick(cycles, samplesCount, fuel);
        I.Assoc(old(bus.trace), acc, a1);
        acc := acc + a1;
        if st.Failure? {
          return;
        }
        if halt && !quit {
          return Success, false, acc;
        }
        steps := steps + 1;
      }
    }
  }

  /** One ClockChanged call: the unit and the cycles it was told. */
  datatype Clocked = Clocked(unit: Bus.TimedUnit, cycles: nat)

  /** Every unit of `us`, in order, told `cycles`. */
  ghost function Ticks(us: seq<Bus.TimedUnit>, cycles: nat): (r: seq<Clocked>)
    ensures |r| == |us| && forall k :: 0 <= k < |us| ==> r[k] == Clocked(us[k], cycles)
  {
    if us == [] then [] else Ticks(us[..|us| - 1], cycles) + [Clocked(us[|us| - 1], cycles)]
  }

  /** `n` passes of the same calls. */
  ghost function Repeat(p: seq<Clocked>, n: nat): (r: seq<Clocked>)
    ensures |r| == n * |p|
  {
    if n == 0 then [] else Repeat(p, n - 1) + p
  }
}
