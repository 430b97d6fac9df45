/**
 * game/mbc3.go: the MBC3 bank controller with its real-time clock. The clock
 * is five registers: seconds, minutes, hours, the low 8 bits of the day
 * counter, and a control byte holding day bit 8 (bit 0), the halt flag
 * (bit 6) and the day-counter carry (bit 7). Writing 0x00 then 0x01 to
 * 0x6000-0x7FFF toggles a latched copy of the clock, which RTC reads prefer.
 *
 * The clock is seeded from the host's wall clock in Go; here the day, hour,
 * minute and second are constructor parameters, and so is the CPU frequency
 * that makes one second.
 */
module Mbc3 {
  import opened Bits
  import opened Errors
  import opened Memory
  import opened Registers
  import opened Counters

  const RomBankSize: nat := 0x4000
  const RamBankSize: nat := 0x2000

  // ---- the clock registers ----

  /** days(): `rtc[3] | (rtc[4] & 1) << 8`, a 9-bit counter. */
  function Days(rtc: seq<u8>): (r: nat)
    requires |rtc| == 5
    ensures r < 0x200
  {
    rtc[3] as nat + 0x100 * (rtc[4] as nat % 2)
  }

  /** setDays: the low byte into rtc[3], bit 8 into bit 0 of rtc[4]. */
  function SetDays(rtc: seq<u8>, days: u16): (r: seq<u8>)
    requires |rtc| == 5
    ensures |r| == 5 && Days(r) == days % 0x200
    ensures r[0] == rtc[0] && r[1] == rtc[1] && r[2] == rtc[2]
    ensures r[4] / 2 == rtc[4] / 2
  {
    rtc[3 := days % 0x100][4 := 2 * (rtc[4] / 2) + (days / 0x100) % 2]
  }

  /** halt(): `rtc[4] & 0x40 == 0x40`. */
  predicate Halted(rtc: seq<u8>)
    requires |rtc| == 5
  {
    (rtc[4] / 0x40) % 2 == 1
  }

  /** The day-counter carry, bit 7 of rtc[4]. */
  predicate DayCarry(rtc: seq<u8>)
    requires |rtc| == 5
  {
    rtc[4] >= 0x80
  }

  /** setDayCarry: `rtc[4] |= 0x80`. */
  function WithDayCarry(rtc: seq<u8>): (r: seq<u8>)
    requires |rtc| == 5
    ensures |r| == 5 && DayCarry(r) && r[..4] == rtc[..4] && r[4] % 0x80 == rtc[4] % 0x80
  {
    rtc[4 := if rtc[4] >= 0x80 then rtc[4] else rtc[4] + 0x80]
  }

  /**
   * One second of the carry chain in ClockChanged: seconds wrap at 60 into
   * minutes, minutes at 60 into hours, hours at 24 into days, and a day
   * counter that wraps to 0 sets the carry. Each register is incremented as
   * a byte first, as in Go.
   */
  function NextSecond(rtc: seq<u8>): (r: seq<u8>)
    requires |rtc| == 5
    ensures |r| == 5
  {
    var s := Inc8(rtc[0]);
    if s != 60 then rtc[0 := s]
    else
      var m := Inc8(rtc[1]);
      if m != 60 then rtc[0 := 0][1 := m]
      else
        var h := Inc8(rtc[2]);
        if h != 24 then rtc[0 := 0][1 := 0][2 := h]
        else
          var r := SetDays(rtc[0 := 0][1 := 0][2 := 0], (Days(rtc) + 1) % 0x1_0000);
          if Days(r) == 0 then WithDayCarry(r) else r
  }

  /** A clock whose seconds, minutes and hours are all in range. */
  predicate InRange(rtc: seq<u8>)
    requires |rtc| == 5
  {
    rtc[0] < 60 && rtc[1] < 60 && rtc[2] < 24
  }

  /** Seconds since day 0, 00:00:00. */
  function Elapsed(rtc: seq<u8>): nat
    requires |rtc| == 5
  {
    ((Days(rtc) * 24 + rtc[2]) * 60 + rtc[1]) * 60 + rtc[0]
  }

  /** The clock counts 512 days before it wraps. */
  const Period: nat := 0x200 * 24 * 60 * 60

  /** Go's `rtc[4]` bits 1-6, which no tick touches (halt is bit 6). */
  function ControlBits(rtc: seq<u8>): nat
    requires |rtc| == 5
  {
    (rtc[4] / 2) % 0x40
  }

  /** A tick that stops at the seconds. */
  lemma TickSeconds(rtc: seq<u8>)
    requires |rtc| == 5 && InRange(rtc) && rtc[0] < 59
    ensures NextSecond(rtc) == rtc[0 := rtc[0] + 1]
    ensures Elapsed(NextSecond(rtc)) == Elapsed(rtc) + 1
  {
    var r := rtc[0 := rtc[0] + 1];
    assert Days(r) == Days(rtc);
  }

  /** A tick that carries into the minutes and stops there. */
  lemma TickMinutes(rtc: seq<u8>)
    requires |rtc| == 5 && InRange(rtc) && rtc[0] == 59 && rtc[1] < 59
    ensures NextSecond(rtc) == rtc[0 := 0][1 := rtc[1] + 1]
    ensures Elapsed(NextSecond(rtc)) == Elapsed(rtc) + 1
  {
    var r := rtc[0 := 0][1 := rtc[1] + 1];
    assert Days(r) == Days(rtc);
  }

  /** A tick that carries into the hours and stops there. */
  lemma TickHours(rtc: seq<u8>)
    requires |rtc| == 5 && InRange(rtc) && rtc[0] == 59 && rtc[1] == 59 && rtc[2] < 23
    ensures NextSecond(rtc) == rtc[0 := 0][1 := 0][2 := rtc[2] + 1]
    ensures Elapsed(NextSecond(rtc)) == Elapsed(rtc) + 1
  {
    var r := rtc[0 := 0][1 := 0][2 := rtc[2] + 1];
    assert Days(r) == Days(rtc);
  }

  /** A tick that carries into the day counter: 00:00:00 of the next day, modulo 512 days. */
  lemma TickDays(rtc: seq<u8>)
    requires |rtc| == 5 && InRange(rtc) && rtc[0] == 59 && rtc[1] == 59 && rtc[2] == 23
    ensures var r := NextSecond(rtc);
            r[0] == 0 && r[1] == 0 && r[2] == 0 && Days(r) == (Days(rtc) + 1) % 0x200 &&
            r[4] / 2 % 0x40 == rtc[4] / 2 % 0x40 &&
            (DayCarry(r) <==> DayCarry(rtc) || Days(rtc) == 0x1FF)
  {
    var z := rtc[0 := 0][1 := 0][2 := 0];
    assert Days(z) == Days(rtc);
    var n := SetDays(z, Days(rtc) + 1);
    assert n[4] / 2 == rtc[4] / 2;
    if Days(rtc) == 0x1FF {
      assert NextSecond(rtc) == WithDayCarry(n);
      DivMod2Low(WithDayCarry(n)[4], n[4]);
    } else {
      assert NextSecond(rtc) == n;
      assert n[4] >= 0x80 <==> n[4] / 2 >= 0x40;
      assert rtc[4] >= 0x80 <==> rtc[4] / 2 >= 0x40;
    }
  }

  /**
   * The carry chain is a true clock: on an in-range clock one tick adds one
   * second modulo 512 days, keeps the clock in range, leaves the halt and
   * other control bits alone, and sets the carry exactly when the day counter
   * wraps (a set carry stays set).
   */
  lemma {:induction false} NextSecondCounts(rtc: seq<u8>)
    requires |rtc| == 5 && InRange(rtc)
    ensures InRange(NextSecond(rtc))
    ensures Elapsed(NextSecond(rtc)) == (Elapsed(rtc) + 1) % Period
    ensures DayCarry(NextSecond(rtc)) <==> DayCarry(rtc) || Elapsed(rtc) + 1 == Period
    ensures ControlBits(NextSecond(rtc)) == ControlBits(rtc)
  {
    var e := Elapsed(rtc);
    if rtc[0] < 59 {
      TickSeconds(rtc);
      ModUnique(e + 1, Period, 0, e + 1);
    } else if rtc[1] < 59 {
      TickMinutes(rtc);
      ModUnique(e + 1, Period, 0, e + 1);
    } else if rtc[2] < 23 {
      TickHours(rtc);
      ModUnique(e + 1, Period, 0, e + 1);
    } else {
      TickDays(rtc);
      DayElapsed(rtc);
    }
  }

  /** The tick into the day counter, counted in seconds: a whole day more, modulo the period. */
  lemma DayElapsed(rtc: seq<u8>)
    requires |rtc| == 5 && InRange(rtc) && rtc[0] == 59 && rtc[1] == 59 && rtc[2] == 23
    ensures Elapsed(NextSecond(rtc)) == (Elapsed(rtc) + 1) % Period
    ensures Elapsed(rtc) + 1 == Period <==> Days(rtc) == 0x1FF
  {
    TickDays(rtc);
    var d := Days(rtc);
    assert Elapsed(rtc) + 1 == (d + 1) * 86400;
    assert Elapsed(NextSecond(rtc)) == Days(NextSecond(rtc)) * 86400;
    if d < 0x1FF {
      ModUnique(d + 1, 0x200, 0, d + 1);
      ModUnique((d + 1) * 86400, Period, 0, (d + 1) * 86400);
    } else {
      ModUnique(d + 1, 0x200, 1, 0);
      ModUnique(Period, Period, 1, 0);
    }
  }

  /** Bytes with the same low 7 bits have the same bits 1-6. */
  lemma DivMod2Low(x: u8, y: u8)
    requires x % 0x80 == y % 0x80
    ensures (x / 2) % 0x40 == (y / 2) % 0x40
  {
    var lx, ly := x % 0x80, y % 0x80;
    assert x == 0x80 * (x / 0x80) + lx;
    assert y == 0x80 * (y / 0x80) + ly;
    assert x / 2 == 0x40 * (x / 0x80) + lx / 2;
    assert y / 2 == 0x40 * (y / 0x80) + ly / 2;
  }

  /** Day 511, 23:59:59 rolls over to day 0, 00:00:00 with the carry set. */
  lemma LastSecondWraps(ctl: u8)
    requires ctl % 2 == 1
    ensures var r := NextSecond([59, 59, 23, 0xFF, ctl]);
            r[0] == 0 && r[1] == 0 && r[2] == 0 && Days(r) == 0 && DayCarry(r)
  {
  }

  // ---- the controller ----

  datatype State = State(rom: seq<u8>, ram: seq<u8>, bankRAM: nat, bankROM: nat,
                         enableTimerAndRAM: bool, rtcCode: u8, rtc: seq<u8>,
                         rtcSnapshot: Option<seq<u8>>, latch: bool, cyclesCounter: nat)
  {
    predicate Valid()
    {
      bankRAM < 4 && bankROM < 0x80 && |rtc| == 5 &&
      (rtcSnapshot.Some? ==> |rtcSnapshot.value| == 5)
    }

    /** MBC3.ClockChanged: at most one second per call, none while halted, the remainder kept. */
    function ClockChanged(cycles: nat, frequency: nat): (st: State)
      requires Valid()
      ensures st.Valid()
    {
      var (fired, rest) := Tick(cyclesCounter, cycles, frequency);
      this.(cyclesCounter := rest, rtc := if fired && !Halted(rtc) then NextSecond(rtc) else rtc)
    }

    /**
     * MBC3.Read. In 0xA000-0xBFFF the RTC code picks a RAM bank (0-3), a
     * clock register (8-0xC, from the latched copy when there is one), or
     * nothing (0 without error).
     */
    function Read(addr: u16): Result<u8>
      requires Valid()
    {
      if addr <= 0x3FFF then WindowRead(rom, 0, 0x0000, addr)
      else if addr <= 0x7FFF then WindowRead(rom, RomBankSize * bankROM, 0x4000, addr)
      else if 0xA000 <= addr <= 0xBFFF then
        if rtcCode <= 0x03 then WindowRead(ram, RamBankSize * bankRAM, 0xA000, addr)
        else if 0x08 <= rtcCode <= 0x0C then
          Ok(if rtcSnapshot.Some? then rtcSnapshot.value[rtcCode - 0x08] else rtc[rtcCode - 0x08])
        else Ok(0)
      else Err(ReadOutOfRange(addr))
    }

    /** MBC3.Write: the state after the write, and its status. */
    function Write(addr: u16, d: u8): (State, Status)
      requires Valid()
    {
      if addr <= 0x1FFF then
        (this.(enableTimerAndRAM := if d == 0x00 then false else if d == 0x0A then true else enableTimerAndRAM),
         Success)
      else if addr <= 0x3FFF then
        (this.(bankROM := (if d == 0 then 1 else d) % 0x80), Success)
      else if addr <= 0x5FFF then
        (this.(rtcCode := d, bankRAM := if d <= 0x03 then d else bankRAM), Success)
      else if addr <= 0x7FFF then
        if d == 0x00 then (this.(latch := true), Success)
        else
          var snapshot :=
            if d == 0x01 && latch then (if rtcSnapshot.None? then Some(rtc) else None) else rtcSnapshot;
          (this.(rtcSnapshot := snapshot, latch := false), Success)
      else if 0xA000 <= addr <= 0xBFFF then
        if !enableTimerAndRAM then (this, Success)
        else if rtcCode <= 0x03 then
          var (ram', s) := WindowWrite(ram, RamBankSize * bankRAM, 0xA000, addr, d);
          (this.(ram := ram'), s)
        else if 0x08 <= rtcCode <= 0x0C then (this.(rtc := rtc[rtcCode - 0x08 := d]), Success)
        else (this, Success)
      else (this, Failure(WriteOutOfRange(addr)))
    }
  }

  /** NewMBC3: bank 1, RTC code 0, unlatched, the clock set to the given time of day. */
  function Initial(rom: seq<u8>, ram: seq<u8>, day: u16, hour: u8, minute: u8, second: u8): (st: State)
    ensures st.Valid() && st.bankROM == 1 && st.rtcSnapshot.None? && !st.latch
    ensures st.rtc[0] == second && st.rtc[1] == minute && st.rtc[2] == hour && Days(st.rtc) == day % 0x200
    ensures !Halted(st.rtc) && !DayCarry(st.rtc)
  {
    var rtc := SetDays([0, 0, 0, 0, 0], day)[2 := hour][1 := minute][0 := second];
    State(rom, ram, 0, 1, false, 0, rtc, None, false, 0)
  }

  lemma WriteKeepsValid(st: State, addr: u16, d: u8)
    requires st.Valid()
    ensures st.Write(addr, d).0.Valid()
  {
  }

  /**
   * ClockChanged moves the clock by at most one second, never while halted,
   * and the counter keeps what it did not spend.
   */
  lemma {:induction false} ClockAtMostOneSecond(st: State, cycles: nat, frequency: nat)
    requires st.Valid() && InRange(st.rtc)
    ensures var st' := st.ClockChanged(cycles, frequency);
            InRange(st'.rtc) &&
            (Elapsed(st'.rtc) == Elapsed(st.rtc) || Elapsed(st'.rtc) == (Elapsed(st.rtc) + 1) % Period) &&
            (Halted(st.rtc) ==> st'.rtc == st.rtc) &&
            (st'.rtc != st.rtc ==> st.cyclesCounter + cycles == st'.cyclesCounter + frequency)
  {
    TickConserves(st.cyclesCounter, cycles, frequency);
    NextSecondCounts(st.rtc);
  }

  /** Writing 0x00 and then 0x01 toggles the latched copy: take one if there is none, drop it if there is. */
  lemma LatchToggles(st: State, a1: u16, a2: u16)
    requires st.Valid() && 0x6000 <= a1 <= 0x7FFF && 0x6000 <= a2 <= 0x7FFF
    ensures var armed := st.Write(a1, 0x00).0;
            armed.latch && armed.rtcSnapshot == st.rtcSnapshot &&
            var st' := armed.Write(a2, 0x01).0;
            !st'.latch && st'.rtcSnapshot == (if st.rtcSnapshot.None? then Some(st.rtc) else None)
  {
  }

  /** Any latch-area write other than 0x00 disarms, and only 0x01 on an armed latch moves the copy. */
  lemma LatchDisarms(st: State, addr: u16, d: u8)
    requires st.Valid() && 0x6000 <= addr <= 0x7FFF && d != 0x00
    ensures !st.Write(addr, d).0.latch
    ensures !(d == 0x01 && st.latch) ==> st.Write(addr, d).0.rtcSnapshot == st.rtcSnapshot
  {
  }

  /** While a latched copy exists, clock reads do not see the clock running. */
  lemma SnapshotFreezesReads(st: State, cycles: nat, frequency: nat, addr: u16)
    requires st.Valid() && st.rtcSnapshot.Some? && 0x08 <= st.rtcCode <= 0x0C && 0xA000 <= addr <= 0xBFFF
    ensures st.ClockChanged(cycles, frequency).Read(addr) == st.Read(addr)
    ensures st.Read(addr) == Ok(st.rtcSnapshot.value[st.rtcCode - 0x08])
  {
  }

  /** An enabled clock write goes to the live register even while a copy is latched. */
  lemma RtcWritesGoLive(st: State, addr: u16, d: u8)
    requires st.Valid() && st.enableTimerAndRAM && 0x08 <= st.rtcCode <= 0x0C && 0xA000 <= addr <= 0xBFFF
    ensures st.Write(addr, d) == (st.(rtc := st.rtc[st.rtcCode - 0x08 := d]), Success)
    ensures st.rtcSnapshot.None? ==> st.Write(addr, d).0.Read(addr) == Ok(d)
  {
  }

  /** RTC codes 4-7 and above 0x0C read as 0 without error, and writes to them do nothing. */
  lemma UnusedCodes(st: State, addr: u16, d: u8)
    requires st.Valid() && 0xA000 <= addr <= 0xBFFF
    requires 0x04 <= st.rtcCode <= 0x07 || 0x0C < st.rtcCode
    ensures st.Read(addr) == Ok(0)
    ensures st.Write(addr, d) == (st, Success)
  {
  }

  /** Only 0x00 and 0x0A change the enable; 0x4000-0x5FFF changes the RAM bank only for codes 0-3. */
  lemma ControlRegisters(st: State, addr: u16, d: u8)
    requires st.Valid() && addr <= 0x5FFF
    ensures st.Write(addr, d).1 == Success
    ensures addr <= 0x1FFF && d != 0x00 && d != 0x0A ==> st.Write(addr, d).0 == st
    ensures 0x2000 <= addr <= 0x3FFF ==> st.Write(addr, d).0.bankROM == if d == 0 then 1 else d % 0x80
    ensures 0x4000 <= addr ==> st.Write(addr, d).0.rtcCode == d
    ensures 0x4000 <= addr && d > 0x03 ==> st.Write(addr, d).0.bankRAM == st.bankRAM
  {
  }

  /** Writes into 0xA000-0xBFFF need the enable. */
  lemma DisabledWritesDropped(st: State, addr: u16, d: u8)
    requires st.Valid() && !st.enableTimerAndRAM && 0xA000 <= addr <= 0xBFFF
    ensures st.Write(addr, d) == (st, Success)
  {
  }

  lemma OutOfRange(st: State, addr: u16, d: u8)
    requires st.Valid() && (0x8000 <= addr < 0xA000 || 0xC000 <= addr)
    ensures st.Read(addr) == Err(ReadOutOfRange(addr))
    ensures st.Write(addr, d) == (st, Failure(WriteOutOfRange(addr)))
  {
  }

  class MBC3 {
    const rom: ROM
    const otherBanks: ROM
    const ram: RAM
    /** cpu.Frequency: the cycles in one second. */
    const cpuFrequency: nat
    var bankRAM: nat
    var bankROM: nat
    var enableTimerAndRAM: bool
    var rtcCode: u8
    var rtc: seq<u8>
    var rtcSnapshot: Option<seq<u8>>
    var latch: bool
    var cyclesCounter: nat

    ghost function Repr(): set<object>
    {
      {this, rom, otherBanks, ram, ram.data}
    }

    ghost function Model(): State
      reads this, ram.data
    {
      State(rom.data, ram.data[..], bankRAM, bankROM, enableTimerAndRAM, rtcCode, rtc,
            rtcSnapshot, latch, cyclesCounter)
    }

    ghost predicate Valid()
      reads Repr()
    {
      rom.Valid() && otherBanks.Valid() && ram.Valid() &&
      rom.addrOffset == 0x0000 && otherBanks.addrOffset == 0x4000 && ram.addrOffset == 0xA000 &&
      otherBanks.data == rom.data && Model().Valid()
    }

    constructor (romData: seq<u8>, ramData: array<u8>, cpuFrequency: nat,
                 day: u16, hour: u8, minute: u8, second: u8)
      ensures Valid() && fresh(rom) && fresh(otherBanks) && fresh(ram)
      ensures ram.data == ramData && this.cpuFrequency == cpuFrequency
      ensures Model() == Initial(romData, ramData[..], day, hour, minute, second)
    {
      rom := new ROM(romData, 0x0000);
      otherBanks := new ROM(romData, 0x4000);
      ram := new RAM(ramData, 0xA000);
      this.cpuFrequency := cpuFrequency;
      bankRAM, bankROM, enableTimerAndRAM, rtcCode := 0, 1, false, 0;
      rtc := [0, 0, 0, 0, 0];
      rtcSnapshot, latch, cyclesCounter := None, false, 0;
      new;
      rtc := SetDays(rtc, day);
      rtc := rtc[2 := hour];
      rtc := rtc[1 := minute];
      rtc := rtc[0 := second];
      assert Model() == Initial(romData, ramData[..], day, hour, minute, second);
    }

    /** The carry chain of ClockChanged, register by register. */
    method AdvanceSecond()
      requires |rtc| == 5
      modifies this`rtc
      ensures rtc == NextSecond(old(rtc))
    {
      ghost var r0: seq<u8> := rtc;
      rtc := rtc[0 := Inc8(rtc[0])];
      if rtc[0] == 60 {
        rtc := rtc[0 := 0];
        rtc := rtc[1 := Inc8(rtc[1])];
        if rtc[1] == 60 {
          rtc := rtc[1 := 0];
          rtc := rtc[2 := Inc8(rtc[2])];
          if rtc[2] == 24 {
            rtc := rtc[2 := 0];
            assert rtc == r0[0 := 0][1 := 0][2 := 0];
            rtc := SetDays(rtc, (Days(rtc) + 1) % 0x1_0000);
            if Days(rtc) == 0 {
              rtc := WithDayCarry(rtc);
            }
          } else {
            assert rtc == r0[0 := 0][1 := 0][2 := Inc8(r0[2])];
          }
        } else {
          assert rtc == r0[0 := 0][1 := Inc8(r0[1])];
        }
      }
    }

    method ClockChanged(cycles: nat) returns (s: Status)
      requires Valid()
      modifies this
      ensures Valid() && s == Success
      ensures Model() == old(Model()).ClockChanged(cycles, cpuFrequency)
    {
      cyclesCounter := cyclesCounter + cycles;
      if cyclesCounter >= cpuFrequency {
        cyclesCounter := cyclesCounter - cpuFrequency;
        if !Halted(rtc) {
          AdvanceSecond();
        }
      }
      return Success;
    }

    method Read(addr: u16) returns (r: Result<u8>)
      requires Valid()
      modifies rom, otherBanks, ram
      ensures Valid() && Model() == old(Model())
      ensures r == Model().Read(addr)
    {
      if addr <= 0x3FFF {
        var s := rom.SetWindow(0);
        if s.Failure? {
          return Err(s.error);
        }
        return rom.Read(addr);
      }
      if addr <= 0x7FFF {
        var s := otherBanks.SetWindow(bankROM * RomBankSize);
        if s.Failure? {
          return Err(s.error);
        }
        return otherBanks.Read(addr);
      }
      if 0xA000 <= addr <= 0xBFFF {
        if rtcCode <= 0x03 {
          var s := ram.SetWindow(bankRAM * RamBankSize);
          if s.Failure? {
            return Err(s.error);
          }
          return ram.Read(addr);
        }
        if 0x08 <= rtcCode <= 0x0C {
          if rtcSnapshot.Some? {
            return Ok(rtcSnapshot.value[rtcCode - 0x08]);
          }
          return Ok(rtc[rtcCode - 0x08]);
        }
        return Ok(0);
      }
      return Err(ReadOutOfRange(addr));
    }

    method Write(addr: u16, d: u8) returns (s: Status)
      requires Valid()
      modifies this, ram, ram.data
      ensures Valid()
      ensures (Model(), s) == old(Model()).Write(addr, d)
    {
      if addr <= 0x7FFF {
        s := WriteRegister(addr, d);
      } else {
        s := WriteRam(addr, d);
      }
    }

    /** The control-register half of MBC3.Write, including the clock latch. */
    method WriteRegister(addr: u16, d: u8) returns (s: Status)
      requires Valid() && addr <= 0x7FFF
      modifies this
      ensures Valid()
      ensures (Model(), s) == old(Model()).Write(addr, d)
    {
      WriteKeepsValid(Model(), addr, d);
      if addr <= 0x1FFF {
        if d == 0x00 {
          enableTimerAndRAM := false;
        } else if d == 0x0A {
          enableTimerAndRAM := true;
        }
        return Success;
      }
      if addr <= 0x3FFF {
        var data := if d == 0 then 1 else d;
        bankROM := data % 0x80;
        return Success;
      }
      if addr <= 0x5FFF {
        rtcCode := d;
        if d <= 0x03 {
          bankRAM := d;
        }
        return Success;
      }
      if d == 0x00 {
        latch := true;
        return Success;
      }
      if d == 0x01 && latch {
        if rtcSnapshot.None? {
          rtcSnapshot := Some(rtc);
        } else {
          rtcSnapshot := None;
        }
      }
      latch := false;
      return Success;
    }

    /** The RAM and clock-register half of MBC3.Write. */
    method WriteRam(addr: u16, d: u8) returns (s: Status)
      requires Valid() && 0x8000 <= addr
      modifies this, ram, ram.data
      ensures Valid()
      ensures (Model(), s) == old(Model()).Write(addr, d)
    {
      WriteKeepsValid(Model(), addr, d);
      if 0xA000 <= addr <= 0xBFFF {
        if !enableTimerAndRAM {
          return Success;
        }
        if rtcCode <= 0x03 {
          s := ram.SetWindow(bankRAM * RamBankSize);
          if s.Failure? {
            return s;
          }
          s := ram.Write(addr, d);
          return s;
        }
        if 0x08 <= rtcCode <= 0x0C {
          rtc := rtc[rtcCode - 0x08 := d];
        }
        return Success;
      }
      return Failure(WriteOutOfRange(addr));
    }
  }
}
