/**
 * timers/timers.go: the divider DIV, which counts up every 256 cycles, and
 * the programmable counter TIMA, which counts at the rate TAC selects and on
 * overflow reloads from TMA and requests the timer interrupt.
 *
 * Both cycle counters keep the excess over their period, so the cycles fed in
 * are never lost (`Counters.TickConserves`).
 */
module Timers {
  import opened Bits
  import opened Errors
  import opened Memory
  import opened Registers
  import opened Counters
  import Irq

  const AddrDIV: u16 := 0xFF04
  const AddrTIMA: u16 := 0xFF05
  const AddrTMA: u16 := 0xFF06
  const AddrTAC: u16 := 0xFF07

  /** Cycles per DIV increment. */
  const DividerRate: nat := 256

  /** rateOfTIMA: cycles per TIMA increment, selected by TAC bits 0-1. */
  function RateOfTima(tac: u8): (r: nat)
    ensures r in {16, 64, 256, 1024}
  {
    match tac % 4
    case 0 => 1024
    case 1 => 16
    case 2 => 64
    case 3 => 256
  }

  /** 4096, 262144, 65536 and 16384 Hz at 4194304 cycles per second. */
  lemma RateTable()
    ensures RateOfTima(0) == 1024 && RateOfTima(1) == 16 && RateOfTima(2) == 64 && RateOfTima(3) == 256
    ensures forall tac: u8 :: RateOfTima(tac) == RateOfTima(tac % 4)
  {
  }

  /** timaEnabled: TAC bit 2. */
  predicate TimaEnabled(tac: u8)
  {
    (tac / 4) % 2 == 1
  }

  class Timer {
    var div: u8
    var tima: u8
    var tma: u8
    var tac: u8
    var divCounter: nat
    var timaCounter: nat
    /** The core's IF register, which `RequestInterrupt` writes. */
    const ifr: MemReg

    /** NewTimer. Registering on the core's clock is done by the caller. */
    constructor (ifr: MemReg)
      ensures this.ifr == ifr
      ensures div == 0 && tima == 0 && tma == 0 && tac == 0 && divCounter == 0 && timaCounter == 0
    {
      this.ifr := ifr;
      div, tima, tma, tac := 0, 0, 0, 0;
      divCounter, timaCounter := 0, 0;
    }

    function Read(addr: u16): (r: Result<u8>)
      reads this
      ensures r.Ok? <==> AddrDIV <= addr <= AddrTAC
      ensures r.Err? ==> r.error == ReadOutOfRange(addr)
      ensures addr == AddrDIV ==> r == Ok(div)
      ensures addr == AddrTIMA ==> r == Ok(tima)
      ensures addr == AddrTMA ==> r == Ok(tma)
      ensures addr == AddrTAC ==> r == Ok(tac)
    {
      if addr == AddrDIV then Ok(div)
      else if addr == AddrTIMA then Ok(tima)
      else if addr == AddrTMA then Ok(tma)
      else if addr == AddrTAC then Ok(tac)
      else Err(ReadOutOfRange(addr))
    }

    /**
     * What a Write of `d` at `addr` returning `s` did: any write to DIV
     * clears it; TIMA and TMA take the byte; TAC takes the byte and restarts
     * the TIMA counter only when its low three bits change.
     */
    twostate predicate Wrote(addr: u16, d: u8, s: Status)
      reads this
    {
      (s.Success? <==> AddrDIV <= addr <= AddrTAC) &&
      (s.Failure? ==> s.error == WriteOutOfRange(addr)) &&
      div == (if addr == AddrDIV then 0 else old(div)) &&
      tima == (if addr == AddrTIMA then d else old(tima)) &&
      tma == (if addr == AddrTMA then d else old(tma)) &&
      tac == (if addr == AddrTAC then d else old(tac)) &&
      timaCounter == (if addr == AddrTAC && old(tac) % 8 != d % 8 then 0 else old(timaCounter)) &&
      divCounter == old(divCounter)
    }

    /** Write: the registers take the byte as `Wrote` says. */
    method Write(addr: u16, d: u8) returns (s: Status)
      modifies this
      ensures Wrote(addr, d, s)
    {
      if addr == AddrDIV {
        div := 0;
        return Success;
      }
      if addr == AddrTIMA {
        tima := d;
        return Success;
      }
      if addr == AddrTMA {
        tma := d;
        return Success;
      }
      if addr == AddrTAC {
        if tac % 8 != d % 8 {
          timaCounter := 0;
        }
        tac := d;
        return Success;
      }
      return Failure(WriteOutOfRange(addr));
    }

    /**
     * What ClockChanged(cycles) did. DIV steps at most once; TIMA counts
     * only while enabled (its counter does not accumulate otherwise), steps
     * at most once, and on wrapping to 0 reloads TMA and raises the timer
     * interrupt; TAC and TMA stay.
     */
    twostate predicate Clocked(cycles: nat)
      reads this, ifr
    {
      (Tick(old(divCounter), cycles, DividerRate).0 ==> div == Inc8(old(div))) &&
      (!Tick(old(divCounter), cycles, DividerRate).0 ==> div == old(div)) &&
      divCounter == Tick(old(divCounter), cycles, DividerRate).1 &&
      (!TimaEnabled(tac) ==> tima == old(tima) && timaCounter == old(timaCounter) && ifr.data == old(ifr.data)) &&
      (TimaEnabled(tac) ==>
         var (fired, rest) := Tick(old(timaCounter), cycles, RateOfTima(tac));
         timaCounter == rest &&
         (!fired ==> tima == old(tima) && ifr.data == old(ifr.data)) &&
         (fired && old(tima) != 0xFF ==> tima == old(tima) + 1 && ifr.data == old(ifr.data)) &&
         (fired && old(tima) == 0xFF ==> tima == tma && ifr.data == Or8(old(ifr.data), Irq.TimerOverflowFlag))) &&
      tac == old(tac) && tma == old(tma)
    }

    /** ClockChanged: the counters step as `Clocked` says. */
    method ClockChanged(cycles: nat) returns (s: Status)
      modifies this, ifr
      ensures s == Success && Clocked(cycles)
    {
      divCounter := divCounter + cycles;
      if divCounter >= DividerRate {
        divCounter := divCounter - DividerRate;
        div := Inc8(div);
      }
      if TimaEnabled(tac) {
        timaCounter := timaCounter + cycles;
        var timaRate := RateOfTima(tac);
        if timaCounter >= timaRate {
          timaCounter := timaCounter - timaRate;
          tima := Inc8(tima);
          if tima == 0 {
            tima := tma;
            Irq.Request(ifr, Irq.TimerOverflowFlag);
          }
        }
      }
      return Success;
    }
  }
}
