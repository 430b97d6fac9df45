/**
 * cpu/interrupts.go, the part every interrupt source shares: the IF bit of
 * each interrupt, the address of its service routine, and `RequestInterrupt`,
 * which the timer, the picture processor and the joypad call on the core.
 * Those units hold the core's IF register itself, which is all the call
 * touches. The service loop is `Cpu.Core.HandleInterrupts`.
 */
module Irq {
  import opened Bits
  import opened Memory

  const AddrIE: u16 := 0xFFFF
  const AddrIF: u16 := 0xFF0F

  const VerticalBlankFlag: u8 := 0x01
  const LcdStatusTriggersFlag: u8 := 0x02
  const TimerOverflowFlag: u8 := 0x04
  const SerialLinkFlag: u8 := 0x08
  const JoypadPressFlag: u8 := 0x10

  const AddrVerticalBlank: u16 := 0x0040
  const AddrLcdStatusTriggers: u16 := 0x0048
  const AddrTimerOverflow: u16 := 0x0050
  const AddrSerialLink: u16 := 0x0058
  const AddrJoypadPress: u16 := 0x0060

  /** RequestInterrupt: OR the flag into IF. */
  method Request(ifr: MemReg, flag: u8)
    modifies ifr
    ensures ifr.data == Or8(old(ifr.data), flag)
  {
    ifr.data := Or8(ifr.data, flag);
  }

  /** A request sets the requested bits and clears none. */
  lemma RequestKeepsBits(ifd: u8, flag: u8, i: nat)
    ensures Bit(Or8(ifd, flag), i) <==> Bit(ifd, i) || Bit(flag, i)
  {
    OrBit(ifd, flag, i);
  }
}
