/**
 * game/nullmbc.go: a cartridge without a bank controller. The ROM is mapped
 * flat at 0x0000-0x7FFF through a window that never moves, and writes there
 * are accepted and dropped, as `ROM.Write` does.
 */
module NullMbc {
  import opened Bits
  import opened Errors

  datatype NullMBC = NullMBC(rom: seq<u8>)
  {
    /** NullMBC.Read: `rom.Read(addr)` in range, a range error elsewhere. */
    function Read(addr: u16): Result<u8>
    {
      if addr <= 0x7FFF && addr < |rom| then Ok(rom[addr]) else Err(ReadOutOfRange(addr))
    }

    /** NullMBC.Write: nothing changes, so only the status is returned. */
    function Write(addr: u16, d: u8): Status
    {
      if addr <= 0x7FFF then Success else Failure(WriteOutOfRange(addr))
    }
  }

  /** 0x0000-0x7FFF reads the image byte at the same address, or fails past its end. */
  lemma ReadsFlatRom(n: NullMBC, addr: u16)
    requires addr <= 0x7FFF
    ensures n.Read(addr).Ok? <==> addr < |n.rom|
    ensures n.Read(addr).Ok? ==> n.Read(addr).value == n.rom[addr]
  {
  }

  /** Everything from 0x8000 up fails, reading or writing; below it writes succeed. */
  lemma Ranges(n: NullMBC, addr: u16, d: u8)
    ensures addr >= 0x8000 ==> n.Read(addr) == Err(ReadOutOfRange(addr))
    ensures n.Write(addr, d).Success? <==> addr <= 0x7FFF
    ensures n.Write(addr, d).Failure? ==> n.Write(addr, d).error == WriteOutOfRange(addr)
  {
  }
}
