/**
 * game/mbc2.go: the MBC2 bank controller, with its own 512 four-bit RAM
 * cells at 0xA000-0xA1FF. Bit 8 of the address tells the two control
 * registers apart: clear for the RAM enable, set for the 4-bit ROM bank.
 *
 * As in mbc1.dfy, `State` is what reads and later writes observe, and the
 * class `MBC2` is proved to follow `State.Read` and `State.Write`.
 */
module Mbc2 {
  import opened Bits
  import opened Errors
  import opened Memory

  const RomBankSize: nat := 0x4000
  /** 512 cells, of which only the low nibble is ever written. */
  const RamSize: nat := 512

  /** `addr & 0x0100`: bit 8 of the address. */
  predicate AddrBit8(addr: u16)
  {
    (addr / 0x100) % 2 == 1
  }

  datatype State = State(rom: seq<u8>, ram: seq<u8>, enableRAM: bool, bankROM: nat)
  {
    /** Every reachable state: a 4-bit bank, 512 cells each holding a nibble. */
    predicate Valid()
    {
      bankROM < 0x10 && |ram| == RamSize && forall i :: 0 <= i < |ram| ==> ram[i] < 0x10
    }

    /** MBC2.Read: the RAM keeps its initial window, so it is read at offset 0. */
    function Read(addr: u16): Result<u8>
    {
      if addr <= 0x3FFF then WindowRead(rom, 0, 0x0000, addr)
      else if addr <= 0x7FFF then WindowRead(rom, RomBankSize * bankROM, 0x4000, addr)
      else if 0xA000 <= addr <= 0xA1FF then WindowRead(ram, 0, 0xA000, addr)
      else Err(ReadOutOfRange(addr))
    }

    /** MBC2.Write: `data & 0x0F` is `% 0x10`. */
    function Write(addr: u16, d: u8): (State, Status)
    {
      if addr <= 0x1FFF then
        (if !AddrBit8(addr) then this.(enableRAM := d % 0x10 == 0x0A) else this, Success)
      else if addr <= 0x3FFF then
        (if AddrBit8(addr) then this.(bankROM := (if d == 0 then 1 else d) % 0x10) else this, Success)
      else if 0xA000 <= addr <= 0xA1FF then
        if !enableRAM then (this, Success)
        else
          var (ram', s) := WindowWrite(ram, 0, 0xA000, addr, d % 0x10);
          (this.(ram := ram'), s)
      else (this, Failure(WriteOutOfRange(addr)))
    }
  }

  /** NewMBC2: bank 1, a zeroed 512-cell RAM, RAM disabled. */
  function Initial(rom: seq<u8>): (st: State)
    ensures st.Valid() && st.bankROM == 1 && !st.enableRAM
  {
    State(rom, seq(RamSize, _ => 0), false, 1)
  }

  /** Every write keeps the state valid: in particular RAM cells stay nibbles. */
  lemma WriteKeepsValid(st: State, addr: u16, d: u8)
    requires st.Valid()
    ensures st.Write(addr, d).0.Valid()
  {
  }

  /** A write to 0x0000-0x1FFF changes the enable only when address bit 8 is clear, and nothing else. */
  lemma EnableNeedsBit8Clear(st: State, addr: u16, d: u8)
    requires addr <= 0x1FFF
    ensures st.Write(addr, d).1 == Success
    ensures st.Write(addr, d).0 == if AddrBit8(addr) then st else st.(enableRAM := d % 0x10 == 0x0A)
  {
  }

  /** A write to 0x2000-0x3FFF changes the bank only when address bit 8 is set; 0 selects bank 1. */
  lemma BankNeedsBit8Set(st: State, addr: u16, d: u8)
    requires 0x2000 <= addr <= 0x3FFF
    ensures st.Write(addr, d).1 == Success
    ensures !AddrBit8(addr) ==> st.Write(addr, d).0 == st
    ensures AddrBit8(addr) ==> st.Write(addr, d).0.bankROM == if d == 0 then 1 else d % 0x10
  {
  }

  /** Every read of the internal RAM succeeds and yields a nibble, whether RAM is enabled or not. */
  lemma {:induction false} RamReadsNibble(st: State, addr: u16)
    requires st.Valid() && 0xA000 <= addr <= 0xA1FF
    ensures st.Read(addr).Ok? && st.Read(addr).value < 0x10
    ensures st.Read(addr).value == st.ram[addr - 0xA000]
  {
    assert st.ram[addr - 0xA000] < 0x10;
  }

  /** An enabled RAM write stores the low nibble of the data, and is read back. */
  lemma {:induction false} RamRoundTrip(st: State, addr: u16, d: u8)
    requires st.Valid() && st.enableRAM && 0xA000 <= addr <= 0xA1FF
    ensures st.Write(addr, d).1 == Success
    ensures st.Write(addr, d).0.Read(addr) == Ok(d % 0x10)
  {
  }

  /** While RAM is disabled, RAM writes succeed and change nothing. */
  lemma DisabledWritesDropped(st: State, addr: u16, d: u8)
    requires !st.enableRAM && 0xA000 <= addr <= 0xA1FF
    ensures st.Write(addr, d) == (st, Success)
  {
  }

  /** Reading the switchable area returns the byte of the selected bank. */
  lemma BankedRead(st: State, addr: u16)
    requires 0x4000 <= addr <= 0x7FFF
    requires RomBankSize * st.bankROM + (addr - 0x4000) < |st.rom|
    ensures st.Read(addr) == Ok(st.rom[RomBankSize * st.bankROM + (addr - 0x4000)])
  {
  }

  /** 0xA200-0xBFFF and everything else outside ROM and RAM fail out of range. */
  lemma OutOfRange(st: State, addr: u16, d: u8)
    requires 0x8000 <= addr < 0xA000 || 0xA200 <= addr
    ensures st.Read(addr) == Err(ReadOutOfRange(addr))
    ensures st.Write(addr, d) == (st, Failure(WriteOutOfRange(addr)))
  {
  }

  class MBC2 {
    const rom: ROM
    const otherBanks: ROM
    const ram: RAM
    var bankROM: nat
    var enableRAM: bool

    ghost function Repr(): set<object>
    {
      {this, rom, otherBanks, ram, ram.data}
    }

    ghost function Model(): State
      reads this, ram.data
    {
      State(rom.data, ram.data[..], enableRAM, bankROM)
    }

    ghost predicate Valid()
      reads Repr()
    {
      rom.Valid() && otherBanks.Valid() && ram.Valid() &&
      rom.addrOffset == 0x0000 && otherBanks.addrOffset == 0x4000 && ram.addrOffset == 0xA000 &&
      otherBanks.data == rom.data && ram.windowOffset == 0 && Model().Valid()
    }

    /** NewMBC2: the controller allocates its own RAM. */
    constructor (romData: seq<u8>)
      ensures Valid() && fresh(rom) && fresh(otherBanks) && fresh(ram) && fresh(ram.data)
      ensures Model() == Initial(romData)
    {
      rom := new ROM(romData, 0x0000);
      otherBanks := new ROM(romData, 0x4000);
      var cells := new u8[RamSize](_ => 0);
      ram := new RAM(cells, 0xA000);
      bankROM, enableRAM := 1, false;
      new;
      assert ram.data[..] == seq(RamSize, _ => 0);
      assert Model() == Initial(romData);
    }

    method Read(addr: u16) returns (r: Result<u8>)
      requires Valid()
      modifies rom, otherBanks
      ensures Valid() && Model() == old(Model())
      ensures r == Model().Read(addr)
    {
      if addr <= 0x3FFF {
        var s := rom.SetWindow(0);
        if s.Failure? {
          return Err(s.error);
        }
        return rom.Read(addr);
      }
      if addr <= 0x7FFF {
        var s := otherBanks.SetWindow(bankROM * RomBankSize);
        if s.Failure? {
          return Err(s.error);
        }
        return otherBanks.Read(addr);
      }
      if 0xA000 <= addr <= 0xA1FF {
        return ram.Read(addr);
      }
      return Err(ReadOutOfRange(addr));
    }

    method Write(addr: u16, d: u8) returns (s: Status)
      requires Valid()
      modifies this, ram.data
      ensures Valid()
      ensures (Model(), s) == old(Model()).Write(addr, d)
    {
      WriteKeepsValid(Model(), addr, d);
      if addr <= 0x1FFF {
        if !AddrBit8(addr) {
          enableRAM := d % 0x10 == 0x0A;
        }
        return Success;
      }
      if addr <= 0x3FFF {
        if AddrBit8(addr) {
          var data := if d == 0 then 1 else d;
          bankROM := data % 0x10;
        }
        return Success;
      }
      if 0xA000 <= addr <= 0xA1FF {
        if !enableRAM {
          return Success;
        }
        s := ram.Write(addr, d % 0x10);
        return s;
      }
      return Failure(WriteOutOfRange(addr));
    }
  }
}
