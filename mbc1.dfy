/**
 * game/mbc1.go: the MBC1 bank controller. Writes to 0x0000-0x7FFF set its
 * control registers (RAM enable, the 5-bit ROM bank, the 2-bit RAM bank and
 * the banking mode); reads of 0x4000-0x7FFF and of 0xA000-0xBFFF go through
 * a window moved to the selected bank first.
 *
 * `State` is what a read or a later write can observe: the contents and the
 * control registers. The window offsets are not part of it, since every
 * access sets them before use. The class `MBC1` updates its fields in place
 * and is proved to follow `State.Read` and `State.Write`.
 */
module Mbc1 {
  import opened Bits
  import opened Errors
  import opened Memory

  const RomBankSize: nat := 0x4000
  const RamBankSize: nat := 0x2000

  datatype State = State(rom: seq<u8>, ram: seq<u8>, enableRAM: bool,
                         bankRAM: nat, bankROM0: nat, bankROM1: nat, mode: nat)
  {
    /**
     * The registers of every reachable state: `bankROM0` is always `bankRAM`
     * over `bankROM1` (bits 5-6 and bits 0-4), since each bank write updates
     * both.
     */
    predicate Valid()
    {
      mode < 2 && bankRAM < 4 && bankROM1 < 0x20 && bankROM0 == 0x20 * bankRAM + bankROM1
    }

    /** The bank at 0x4000-0x7FFF: bankROM0 in mode 0, bankROM1 in mode 1. */
    function RomBank(): nat
    {
      if mode == 0 then bankROM0 else bankROM1
    }

    /** The bank at 0xA000-0xBFFF: bankRAM in mode 1, bank 0 in mode 0. */
    function RamBank(): nat
    {
      if mode == 1 then bankRAM else 0
    }

    /** MBC1.Read */
    function Read(addr: u16): Result<u8>
    {
      if addr <= 0x3FFF then WindowRead(rom, 0, 0x0000, addr)
      else if addr <= 0x7FFF then WindowRead(rom, RomBankSize * RomBank(), 0x4000, addr)
      else if 0xA000 <= addr <= 0xBFFF then WindowRead(ram, RamBankSize * RamBank(), 0xA000, addr)
      else Err(ReadOutOfRange(addr))
    }

    /**
     * MBC1.Write: the state after the write, and its status. `d & 0x1F`,
     * `d & 0x03`, `d & 0x01` are `% 0x20`, `% 4`, `% 2`; `bankROM0 & ~0x1F`
     * is `0x20 * (bankROM0 / 0x20)`.
     */
    function Write(addr: u16, d: u8): (State, Status)
    {
      if addr <= 0x1FFF then
        (this.(enableRAM := d % 0x10 == 0x0A), Success)
      else if addr <= 0x3FFF then
        var bank := (if d == 0 then 1 else d) % 0x20;
        (this.(bankROM1 := bank, bankROM0 := 0x20 * (bankROM0 / 0x20) + bank), Success)
      else if addr <= 0x5FFF then
        var bank := d % 4;
        (this.(bankRAM := bank, bankROM0 := bankROM0 % 0x20 + 0x20 * bank), Success)
      else if addr <= 0x7FFF then
        (this.(mode := d % 2), Success)
      else if 0xA000 <= addr <= 0xBFFF then
        if !enableRAM then (this, Success)
        else
          var (ram', s) := WindowWrite(ram, RamBankSize * RamBank(), 0xA000, addr, d);
          (this.(ram := ram'), s)
      else (this, Failure(WriteOutOfRange(addr)))
    }
  }

  /** NewMBC1: banks 1 and 1, RAM bank 0, mode 0, RAM disabled. */
  function Initial(rom: seq<u8>, ram: seq<u8>): (st: State)
    ensures st.Valid() && st.RomBank() == 1 && st.RamBank() == 0 && !st.enableRAM
  {
    State(rom, ram, false, 0, 1, 1, 0)
  }

  /** Every write keeps the register relation. */
  lemma WriteKeepsValid(st: State, addr: u16, d: u8)
    requires st.Valid()
    ensures st.Write(addr, d).0.Valid()
  {
    if 0x2000 <= addr <= 0x3FFF {
      assert st.bankROM0 / 0x20 == st.bankRAM by {
        DivUnique(st.bankROM0, 0x20, st.bankRAM, st.bankROM1);
      }
    } else if 0x4000 <= addr <= 0x5FFF {
      assert st.bankROM0 % 0x20 == st.bankROM1 by {
        DivUnique(st.bankROM0, 0x20, st.bankRAM, st.bankROM1);
      }
    }
  }

  /** A write below 0x8000 is a control write: it leaves ROM and RAM contents alone and succeeds. */
  lemma ControlWritesKeepContents(st: State, addr: u16, d: u8)
    requires addr <= 0x7FFF
    ensures st.Write(addr, d).0.rom == st.rom && st.Write(addr, d).0.ram == st.ram
    ensures st.Write(addr, d).1 == Success
  {
  }

  /**
   * A ROM-bank write in mode 0 selects bankRAM·32 + the written bank, and a
   * written 0 means 1; only the whole byte 0 is coerced, so 0x20 selects bank
   * 0 of the group.
   */
  lemma {:induction false} SelectRomBank(st: State, addr: u16, d: u8)
    requires st.Valid() && st.mode == 0 && 0x2000 <= addr <= 0x3FFF
    ensures st.Write(addr, d).0.RomBank() == 0x20 * st.bankRAM + (if d == 0 then 1 else d % 0x20)
  {
    DivUnique(st.bankROM0, 0x20, st.bankRAM, st.bankROM1);
  }

  /** Reading the switchable area returns the byte of the selected bank. */
  lemma BankedRead(st: State, addr: u16)
    requires 0x4000 <= addr <= 0x7FFF
    requires RomBankSize * st.RomBank() + (addr - 0x4000) < |st.rom|
    ensures st.Read(addr) == Ok(st.rom[RomBankSize * st.RomBank() + (addr - 0x4000)])
  {
  }

  /** From power-on, writing 5 to 0x2000 makes 0x4000-0x7FFF read bank 5. */
  lemma {:induction false} SelectingFiveReadsBankFive(rom: seq<u8>, ram: seq<u8>, addr: u16)
    requires 0x4000 <= addr <= 0x7FFF && |rom| >= 6 * RomBankSize
    ensures Initial(rom, ram).Write(0x2000, 5).0.Read(addr) == Ok(rom[5 * RomBankSize + (addr - 0x4000)])
  {
    SelectRomBank(Initial(rom, ram), 0x2000, 5);
  }

  /** RAM reads are not gated by the enable register. */
  lemma ReadsIgnoreEnable(st: State, addr: u16, e: bool)
    ensures st.(enableRAM := e).Read(addr) == st.Read(addr)
  {
  }

  /** While RAM is disabled, RAM writes succeed and change nothing. */
  lemma DisabledWritesDropped(st: State, addr: u16, d: u8)
    requires !st.enableRAM && 0xA000 <= addr <= 0xBFFF
    ensures st.Write(addr, d) == (st, Success)
  {
  }

  /** An enabled RAM write that succeeds is read back. */
  lemma RamRoundTrip(st: State, addr: u16, d: u8)
    requires st.enableRAM && 0xA000 <= addr <= 0xBFFF
    ensures st.Write(addr, d).1.Success? <==> st.Read(addr).Ok?
    ensures st.Write(addr, d).1.Success? ==> st.Write(addr, d).0.Read(addr) == Ok(d)
  {
  }

  /** Addresses outside the ROM and the external RAM fail both ways. */
  lemma OutOfRange(st: State, addr: u16, d: u8)
    requires 0x8000 <= addr < 0xA000 || 0xC000 <= addr
    ensures st.Read(addr) == Err(ReadOutOfRange(addr))
    ensures st.Write(addr, d) == (st, Failure(WriteOutOfRange(addr)))
  {
  }

  class MBC1 {
    const rom: ROM
    const otherBanks: ROM
    const ram: RAM
    var bankRAM: nat
    var bankROM0: nat
    var bankROM1: nat
    var enableRAM: bool
    var mode: nat

    ghost function Repr(): set<object>
    {
      {this, rom, otherBanks, ram, ram.data}
    }

    ghost function Model(): State
      reads this, ram.data
    {
      State(rom.data, ram.data[..], enableRAM, bankRAM, bankROM0, bankROM1, mode)
    }

    ghost predicate Valid()
      reads Repr()
    {
      rom.Valid() && otherBanks.Valid() && ram.Valid() &&
      rom.addrOffset == 0x0000 && otherBanks.addrOffset == 0x4000 && ram.addrOffset == 0xA000 &&
      otherBanks.data == rom.data && Model().Valid()
    }

    /** NewMBC1 over the ROM image and the RAM buffer the header asked for. */
    constructor (romData: seq<u8>, ramData: array<u8>)
      ensures Valid() && fresh(rom) && fresh(otherBanks) && fresh(ram)
      ensures ram.data == ramData
      ensures Model() == Initial(romData, ramData[..])
    {
      rom := new ROM(romData, 0x0000);
      otherBanks := new ROM(romData, 0x4000);
      ram := new RAM(ramData, 0xA000);
      bankROM0, bankROM1, bankRAM := 1, 1, 0;
      enableRAM, mode := false, 0;
      new;
      assert Model() == Initial(romData, ramData[..]);
    }

    method Read(addr: u16) returns (r: Result<u8>)
      requires Valid()
      modifies rom, otherBanks, ram
      ensures Valid() && Model() == old(Model())
      ensures r == Model().Read(addr)
    {
      if addr <= 0x7FFF {
        r := ReadRom(addr);
      } else {
        r := ReadRam(addr);
      }
    }

    /** The ROM half of MBC1.Read: bank 0, or the selected bank through its window. */
    method ReadRom(addr: u16) returns (r: Result<u8>)
      requires Valid() && addr <= 0x7FFF
      modifies rom, otherBanks
      ensures Valid() && Model() == old(Model())
      ensures r == Model().Read(addr)
    {
      if addr <= 0x3FFF {
        var s := rom.SetWindow(0);
        if s.Failure? {
          return Err(s.error);
        }
        return rom.Read(addr);
      }
      var bank := if mode == 0 then bankROM0 else bankROM1;
      var s := otherBanks.SetWindow(bank * RomBankSize);
      if s.Failure? {
        return Err(s.error);
      }
      return otherBanks.Read(addr);
    }

    /** The external-RAM half of MBC1.Read. */
    method ReadRam(addr: u16) returns (r: Result<u8>)
      requires Valid() && 0x8000 <= addr
      modifies ram
      ensures Valid() && Model() == old(Model())
      ensures r == Model().Read(addr)
    {
      if 0xA000 <= addr <= 0xBFFF {
        var bank := if mode == 1 then bankRAM else 0;
        var s := ram.SetWindow(bank * RamBankSize);
        if s.Failure? {
          return Err(s.error);
        }
        return ram.Read(addr);
      }
      return Err(ReadOutOfRange(addr));
    }

    method Write(addr: u16, d: u8) returns (s: Status)
      requires Valid()
      modifies this, ram, ram.data
      ensures Valid()
      ensures (Model(), s) == old(Model()).Write(addr, d)
    {
      if addr <= 0x7FFF {
        s := WriteRegister(addr, d);
      } else {
        s := WriteRam(addr, d);
      }
    }

    /** The control-register half of MBC1.Write. */
    method WriteRegister(addr: u16, d: u8) returns (s: Status)
      requires Valid() && addr <= 0x7FFF
      modifies this
      ensures Valid()
      ensures (Model(), s) == old(Model()).Write(addr, d)
    {
      WriteKeepsValid(Model(), addr, d);
      if addr <= 0x1FFF {
        enableRAM := d % 0x10 == 0x0A;
        return Success;
      }
      if addr <= 0x3FFF {
        var data := if d == 0 then 1 else d;
        bankROM1 := data % 0x20;
        bankROM0 := 0x20 * (bankROM0 / 0x20) + bankROM1;
        return Success;
      }
      if addr <= 0x5FFF {
        bankRAM := d % 4;
        bankROM0 := bankROM0 % 0x20 + 0x20 * bankRAM;
        return Success;
      }
      mode := d % 2;
      return Success;
    }

    /** The external-RAM half of MBC1.Write. */
    method WriteRam(addr: u16, d: u8) returns (s: Status)
      requires Valid() && 0x8000 <= addr
      modifies ram, ram.data
      ensures Valid()
      ensures (Model(), s) == old(Model()).Write(addr, d)
    {
      if 0xA000 <= addr <= 0xBFFF {
        if !enableRAM {
          return Success;
        }
        var bank := if mode == 1 then bankRAM else 0;
        s := ram.SetWindow(bank * RamBankSize);
        if s.Failure? {
          return s;
        }
        s := ram.Write(addr, d);
        return s;
      }
      return Failure(WriteOutOfRange(addr));
    }
  }
}
