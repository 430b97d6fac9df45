/**
 * game/cartridge.go: decoding the cartridge header and delegating every bus
 * access to the bank controller it selects.
 *
 * Go reads the ROM image from a file; here the image is the parameter of
 * `NewCartridge`. Header decoding is the pure `DecodeHeader`; `NewCartridge`
 * builds the controller objects it names.
 */
module Cartridge {
  import opened Bits
  import opened Errors
  import opened Memory
  import opened NullMbc
  import Mbc1
  import Mbc2
  import Mbc3

  const AddrCartridgeType: u16 := 0x0147
  const AddrRamSize: u16 := 0x0149

  /** The external RAM size for header byte 0x149, in bytes. */
  function RamSize(code: u8): Option<nat>
  {
    match code
    case 0x00 => Some(0)
    case 0x01 => Some(2048)
    case 0x02 => Some(8192)
    case 0x03 => Some(32768)
    case _ => None
  }

  /** The bank controllers this loader can build. */
  datatype Kind = RomOnly | Mbc1Kind | Mbc2Kind

  /** The controller for header byte 0x147. */
  function KindOf(code: u8): Option<Kind>
  {
    match code
    case 0x00 => Some(RomOnly)
    case 0x01 | 0x02 | 0x03 => Some(Mbc1Kind)
    case 0x05 | 0x06 => Some(Mbc2Kind)
    case _ => None
  }

  datatype Header = Header(ramSize: nat, kind: Kind)

  /**
   * The checks of NewCartridge, in its order: reading 0x149 (which fails with
   * the ROM's range error on an image that short), its RAM-size code, then
   * the controller type at 0x147.
   */
  function DecodeHeader(rom: seq<u8>): (r: Result<Header>)
    ensures r.Ok? <==> |rom| > AddrRamSize as int && RamSize(rom[AddrRamSize]).Some? &&
                       KindOf(rom[AddrCartridgeType]).Some?
  {
    if |rom| <= AddrRamSize as int then Err(ReadOutOfRange(AddrRamSize))
    else match RamSize(rom[AddrRamSize])
      case None => Err(Corrupted)
      case Some(size) =>
        match KindOf(rom[AddrCartridgeType])
        case None => Err(CartridgeNotSupported(rom[AddrCartridgeType]))
        case Some(kind) => Ok(Header(size, kind))
  }

  /** Codes 0-3 give no RAM, 2 KiB, 8 KiB and 32 KiB; every other code is corrupt. */
  lemma {:induction false} RamSizeTable(rom: seq<u8>)
    requires |rom| > AddrRamSize as int
    ensures var code := rom[AddrRamSize];
            match DecodeHeader(rom)
            case Ok(h) => code <= 3 && h.ramSize == [0, 2048, 8192, 32768][code]
            case Err(e) => code > 3 ==> e == Corrupted
  {
  }

  /**
   * Type 0 is ROM only, 1-3 MBC1 and 5-6 MBC2; everything else, including
   * the MBC3 codes 0x0F-0x13, is not supported. The RAM code is checked first.
   */
  lemma {:induction false} TypeTable(rom: seq<u8>)
    requires |rom| > AddrRamSize as int && rom[AddrRamSize] <= 3
    ensures var t := rom[AddrCartridgeType];
            match DecodeHeader(rom)
            case Ok(h) => (t == 0 && h.kind == RomOnly) || (1 <= t <= 3 && h.kind == Mbc1Kind) ||
                          (5 <= t <= 6 && h.kind == Mbc2Kind)
            case Err(e) => e == CartridgeNotSupported(t) && (t == 4 || t > 6)
  {
  }

  /** A bad RAM code wins over a bad type, and a short image over both. */
  lemma ErrorOrder(rom: seq<u8>)
    ensures |rom| <= AddrRamSize as int ==> DecodeHeader(rom) == Err(ReadOutOfRange(AddrRamSize))
    ensures |rom| > AddrRamSize as int && rom[AddrRamSize] > 3 ==> DecodeHeader(rom) == Err(Corrupted)
  {
  }

  /** What a read or a later write of the cartridge observes, for each controller. */
  datatype Model =
    | NullState(n: NullMBC)
    | Mbc1State(s1: Mbc1.State)
    | Mbc2State(s2: Mbc2.State)
    | Mbc3State(s3: Mbc3.State)
  {
    predicate Valid()
    {
      match this
      case NullState(_) => true
      case Mbc1State(s) => s.Valid()
      case Mbc2State(s) => s.Valid()
      case Mbc3State(s) => s.Valid()
    }

    /** Cartridge.Read: the controller's read, unchanged. */
    function Read(addr: u16): Result<u8>
      requires Valid()
    {
      match this
      case NullState(n) => n.Read(addr)
      case Mbc1State(s) => s.Read(addr)
      case Mbc2State(s) => s.Read(addr)
      case Mbc3State(s) => s.Read(addr)
    }

    /** Cartridge.Write: the controller's write, unchanged. */
    function Write(addr: u16, d: u8): (Model, Status)
      requires Valid()
    {
      match this
      case NullState(n) => (this, n.Write(addr, d))
      case Mbc1State(s) => var (s', st) := s.Write(addr, d); (Mbc1State(s'), st)
      case Mbc2State(s) => var (s', st) := s.Write(addr, d); (Mbc2State(s'), st)
      case Mbc3State(s) => var (s', st) := s.Write(addr, d); (Mbc3State(s'), st)
    }
  }

  /** The cartridge right after NewCartridge for a header: zeroed RAM of the header's size. */
  function Initial(rom: seq<u8>, h: Header): (m: Model)
    ensures m.Valid()
  {
    match h.kind
    case RomOnly => NullState(NullMBC(rom))
    case Mbc1Kind => Mbc1State(Mbc1.Initial(rom, seq(h.ramSize, _ => 0)))
    case Mbc2Kind => Mbc2State(Mbc2.Initial(rom))
  }

  /** Every write keeps the cartridge valid. */
  lemma WriteKeepsValid(m: Model, addr: u16, d: u8)
    requires m.Valid()
    ensures m.Write(addr, d).0.Valid()
  {
    match m
    case NullState(_) =>
    case Mbc1State(s) => Mbc1.WriteKeepsValid(s, addr, d);
    case Mbc2State(s) => Mbc2.WriteKeepsValid(s, addr, d);
    case Mbc3State(s) => Mbc3.WriteKeepsValid(s, addr, d);
  }

  /**
   * At power-on an MBC1 cartridge reads 0x0000-0x7FFF exactly like a
   * cartridge without a controller: bank 1 follows bank 0.
   */
  lemma Mbc1PowerOnIsFlat(rom: seq<u8>, ram: seq<u8>, addr: u16)
    requires addr <= 0x7FFF
    ensures Mbc1.Initial(rom, ram).Read(addr).Ok? ==> NullMBC(rom).Read(addr) == Mbc1.Initial(rom, ram).Read(addr)
    ensures addr < |rom| ==> Mbc1.Initial(rom, ram).Read(addr) == Ok(rom[addr])
  {
  }

  datatype Controller =
    | NoMbc(n: NullMBC)
    | WithMbc1(m1: Mbc1.MBC1)
    | WithMbc2(m2: Mbc2.MBC2)
    | WithMbc3(m3: Mbc3.MBC3)

  /** The objects of a controller. */
  ghost function Objects(mbc: Controller): set<object>
  {
    match mbc
    case NoMbc(_) => {}
    case WithMbc1(m) => m.Repr()
    case WithMbc2(m) => m.Repr()
    case WithMbc3(m) => m.Repr()
  }

  class Cartridge {
    const mbc: Controller

    /** The cartridge and its controller's objects, fixed when it is made. */
    ghost const Repr: set<object>

    ghost predicate Valid()
      reads Repr
    {
      Repr == {this} + Objects(mbc) &&
      match mbc
      case NoMbc(_) => true
      case WithMbc1(m) => m.Valid()
      case WithMbc2(m) => m.Valid()
      case WithMbc3(m) => m.Valid()
    }

    ghost function Model(): Model
      reads Repr
      requires Valid()
    {
      match mbc
      case NoMbc(n) => NullState(n)
      case WithMbc1(m) => Mbc1State(m.Model())
      case WithMbc2(m) => Mbc2State(m.Model())
      case WithMbc3(m) => Mbc3State(m.Model())
    }

    lemma ValidModel()
      requires Valid()
      ensures Model().Valid()
    {
    }

    constructor (mbc: Controller)
      requires match mbc
               case NoMbc(_) => true
               case WithMbc1(m) => m.Valid()
               case WithMbc2(m) => m.Valid()
               case WithMbc3(m) => m.Valid()
      ensures this.mbc == mbc && Valid()
    {
      this.mbc := mbc;
      Repr := {this} + Objects(mbc);
    }

    method Read(addr: u16) returns (r: Result<u8>)
      requires Valid()
      modifies Repr - {this}
      ensures Valid() && Model() == old(Model()) && Model().Valid()
      ensures r == Model().Read(addr)
    {
      match mbc
      case NoMbc(n) => r := n.Read(addr);
      case WithMbc1(m) => r := m.Read(addr);
      case WithMbc2(m) => r := m.Read(addr);
      case WithMbc3(m) => r := m.Read(addr);
    }

    method Write(addr: u16, d: u8) returns (s: Status)
      requires Valid()
      modifies Repr - {this}
      ensures Valid() && Model().Valid()
      ensures (Model(), s) == old(Model()).Write(addr, d)
    {
      match mbc
      case NoMbc(n) => s := n.Write(addr, d);
      case WithMbc1(m) => s := m.Write(addr, d);
      case WithMbc2(m) => s := m.Write(addr, d);
      case WithMbc3(m) => s := m.Write(addr, d);
    }
  }

  /** NewCartridge over an image already read from the file. */
  method NewCartridge(romData: seq<u8>) returns (r: Result<Cartridge>)
    ensures r.Err? <==> DecodeHeader(romData).Err?
    ensures r.Err? ==> r.error == DecodeHeader(romData).error
    ensures r.Ok? ==> r.value.Valid() && fresh(r.value.Repr)
    ensures r.Ok? ==> r.value.Model() == Initial(romData, DecodeHeader(romData).value)
  {
    var h := DecodeHeader(romData);
    if h.Err? {
      return Err(h.error);
    }
    var ramData := new u8[h.value.ramSize](_ => 0);
    var c: Cartridge;
    match h.value.kind {
      case RomOnly =>
        c := new Cartridge(NoMbc(NullMBC(romData)));
      case Mbc1Kind =>
        var m := new Mbc1.MBC1(romData, ramData);
        assert ramData[..] == seq(h.value.ramSize, _ => 0);
        c := new Cartridge(WithMbc1(m));
      case Mbc2Kind =>
        var m := new Mbc2.MBC2(romData);
        c := new Cartridge(WithMbc2(m));
    }
    return Ok(c);
  }
}
