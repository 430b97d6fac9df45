/**
 * memory/mmu.go (Read and Write), memory/echoer.go and the picture
 * processor's OAM transfer (display/gpu.go, transferDataToOAM): the bus the
 * core talks to. In Go the MMU's table holds the unit objects themselves
 * behind the `memory.Unit` interface; here the table names each owner
 * (`Mmu.Unit`) and the `Machine` holds the objects and forwards every access
 * to the one the table names.
 *
 * An echo entry forwards to its fixed destination through the table again.
 * The wiring never points an echo at another echo, so this model resolves one
 * level and keeps that as an invariant (`EchoesResolve`).
 *
 * The ghost `trace` records every access made through `Read` and `Write`,
 * with its outcome, in order.
 */
module Bus {
  import opened Bits
  import opened Errors
  import opened Mmu
  import opened Memory
  import Joypad
  import Timers
  import Cartridge
  import Gpu
  import Apu
  import Screen
  import Stat
  import Square1
  import Square2
  import Wave
  import Noise
  import Control

  /** One access the core made on the bus, with its outcome. */
  datatype Access =
    | ReadAt(addr: u16, r: Result<u8>)
    | WriteAt(addr: u16, d: u8, s: Status)

  /** The units NewAPU and NewGameboy register on the core's clock. */
  datatype TimedUnit = ApuClock | TimerClock | GpuClock

  /** Units that store the byte written and read it back unchanged. */
  predicate IsRegister(u: Unit)
  {
    u.InterruptEnable? || u.InterruptFlags? || u.LcdcReg? || u.ScyReg? || u.ScxReg? || u.WyReg? ||
    u.WxReg? || u.LycReg? || u.BgpReg? || u.Obp0Reg? || u.Obp1Reg?
  }

  predicate IsRam(u: Unit)
  {
    u.WorkRam? || u.HighRam? || u.IoRam?
  }

  /** Units whose reads and writes go to stored bytes: the cartridge, the boot ROM, the RAMs and the unused range. */
  predicate IsStorage(u: Unit)
  {
    u.NoUnit? || u.CartridgeUnit? || u.BiosRom? || IsRam(u) || u.NullUnit?
  }

  /** The joypad, the timer, IE, IF and the boot-ROM unmapper. */
  predicate IsIo(u: Unit)
  {
    u.JoypadUnit? || u.TimerUnit? || u.InterruptEnable? || u.InterruptFlags? || u.Unmapper?
  }

  /** The picture processor and its registers. */
  predicate IsDisplay(u: Unit)
  {
    u.GpuUnit? || u.LcdcReg? || u.StatReg? || u.ScyReg? || u.ScxReg? || u.WyReg? || u.WxReg? ||
    u.LycReg? || u.BgpReg? || u.Obp0Reg? || u.Obp1Reg?
  }

  /** The four sound channels and the sound control registers. */
  predicate IsSound(u: Unit)
  {
    u.Square1Unit? || u.Square2Unit? || u.WaveUnit? || u.NoiseUnit? || u.ControlUnit?
  }

  // ---- the OAM transfer, on values ----

  /** The contents and windows of the boot ROM and the RAMs. */
  datatype Stored = Stored(biosOffset: nat, wram: seq<u8>, wramOffset: nat, hram: seq<u8>, hramOffset: nat,
                           ioram: seq<u8>, ioramOffset: nat)

  /** A windowed read (RAM.Read, ROM.Read) on the contents `data` seen from `off`, first address `base`. */
  function WindowedRead(data: seq<u8>, off: nat, base: u16, addr: u16): Result<u8>
  {
    if base > addr then Err(ReadOutOfRange(addr))
    else if |data| - off <= addr - base then Err(ReadOutOfRange(addr))
    else Ok(data[off + (addr - base)])
  }

  /** How many of the reads succeed before the first failure. */
  function FirstFailure(rs: seq<Result<u8>>): (k: nat)
    ensures k <= |rs|
    ensures forall j :: 0 <= j < k ==> rs[j].Ok?
    ensures k < |rs| ==> rs[k].Err?
  {
    if rs == [] then 0 else if rs[0].Err? then 0 else 1 + FirstFailure(rs[1..])
  }

  /** OAM byte `j` after a transfer that read `rs`: the byte read if every read up to it succeeded, else the old one. */
  function TransferredByte(oam: seq<u8>, rs: seq<Result<u8>>, j: nat): u8
    requires |oam| == |rs| && j < |oam|
  {
    if j < FirstFailure(rs) then rs[j].value else oam[j]
  }

  /** OAM after a transfer that read `rs`: each byte up to the first failed read copied, the rest kept. */
  function Transferred(oam: seq<u8>, rs: seq<Result<u8>>): (r: seq<u8>)
    requires |oam| == |rs|
    ensures |r| == |oam|
    ensures forall j :: 0 <= j < |oam| ==> r[j] == TransferredByte(oam, rs, j)
  {
    seq(|oam|, j requires 0 <= j < |oam| => TransferredByte(oam, rs, j))
  }

  /** OAM after the first `i` reads of a transfer, all successful, have been copied. */
  function Copied(oam: seq<u8>, rs: seq<Result<u8>>, i: nat): (r: seq<u8>)
    requires |oam| == |rs| && i <= |rs| && forall j :: 0 <= j < i ==> rs[j].Ok?
    ensures |r| == |oam|
    ensures forall j :: 0 <= j < i ==> r[j] == rs[j].value
    ensures r[i..] == oam[i..]
  {
    if i == 0 then oam else Copied(oam, rs, i - 1)[i - 1 := rs[i - 1].value]
  }

  /** Copying one more byte. */
  lemma CopiedStep(oam: seq<u8>, rs: seq<Result<u8>>, i: nat)
    requires |oam| == |rs| && i < |rs| && forall j :: 0 <= j <= i ==> rs[j].Ok?
    ensures Copied(oam, rs, i)[i := rs[i].value] == Copied(oam, rs, i + 1)
  {
  }

  /** The status of that transfer: the first failed read's error, if any. */
  function TransferStatus(rs: seq<Result<u8>>): Status
  {
    if FirstFailure(rs) == |rs| then Success else Failure(rs[FirstFailure(rs)].error)
  }

  /** A transfer whose reads all succeed replaces OAM by the bytes read. */
  lemma TransferCopies(oam: seq<u8>, rs: seq<Result<u8>>)
    requires |oam| == |rs| && forall j :: 0 <= j < |rs| ==> rs[j].Ok?
    ensures TransferStatus(rs) == Success
    ensures forall j :: 0 <= j < |oam| ==> Transferred(oam, rs)[j] == rs[j].value
    ensures Transferred(oam, rs) == Copied(oam, rs, |rs|)
  {
  }

  /** A transfer that fails leaves the bytes from the failed read on as they were. */
  lemma TransferStopsAtFailure(oam: seq<u8>, rs: seq<Result<u8>>, k: nat)
    requires |oam| == |rs| && k < |rs| && rs[k].Err? && forall j :: 0 <= j < k ==> rs[j].Ok?
    ensures TransferStatus(rs) == Failure(rs[k].error)
    ensures forall j :: 0 <= j < k ==> Transferred(oam, rs)[j] == rs[j].value
    ensures Transferred(oam, rs)[k..] == oam[k..]
    ensures Transferred(oam, rs) == Copied(oam, rs, k)
  {
    assert FirstFailure(rs) == k;
  }

  /**
   * How the parts of a machine are connected: the unmapper works on the
   * table and hands 0x0000-0x00FF to the cartridge, the timer, the joypad and
   * the picture processor raise their interrupts in the core's IF register,
   * the frame sequencer drives the sound unit's channels, and the memories
   * the bus reaches through different units are separate objects.
   */
  ghost predicate Connected(mmu: MMU, cart: Cartridge.Cartridge, bios: ROM, wram: RAM, hram: RAM, ioram: RAM,
                            joyp: Joypad.JOYP, timer: Timers.Timer, ier: MemReg, ifr: MemReg, unmapper: BiosUnmapper,
                            gpu: Gpu.GPU, apu: Apu.APU)
  {
    mmu.Valid() && unmapper.mmu == mmu && unmapper.cartridge == CartridgeUnit &&
    gpu.ifr == ifr && timer.ifr == ifr && joyp.ifr == ifr && ier != ifr &&
    apu.fs.ch1 == apu.ch1 && apu.fs.ch2 == apu.ch2 && apu.fs.ch3 == apu.ch3 && apu.fs.ch4 == apu.ch4 &&
    bios !in cart.Repr && wram !in cart.Repr && hram !in cart.Repr && ioram !in cart.Repr &&
    gpu.vram !in cart.Repr && gpu.oam !in cart.Repr &&
    wram.data !in cart.Repr && hram.data !in cart.Repr && ioram.data !in cart.Repr &&
    gpu.vram.data !in cart.Repr && gpu.oam.data !in cart.Repr && mmu.mapping !in cart.Repr && joyp !in cart.Repr &&
    timer !in cart.Repr && ier !in cart.Repr && ifr !in cart.Repr && gpu !in cart.Repr && gpu.stat !in cart.Repr &&
    gpu.lcdc !in cart.Repr && gpu.scy !in cart.Repr && gpu.scx !in cart.Repr && gpu.wy !in cart.Repr &&
    gpu.wx !in cart.Repr && gpu.lyc !in cart.Repr && gpu.bgp !in cart.Repr && gpu.obp0 !in cart.Repr &&
    gpu.obp1 !in cart.Repr && gpu.bgLayer !in cart.Repr && gpu.winLayer !in cart.Repr &&
    gpu.spriteAbove !in cart.Repr && gpu.spriteBelow !in cart.Repr && apu !in cart.Repr && apu.fs !in cart.Repr &&
    apu.ch1 !in cart.Repr && apu.ch2 !in cart.Repr && apu.ch3 !in cart.Repr && apu.ch4 !in cart.Repr &&
    apu.control !in cart.Repr && gpu.oam.data.Length == Gpu.OamSize &&
    wram.data != hram.data && wram.data != ioram.data && hram.data != ioram.data &&
    gpu.vram.data != wram.data && gpu.vram.data != hram.data && gpu.vram.data != ioram.data &&
    gpu.oam.data != wram.data && gpu.oam.data != hram.data && gpu.oam.data != ioram.data
  }

  /** An echo points below the echo area, at an address that is not an echo itself. */
  ghost predicate EchoesResolve(m: seq<Unit>)
    requires |m| == Size
  {
    forall a: u16 {:trigger m[a]} :: m[a].Echo? ==> m[a].dest < 0xE000 && !m[m[a].dest].Echo?
  }

  /** The picture processor owns OAM, so the transfer's writes reach it. */
  ghost predicate OamOwned(m: seq<Unit>)
    requires |m| == Size
  {
    forall i :: Gpu.OamBase as int <= i < Gpu.OamBase as int + Gpu.OamSize ==> m[i] == GpuUnit
  }

  /**
   * The picture processor owns video RAM, so the tile maps and tile rows it
   * reads from its own buffer are the bytes an `mmu.Read` there returns.
   */
  ghost predicate VramOwned(m: seq<Unit>)
    requires |m| == Size
  {
    forall i :: Screen.VramBase <= i < Screen.VramBase + Screen.VramSize ==> m[i] == GpuUnit
  }

  /** The addresses each sound unit takes writes at. */
  predicate SoundOwns(u: Unit, a: u16)
  {
    match u
    case Square1Unit => Square1.AddrNR10 <= a <= Square1.AddrNR14
    case Square2Unit => Square2.AddrNR21 <= a <= Square2.AddrNR24
    case WaveUnit => Wave.AddrNR30 <= a <= Wave.AddrNR34 || Wave.AddrWaveTableStart <= a <= Wave.AddrWaveTableEnd
    case NoiseUnit => Noise.AddrNR41 <= a <= Noise.AddrNR44
    case ControlUnit => Control.AddrNR50 <= a <= Control.AddrNR52
    case _ => false
  }



  /** The objects of a machine's units other than the cartridge. */
  ghost function Parts(mmu: MMU, bios: ROM, wram: RAM, hram: RAM, ioram: RAM, joyp: Joypad.JOYP, timer: Timers.Timer,
                       ier: MemReg, ifr: MemReg, unmapper: BiosUnmapper, gpu: Gpu.GPU, apu: Apu.APU): set<object>
  {
    {mmu, mmu.mapping, bios, wram, wram.data, hram, hram.data, ioram, ioram.data, joyp, timer, ier, ifr,
               unmapper, apu, apu.fs, apu.ch1, apu.ch2, apu.ch3, apu.ch4, apu.control, gpu, gpu.lcdc, gpu.stat,
               gpu.scy, gpu.scx, gpu.wy, gpu.wx, gpu.lyc, gpu.bgp, gpu.obp0, gpu.obp1, gpu.vram, gpu.vram.data, gpu.oam,
               gpu.oam.data, gpu.bgLayer, gpu.winLayer, gpu.spriteAbove, gpu.spriteBelow}
  }

  /** A machine is none of its own parts. */
  lemma PartsApart(m: Machine, mmu: MMU, bios: ROM, wram: RAM, hram: RAM, ioram: RAM, joyp: Joypad.JOYP,
                   timer: Timers.Timer, ier: MemReg, ifr: MemReg, unmapper: BiosUnmapper, gpu: Gpu.GPU, apu: Apu.APU)
    ensures m !in Parts(mmu, bios, wram, hram, ioram, joyp, timer, ier, ifr, unmapper, gpu, apu)
  {
  }

  class Machine {
    const mmu: MMU
    const cart: Cartridge.Cartridge
    const bios: ROM
    const wram: RAM
    const hram: RAM
    const ioram: RAM
    const joyp: Joypad.JOYP
    const timer: Timers.Timer
    const ier: MemReg
    const ifr: MemReg
    const unmapper: BiosUnmapper
    const gpu: Gpu.GPU
    const apu: Apu.APU
    /** Every access made through Read and Write, in order. */
    ghost var trace: seq<Access>

    /** The objects of the machine: fixed when it is assembled. */
    ghost const Repr: set<object>

    /**
     * How the parts are connected, and that `Repr` holds every one of them
     * and not the machine itself; none of it can change.
     */
    ghost predicate Wired()
    {
      Connected(mmu, cart, bios, wram, hram, ioram, joyp, timer, ier, ifr, unmapper, gpu, apu) &&
      this !in Repr && this !in cart.Repr &&
      mmu in Repr && mmu.mapping in Repr && bios in Repr && wram in Repr && wram.data in Repr && hram in Repr &&
      hram.data in Repr && ioram in Repr && ioram.data in Repr && joyp in Repr && timer in Repr && ier in Repr &&
      ifr in Repr && unmapper in Repr && apu in Repr && apu.fs in Repr && apu.ch1 in Repr && apu.ch2 in Repr &&
      apu.ch3 in Repr && apu.ch4 in Repr && apu.control in Repr && gpu in Repr && gpu.lcdc in Repr &&
      gpu.stat in Repr && gpu.scy in Repr && gpu.scx in Repr && gpu.wy in Repr && gpu.wx in Repr && gpu.lyc in Repr &&
      gpu.bgp in Repr && gpu.obp0 in Repr && gpu.obp1 in Repr && gpu.vram in Repr && gpu.vram.data in Repr &&
      gpu.oam in Repr && gpu.oam.data in Repr && gpu.bgLayer in Repr && gpu.winLayer in Repr &&
      gpu.spriteAbove in Repr && gpu.spriteBelow in Repr && cart.Repr <= Repr
    }

    /*
     * The machine keeps the invariants of six groups of units: the storage
     * (boot ROM and RAMs), the cartridge, the joypad, the picture processor,
     * the sound unit and the MMU table. Each is sealed behind one level of
     * recursion (`XSealed(1)`), so a proof that only carries a group past a
     * change elsewhere never looks inside it; `OpenX` and `SealX` unseal and
     * seal one group.
     */

    ghost predicate StorageSealed(depth: nat)
      reads bios, wram, hram, ioram
      decreases depth
    {
      if depth == 0 then bios.Valid() && wram.Valid() && hram.Valid() && ioram.Valid() else StorageSealed(depth - 1)
    }

    lemma OpenStorage()
      requires StorageSealed(1)
      ensures bios.Valid() && wram.Valid() && hram.Valid() && ioram.Valid()
    {
      assert StorageSealed(0);
    }

    lemma SealStorage()
      requires bios.Valid() && wram.Valid() && hram.Valid() && ioram.Valid()
      ensures StorageSealed(1)
    {
      assert StorageSealed(0);
    }

    ghost predicate CartSealed(depth: nat)
      reads cart.Repr
      decreases depth
    {
      if depth == 0 then cart.Valid() else CartSealed(depth - 1)
    }

    lemma OpenCart()
      requires CartSealed(1)
      ensures cart.Valid()
    {
      assert CartSealed(0);
    }

    lemma SealCart()
      requires cart.Valid()
      ensures CartSealed(1)
    {
      assert CartSealed(0);
    }

    ghost predicate KeysSealed(depth: nat)
      reads joyp
      decreases depth
    {
      if depth == 0 then joyp.Valid() else KeysSealed(depth - 1)
    }

    lemma OpenKeys()
      requires KeysSealed(1)
      ensures joyp.Valid()
    {
      assert KeysSealed(0);
    }

    lemma SealKeys()
      requires joyp.Valid()
      ensures KeysSealed(1)
    {
      assert KeysSealed(0);
    }

    ghost predicate PictureSealed(depth: nat)
      reads gpu, gpu.stat, gpu.vram, gpu.oam
      decreases depth
    {
      if depth == 0 then gpu.Valid() else PictureSealed(depth - 1)
    }

    lemma OpenPicture()
      requires PictureSealed(1)
      ensures gpu.Valid()
    {
      assert PictureSealed(0);
    }

    lemma SealPicture()
      requires gpu.Valid()
      ensures PictureSealed(1)
    {
      assert PictureSealed(0);
    }

    ghost predicate SoundSealed(depth: nat)
      reads apu, apu.fs, apu.ch1, apu.ch2, apu.ch3, apu.ch4
      decreases depth
    {
      if depth == 0 then apu.Valid() else SoundSealed(depth - 1)
    }

    lemma OpenSound()
      requires SoundSealed(1)
      ensures apu.Valid()
    {
      assert SoundSealed(0);
    }

    lemma SealSound()
      requires apu.Valid()
      ensures SoundSealed(1)
    {
      assert SoundSealed(0);
    }

    ghost predicate TableSealed(depth: nat)
      reads mmu.mapping
      decreases depth
    {
      if depth == 0 then mmu.Valid() && EchoesResolve(mmu.mapping[..]) && OamOwned(mmu.mapping[..]) && VramOwned(mmu.mapping[..]) else TableSealed(depth - 1)
    }

    lemma OpenTable()
      requires TableSealed(1)
      ensures mmu.Valid() && EchoesResolve(mmu.mapping[..]) && OamOwned(mmu.mapping[..]) && VramOwned(mmu.mapping[..])
    {
      assert TableSealed(0);
    }

    lemma SealTable()
      requires mmu.Valid() && EchoesResolve(mmu.mapping[..]) && OamOwned(mmu.mapping[..]) && VramOwned(mmu.mapping[..])
      ensures TableSealed(1)
    {
      assert TableSealed(0);
    }

    /** The cartridge's state. */
    ghost function CartModel(): (m: Cartridge.Model)
      reads cart.Repr
      requires CartSealed(1)
      ensures m.Valid()
    {
      OpenCart();
      cart.ValidModel();
      cart.Model()
    }

    ghost predicate Valid()
      reads Repr
    {
      Wired() && StorageSealed(1) && CartSealed(1) && KeysSealed(1) && PictureSealed(1) && SoundSealed(1) &&
      TableSealed(1)
    }

    /** The machine NewGameboy assembles from its parts, with no access made yet. */
    constructor (mmu: MMU, cart: Cartridge.Cartridge, bios: ROM, wram: RAM, hram: RAM, ioram: RAM, joyp: Joypad.JOYP,
                 timer: Timers.Timer, ier: MemReg, ifr: MemReg, unmapper: BiosUnmapper, gpu: Gpu.GPU, apu: Apu.APU)
      requires Connected(mmu, cart, bios, wram, hram, ioram, joyp, timer, ier, ifr, unmapper, gpu, apu)
      requires cart.Valid() && bios.Valid() && wram.Valid() && hram.Valid() && ioram.Valid()
      requires joyp.Valid() && gpu.Valid() && apu.Valid()
      requires EchoesResolve(mmu.mapping[..]) && OamOwned(mmu.mapping[..]) && VramOwned(mmu.mapping[..])
      ensures Valid() && trace == []
      ensures this.mmu == mmu && this.cart == cart && this.bios == bios && this.wram == wram && this.hram == hram
      ensures this.ioram == ioram && this.joyp == joyp && this.timer == timer && this.ier == ier && this.ifr == ifr
      ensures this.unmapper == unmapper && this.gpu == gpu && this.apu == apu
    {
      this.mmu, this.cart, this.bios, this.wram, this.hram, this.ioram := mmu, cart, bios, wram, hram, ioram;
      this.joyp, this.timer, this.ier, this.ifr, this.unmapper, this.gpu, this.apu := joyp, timer, ier, ifr, unmapper, gpu, apu;
      trace := [];
      Repr := Parts(mmu, bios, wram, hram, ioram, joyp, timer, ier, ifr, unmapper, gpu, apu) + cart.Repr;
      new;
      PartsApart(this, mmu, bios, wram, hram, ioram, joyp, timer, ier, ifr, unmapper, gpu, apu);
      SealStorage();
      SealCart();
      SealKeys();
      SealPicture();
      SealSound();
      SealTable();
    }

    function Owner(addr: u16): Unit
      reads mmu.mapping
      requires mmu.Valid()
    {
      mmu.mapping[addr]
    }

    /** The address an access to `addr` reaches: an echo's destination, else `addr` itself. */
    function Resolve(addr: u16): u16
      reads mmu.mapping
      requires mmu.Valid()
    {
      if mmu.mapping[addr].Echo? then mmu.mapping[addr].dest else addr
    }

    /** An access never lands on an echo: the destination of one is not an echo itself. */
    lemma ResolveLands(addr: u16)
      requires Valid()
      ensures !Owner(Resolve(addr)).Echo?
    {
      OpenTable();
      assert mmu.mapping[..][addr] == mmu.mapping[addr];
    }

    /** The objects a read of unit `u` may change: the joypad consumes a keystroke, the cartridge moves its bank windows. */
    ghost function ReadFootprint(u: Unit): set<object>
    {
      match u
      case JoypadUnit => {joyp, ifr}
      case CartridgeUnit => cart.Repr - {cart}
      case _ => {}
    }

    /** The objects a write to unit `u` may change. The OAM transfer also reads through the bus. */
    ghost function Footprint(u: Unit): set<object>
    {
      match u
      case CartridgeUnit => cart.Repr - {cart}
      case WorkRam => {wram.data}
      case HighRam => {hram.data}
      case IoRam => {ioram.data}
      case JoypadUnit => {joyp}
      case TimerUnit => {timer}
      case InterruptEnable => {ier}
      case InterruptFlags => {ifr}
      case Unmapper => {mmu.mapping}
      case GpuUnit => {gpu, gpu.stat, gpu.bgLayer, gpu.winLayer, gpu.spriteAbove, gpu.spriteBelow,
                       gpu.vram.data, gpu.oam.data, joyp, ifr} + (cart.Repr - {cart})
      case LcdcReg => {gpu.lcdc}
      case StatReg => {gpu.stat}
      case ScyReg => {gpu.scy}
      case ScxReg => {gpu.scx}
      case WyReg => {gpu.wy}
      case WxReg => {gpu.wx}
      case LycReg => {gpu.lyc}
      case BgpReg => {gpu.bgp}
      case Obp0Reg => {gpu.obp0}
      case Obp1Reg => {gpu.obp1}
      case Square1Unit => {apu.ch1}
      case Square2Unit => {apu.ch2}
      case WaveUnit => {apu.ch3}
      case NoiseUnit => {apu.ch4}
      case ControlUnit => {apu.control}
      case _ => {}
    }

    /** Everything a read or a write can change is part of the machine. */
    lemma FootprintsInRepr(u: Unit)
      requires Wired()
      ensures ReadFootprint(u) <= Repr && Footprint(u) <= Repr
    {
    }

    /** No read or write changes the machine's own trace. */
    lemma FootprintsMissMachine(u: Unit)
      requires Wired()
      ensures this !in ReadFootprint(u) && this !in Footprint(u)
    {
    }

    // ---- reads ----

    /** Reads of the boot ROM, the RAMs and the unused range; the cartridge is read on its own. */
    function ReadStorage(u: Unit, a: u16): Result<u8>
      reads bios, wram, wram.data, hram, hram.data, ioram, ioram.data
      requires bios.Valid() && wram.Valid() && hram.Valid() && ioram.Valid()
    {
      match u
      case BiosRom => bios.Read(a)
      case WorkRam => wram.Read(a)
      case HighRam => hram.Read(a)
      case IoRam => ioram.Read(a)
      case NullUnit => Null.Null.Read(a)
      case _ => Err(ReadAccessViolation(a))
    }

    /** Reads of the timer, IE, IF and the unmapper. */
    function ReadIo(u: Unit, a: u16): Result<u8>
      reads timer, ier, ifr
    {
      match u
      case TimerUnit => timer.Read(a)
      case InterruptEnable => ier.Read(a)
      case InterruptFlags => ifr.Read(a)
      case Unmapper => unmapper.Read(a)
      case _ => Err(ReadAccessViolation(a))
    }

    /** Reads of the picture processor and its registers. */
    function ReadDisplay(u: Unit, a: u16): Result<u8>
      reads gpu, gpu.vram, gpu.vram.data, gpu.oam, gpu.oam.data, gpu.lcdc, gpu.stat, gpu.scy, gpu.scx
      reads gpu.wy, gpu.wx, gpu.lyc, gpu.bgp, gpu.obp0, gpu.obp1
      requires gpu.Memories()
    {
      match u
      case GpuUnit => gpu.Read(a)
      case LcdcReg => Ok(gpu.lcdc.Read(a))
      case StatReg => Ok(gpu.stat.Read(a))
      case ScyReg => gpu.scy.Read(a)
      case ScxReg => gpu.scx.Read(a)
      case WyReg => gpu.wy.Read(a)
      case WxReg => gpu.wx.Read(a)
      case LycReg => gpu.lyc.Read(a)
      case BgpReg => Ok(gpu.bgp.Read(a))
      case Obp0Reg => Ok(gpu.obp0.Read(a))
      case Obp1Reg => Ok(gpu.obp1.Read(a))
      case _ => Err(ReadAccessViolation(a))
    }

    /** Reads of the sound channels and the sound control registers. */
    function ReadSound(u: Unit, a: u16): Result<u8>
      reads apu.ch1, apu.ch2, apu.ch3, apu.ch4, apu.control
      requires apu.ch3.Valid()
    {
      match u
      case Square1Unit => apu.ch1.Read(a)
      case Square2Unit => apu.ch2.Read(a)
      case WaveUnit => apu.ch3.Read(a)
      case NoiseUnit => apu.ch4.Read(a)
      case ControlUnit => apu.control.Read(a)
      case _ => Err(ReadAccessViolation(a))
    }

    /** Reads of every unit whose Read changes nothing. */
    function ReadQuiet(u: Unit, a: u16): Result<u8>
      reads Repr
      requires Valid()
    {
      if IsStorage(u) then OpenStorage(); ReadStorage(u, a)
      else if IsIo(u) then ReadIo(u, a)
      else if IsDisplay(u) then OpenPicture(); ReadDisplay(u, a)
      else if IsSound(u) then OpenSound(); ReadSound(u, a)
      else Err(ReadAccessViolation(a))
    }

    /** What a read of unit `u` at `a` returns now. */
    ghost function PeekUnit(u: Unit, a: u16): Result<u8>
      reads Repr
      requires Valid()
    {
      if u.JoypadUnit? then OpenKeys(); Ok(joyp.NextRead())
      else if u.CartridgeUnit? then CartModel().Read(a)
      else ReadQuiet(u, a)
    }

    /** What `Read(addr)` returns now. */
    ghost function Peek(addr: u16): Result<u8>
      reads Repr
      requires Valid()
    {
      PeekUnit(Owner(Resolve(addr)), Resolve(addr))
    }

    /**
     * A read of video RAM through the table returns the picture processor's
     * own byte, so drawing from that buffer sees what `mmu.Read` would.
     */
    lemma VramReadsReachPicture(addr: u16)
      requires Valid() && Screen.VramBase <= addr as int < Screen.VramBase + Screen.VramSize
      ensures Owner(addr) == GpuUnit && Resolve(addr) == addr && gpu.Valid()
      ensures Peek(addr) == Ok(gpu.vram.data[addr as int - Screen.VramBase])
    {
      OpenTable();
      assert mmu.mapping[..][addr] == mmu.mapping[addr];
      OpenPicture();
    }

    method ReadKeys(a: u16) returns (r: Result<u8>)
      requires Valid()
      modifies joyp, ifr
      ensures Valid() && r == old(PeekUnit(JoypadUnit, a)) && joyp.Took(r)
    {
      OpenKeys();
      r := joyp.Read(a);
      SealKeys();
    }

    method ReadCart(a: u16) returns (r: Result<u8>)
      requires Valid()
      modifies cart.Repr - {cart}
      ensures Valid() && CartModel() == old(CartModel()) && r == old(PeekUnit(CartridgeUnit, a))
    {
      OpenCart();
      r := cart.Read(a);
      SealCart();
    }

    /** The owner's Read. An address nobody owns fails with a read access violation. */
    method ReadUnit(u: Unit, a: u16) returns (r: Result<u8>)
      requires Valid() && !u.Echo?
      modifies ReadFootprint(u)
      ensures Valid() && CartModel() == old(CartModel())
      ensures r == old(PeekUnit(u, a))
      ensures u.NoUnit? ==> r == Err(ReadAccessViolation(a))
      ensures u.JoypadUnit? ==> joyp.Took(r)
    {
      if u.JoypadUnit? {
        r := ReadKeys(a);
      } else if u.CartridgeUnit? {
        r := ReadCart(a);
      } else {
        r := ReadQuiet(u, a);
      }
    }

    /** MMU.Read without the trace: forward to the owner, through the echo if there is one. */
    method Load(addr: u16) returns (r: Result<u8>)
      requires Valid()
      modifies ReadFootprint(Owner(Resolve(addr)))
      ensures Valid() && CartModel() == old(CartModel()) && unchanged(mmu.mapping)
      ensures r == old(Peek(addr))
      ensures old(Owner(Resolve(addr))).NoUnit? ==> r == Err(ReadAccessViolation(old(Resolve(addr))))
      ensures old(Owner(Resolve(addr))).JoypadUnit? ==> joyp.Took(r)
    {
      ResolveLands(addr);
      var b := Resolve(addr);
      r := ReadUnit(mmu.mapping[b], b);
    }

    /** A read by the core. */
    method Read(addr: u16) returns (r: Result<u8>)
      requires Valid()
      modifies this`trace, ReadFootprint(Owner(Resolve(addr)))
      ensures Valid() && CartModel() == old(CartModel()) && unchanged(mmu.mapping)
      ensures r == old(Peek(addr))
      ensures old(Owner(Resolve(addr))).NoUnit? ==> r == Err(ReadAccessViolation(old(Resolve(addr))))
      ensures old(Owner(Resolve(addr))).JoypadUnit? ==> joyp.Took(r)
      ensures trace == old(trace) + [ReadAt(addr, r)]
    {
      FootprintsMissMachine(Owner(Resolve(addr)));
      r := Load(addr);
      trace := trace + [ReadAt(addr, r)];
    }

    // ---- writes ----

    /**
     * What a write of `d` that reached unit `u` at `a` did, returning `s`:
     * the owner's own Write. The RAMs, IE, IF and the display registers take
     * the byte where a read finds it, a RAM keeping every other address; the
     * boot ROM and the unused range accept it and keep nothing; the
     * cartridge, the timer, the picture processor and the sound units change
     * as their Writes say, a picture processor write leaving the joypad, IF
     * and the cartridge alone; the joypad takes the high nibble and keeps its
     * rows and pending keystrokes; the unmapper hands 0x0000-0x00FF to the
     * cartridge on 0x01 at 0xFF50; a write to the DMA register changes
     * nothing of the picture processor but OAM and, from a storage page,
     * copies the page to OAM. Only the unmapper changes the table.
     */
    twostate predicate Wrote(u: Unit, a: u16, d: u8, s: Status)
      requires old(Valid()) && Valid()
      reads Repr
    {
      (!u.Unmapper? ==> unchanged(mmu.mapping)) &&
      match u
      case NoUnit => s == Failure(WriteAccessViolation(a))
      case CartridgeUnit => (CartModel(), s) == old(CartModel()).Write(a, d)
      case BiosRom => s == Success
      case NullUnit => s == Success
      case WorkRam | HighRam | IoRam =>
        (s.Success? <==> old(PeekUnit(u, a)).Ok?) && (s.Success? ==> PeekUnit(u, a) == Ok(d)) &&
        (s.Failure? ==> s.error == WriteOutOfRange(a)) &&
        (forall b: u16 :: b != a ==> PeekUnit(u, b) == old(PeekUnit(u, b)))
      case Echo(_) => false
      case JoypadUnit =>
        s == Success && joyp.data / 0x10 == d / 0x10 && joyp.data % 0x10 == old(joyp.data) % 0x10 &&
        joyp.state == old(joyp.state) && joyp.keys == old(joyp.keys)
      case TimerUnit => timer.Wrote(a, d, s)
      case InterruptEnable | InterruptFlags => s == Success && PeekUnit(u, a) == Ok(d)
      case Unmapper =>
        (s.Failure? <==> a != 0xFF50) &&
        mmu.mapping[..] == if a == 0xFF50 && d == 0x01 then Remap(old(mmu.mapping[..]), CartridgeUnit, 0x0000, 0x00FF)
                           else old(mmu.mapping[..])
      case GpuUnit =>
        CartModel() == old(CartModel()) &&
        if a == Gpu.AddrDMA then
          gpu.OamOnly() &&
          (old(StoragePage(d)) ==>
             Transfer(s, old(Sources(d)), old(gpu.oam.data[..])) && joyp.View() == old(joyp.View()) && ifr.data == old(ifr.data))
        else gpu.Wrote(a, d, s) && joyp.View() == old(joyp.View()) && ifr.data == old(ifr.data)
      case StatReg => s == Success && gpu.stat.data == Stat.Written(old(gpu.stat.data), d)
      case LcdcReg | ScyReg | ScxReg | WyReg | WxReg | LycReg | BgpReg | Obp0Reg | Obp1Reg =>
        s == Success && PeekUnit(u, a) == Ok(d)
      case Square1Unit => (apu.ch1.State(), s) == old(apu.ch1.State()).Write(a, d)
      case Square2Unit => (apu.ch2.State(), s) == old(apu.ch2.State()).Write(a, d)
      case WaveUnit => old(apu.ch3.State().Valid()) && (apu.ch3.State(), s) == old(apu.ch3.State()).Write(a, d)
      case NoiseUnit => (apu.ch4.State(), s) == old(apu.ch4.State()).Write(a, d)
      case ControlUnit => (apu.control.State(), s) == old(apu.control.State()).Write(a, d)
    }

    method StoreCart(a: u16, d: u8) returns (s: Status)
      requires Valid()
      modifies cart.Repr - {cart}
      ensures Valid() && (CartModel(), s) == old(CartModel()).Write(a, d)
    {
      OpenCart();
      s := cart.Write(a, d);
      SealCart();
    }

    /** A RAM takes the byte exactly where a read finds it. */
    method StoreRam(u: Unit, a: u16, d: u8) returns (s: Status)
      requires Valid() && IsRam(u)
      modifies Footprint(u)
      ensures Valid()
      ensures s.Success? <==> old(PeekUnit(u, a)).Ok?
      ensures s.Success? ==> PeekUnit(u, a) == Ok(d)
      ensures s.Failure? ==> s.error == WriteOutOfRange(a)
      ensures forall b: u16 :: b != a ==> PeekUnit(u, b) == old(PeekUnit(u, b))
    {
      OpenStorage();
      match u
      case WorkRam => s := wram.Write(a, d);
      case HighRam => s := hram.Write(a, d);
      case IoRam => s := ioram.Write(a, d);
    }

    /** Writes to the storage units: the cartridge, the boot ROM, the RAMs and the unused range. */
    method StoreMemory(u: Unit, a: u16, d: u8) returns (s: Status)
      requires Valid() && IsStorage(u)
      modifies Footprint(u)
      ensures Valid() && Wrote(u, a, d, s)
    {
      if u.CartridgeUnit? {
        s := StoreCart(a, d);
      } else if IsRam(u) {
        s := StoreRam(u, a, d);
      } else if u.NoUnit? {
        s := Failure(WriteAccessViolation(a));
      } else if u.BiosRom? {
        s := bios.Write(a, d);
      } else {
        s := Null.Null.Write(a, d).1;
      }
    }

    method StoreKeys(a: u16, d: u8) returns (s: Status)
      requires Valid()
      modifies joyp
      ensures Valid() && s == Success
      ensures joyp.data / 0x10 == d / 0x10 && joyp.data % 0x10 == old(joyp.data) % 0x10
      ensures joyp.state == old(joyp.state) && joyp.keys == old(joyp.keys)
    {
      OpenKeys();
      s := joyp.Write(a, d);
      SealKeys();
    }

    method StoreUnmapper(a: u16, d: u8) returns (s: Status)
      requires Valid()
      modifies mmu.mapping
      ensures Valid()
      ensures s.Failure? <==> a != 0xFF50
      ensures mmu.mapping[..] == if a == 0xFF50 && d == 0x01
                                 then Remap(old(mmu.mapping[..]), CartridgeUnit, 0x0000, 0x00FF)
                                 else old(mmu.mapping[..])
    {
      OpenTable();
      UnmapKeepsInvariants(mmu.mapping[..]);
      s := unmapper.Write(a, d);
      SealTable();
    }

    /** Writes to the joypad, the timer, IE, IF and the boot-ROM unmapper. */
    method StoreIo(u: Unit, a: u16, d: u8) returns (s: Status)
      requires Valid() && IsIo(u)
      modifies Footprint(u)
      ensures Valid() && Wrote(u, a, d, s)
    {
      if u.JoypadUnit? {
        s := StoreKeys(a, d);
      } else if u.TimerUnit? {
        s := timer.Write(a, d);
      } else if u.InterruptEnable? {
        s := ier.Write(a, d);
      } else if u.InterruptFlags? {
        s := ifr.Write(a, d);
      } else {
        s := StoreUnmapper(a, d);
      }
    }

    /** The unmapper's remap keeps echoes resolvable and OAM and VRAM with the picture processor. */
    static lemma UnmapKeepsInvariants(m: seq<Unit>)
      requires |m| == Size && EchoesResolve(m) && OamOwned(m) && VramOwned(m)
      ensures EchoesResolve(Remap(m, CartridgeUnit, 0x0000, 0x00FF)) && OamOwned(Remap(m, CartridgeUnit, 0x0000, 0x00FF))
      ensures VramOwned(Remap(m, CartridgeUnit, 0x0000, 0x00FF))
    {
    }

    /** The picture processor's Write; for the DMA register, whose own Write changes nothing, the OAM transfer. */
    method StoreGpu(a: u16, d: u8) returns (s: Status)
      requires Valid()
      modifies Footprint(GpuUnit)
      ensures Valid() && Wrote(GpuUnit, a, d, s)
      ensures a != Gpu.AddrDMA && s.Success? && a != Gpu.AddrLY ==> PeekUnit(GpuUnit, a) == Ok(d)
    {
      if a == Gpu.AddrDMA {
        s := Dma(d);
      } else {
        OpenPicture();
        s := gpu.Write(a, d);
        SealPicture();
      }
    }

    /** STAT takes bits 3-7 of the byte; the mode bits the timing depends on stay. */
    method StoreStat(a: u16, d: u8)
      requires Valid()
      modifies gpu.stat
      ensures Valid() && gpu.stat.data == Stat.Written(old(gpu.stat.data), d)
    {
      OpenPicture();
      Stat.WrittenBits(gpu.stat.data, d);
      gpu.stat.Write(a, d);
      SealPicture();
    }

    /** Writes to the display registers other than STAT, each the only object it changes. */
    method StoreRegister(u: Unit, a: u16, d: u8) returns (s: Status)
      requires Valid() && IsDisplay(u) && !u.GpuUnit? && !u.StatReg?
      modifies Footprint(u)
      ensures Valid() && s == Success && PeekUnit(u, a) == Ok(d)
    {
      match u
      case LcdcReg => gpu.lcdc.Write(a, d); s := Success;
      case ScyReg => s := gpu.scy.Write(a, d);
      case ScxReg => s := gpu.scx.Write(a, d);
      case WyReg => s := gpu.wy.Write(a, d);
      case WxReg => s := gpu.wx.Write(a, d);
      case LycReg => s := gpu.lyc.Write(a, d);
      case BgpReg => gpu.bgp.Write(a, d); s := Success;
      case Obp0Reg => gpu.obp0.Write(a, d); s := Success;
      case Obp1Reg => gpu.obp1.Write(a, d); s := Success;
    }

    /** Writes to the picture processor and its registers. */
    method StoreDisplay(u: Unit, a: u16, d: u8) returns (s: Status)
      requires Valid() && IsDisplay(u)
      modifies Footprint(u)
      ensures Valid() && Wrote(u, a, d, s)
    {
      if u.GpuUnit? {
        s := StoreGpu(a, d);
      } else if u.StatReg? {
        StoreStat(a, d);
        s := Success;
      } else {
        s := StoreRegister(u, a, d);
      }
    }

    /** Writes to the sound channels and the sound control registers. */
    method StoreSound(u: Unit, a: u16, d: u8) returns (s: Status)
      requires Valid() && IsSound(u)
      modifies Footprint(u)
      ensures Valid() && Wrote(u, a, d, s)
      ensures s.Success? <==> SoundOwns(u, a)
    {
      OpenSound();
      match u {
        case Square1Unit => s := apu.ch1.Write(a, d);
        case Square2Unit => s := apu.ch2.Write(a, d);
        case WaveUnit => s := apu.ch3.Write(a, d);
        case NoiseUnit => s := apu.ch4.Write(a, d);
        case ControlUnit => s := apu.control.Write(a, d);
      }
      SealSound();
    }

    /** The owner's Write. */
    method StoreUnit(u: Unit, a: u16, d: u8) returns (s: Status)
      requires Valid() && !u.Echo?
      modifies Footprint(u)
      ensures Valid() && Wrote(u, a, d, s)
      ensures IsSound(u) ==> (s.Success? <==> SoundOwns(u, a))
    {
      if IsStorage(u) {
        assert !IsRegister(u) && !IsSound(u) && !u.Unmapper? && !u.GpuUnit?;
        s := StoreMemory(u, a, d);
      } else if IsIo(u) {
        assert !IsRam(u) && !IsSound(u) && !u.CartridgeUnit? && !u.NoUnit? && !u.GpuUnit?;
        s := StoreIo(u, a, d);
      } else if IsSound(u) {
        assert !IsRam(u) && !IsRegister(u) && !u.CartridgeUnit? && !u.NoUnit? && !u.GpuUnit? && !u.Unmapper?;
        s := StoreSound(u, a, d);
      } else {
        assert IsDisplay(u) && !IsRam(u) && !u.CartridgeUnit? && !u.NoUnit? && !u.Unmapper?;
        s := StoreDisplay(u, a, d);
      }
    }

    /** MMU.Write without the trace: forward to the owner, through the echo if there is one. */
    method Store(addr: u16, d: u8) returns (s: Status)
      requires Valid()
      modifies Footprint(Owner(Resolve(addr)))
      ensures Valid()
      ensures !old(Owner(Resolve(addr))).Unmapper? ==> unchanged(mmu.mapping)
      ensures old(Owner(Resolve(addr))).NoUnit? ==> s == Failure(WriteAccessViolation(old(Resolve(addr))))
      ensures IsRegister(old(Owner(Resolve(addr)))) ==> s == Success && Peek(addr) == Ok(d)
      ensures IsRam(old(Owner(Resolve(addr)))) ==> (s.Success? <==> old(Peek(addr)).Ok?)
      ensures IsRam(old(Owner(Resolve(addr)))) && s.Success? ==> Peek(addr) == Ok(d)
      ensures Wrote(old(Owner(Resolve(addr))), old(Resolve(addr)), d, s)
    {
      ResolveLands(addr);
      var b := Resolve(addr);
      s := StoreUnit(mmu.mapping[b], b, d);
    }

    /** A write by the core. */
    method Write(addr: u16, d: u8) returns (s: Status)
      requires Valid()
      modifies this`trace, Footprint(Owner(Resolve(addr)))
      ensures Valid()
      ensures !old(Owner(Resolve(addr))).Unmapper? ==> unchanged(mmu.mapping)
      ensures old(Owner(Resolve(addr))).NoUnit? ==> s == Failure(WriteAccessViolation(old(Resolve(addr))))
      ensures IsRegister(old(Owner(Resolve(addr)))) ==> s == Success && Peek(addr) == Ok(d)
      ensures IsRam(old(Owner(Resolve(addr)))) ==> (s.Success? <==> old(Peek(addr)).Ok?)
      ensures IsRam(old(Owner(Resolve(addr)))) && s.Success? ==> Peek(addr) == Ok(d)
      ensures Wrote(old(Owner(Resolve(addr))), old(Resolve(addr)), d, s)
      ensures trace == old(trace) + [WriteAt(addr, d, s)]
    {
      FootprintsMissMachine(Owner(Resolve(addr)));
      s := Store(addr, d);
      trace := trace + [WriteAt(addr, d, s)];
    }

    // ---- the OAM transfer ----

    /**
     * Every address of the source page reaches the cartridge, the boot ROM, a
     * RAM or the unused range: units whose reads change nothing the
     * transfer reads or writes later.
     */
    ghost predicate StoragePage(from: u8)
      reads mmu.mapping
      requires mmu.Valid()
    {
      forall a: u16 :: from as int * 0x100 <= a < from as int * 0x100 + Gpu.OamSize ==> IsStorage(Owner(Resolve(a)))
    }

    /** What reads of the boot ROM and the RAMs depend on: their contents and windows. */
    ghost function StorageView(): Stored
      reads bios, wram, wram.data, hram, hram.data, ioram, ioram.data
    {
      Stored(bios.windowOffset, wram.data[..], wram.windowOffset, hram.data[..], hram.windowOffset,
             ioram.data[..], ioram.windowOffset)
    }

    /** A read of storage unit `u` at `a` given those and the cartridge's state `cm`. */
    ghost function PeekStored(v: Stored, cm: Cartridge.Model, u: Unit, a: u16): Result<u8>
      requires cm.Valid()
    {
      match u
      case CartridgeUnit => cm.Read(a)
      case BiosRom => WindowedRead(bios.data, v.biosOffset, bios.addrOffset, a)
      case WorkRam => WindowedRead(v.wram, v.wramOffset, wram.addrOffset, a)
      case HighRam => WindowedRead(v.hram, v.hramOffset, hram.addrOffset, a)
      case IoRam => WindowedRead(v.ioram, v.ioramOffset, ioram.addrOffset, a)
      case NullUnit => Null.Null.Read(a)
      case _ => Err(ReadAccessViolation(a))
    }

    /** A storage unit reads as PeekStored says, with the present contents and cartridge state. */
    lemma PeekIsStorage(u: Unit, a: u16)
      requires Valid() && IsStorage(u)
      ensures PeekUnit(u, a) == PeekStored(StorageView(), CartModel(), u, a)
    {
      OpenStorage();
    }

    /** No read changes the storage units. */
    lemma ReadsMissStorage(u: Unit)
      requires Wired()
      ensures bios !in ReadFootprint(u) && wram !in ReadFootprint(u) && wram.data !in ReadFootprint(u)
      ensures hram !in ReadFootprint(u) && hram.data !in ReadFootprint(u) && ioram !in ReadFootprint(u)
      ensures ioram.data !in ReadFootprint(u)
    {
    }

    /** No read changes the picture processor, and no read of storage changes the joypad or IF. */
    lemma ReadsMissPicture(u: Unit)
      requires Wired()
      ensures gpu !in ReadFootprint(u) && gpu.stat !in ReadFootprint(u) && gpu.vram.data !in ReadFootprint(u)
      ensures gpu.bgLayer !in ReadFootprint(u) && gpu.winLayer !in ReadFootprint(u)
      ensures gpu.spriteAbove !in ReadFootprint(u) && gpu.spriteBelow !in ReadFootprint(u)
      ensures IsStorage(u) ==> joyp !in ReadFootprint(u) && ifr !in ReadFootprint(u)
    {
    }

    /** What the transfer's reads of page `from` would return, each taken now. */
    ghost function Sources(from: u8): (r: seq<Result<u8>>)
      reads Repr
      requires Valid()
      ensures |r| == Gpu.OamSize
      ensures forall j :: 0 <= j < Gpu.OamSize ==> r[j] == Peek(from as int * 0x100 + j)
    {
      seq(Gpu.OamSize, j requires 0 <= j < Gpu.OamSize reads Repr requires Valid() => Peek(from as int * 0x100 + j))
    }

    /** OAM holds the bytes read up to the first failed read, and the status is that read's error. */
    ghost predicate Transfer(s: Status, rs: seq<Result<u8>>, oam0: seq<u8>)
      reads gpu.oam.data
      requires |rs| == |oam0| == Gpu.OamSize
    {
      s == TransferStatus(rs) && gpu.oam.data[..] == Transferred(oam0, rs)
    }

    /**
     * One step of the transfer: the read of `addr` through the bus and, when
     * it succeeds, the write of the byte at OAM offset `i`, which the
     * picture processor owns. Reads change neither the storage units nor the
     * cartridge's state.
     */
    method CopyByte(addr: u16, i: u16) returns (v: Result<u8>)
      requires Valid() && i < 0xA0
      modifies Footprint(GpuUnit)
      ensures Valid() && unchanged(mmu.mapping) && CartModel() == old(CartModel())
      ensures StorageView() == old(StorageView())
      ensures v == old(Peek(addr))
      ensures gpu.oam.data[..] == if v.Ok? then old(gpu.oam.data[..])[i := v.value] else old(gpu.oam.data[..])
      ensures gpu.OamOnly()
      ensures old(IsStorage(Owner(Resolve(addr)))) ==> joyp.View() == old(joyp.View()) && ifr.data == old(ifr.data)
    {
      v := Fetch(addr);
      if v.Ok? {
        StoreOam(i, v.value);
      }
    }

    /** The transfer's read of `addr` through the bus, which changes nothing of the picture processor. */
    method Fetch(addr: u16) returns (v: Result<u8>)
      requires Valid()
      modifies ReadFootprint(Owner(Resolve(addr)))
      ensures Valid() && unchanged(mmu.mapping) && CartModel() == old(CartModel())
      ensures StorageView() == old(StorageView()) && v == old(Peek(addr))
      ensures gpu.OamOnly() && gpu.oam.data[..] == old(gpu.oam.data[..])
      ensures old(IsStorage(Owner(Resolve(addr)))) ==> joyp.View() == old(joyp.View()) && ifr.data == old(ifr.data)
    {
      ReadsMissStorage(Owner(Resolve(addr)));
      ReadsMissPicture(Owner(Resolve(addr)));
      v := Load(addr);
      assert StorageView() == old(StorageView());
      OpenPicture();
    }

    /** The transfer's write of one byte to OAM. */
    method StoreOam(i: u16, v: u8)
      requires Valid() && i < 0xA0
      modifies gpu, gpu.stat, gpu.bgLayer, gpu.winLayer, gpu.spriteAbove, gpu.spriteBelow, gpu.vram.data, gpu.oam.data
      ensures Valid() && CartModel() == old(CartModel()) && StorageView() == old(StorageView())
      ensures gpu.oam.data[..] == old(gpu.oam.data[..])[i := v] && gpu.OamOnly()
    {
      OpenPicture();
      var _ := gpu.Write(Gpu.OamBase + i, v);
      SealPicture();
    }

    /**
     * transferDataToOAM: copy the 160 bytes at from*0x100 to OAM, stopping at
     * the first failed read. From a storage page the result is `Transfer`.
     */
    method Dma(from: u8) returns (s: Status)
      requires Valid()
      modifies Footprint(GpuUnit)
      ensures Valid() && unchanged(mmu.mapping) && CartModel() == old(CartModel()) && gpu.OamOnly()
      ensures old(StoragePage(from)) ==>
                Transfer(s, old(Sources(from)), old(gpu.oam.data[..])) && joyp.View() == old(joyp.View()) && ifr.data == old(ifr.data)
    {
      ghost var rs := Sources(from);
      ghost var oam0 := gpu.oam.data[..];
      ghost var storage := StoragePage(from);
      ghost var cm := CartModel();
      ghost var v0 := StorageView();
      ghost var keys0, if0 := joyp.View(), ifr.data;
      var src: u16 := from as int * 0x100;
      if storage {
        forall j | 0 <= j < 0xA0
          ensures rs[j] == PeekStored(v0, cm, Owner(Resolve(src + j)), Resolve(src + j))
        {
          PeekIsStorage(Owner(Resolve(src + j)), Resolve(src + j));
        }
      }
      OpenPicture();
      var i: u16 := 0;
      while i < 0xA0
        invariant 0 <= i <= 0xA0
        invariant Valid() && unchanged(mmu.mapping) && CartModel() == cm && StorageView() == v0 && gpu.OamOnly()
        invariant storage ==> joyp.View() == keys0 && ifr.data == if0
        invariant storage ==> forall j :: 0 <= j < 0xA0 ==> rs[j] == old(PeekStored(v0, cm, Owner(Resolve(src + j)), Resolve(src + j)))
        invariant storage ==> forall j :: 0 <= j < i ==> rs[j].Ok?
        invariant storage ==> gpu.oam.data[..] == Copied(oam0, rs, i)
      {
        if storage {
          PeekIsStorage(Owner(Resolve(src + i)), Resolve(src + i));
          assert Owner(Resolve(src + i)) == old(Owner(Resolve(src + i))) && Resolve(src + i) == old(Resolve(src + i));
        }
        var v := CopyByte(src + i, i);
        if v.Err? {
          if storage {
            TransferStopsAtFailure(oam0, rs, i as nat);
          }
          return Failure(v.error);
        }
        if storage {
          CopiedStep(oam0, rs, i as nat);
        }
        i := i + 1;
      }
      if storage {
        TransferCopies(oam0, rs);
      }
      return Success;
    }

    // ---- the clock ----

    /** The objects that one unit's ClockChanged may change. */
    ghost function ClockFootprint(u: TimedUnit): set<object>
    {
      match u
      case ApuClock => {apu, apu.fs, apu.ch1, apu.ch2, apu.ch3, apu.ch4}
      case TimerClock => {timer, ifr}
      case GpuClock => {gpu, gpu.stat, ifr, gpu.bgLayer, gpu.winLayer, gpu.spriteAbove, gpu.spriteBelow}
    }

    /**
     * What unit `u`'s ClockChanged(cycles) did, returning `s`, the sound
     * unit with the sink holding `samplesCount` samples: each unit's own
     * effect, as its ClockChanged states it.
     */
    twostate predicate Ticked(u: TimedUnit, cycles: nat, samplesCount: nat, s: Status)
      requires Wired()
      reads Repr
    {
      match u
      case ApuClock => s == Success && apu.Clocked(cycles, samplesCount)
      case TimerClock => s == Success && timer.Clocked(cycles)
      case GpuClock => gpu.Clocked(cycles, s)
    }

    method ClockSound(cycles: nat, samplesCount: nat) returns (s: Status)
      requires Valid()
      modifies ClockFootprint(ApuClock)
      ensures Valid() && s == Success && Ticked(ApuClock, cycles, samplesCount, s)
    {
      OpenSound();
      s := apu.ClockChanged(cycles, samplesCount);
      SealSound();
      assert Wired();
      assert StorageSealed(1) && CartSealed(1) && KeysSealed(1) && PictureSealed(1) && TableSealed(1);
    }

    method ClockDisplay(cycles: nat) returns (s: Status)
      requires Valid()
      modifies ClockFootprint(GpuClock)
      ensures Valid() && Ticked(GpuClock, cycles, 0, s)
      ensures s.Failure? ==> s.error.SpriteOffScreen?
    {
      OpenPicture();
      ghost var st := gpu.Start(gpu.lx, if gpu.ly < Screen.ScreenHeight then gpu.ly else 0);
      s := gpu.ClockChanged(cycles, st);
      assert gpu.Clocked(cycles, s);
      SealPicture();
      assert Wired();
      assert StorageSealed(1) && CartSealed(1) && KeysSealed(1) && SoundSealed(1) && TableSealed(1);
    }

    /** Everything a clocked unit can change is part of the machine. */
    lemma ClockFootprintInRepr(u: TimedUnit)
      requires Wired()
      ensures ClockFootprint(u) <= Repr
    {
    }

    /**
     * One unit's ClockChanged(cycles). The sound unit also takes the sink's
     * queued sample count. Only a picture processor drawing a sprite that no
     * longer fits the line can fail.
     */
    method ClockUnit(u: TimedUnit, cycles: nat, samplesCount: nat) returns (s: Status)
      requires Valid()
      modifies ClockFootprint(u)
      ensures Valid() && unchanged(mmu.mapping) && Ticked(u, cycles, samplesCount, s)
      ensures !u.GpuClock? ==> s == Success
      ensures s.Failure? ==> s.error.SpriteOffScreen?
    {
      match u
      case ApuClock => s := ClockSound(cycles, samplesCount);
      case TimerClock => s := timer.ClockChanged(cycles);
      case GpuClock => s := ClockDisplay(cycles);
    }
  }
}
