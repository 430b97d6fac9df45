/**
 * gameboy.go, with the `mmu.Map` calls of the constructors it is assembled
 * from (main.go's I/O RAM, NewCore, NewGPU, NewAPU): the table that gives
 * every address its owner, and the address the core starts at.
 *
 * Each constructor's mappings are a function on the table (`IoStage`,
 * `CoreStage`, `GpuStage`, `ApuStage`, `GameboyStage`), applied in the order
 * the constructors run, and a method that makes the same `Map` calls on an
 * `MMU`. `MemoryMap` states the resulting layout address range by address
 * range; `LayoutIsMemoryMap` proves the two agree whatever the table held
 * before, and `LayoutFitsMachine` that the result is a table `Bus.Machine`
 * accepts.
 *
 * `MMU.Map` fails only when `from > to`, which no call here has, so the
 * error return after each call never happens and is not written out.
 */
module Gameboy {
  import opened Bits
  import opened Mmu
  import Bus
  import Gpu
  import Joypad
  import Square1
  import Square2
  import Wave
  import Noise
  import Control
  import Cpu

  /** main.go: 128 bytes of plain RAM over 0xFF00-0xFF7F, before any unit is created. */
  function IoStage(m: seq<Unit>): seq<Unit>
  {
    Remap(m, IoRam, 0xFF00, 0xFF7F)
  }

  /** NewCore: IF at 0xFF0F, then IE at 0xFFFF. */
  function CoreStage(m: seq<Unit>): seq<Unit>
  {
    Remap(Remap(m, InterruptFlags, 0xFF0F, 0xFF0F), InterruptEnable, 0xFFFF, 0xFFFF)
  }

  /** NewGPU's first eleven Map calls: its registers one by one, LY to the GPU itself. */
  function GpuRegisterStage(m: seq<Unit>): seq<Unit>
  {
    var m1 := Remap(m, LcdcReg, Gpu.AddrLCDC, Gpu.AddrLCDC);
    var m2 := Remap(m1, StatReg, Gpu.AddrSTAT, Gpu.AddrSTAT);
    var m3 := Remap(m2, ScyReg, Gpu.AddrSCY, Gpu.AddrSCY);
    var m4 := Remap(m3, ScxReg, Gpu.AddrSCX, Gpu.AddrSCX);
    var m5 := Remap(m4, WxReg, Gpu.AddrWinX, Gpu.AddrWinX);
    var m6 := Remap(m5, WyReg, Gpu.AddrWinY, Gpu.AddrWinY);
    var m7 := Remap(m6, GpuUnit, Gpu.AddrLY, Gpu.AddrLY);
    var m8 := Remap(m7, LycReg, Gpu.AddrLYC, Gpu.AddrLYC);
    var m9 := Remap(m8, BgpReg, Gpu.AddrBGP, Gpu.AddrBGP);
    var m10 := Remap(m9, Obp0Reg, Gpu.AddrOBP0, Gpu.AddrOBP0);
    Remap(m10, Obp1Reg, Gpu.AddrOBP1, Gpu.AddrOBP1)
  }

  /** NewGPU: the registers, then DMA, VRAM and OAM to the GPU itself. */
  function GpuStage(m: seq<Unit>): seq<Unit>
  {
    var m11 := GpuRegisterStage(m);
    var m12 := Remap(m11, GpuUnit, Gpu.AddrDMA, Gpu.AddrDMA);
    var m13 := Remap(m12, GpuUnit, 0x8000, 0x9FFF);
    Remap(m13, GpuUnit, 0xFE00, 0xFE9F)
  }

  /** NewAPU: the two square channels, the wave channel's registers, the control registers, the wave table, the noise channel. */
  function ApuStage(m: seq<Unit>): seq<Unit>
  {
    var m1 := Remap(m, Square1Unit, Square1.AddrNR10, Square1.AddrNR14);
    var m2 := Remap(m1, Square2Unit, Square2.AddrNR21, Square2.AddrNR24);
    var m3 := Remap(m2, WaveUnit, Wave.AddrNR30, Wave.AddrNR34);
    var m4 := Remap(m3, ControlUnit, Control.AddrNR50, Control.AddrNR52);
    var m5 := Remap(m4, WaveUnit, Wave.AddrWaveTableStart, Wave.AddrWaveTableEnd);
    Remap(m5, NoiseUnit, Noise.AddrNR41, Noise.AddrNR44)
  }

  /** The echo loop of NewGameboy: each of 0xE000-0xFDFF forwards to the address 0x2000 below it. */
  function Echoes(m: seq<Unit>): (r: seq<Unit>)
    ensures |r| == |m|
  {
    seq(|m|, a requires 0 <= a < |m| => if 0xE000 <= a <= 0xFDFF then Echo((a - 0x2000) as u16) else m[a])
  }

  /**
   * NewGameboy: the unused 0xFEA0-0xFEFF, the joypad, the timer, the boot
   * ROM (when there is one) and the cartridge, the cartridge's RAM, the boot
   * ROM unmapper, work RAM, the echoes and the zero page.
   */
  function GameboyStage(m: seq<Unit>, bios: bool): seq<Unit>
  {
    var m1 := Remap(m, NullUnit, 0xFEA0, 0xFEFF);
    var m2 := Remap(m1, JoypadUnit, Joypad.AddrJOYP, Joypad.AddrJOYP);
    var m3 := Remap(m2, TimerUnit, 0xFF04, 0xFF07);
    var m4 := if bios then Remap(Remap(m3, BiosRom, 0x0000, 0x00FF), CartridgeUnit, 0x0100, 0x7FFF)
              else Remap(m3, CartridgeUnit, 0x0000, 0x7FFF);
    var m5 := Remap(m4, CartridgeUnit, 0xA000, 0xBFFF);
    var m6 := Remap(m5, Unmapper, 0xFF50, 0xFF50);
    var m7 := Remap(m6, WorkRam, 0xC000, 0xDFFF);
    Remap(Echoes(m7), HighRam, 0xFF80, 0xFFFE)
  }

  /** The table once main.go has created the MMU, the core, the GPU, the APU and the Gameboy, in that order. */
  function Layout(m0: seq<Unit>, bios: bool): seq<Unit>
  {
    GameboyStage(ApuStage(GpuStage(CoreStage(IoStage(m0)))), bios)
  }

  /**
   * The Game Boy's memory map as this emulator wires it, by address range:
   * a reference for `Layout` that does not depend on the order of the calls.
   */
  function MemoryMap(a: u16, bios: bool): Unit
  {
    if a <= 0x00FF then (if bios then BiosRom else CartridgeUnit)
    else if a <= 0x7FFF then CartridgeUnit
    else if a <= 0x9FFF then GpuUnit
    else if a <= 0xBFFF then CartridgeUnit
    else if a <= 0xDFFF then WorkRam
    else if a <= 0xFDFF then Echo(a - 0x2000)
    else if a <= 0xFE9F then GpuUnit
    else if a <= 0xFEFF then NullUnit
    else if a == 0xFF00 then JoypadUnit
    else if 0xFF04 <= a <= 0xFF07 then TimerUnit
    else if a == 0xFF0F then InterruptFlags
    else if 0xFF10 <= a <= 0xFF14 then Square1Unit
    else if 0xFF16 <= a <= 0xFF19 then Square2Unit
    else if 0xFF1A <= a <= 0xFF1E then WaveUnit
    else if 0xFF20 <= a <= 0xFF23 then NoiseUnit
    else if 0xFF24 <= a <= 0xFF26 then ControlUnit
    else if 0xFF30 <= a <= 0xFF3F then WaveUnit
    else if a == 0xFF40 then LcdcReg
    else if a == 0xFF41 then StatReg
    else if a == 0xFF42 then ScyReg
    else if a == 0xFF43 then ScxReg
    else if a == 0xFF44 || a == 0xFF46 then GpuUnit
    else if a == 0xFF45 then LycReg
    else if a == 0xFF47 then BgpReg
    else if a == 0xFF48 then Obp0Reg
    else if a == 0xFF49 then Obp1Reg
    else if a == 0xFF4A then WyReg
    else if a == 0xFF4B then WxReg
    else if a == 0xFF50 then Unmapper
    else if a <= 0xFF7F then IoRam
    else if a <= 0xFFFE then HighRam
    else InterruptEnable
  }

  /** The addresses NewCore maps. */
  predicate CoreMaps(a: int)
  {
    a == 0xFF0F || a == 0xFFFF
  }

  /** The addresses NewGPU maps. */
  predicate GpuMaps(a: int)
  {
    0x8000 <= a <= 0x9FFF || 0xFE00 <= a <= 0xFE9F || 0xFF40 <= a <= 0xFF4B
  }

  /** The addresses NewAPU maps. */
  predicate ApuMaps(a: int)
  {
    0xFF10 <= a <= 0xFF14 || 0xFF16 <= a <= 0xFF1E || 0xFF20 <= a <= 0xFF26 || 0xFF30 <= a <= 0xFF3F
  }

  /** The addresses NewGameboy maps. */
  predicate GameboyMaps(a: int)
  {
    0x0000 <= a <= 0x7FFF || 0xA000 <= a <= 0xFDFF || 0xFEA0 <= a <= 0xFEFF ||
    a == 0xFF00 || 0xFF04 <= a <= 0xFF07 || a == 0xFF50 || 0xFF80 <= a <= 0xFFFE
  }

  /** NewCore gives IF and IE their registers and leaves every other address as it was. */
  lemma CoreStageAt(m: seq<Unit>, bios: bool, a: u16)
    requires |m| == Size
    ensures |CoreStage(m)| == Size
    ensures CoreStage(m)[a] == if CoreMaps(a) then MemoryMap(a, bios) else m[a]
  {
  }

  /** NewGPU gives its addresses the units of the memory map and leaves every other address as it was. */
  lemma GpuStageAt(m: seq<Unit>, bios: bool, a: u16)
    requires |m| == Size
    ensures |GpuStage(m)| == Size
    ensures GpuStage(m)[a] == if GpuMaps(a) then MemoryMap(a, bios) else m[a]
  {
    if 0xFF40 <= a <= 0xFF4B {
      assert GpuRegisterStage(m)[a] == if a == Gpu.AddrDMA then m[a] else MemoryMap(a, bios);
    }
  }

  /** NewAPU gives its addresses the units of the memory map and leaves every other address as it was. */
  lemma ApuStageAt(m: seq<Unit>, bios: bool, a: u16)
    requires |m| == Size
    ensures |ApuStage(m)| == Size
    ensures ApuStage(m)[a] == if ApuMaps(a) then MemoryMap(a, bios) else m[a]
  {
  }

  /** NewGameboy gives its addresses the units of the memory map and leaves every other address as it was. */
  lemma GameboyStageAt(m: seq<Unit>, bios: bool, a: u16)
    requires |m| == Size
    ensures |GameboyStage(m, bios)| == Size
    ensures GameboyStage(m, bios)[a] == if GameboyMaps(a) then MemoryMap(a, bios) else m[a]
  {
  }

  /**
   * Every address is mapped, and to the unit the memory map gives it: the
   * layout does not depend on what the table held before.
   */
  lemma LayoutIsMemoryMap(m0: seq<Unit>, bios: bool)
    requires |m0| == Size
    ensures |Layout(m0, bios)| == Size
    ensures forall a: u16 :: Layout(m0, bios)[a] == MemoryMap(a, bios)
  {
    var m1 := IoStage(m0);
    var m2 := CoreStage(m1);
    var m3 := GpuStage(m2);
    var m4 := ApuStage(m3);
    forall a: u16
      ensures Layout(m0, bios)[a] == MemoryMap(a, bios)
    {
      CoreStageAt(m1, bios, a);
      GpuStageAt(m2, bios, a);
      ApuStageAt(m3, bios, a);
      GameboyStageAt(m4, bios, a);
    }
    GameboyStageAt(m4, bios, 0);
  }

  /**
   * The wiring gives `Bus.Machine` the table it requires: every echo forwards
   * to work RAM, never to another echo, and the GPU owns OAM and VRAM.
   */
  lemma LayoutFitsMachine(m0: seq<Unit>, bios: bool)
    requires |m0| == Size
    ensures |Layout(m0, bios)| == Size
    ensures Bus.EchoesResolve(Layout(m0, bios)) && Bus.OamOwned(Layout(m0, bios))
    ensures Bus.VramOwned(Layout(m0, bios))
  {
    LayoutIsMemoryMap(m0, bios);
  }

  /**
   * Writing 0x01 to 0xFF50 with a boot ROM hands 0x0000-0x00FF to the
   * cartridge, which leaves exactly the table built without a boot ROM.
   */
  lemma UnmapBiosGivesCartridgeLayout(m0: seq<Unit>)
    requires |m0| == Size
    ensures Remap(Layout(m0, true), CartridgeUnit, 0x0000, 0x00FF) == Layout(m0, false)
  {
    LayoutIsMemoryMap(m0, true);
    LayoutIsMemoryMap(m0, false);
    var r := Remap(Layout(m0, true), CartridgeUnit, 0x0000, 0x00FF);
    forall a | 0 <= a < Size
      ensures r[a] == Layout(m0, false)[a]
    {
      assert Layout(m0, true)[a as u16] == MemoryMap(a as u16, true);
      assert Layout(m0, false)[a as u16] == MemoryMap(a as u16, false);
    }
  }

  /** Start: the boot ROM's first byte when there is one, else the cartridge's entry point. */
  function StartPc(bios: bool): (pc: u16)
    ensures MemoryMap(pc, bios) == if bios then BiosRom else CartridgeUnit
    ensures !bios ==> MemoryMap(pc, true) == CartridgeUnit
  {
    if bios then 0x0000 else 0x0100
  }

  // ---- the Map calls themselves ----

  /** main.go's `mmu.Map(memory.NewRAM(...), 0xFF00, 0xFF7F)`. */
  method MapIo(mmu: MMU)
    requires mmu.Valid()
    modifies mmu.mapping
    ensures mmu.mapping[..] == IoStage(old(mmu.mapping[..]))
  {
    var _ := mmu.Map(IoRam, 0xFF00, 0xFF7F);
  }

  /** NewCore's two Map calls. */
  method MapCore(mmu: MMU)
    requires mmu.Valid()
    modifies mmu.mapping
    ensures mmu.mapping[..] == CoreStage(old(mmu.mapping[..]))
  {
    var _ := mmu.Map(InterruptFlags, 0xFF0F, 0xFF0F);
    var _ := mmu.Map(InterruptEnable, 0xFFFF, 0xFFFF);
  }

  /** NewGPU's Map calls. */
  method MapGpu(mmu: MMU)
    requires mmu.Valid()
    modifies mmu.mapping
    ensures mmu.mapping[..] == GpuStage(old(mmu.mapping[..]))
  {
    var _ := mmu.Map(LcdcReg, Gpu.AddrLCDC, Gpu.AddrLCDC);
    var _ := mmu.Map(StatReg, Gpu.AddrSTAT, Gpu.AddrSTAT);
    var _ := mmu.Map(ScyReg, Gpu.AddrSCY, Gpu.AddrSCY);
    var _ := mmu.Map(ScxReg, Gpu.AddrSCX, Gpu.AddrSCX);
    var _ := mmu.Map(WxReg, Gpu.AddrWinX, Gpu.AddrWinX);
    var _ := mmu.Map(WyReg, Gpu.AddrWinY, Gpu.AddrWinY);
    var _ := mmu.Map(GpuUnit, Gpu.AddrLY, Gpu.AddrLY);
    var _ := mmu.Map(LycReg, Gpu.AddrLYC, Gpu.AddrLYC);
    var _ := mmu.Map(BgpReg, Gpu.AddrBGP, Gpu.AddrBGP);
    var _ := mmu.Map(Obp0Reg, Gpu.AddrOBP0, Gpu.AddrOBP0);
    var _ := mmu.Map(Obp1Reg, Gpu.AddrOBP1, Gpu.AddrOBP1);
    var _ := mmu.Map(GpuUnit, Gpu.AddrDMA, Gpu.AddrDMA);
    var _ := mmu.Map(GpuUnit, 0x8000, 0x9FFF);
    var _ := mmu.Map(GpuUnit, 0xFE00, 0xFE9F);
  }

  /** NewAPU's Map calls. */
  method MapApu(mmu: MMU)
    requires mmu.Valid()
    modifies mmu.mapping
    ensures mmu.mapping[..] == ApuStage(old(mmu.mapping[..]))
  {
    var _ := mmu.Map(Square1Unit, Square1.AddrNR10, Square1.AddrNR14);
    var _ := mmu.Map(Square2Unit, Square2.AddrNR21, Square2.AddrNR24);
    var _ := mmu.Map(WaveUnit, Wave.AddrNR30, Wave.AddrNR34);
    var _ := mmu.Map(ControlUnit, Control.AddrNR50, Control.AddrNR52);
    var _ := mmu.Map(WaveUnit, Wave.AddrWaveTableStart, Wave.AddrWaveTableEnd);
    var _ := mmu.Map(NoiseUnit, Noise.AddrNR41, Noise.AddrNR44);
  }

  /** NewGameboy's echo loop: one Map call per address, 0xE000 up to 0xFDFF. */
  method MapEchoes(mmu: MMU)
    requires mmu.Valid()
    modifies mmu.mapping
    ensures mmu.mapping[..] == Echoes(old(mmu.mapping[..]))
  {
    var src: int := 0xE000;
    while src <= 0xFDFF
      invariant 0xE000 <= src <= 0xFE00
      invariant forall a :: 0 <= a < Size ==>
        mmu.mapping[a] == if 0xE000 <= a < src then Echo((a - 0x2000) as u16) else old(mmu.mapping[a])
    {
      var _ := mmu.Map(Echo((src - 0x2000) as u16), src as u16, src as u16);
      src := src + 1;
    }
    assert forall a :: 0 <= a < Size ==> mmu.mapping[..][a] == Echoes(old(mmu.mapping[..]))[a];
  }

  /** NewGameboy's Map calls, in its order. */
  method MapGameboy(mmu: MMU, bios: bool)
    requires mmu.Valid()
    modifies mmu.mapping
    ensures mmu.mapping[..] == GameboyStage(old(mmu.mapping[..]), bios)
  {
    var _ := mmu.Map(NullUnit, 0xFEA0, 0xFEFF);
    var _ := mmu.Map(JoypadUnit, Joypad.AddrJOYP, Joypad.AddrJOYP);
    var _ := mmu.Map(TimerUnit, 0xFF04, 0xFF07);
    if bios {
      var _ := mmu.Map(BiosRom, 0x0000, 0x00FF);
      var _ := mmu.Map(CartridgeUnit, 0x0100, 0x7FFF);
    } else {
      var _ := mmu.Map(CartridgeUnit, 0x0000, 0x7FFF);
    }
    var _ := mmu.Map(CartridgeUnit, 0xA000, 0xBFFF);
    var _ := mmu.Map(Unmapper, 0xFF50, 0xFF50);
    var _ := mmu.Map(WorkRam, 0xC000, 0xDFFF);
    MapEchoes(mmu);
    var _ := mmu.Map(HighRam, 0xFF80, 0xFFFE);
  }

  /**
   * The table main.go ends up with: a fresh MMU, then the constructors'
   * mappings in the order main.go runs them. It is the memory map, and
   * `Bus.Machine` accepts it.
   */
  method Wire(bios: bool) returns (mmu: MMU)
    ensures fresh(mmu) && fresh(mmu.mapping) && mmu.Valid()
    ensures mmu.mapping[..] == Layout(seq(Size, _ => NoUnit), bios)
    ensures forall a: u16 :: mmu.mapping[a] == MemoryMap(a, bios)
    ensures Bus.EchoesResolve(mmu.mapping[..]) && Bus.OamOwned(mmu.mapping[..]) && Bus.VramOwned(mmu.mapping[..])
  {
    mmu := new MMU();
    ghost var m0 := mmu.mapping[..];
    assert m0 == seq(Size, _ => NoUnit);
    MapIo(mmu);
    MapCore(mmu);
    MapGpu(mmu);
    MapApu(mmu);
    MapGameboy(mmu, bios);
    LayoutIsMemoryMap(m0, bios);
    LayoutFitsMachine(m0, bios);
    assert forall a: u16 :: mmu.mapping[a] == mmu.mapping[..][a];
  }

  // ---- the units told of every instruction's cycles ----

  /**
   * The registration order main.go leaves on the core: NewAPU registers the
   * sound unit, NewGameboy's NewTimer the timer, and NewGameboy the picture
   * processor last.
   */
  const ClockOrder: seq<Bus.TimedUnit> := [Bus.ApuClock, Bus.TimerClock, Bus.GpuClock]

  /**
   * The three RegisterToClockChanges calls of the assembly, in main.go's
   * order: the units join the core's list behind any already there, and
   * nothing else about the core changes. It stands alone: `Wire` builds the
   * table, and the core with its bus is built by the caller, so the table
   * and this registration are separate facts about the assembly, not one
   * method that makes both.
   */
  method RegisterClocks(core: Cpu.Core)
    requires core.Valid()
    modifies core
    ensures core.Valid() && core.timedUnits == old(core.timedUnits) + ClockOrder
    ensures core.Snap() == old(core.Snap()) && core.quit == old(core.quit)
  {
    core.RegisterToClockChanges(Bus.ApuClock);
    core.RegisterToClockChanges(Bus.TimerClock);
    core.RegisterToClockChanges(Bus.GpuClock);
  }

  /**
   * On the core NewCore returns, each pass of the clocks tells the sound
   * unit, then the timer, then the picture processor, the same cycles: the
   * timer's counters move before the picture processor's step.
   */
  lemma ClockPassOrder(cycles: nat)
    ensures Cpu.Ticks(ClockOrder, cycles)
      == [Cpu.Clocked(Bus.ApuClock, cycles), Cpu.Clocked(Bus.TimerClock, cycles), Cpu.Clocked(Bus.GpuClock, cycles)]
  {
    var r := Cpu.Ticks(ClockOrder, cycles);
    assert r[0] == Cpu.Clocked(Bus.ApuClock, cycles);
    assert r[1] == Cpu.Clocked(Bus.TimerClock, cycles);
    assert r[2] == Cpu.Clocked(Bus.GpuClock, cycles);
  }
}
