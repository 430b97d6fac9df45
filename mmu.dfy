/**
 * memory/mmu.go and memory/biosunmapper.go: the table that gives every one of
 * the 65,536 addresses its owning unit, and the one-shot unit that hands the
 * boot-ROM range back to the cartridge.
 *
 * Go stores interface values in the table. Here an entry names the unit
 * (`Unit`); bus.dfy holds the unit objects and dispatches on the entry. An
 * echo entry carries its fixed destination address, as `Echoer.dest` does.
 */
module Mmu {
  import opened Bits
  import opened Errors

  datatype Unit =
    | NoUnit
    | CartridgeUnit
    | BiosRom
    | WorkRam
    | HighRam
    | IoRam
    | Echo(dest: u16)
    | NullUnit
    | JoypadUnit
    | TimerUnit
    | InterruptEnable
    | InterruptFlags
    | Unmapper
      /** The picture processor itself: LY, DMA, VRAM and OAM. */
    | GpuUnit
    | LcdcReg
    | StatReg
    | ScyReg
    | ScxReg
    | WyReg
    | WxReg
    | LycReg
    | BgpReg
    | Obp0Reg
    | Obp1Reg
    | Square1Unit
    | Square2Unit
    | WaveUnit
    | NoiseUnit
    | ControlUnit

  const Size: nat := 0x1_0000

  /** The table after mapping `u` over [from, to]. */
  function Remap(m: seq<Unit>, u: Unit, from: int, to: int): (r: seq<Unit>)
    ensures |r| == |m|
  {
    seq(|m|, a requires 0 <= a < |m| => if from <= a <= to then u else m[a])
  }

  /** Of two overlapping mappings the later one owns the overlap. */
  lemma LastMappingWins(m: seq<Unit>, u1: Unit, f1: int, t1: int, u2: Unit, f2: int, t2: int, a: int)
    requires 0 <= a < |m|
    ensures Remap(Remap(m, u1, f1, t1), u2, f2, t2)[a] ==
            if f2 <= a <= t2 then u2 else if f1 <= a <= t1 then u1 else m[a]
  {
  }

  /** Mapping the same unit over the same range twice is the same as once. */
  lemma RemapIdempotent(m: seq<Unit>, u: Unit, from: int, to: int)
    ensures Remap(Remap(m, u, from, to), u, from, to) == Remap(m, u, from, to)
  {
    var once := Remap(m, u, from, to);
    var twice := Remap(once, u, from, to);
    assert forall a :: 0 <= a < |m| ==> twice[a] == once[a];
  }

  class MMU {
    const mapping: array<Unit>

    ghost predicate Valid()
    {
      mapping.Length == Size
    }

    /** NewMMU: 65,536 entries, none owned. */
    constructor ()
      ensures Valid() && fresh(mapping)
      ensures forall a :: 0 <= a < Size ==> mapping[a] == NoUnit
    {
      mapping := new Unit[Size](_ => NoUnit);
    }

    function Owner(addr: u16): Unit
      reads mapping
      requires Valid()
    {
      mapping[addr]
    }

    /**
     * Map `u` over the inclusive range [from, to]. The range checks against
     * the table length can never fire for 16-bit bounds, so the only error is
     * from > to.
     */
    method Map(u: Unit, from: u16, to: u16) returns (s: Status)
      requires Valid()
      modifies mapping
      ensures s.Failure? <==> from > to
      ensures s.Failure? ==> s.error == InvalidMapping(from, to) && mapping[..] == old(mapping[..])
      ensures s.Success? ==> mapping[..] == Remap(old(mapping[..]), u, from, to)
    {
      if from > to || from >= mapping.Length || to >= mapping.Length {
        return Failure(InvalidMapping(from, to));
      }
      var i: int := from;
      while i <= to
        invariant from <= i <= to + 1
        invariant forall a :: 0 <= a < Size ==> mapping[a] == if from <= a < i then u else old(mapping[a])
      {
        mapping[i] := u;
        i := i + 1;
      }
      assert forall a :: 0 <= a < Size ==> mapping[..][a] == Remap(old(mapping[..]), u, from, to)[a];
      return Success;
    }
  }

  /** memory/biosunmapper.go */
  class BiosUnmapper {
    const mmu: MMU
    const cartridge: Unit

    constructor (mmu: MMU, cartridge: Unit)
      ensures this.mmu == mmu && this.cartridge == cartridge
    {
      this.mmu := mmu;
      this.cartridge := cartridge;
    }

    function Read(addr: u16): (r: Result<u8>)
      ensures r == Err(ReadAccessViolation(addr))
    {
      Err(ReadAccessViolation(addr))
    }

    /**
     * Only 0xFF50 is writable; writing 0x01 there gives 0x0000-0x00FF to the
     * cartridge, any other value is accepted and ignored.
     */
    method Write(addr: u16, d: u8) returns (s: Status)
      requires mmu.Valid()
      modifies mmu.mapping
      ensures s.Failure? <==> addr != 0xFF50
      ensures s.Failure? ==> s.error == WriteAccessViolation(addr)
      ensures mmu.mapping[..] ==
              if addr == 0xFF50 && d == 0x01 then Remap(old(mmu.mapping[..]), cartridge, 0x0000, 0x00FF)
              else old(mmu.mapping[..])
    {
      if addr != 0xFF50 {
        return Failure(WriteAccessViolation(addr));
      }
      if d == 0x01 {
        var _ := mmu.Map(cartridge, 0x0000, 0x00FF);
      }
      return Success;
    }
  }
}
