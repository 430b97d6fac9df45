/**
 * The storage units of the memory bus (package `memory`): a windowed RAM, a
 * windowed ROM, a read/write register, a read-only register and the null unit.
 * The bus itself and the units that call back into it (echo, boot-ROM
 * unmapper) are in mmu.dfy and bus.dfy.
 */
module Memory {
  import opened Bits
  import opened Errors

  /**
   * What `SetWindow(off)` followed by `Read(addr)` yields on a RAM or ROM
   * whose contents are `data` and whose first address is `base`: the window
   * error when `off` is past the end, else the byte or the range error.
   */
  function WindowRead(data: seq<u8>, off: nat, base: u16, addr: u16): (r: Result<u8>)
    ensures r.Ok? ==> base <= addr && off + (addr - base) < |data| && r.value == data[off + (addr - base)]
    ensures r.Err? <==> |data| <= off || addr < base || |data| - off <= addr - base
  {
    if |data| <= off then Err(WindowOutOfRange(off))
    else if base <= addr && addr - base < |data| - off then Ok(data[off + (addr - base)])
    else Err(ReadOutOfRange(addr))
  }

  /** What `SetWindow(off)` followed by `Write(addr, d)` does to a RAM's contents. */
  function WindowWrite(data: seq<u8>, off: nat, base: u16, addr: u16, d: u8): (r: (seq<u8>, Status))
    ensures |r.0| == |data|
    ensures r.1.Success? <==> WindowRead(data, off, base, addr).Ok?
    ensures r.1.Success? ==> r.0 == data[off + (addr - base) := d]
    ensures r.1.Failure? ==> r.0 == data
    ensures r.1.Failure? ==> r.1.error == if |data| <= off then WindowOutOfRange(off) else WriteOutOfRange(addr)
  {
    if |data| <= off then (data, Failure(WindowOutOfRange(off)))
    else if base <= addr && addr - base < |data| - off then (data[off + (addr - base) := d], Success)
    else (data, Failure(WriteOutOfRange(addr)))
  }

  /**
   * memory/ram.go. `data` is a buffer shared with whoever created it; reads and
   * writes go through `window`, the suffix of `data` that starts at
   * `windowOffset`, at index `addr - addrOffset`.
   */
  class RAM {
    const data: array<u8>
    const addrOffset: u16
    var windowOffset: nat

    ghost predicate Valid()
      reads this
    {
      windowOffset <= data.Length
    }

    ghost function Window(): seq<u8>
      reads this, data
      requires Valid()
    {
      data[windowOffset..]
    }

    /** Index into `window` that `addr` maps to, when it is in range. */
    predicate InWindow(addr: u16)
      reads this
      requires Valid()
    {
      addrOffset <= addr && addr - addrOffset < data.Length - windowOffset
    }

    /**
     * NewRAM: the window starts at offset 0. For an empty buffer the Go
     * `SetWindow(0)` fails and leaves an empty window, which is the same
     * empty suffix.
     */
    constructor (data: array<u8>, addrOffset: u16)
      ensures Valid()
      ensures this.data == data && this.addrOffset == addrOffset
      ensures windowOffset == 0 && Window() == data[..]
    {
      this.data := data;
      this.addrOffset := addrOffset;
      windowOffset := 0;
    }

    method SetWindow(offset: nat) returns (s: Status)
      requires Valid()
      modifies this`windowOffset
      ensures Valid()
      ensures s.Failure? <==> data.Length <= offset
      ensures s.Failure? ==> s.error == WindowOutOfRange(offset) && windowOffset == old(windowOffset)
      ensures s.Success? ==> windowOffset == offset && Window() == data[offset..]
    {
      if data.Length <= offset {
        return Failure(WindowOutOfRange(offset));
      }
      windowOffset := offset;
      return Success;
    }

    function Read(addr: u16): (r: Result<u8>)
      reads this, data
      requires Valid()
      ensures r.Ok? <==> InWindow(addr)
      ensures r.Ok? ==> r.value == Window()[addr - addrOffset]
      ensures r.Err? ==> r.error == ReadOutOfRange(addr)
    {
      if addrOffset > addr then Err(ReadOutOfRange(addr))
      else if data.Length - windowOffset <= addr - addrOffset then Err(ReadOutOfRange(addr))
      else Ok(data[windowOffset + (addr - addrOffset)])
    }

    method Write(addr: u16, d: u8) returns (s: Status)
      requires Valid()
      modifies data
      ensures s.Success? <==> InWindow(addr)
      ensures s.Failure? ==> s.error == WriteOutOfRange(addr) && data[..] == old(data[..])
      ensures s.Success? ==> data[..] == old(data[..])[windowOffset + (addr - addrOffset) := d]
      ensures s.Success? ==> Read(addr) == Ok(d)
      ensures forall b: u16 :: b != addr ==> Read(b) == old(Read(b))
    {
      if addrOffset > addr {
        return Failure(WriteOutOfRange(addr));
      }
      var physical := addr - addrOffset;
      if data.Length - windowOffset <= physical {
        return Failure(WriteOutOfRange(addr));
      }
      data[windowOffset + physical] := d;
      return Success;
    }
  }

  /**
   * memory/rom.go: the same windowed view as RAM over contents that are never
   * written.
   */
  class ROM {
    const data: seq<u8>
    const addrOffset: u16
    var windowOffset: nat

    ghost predicate Valid()
      reads this
    {
      windowOffset <= |data|
    }

    ghost function Window(): seq<u8>
      reads this
      requires Valid()
    {
      data[windowOffset..]
    }

    predicate InWindow(addr: u16)
      reads this
      requires Valid()
    {
      addrOffset <= addr && addr - addrOffset < |data| - windowOffset
    }

    constructor (data: seq<u8>, addrOffset: u16)
      ensures Valid()
      ensures this.data == data && this.addrOffset == addrOffset
      ensures windowOffset == 0 && Window() == data
    {
      this.data := data;
      this.addrOffset := addrOffset;
      windowOffset := 0;
    }

    method SetWindow(offset: nat) returns (s: Status)
      requires Valid()
      modifies this`windowOffset
      ensures Valid()
      ensures s.Failure? <==> |data| <= offset
      ensures s.Failure? ==> s.error == WindowOutOfRange(offset) && windowOffset == old(windowOffset)
      ensures s.Success? ==> windowOffset == offset && Window() == data[offset..]
    {
      if |data| <= offset {
        return Failure(WindowOutOfRange(offset));
      }
      windowOffset := offset;
      return Success;
    }

    function Read(addr: u16): (r: Result<u8>)
      reads this
      requires Valid()
      ensures r.Ok? <==> InWindow(addr)
      ensures r.Ok? ==> r.value == Window()[addr - addrOffset]
      ensures r.Err? ==> r.error == ReadOutOfRange(addr)
    {
      if addrOffset > addr then Err(ReadOutOfRange(addr))
      else if |data| - windowOffset <= addr - addrOffset then Err(ReadOutOfRange(addr))
      else Ok(data[windowOffset + (addr - addrOffset)])
    }

    /** Writes to a ROM are accepted and ignored: nothing is modified. */
    method Write(addr: u16, d: u8) returns (s: Status)
      ensures s == Success
    {
      return Success;
    }
  }

  /** memory/memreg.go: a byte cell on the bus, written whatever the address. */
  class MemReg {
    var data: u8

    constructor ()
      ensures data == 0
    {
      data := 0;
    }

    function Read(addr: u16): (r: Result<u8>)
      reads this
      ensures r == Ok(data)
    {
      Ok(data)
    }

    method Write(addr: u16, d: u8) returns (s: Status)
      modifies this
      ensures s == Success && data == d
      ensures forall a: u16 :: Read(a) == Ok(d)
    {
      data := d;
      return Success;
    }
  }

  /** memory/romemreg.go: a register whose writes are accepted and dropped. */
  datatype ROMemReg = ROMemReg(data: u8)
  {
    function Read(addr: u16): (r: Result<u8>)
    {
      Ok(data)
    }

    /** The register after a write, and the write's status. */
    function Write(addr: u16, d: u8): (r: (ROMemReg, Status))
      ensures r.1 == Success
      ensures r.0.Read(addr) == Read(addr)
    {
      (this, Success)
    }
  }

  /** memory/null.go: reads 0, swallows writes. */
  datatype Null = Null
  {
    function Read(addr: u16): (r: Result<u8>)
    {
      Ok(0)
    }

    function Write(addr: u16, d: u8): (r: (Null, Status))
      ensures r.1 == Success
      ensures forall a: u16 :: r.0.Read(a) == Ok(0)
    {
      (this, Success)
    }
  }
}
