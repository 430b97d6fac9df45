/**
 * audio/wave.go: sound channel 3, which plays 32 four-bit samples from a
 * 16-byte wave table at 0xFF30-0xFF3F, with a volume shift and a length
 * counter, on NR30-NR34 (0xFF1A-0xFF1E).
 */
module Wave {
  import opened Bits
  import opened Errors
  import opened Counters
  import opened Voice

  const AddrNR30: u16 := 0xFF1A
  const AddrNR31: u16 := 0xFF1B
  const AddrNR32: u16 := 0xFF1C
  const AddrNR33: u16 := 0xFF1D
  const AddrNR34: u16 := 0xFF1E
  const AddrWaveTableStart: u16 := 0xFF30
  const AddrWaveTableEnd: u16 := 0xFF3F
  /** NR24, channel 2's last register, which Read tests in place of NR34. */
  const AddrNR24: u16 := 0xFF19

  /** volumeShifts(): NR32 bits 6-5 select mute (shift 4), 100%, 50% or 25%. */
  function VolumeShift(nr32: u8): (s: nat)
    ensures s <= 4
  {
    var code := ((nr32 * 2) % 0x100) / 0x40;
    if code == 0 then 4 else if code == 1 then 0 else if code == 2 then 1 else 2
  }

  lemma VolumeShiftTable(nr32: u8)
    ensures var code := (nr32 / 0x20) % 4;
            VolumeShift(nr32) == [4, 0, 1, 2][code]
  {
  }

  /** currentSample(): the low nibble of byte pos/2 at even positions, the high nibble at odd ones. */
  function Sample(table: seq<u8>, pos: nat): (r: u8)
    requires |table| == 16 && pos < 32
    ensures r < 16
  {
    if pos % 2 == 0 then table[pos / 2] % 0x10 else table[pos / 2] / 0x10
  }

  /** Two consecutive samples put together give back their table byte. */
  lemma SamplesOfByte(table: seq<u8>, i: nat)
    requires |table| == 16 && i < 16
    ensures Sample(table, 2 * i) + 0x10 * Sample(table, 2 * i + 1) == table[i]
  {
  }

  datatype WaveState = WaveState(
    nr30: u8, nr31: u8, nr32: u8, nr33: u8, nr34: u8,
    waveTable: seq<u8>, frequencyCounter: nat, wavePos: nat)
  {
    predicate Valid() { |waveTable| == 16 && wavePos < 32 }

    /** enabled(): length left and the DAC on (NR30 bit 7). */
    predicate Enabled()
    {
      nr31 > 0 && nr30 / 0x80 == 1
    }

    /** output(): the current sample shifted right by the volume shift, 0 when disabled. */
    function Output(): (r: u8)
      requires Valid()
      ensures r < 16
      ensures !Enabled() ==> r == 0
      ensures Enabled() && VolumeShift(nr32) == 0 ==> r == Sample(waveTable, wavePos)
      ensures VolumeShift(nr32) == 4 ==> r == 0
    {
      if !Enabled() then 0 else Sample(waveTable, wavePos) / Pow2(VolumeShift(nr32))
    }

    /**
     * Read as gopherboy writes it: the switch tests NR24 (0xFF19) where it
     * means NR34, so NR34 itself cannot be read.
     */
    function ReadAsWritten(addr: u16): (r: Result<u8>)
      requires Valid()
      ensures r.Ok? <==> (Owns(addr) && addr != AddrNR34) || addr == AddrNR24
      ensures r.Err? ==> r.error == ReadOutOfRange(addr)
      ensures addr != AddrNR34 && addr != AddrNR24 ==> r == Read(addr)
    {
      if addr == AddrNR30 then Ok(nr30)
      else if addr == AddrNR31 then Ok(nr31)
      else if addr == AddrNR32 then Ok(nr32)
      else if addr == AddrNR33 then Ok(nr33)
      else if addr == AddrNR24 then Ok(nr34)
      else if AddrWaveTableStart <= addr <= AddrWaveTableEnd then Ok(waveTable[addr - AddrWaveTableStart])
      else Err(ReadOutOfRange(addr))
    }

    /** Read as intended: the five registers and the wave table. */
    function Read(addr: u16): (r: Result<u8>)
      requires Valid()
      ensures r.Ok? <==> Owns(addr)
      ensures r.Err? ==> r.error == ReadOutOfRange(addr)
    {
      if addr == AddrNR30 then Ok(nr30)
      else if addr == AddrNR31 then Ok(nr31)
      else if addr == AddrNR32 then Ok(nr32)
      else if addr == AddrNR33 then Ok(nr33)
      else if addr == AddrNR34 then Ok(nr34)
      else if AddrWaveTableStart <= addr <= AddrWaveTableEnd then Ok(waveTable[addr - AddrWaveTableStart])
      else Err(ReadOutOfRange(addr))
    }

    /** The addresses the channel accepts writes at, and NewAPU maps to it. */
    predicate Owns(addr: u16)
    {
      AddrNR30 <= addr <= AddrNR34 || AddrWaveTableStart <= addr <= AddrWaveTableEnd
    }

    /** initialize(): length 255, counter and position restarted. */
    function Initialized(): (r: WaveState)
      requires Valid()
      ensures r.Valid() && r.nr31 == 255 && r.frequencyCounter == 0 && r.wavePos == 0
      ensures r.waveTable == waveTable && r.nr30 == nr30 && r.nr32 == nr32 && r.nr33 == nr33 && r.nr34 == nr34
    {
      this.(nr31 := 255, frequencyCounter := 0, wavePos := 0)
    }

    /**
     * Write(): the registers and the wave table take the byte and NR34 with
     * bit 7 set also triggers the channel; a write that does not trigger
     * changes only the registers and the table, and one to any other address
     * changes nothing. Every written byte but NR34's reads back.
     */
    function Write(addr: u16, d: u8): (r: (WaveState, Status))
      requires Valid()
      ensures r.0.Valid()
      ensures r.1.Success? <==> Owns(addr)
      ensures r.1.Failure? ==> r.1.error == WriteOutOfRange(addr) && r.0 == this
      ensures r.1.Success? && addr != AddrNR34 ==> r.0.Read(addr) == Ok(d)
      ensures addr == AddrNR34 && d / 0x80 == 1 ==> r.0 == this.(nr34 := d).Initialized()
      ensures !(addr == AddrNR34 && d / 0x80 == 1) ==>
                r.0 == this.(nr30 := r.0.nr30, nr31 := r.0.nr31, nr32 := r.0.nr32, nr33 := r.0.nr33, nr34 := r.0.nr34,
                             waveTable := r.0.waveTable)
    {
      if addr == AddrNR30 then (this.(nr30 := d), Success)
      else if addr == AddrNR31 then (this.(nr31 := d), Success)
      else if addr == AddrNR32 then (this.(nr32 := d), Success)
      else if addr == AddrNR33 then (this.(nr33 := d), Success)
      else if addr == AddrNR34 then (if d / 0x80 == 1 then this.(nr34 := d).Initialized() else this.(nr34 := d), Success)
      else if AddrWaveTableStart <= addr <= AddrWaveTableEnd then
        (this.(waveTable := waveTable[addr - AddrWaveTableStart := d]), Success)
      else (this, Failure(WriteOutOfRange(addr)))
    }

    /** lengthClock(): with NR34 bit 6 set, NR31 above 0 counts down by one; nothing else changes. */
    function LengthClocked(): (r: WaveState)
      ensures r == this.(nr31 := r.nr31)
      ensures r.nr31 == if LengthEnabled(nr34) && nr31 > 0 then nr31 - 1 else nr31
      ensures r.nr31 <= nr31 && (r.nr31 == 0 <==> nr31 == 0 || (nr31 == 1 && LengthEnabled(nr34)))
    {
      if !LengthEnabled(nr34) || nr31 == 0 then this else this.(nr31 := nr31 - 1)
    }

    /** ClockChanged(): add the cycles to the frequency counter and, when it reaches the period, take one waveform step; nothing else changes. */
    function Advanced(cycles: nat): (r: WaveState)
      ensures Valid() ==> r.Valid()
      ensures r == this.(frequencyCounter := r.frequencyCounter, wavePos := r.wavePos)
      ensures var (fired, rest) := Tick(frequencyCounter, cycles, WaveRate(Frequency(nr33, nr34)));
              r.frequencyCounter == rest && r.wavePos == if fired then (wavePos + 1) % 32 else wavePos
    {
      var (fired, rest) := Tick(frequencyCounter, cycles, WaveRate(Frequency(nr33, nr34)));
      this.(frequencyCounter := rest, wavePos := if fired then (wavePos + 1) % 32 else wavePos)
    }
  }

  /** As written, NR34 is written but never read back, and 0xFF19 would read it although NewAPU gives that address to channel 2. */
  lemma ReadAsWrittenMissesNR34(st: WaveState)
    requires st.Valid()
    ensures st.Owns(AddrNR34) && st.ReadAsWritten(AddrNR34) == Err(ReadOutOfRange(AddrNR34))
    ensures !st.Owns(AddrNR24) && st.ReadAsWritten(AddrNR24) == Ok(st.nr34)
  {
  }

  /** As intended, the channel's reads and writes cover the same addresses. */
  lemma ReadCoversWrites(st: WaveState, addr: u16)
    requires st.Valid()
    ensures st.Read(addr).Ok? <==> st.Owns(addr)
    ensures st.Read(AddrNR34) == Ok(st.nr34)
  {

  }

  class Wave {
    var nr30: u8
    var nr31: u8
    var nr32: u8
    var nr33: u8
    var nr34: u8
    var waveTable: seq<u8>
    var frequencyCounter: nat
    var wavePos: nat

    function State(): WaveState
      reads this
    {
      WaveState(nr30, nr31, nr32, nr33, nr34, waveTable, frequencyCounter, wavePos)
    }

    ghost predicate Valid()
      reads this
    {
      State().Valid()
    }

    /** The zero channel NewAPU starts from, after initialize(). */
    constructor ()
      ensures Valid()
      ensures State() == WaveState(0, 0, 0, 0, 0, seq(16, _ => 0), 0, 0).Initialized()
    {
      nr30, nr31, nr32, nr33, nr34 := 0, 0, 0, 0, 0;
      waveTable := seq(16, _ => 0);
      frequencyCounter, wavePos := 0, 0;
      new;
      Initialize();
    }

    /** Read as the source writes it (see `WaveState.ReadAsWritten`). */
    function Read(addr: u16): (r: Result<u8>)
      reads this
      requires Valid()
      ensures r == State().ReadAsWritten(addr)
    {
      if addr == AddrNR30 then Ok(nr30)
      else if addr == AddrNR31 then Ok(nr31)
      else if addr == AddrNR32 then Ok(nr32)
      else if addr == AddrNR33 then Ok(nr33)
      else if addr == AddrNR24 then Ok(nr34)
      else if AddrWaveTableStart <= addr <= AddrWaveTableEnd then Ok(waveTable[addr - AddrWaveTableStart])
      else Err(ReadOutOfRange(addr))
    }

    /** The registers and the table take the byte; NR34 with bit 7 set also triggers the channel. */
    method Write(addr: u16, d: u8) returns (s: Status)
      requires Valid()
      modifies this
      ensures Valid()
      ensures s.Success? <==> State().Owns(addr)
      ensures s.Failure? ==> s.error == WriteOutOfRange(addr) && State() == old(State())
      ensures s.Success? && addr != AddrNR34 ==> Read(addr) == Ok(d)
      ensures addr == AddrNR30 ==> State() == old(State()).(nr30 := d)
      ensures addr == AddrNR31 ==> State() == old(State()).(nr31 := d)
      ensures addr == AddrNR32 ==> State() == old(State()).(nr32 := d)
      ensures addr == AddrNR33 ==> State() == old(State()).(nr33 := d)
      ensures addr == AddrNR34 ==>
                State() == if d / 0x80 == 1 then old(State()).(nr34 := d).Initialized() else old(State()).(nr34 := d)
      ensures AddrWaveTableStart <= addr <= AddrWaveTableEnd ==>
                State() == old(State()).(waveTable := old(waveTable)[addr - AddrWaveTableStart := d])
      ensures (State(), s) == old(State()).Write(addr, d)
    {
      if addr == AddrNR30 {
        nr30 := d;
      } else if addr == AddrNR31 {
        nr31 := d;
      } else if addr == AddrNR32 {
        nr32 := d;
      } else if addr == AddrNR33 {
        nr33 := d;
      } else if addr == AddrNR34 {
        nr34 := d;
        if d / 0x80 == 1 {
          Initialize();
        }
      } else if AddrWaveTableStart <= addr <= AddrWaveTableEnd {
        waveTable := waveTable[addr - AddrWaveTableStart := d];
      } else {
        return Failure(WriteOutOfRange(addr));
      }
      return Success;
    }

    /** ClockChanged: the sample position advances at most once per call, modulo 32, the remainder kept. */
    method ClockChanged(cycles: nat) returns (s: Status)
      requires Valid()
      modifies this`frequencyCounter, this`wavePos
      ensures Valid() && s == Success
      ensures State() == old(State()).Advanced(cycles)
    {
      frequencyCounter := frequencyCounter + cycles;
      var waveRate := WaveRate(Frequency(nr33, nr34));
      if frequencyCounter >= waveRate {
        frequencyCounter := frequencyCounter - waveRate;
        wavePos := (wavePos + 1) % 32;
      }
      return Success;
    }

    function Output(): (r: u8)
      reads this
      requires Valid()
      ensures r == State().Output()
    {
      if !(nr31 > 0 && nr30 / 0x80 == 1) then 0 else Sample(waveTable, wavePos) / Pow2(VolumeShift(nr32))
    }

    method Initialize()
      requires Valid()
      modifies this`nr31, this`frequencyCounter, this`wavePos
      ensures State() == old(State()).Initialized() && Valid()
    {
      nr31 := 255;
      frequencyCounter := 0;
      wavePos := 0;
    }

    /** lengthClock: with NR34 bit 6 set, NR31 counts down to 0 and stops there. */
    method LengthClock()
      requires Valid()
      modifies this`nr31
      ensures Valid()
      ensures State() == old(State()).LengthClocked()
    {
      if !LengthEnabled(nr34) {
        return;
      }
      if nr31 == 0 {
        return;
      }
      nr31 := nr31 - 1;
    }
  }
}
