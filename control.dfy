/**
 * audio/control.go: the sound control registers NR50 (master volume and
 * VIN), NR51 (which channel goes to which side) and NR52 (sound on/off), on
 * 0xFF24-0xFF26, and the fields the APU's mixer reads from them.
 */
module Control {
  import opened Bits
  import opened Errors

  const AddrNR50: u16 := 0xFF24
  const AddrNR51: u16 := 0xFF25
  const AddrNR52: u16 := 0xFF26

  /** The channel bits of the left and right halves of NR51. */
  const Channel1: u8 := 0x01
  const Channel2: u8 := 0x02
  const Channel3: u8 := 0x04
  const Channel4: u8 := 0x08

  /** soundOn(): NR52 bit 7. */
  predicate SoundOn(nr52: u8) { nr52 / 0x80 == 1 }

  /** vinL(): NR50 bit 7. */
  predicate VinL(nr50: u8) { nr50 / 0x80 == 1 }

  /** vinR(): NR50 bit 3. */
  predicate VinR(nr50: u8) { (nr50 / 0x08) % 2 == 1 }

  /** leftVolume(): `(nr50 << 1) >> 5` on a byte, which drops bit 7 and keeps bits 6-4. */
  function LeftVolume(nr50: u8): (v: u8)
    ensures v < 8
  {
    ((nr50 * 2) % 0x100) / 0x20
  }

  /** rightVolume(): NR50 bits 2-0. */
  function RightVolume(nr50: u8): (v: u8)
    ensures v < 8
  {
    nr50 % 0x08
  }

  /** leftChannels(): the high nibble of NR51. */
  function LeftChannels(nr51: u8): (c: u8)
    ensures c < 16
  {
    nr51 / 0x10
  }

  /** rightChannels(): the low nibble of NR51. */
  function RightChannels(nr51: u8): (c: u8)
    ensures c < 16
  {
    nr51 % 0x10
  }

  /** NR50 is two 3-bit volumes, each with its VIN bit above it; NR51 is its two nibbles. */
  lemma ControlFields(nr50: u8, nr51: u8)
    ensures nr50 == (if VinL(nr50) then 0x80 else 0) + LeftVolume(nr50) * 0x10
                    + (if VinR(nr50) then 0x08 else 0) + RightVolume(nr50)
    ensures nr51 == LeftChannels(nr51) * 0x10 + RightChannels(nr51)
    ensures LeftVolume(nr50) == (nr50 / 0x10) % 8
  {
  }

  datatype ControlState = ControlState(nr50: u8, nr51: u8, nr52: u8)
  {
    /** Read(): the three registers; any other address is out of range. */
    function Read(addr: u16): (r: Result<u8>)
      ensures r.Ok? <==> AddrNR50 <= addr <= AddrNR52
      ensures r.Err? ==> r.error == ReadOutOfRange(addr)
    {
      if addr == AddrNR50 then Ok(nr50)
      else if addr == AddrNR51 then Ok(nr51)
      else if addr == AddrNR52 then Ok(nr52)
      else Err(ReadOutOfRange(addr))
    }

    /** Write(): NR50 and NR51 take the byte; NR52 takes only bit 7, its low bits stay. */
    function Write(addr: u16, d: u8): (r: (ControlState, Status))
      ensures r.1.Success? <==> AddrNR50 <= addr <= AddrNR52
      ensures r.1.Failure? ==> r.1.error == WriteOutOfRange(addr) && r.0 == this
    {
      if addr == AddrNR50 then (this.(nr50 := d), Success)
      else if addr == AddrNR51 then (this.(nr51 := d), Success)
      else if addr == AddrNR52 then (this.(nr52 := (nr52 % 0x80) + (d / 0x80) * 0x80), Success)
      else (this, Failure(WriteOutOfRange(addr)))
    }
  }

  /** A write to NR50 or NR51 reads back; one to NR52 sets only the sound switch and keeps the rest. */
  lemma WriteReadBack(st: ControlState, addr: u16, d: u8)
    requires AddrNR50 <= addr <= AddrNR52
    ensures var st' := st.Write(addr, d).0;
            (addr != AddrNR52 ==> st'.Read(addr) == Ok(d)) &&
            (addr == AddrNR52 ==> (SoundOn(st'.nr52) <==> SoundOn(d)) && st'.nr52 % 0x80 == st.nr52 % 0x80) &&
            (forall a: u16 :: AddrNR50 <= a <= AddrNR52 && a != addr ==> st'.Read(a) == st.Read(a))
  {
  }

  class Control {
    var nr50: u8
    var nr51: u8
    var nr52: u8

    function State(): ControlState
      reads this
    {
      ControlState(nr50, nr51, nr52)
    }

    /** The zero registers NewAPU starts from. */
    constructor ()
      ensures State() == ControlState(0, 0, 0)
    {
      nr50, nr51, nr52 := 0, 0, 0;
    }

    function Read(addr: u16): (r: Result<u8>)
      reads this
      ensures r == State().Read(addr)
    {
      if addr == AddrNR50 then Ok(nr50)
      else if addr == AddrNR51 then Ok(nr51)
      else if addr == AddrNR52 then Ok(nr52)
      else Err(ReadOutOfRange(addr))
    }

    method Write(addr: u16, d: u8) returns (s: Status)
      modifies this
      ensures (State(), s) == old(State()).Write(addr, d)
    {
      if addr == AddrNR50 {
        nr50 := d;
      } else if addr == AddrNR51 {
        nr51 := d;
      } else if addr == AddrNR52 {
        nr52 := (nr52 % 0x80) + (d / 0x80) * 0x80;
      } else {
        return Failure(WriteOutOfRange(addr));
      }
      return Success;
    }
  }
}
