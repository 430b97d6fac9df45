/**
 * audio/square2.go: sound channel 2, a square wave with a volume envelope
 * and a length counter (no sweep), on NR21-NR24 (0xFF16-0xFF19).
 */
module Square2 {
  import opened Bits
  import opened Errors
  import opened Counters
  import opened Voice

  const AddrNR21: u16 := 0xFF16
  const AddrNR22: u16 := 0xFF17
  const AddrNR23: u16 := 0xFF18
  const AddrNR24: u16 := 0xFF19

  datatype Square2State = Square2State(
    nr21: u8, nr22: u8, nr23: u8, nr24: u8,
    frequencyCounter: nat, envelopeCounter: u8, volume: u8, wavePos: u8, waveState: bool)
  {
    predicate Valid() { volume < 16 && wavePos < 8 }

    /** enabled(): length left and the DAC on. */
    predicate Enabled()
    {
      LengthLoad(nr21) > 0 && Dac(nr22)
    }

    /** output(): the volume while enabled and high, else 0. */
    function Output(): (r: u8)
      ensures Valid() ==> r < 16
      ensures r != 0 ==> Enabled() && waveState && r == volume
      ensures Enabled() && waveState ==> r == volume
    {
      if !Enabled() || !waveState then 0 else volume
    }

    /** initialize(): length 63 with the duty kept, counters and waveform restarted, volume from NR22. */
    function Initialized(): (r: Square2State)
      ensures r.Valid()
      ensures LengthLoad(r.nr21) == 63 && Duty(r.nr21) == Duty(nr21)
      ensures r.frequencyCounter == 0 && r.wavePos == 0 && !r.waveState
      ensures r.envelopeCounter == EnvelopePeriod(nr22) && r.volume == EnvelopeVolume(nr22)
      ensures r.nr22 == nr22 && r.nr23 == nr23 && r.nr24 == nr24
    {
      this.(nr21 := WithLengthLoad(nr21, 63), frequencyCounter := 0,
            envelopeCounter := EnvelopePeriod(nr22), volume := EnvelopeVolume(nr22),
            wavePos := 0, waveState := false)
    }

    /**
     * Write(): each register takes the byte and NR24 with bit 7 set also
     * triggers the channel; a write that does not trigger changes only the
     * registers, and one to any other address changes nothing.
     */
    function Write(addr: u16, d: u8): (r: (Square2State, Status))
      ensures r.1.Success? <==> AddrNR21 <= addr <= AddrNR24
      ensures r.1.Failure? ==> r.1.error == WriteOutOfRange(addr) && r.0 == this
      ensures Valid() ==> r.0.Valid()
      ensures addr == AddrNR24 && d / 0x80 == 1 ==> r.0 == this.(nr24 := d).Initialized()
      ensures !(addr == AddrNR24 && d / 0x80 == 1) ==>
                r.0 == this.(nr21 := r.0.nr21, nr22 := r.0.nr22, nr23 := r.0.nr23, nr24 := r.0.nr24)
    {
      if addr == AddrNR21 then (this.(nr21 := d), Success)
      else if addr == AddrNR22 then (this.(nr22 := d), Success)
      else if addr == AddrNR23 then (this.(nr23 := d), Success)
      else if addr == AddrNR24 then (if d / 0x80 == 1 then this.(nr24 := d).Initialized() else this.(nr24 := d), Success)
      else (this, Failure(WriteOutOfRange(addr)))
    }

    /** lengthClock(): with NR24 bit 6 set, a length above 0 counts down by one; nothing else changes. */
    function LengthClocked(): (r: Square2State)
      ensures r == this.(nr21 := r.nr21) && r.nr21 / 0x40 == nr21 / 0x40
      ensures LengthLoad(r.nr21) == if LengthEnabled(nr24) && LengthLoad(nr21) > 0 then LengthLoad(nr21) - 1 else LengthLoad(nr21)
    {
      if !LengthEnabled(nr24) || LengthLoad(nr21) == 0 then this
      else this.(nr21 := WithLengthLoad(nr21, LengthLoad(nr21) - 1))
    }

    /** envelopeClock(): while the envelope counter is above 0, count it down and step the volume; nothing else changes. */
    function EnvelopeClocked(): (r: Square2State)
      ensures r == this.(envelopeCounter := r.envelopeCounter, volume := r.volume)
      ensures envelopeCounter == 0 ==> r == this
      ensures envelopeCounter > 0 ==> r.envelopeCounter == envelopeCounter - 1 && r.volume == Envelope(volume, EnvelopeRises(nr22))
      ensures Valid() ==> r.Valid()
    {
      EnvelopeBounds(volume, EnvelopeRises(nr22));
      if envelopeCounter == 0 then this
      else this.(envelopeCounter := envelopeCounter - 1, volume := Envelope(volume, EnvelopeRises(nr22)))
    }

    /** ClockChanged(): add the cycles to the frequency counter and, when it reaches the period, take one waveform step; nothing else changes. */
    function Advanced(cycles: nat): (r: Square2State)
      ensures Valid() ==> r.Valid()
      ensures r == this.(frequencyCounter := r.frequencyCounter, waveState := r.waveState, wavePos := r.wavePos)
      ensures var (fired, rest) := Tick(frequencyCounter, cycles, WaveRate(Frequency(nr23, nr24)));
              r.frequencyCounter == rest &&
              (fired ==> r.waveState == DutyBit(Duty(nr21), wavePos) && r.wavePos == (wavePos + 1) % 8) &&
              (!fired ==> r.waveState == waveState && r.wavePos == wavePos)
    {
      var (fired, rest) := Tick(frequencyCounter, cycles, WaveRate(Frequency(nr23, nr24)));
      if fired then this.(frequencyCounter := rest, waveState := DutyBit(Duty(nr21), wavePos), wavePos := (wavePos + 1) % 8)
      else this.(frequencyCounter := rest)
    }
  }

  class Square2 {
    var nr21: u8
    var nr22: u8
    var nr23: u8
    var nr24: u8
    var frequencyCounter: nat
    var envelopeCounter: u8
    var volume: u8
    var wavePos: u8
    var waveState: bool

    function State(): Square2State
      reads this
    {
      Square2State(nr21, nr22, nr23, nr24, frequencyCounter, envelopeCounter, volume, wavePos, waveState)
    }

    ghost predicate Valid()
      reads this
    {
      State().Valid()
    }

    /** The zero channel NewAPU starts from, after initialize(). */
    constructor ()
      ensures Valid()
      ensures State() == Square2State(0, 0, 0, 0, 0, 0, 0, 0, false).Initialized()
    {
      nr21, nr22, nr23, nr24 := 0, 0, 0, 0;
      frequencyCounter, envelopeCounter := 0, 0;
      volume, wavePos, waveState := 0, 0, false;
      new;
      Initialize();
    }

    function Read(addr: u16): (r: Result<u8>)
      reads this
      ensures r.Ok? <==> AddrNR21 <= addr <= AddrNR24
      ensures r.Err? ==> r.error == ReadOutOfRange(addr)
      ensures addr == AddrNR21 ==> r == Ok(nr21)
      ensures addr == AddrNR22 ==> r == Ok(nr22)
      ensures addr == AddrNR23 ==> r == Ok(nr23)
      ensures addr == AddrNR24 ==> r == Ok(nr24)
    {
      if addr == AddrNR21 then Ok(nr21)
      else if addr == AddrNR22 then Ok(nr22)
      else if addr == AddrNR23 then Ok(nr23)
      else if addr == AddrNR24 then Ok(nr24)
      else Err(ReadOutOfRange(addr))
    }

    /** Every register takes the byte; only NR24 with bit 7 set also triggers the channel. */
    method Write(addr: u16, d: u8) returns (s: Status)
      requires Valid()
      modifies this
      ensures Valid()
      ensures s.Success? <==> AddrNR21 <= addr <= AddrNR24
      ensures s.Failure? ==> s.error == WriteOutOfRange(addr) && State() == old(State())
      ensures addr == AddrNR21 ==> State() == old(State()).(nr21 := d)
      ensures addr == AddrNR22 ==> State() == old(State()).(nr22 := d)
      ensures addr == AddrNR23 ==> State() == old(State()).(nr23 := d)
      ensures addr == AddrNR24 ==>
                State() == if d / 0x80 == 1 then old(State()).(nr24 := d).Initialized() else old(State()).(nr24 := d)
      ensures (State(), s) == old(State()).Write(addr, d)
    {
      if addr == AddrNR21 {
        nr21 := d;
      } else if addr == AddrNR22 {
        nr22 := d;
      } else if addr == AddrNR23 {
        nr23 := d;
      } else if addr == AddrNR24 {
        nr24 := d;
        if d / 0x80 == 1 {
          Initialize();
        }
      } else {
        return Failure(WriteOutOfRange(addr));
      }
      return Success;
    }

    /** ClockChanged: at most one waveform step per call, the remainder kept. */
    method ClockChanged(cycles: nat) returns (s: Status)
      requires Valid()
      modifies this`frequencyCounter, this`waveState, this`wavePos
      ensures Valid() && s == Success
      ensures State() == old(State()).Advanced(cycles)
    {
      frequencyCounter := frequencyCounter + cycles;
      var waveRate := WaveRate(Frequency(nr23, nr24));
      if frequencyCounter >= waveRate {
        frequencyCounter := frequencyCounter - waveRate;
        waveState := DutyBit(Duty(nr21), wavePos);
        wavePos := (wavePos + 1) % 8;
      }
      return Success;
    }

    function Output(): (r: u8)
      reads this
      ensures r == State().Output()
    {
      if !(LengthLoad(nr21) > 0 && Dac(nr22)) || !waveState then 0 else volume
    }

    method Initialize()
      modifies this
      ensures State() == old(State()).Initialized() && Valid()
    {
      nr21 := WithLengthLoad(nr21, 63);
      frequencyCounter := 0;
      envelopeCounter := EnvelopePeriod(nr22);
      volume := EnvelopeVolume(nr22);
      wavePos := 0;
      waveState := false;
    }

    /** envelopeClock: while its counter is above 0, one envelope step; the counter is never reloaded. */
    method EnvelopeClock()
      requires Valid()
      modifies this`envelopeCounter, this`volume
      ensures Valid()
      ensures State() == old(State()).EnvelopeClocked()
    {
      if envelopeCounter == 0 {
        return;
      }
      envelopeCounter := envelopeCounter - 1;
      EnvelopeBounds(volume, EnvelopeRises(nr22));
      volume := Envelope(volume, EnvelopeRises(nr22));
    }

    /** lengthClock: with NR24 bit 6 set, the length counts down to 0 and stops there. */
    method LengthClock()
      requires Valid()
      modifies this`nr21
      ensures Valid()
      ensures State() == old(State()).LengthClocked()
    {
      if !LengthEnabled(nr24) {
        return;
      }
      var length := LengthLoad(nr21);
      if length == 0 {
        return;
      }
      nr21 := WithLengthLoad(nr21, length - 1);
    }
  }
}
