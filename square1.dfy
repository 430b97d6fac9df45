/**
 * audio/square1.go: sound channel 1, a square wave with a frequency sweep,
 * a volume envelope and a length counter, on NR10-NR14 (0xFF10-0xFF14).
 *
 * `Square1State` is the channel as a value, with the register-level
 * operations (initialize(), doSweepShift()) as functions on it; the class
 * holds the same fields and updates them in place.
 */
module Square1 {
  import opened Bits
  import opened Errors
  import opened Counters
  import opened Voice

  const AddrNR10: u16 := 0xFF10
  const AddrNR11: u16 := 0xFF11
  const AddrNR12: u16 := 0xFF12
  const AddrNR13: u16 := 0xFF13
  const AddrNR14: u16 := 0xFF14

  /** sweepPeriod(): `(nr10 << 1) >> 5` on a byte, bits 6-4. */
  function SweepPeriod(nr10: u8): (p: u8)
    ensures p < 8
  {
    ((nr10 * 2) % 0x100) / 0x20
  }

  /** sweepNegate(): bit 3. */
  predicate SweepNegate(nr10: u8) { (nr10 / 0x08) % 2 == 1 }

  /** sweepShift(): bits 2-0. */
  function SweepShift(nr10: u8): (s: nat)
    ensures s < 8
  {
    nr10 % 0x08
  }

  lemma SweepFields(nr10: u8)
    ensures SweepPeriod(nr10) == (nr10 / 0x10) % 8
    ensures SweepNegate(nr10) <==> Bit(nr10, 3)
  {
    Pow2Table();
  }

  /** The shadow frequency after one sweep calculation with a shift of at least 1 (Go's uint16 wraps). */
  function Swept(shadow: u16, nr10: u8): (r: u16)
  {
    var delta := Quotient(shadow, Pow2(SweepShift(nr10)));
    if SweepNegate(nr10) then shadow - delta else (shadow + delta) % 0x1_0000
  }

  /** Negation never raises the frequency; otherwise a frequency in range rises by shadow >> shift, without wrapping. */
  lemma SweptDirection(shadow: u16, nr10: u8)
    requires SweepShift(nr10) > 0
    ensures SweepNegate(nr10) ==> Swept(shadow, nr10) <= shadow
    ensures !SweepNegate(nr10) && shadow < 2048 ==>
              Swept(shadow, nr10) == shadow + Quotient(shadow, Pow2(SweepShift(nr10))) && shadow <= Swept(shadow, nr10) < 3072
  {
    var k := SweepShift(nr10);
    assert Pow2(k) >= 2 by {
      assert Pow2(k) == 2 * Pow2(k - 1);
    }
  }

  /**
   * setFrequency as the source writes it: NR13 takes `frequency & 0x000F`,
   * only four bits of the low byte; NR14 takes bits 10-8.
   */
  function SetFrequencyAsWritten(nr14: u8, f: u16): (r: (u8, u8))
  {
    (f % 0x10, (nr14 / 0x08) * 0x08 + (f / 0x100) % 8)
  }

  /**
   * What the channel reads back after that write: bits 10-8 and 3-0 of the
   * frequency, bits 7-4 cleared, and NR14's bits 7-3 kept. It reads back
   * unchanged exactly when bits 7-4 were already clear.
   */
  lemma SetFrequencyAsWrittenReadsBack(nr14: u8, f: u16)
    requires f < 2048
    ensures var r := SetFrequencyAsWritten(nr14, f);
            Frequency(r.0, r.1) == (f / 0x100) * 0x100 + f % 0x10 && r.1 / 0x08 == nr14 / 0x08 &&
            (Frequency(r.0, r.1) == f <==> (f % 0x100) / 0x10 == 0)
  {
  }

  /** setFrequency as intended: NR13 takes the whole low byte, NR14's bits 7-3 are kept. */
  function SetFrequency(nr14: u8, f: u16): (r: (u8, u8))
  {
    (f % 0x100, (nr14 / 0x08) * 0x08 + (f / 0x100) % 8)
  }

  /** Any 11-bit frequency written back reads back, and NR14's trigger, length and unused bits are kept. */
  lemma SetFrequencyRoundTrip(nr14: u8, f: u16)
    requires f < 2048
    ensures var r := SetFrequency(nr14, f); Frequency(r.0, r.1) == f && r.1 / 0x08 == nr14 / 0x08
  {
  }

  datatype Square1State = Square1State(
    nr10: u8, nr11: u8, nr12: u8, nr13: u8, nr14: u8,
    frequencyCounter: nat, envelopeCounter: u8, sweepCounter: u8,
    volume: u8, wavePos: u8, waveState: bool, freqShadow: u16)
  {
    predicate Valid() { volume < 16 && wavePos < 8 }

    /** enabled(): length left, shadow frequency in range, and the DAC on. */
    predicate Enabled()
    {
      LengthLoad(nr11) > 0 && freqShadow < 2048 && Dac(nr12)
    }

    /** output(): the volume while enabled and high, else 0. */
    function Output(): (r: u8)
      ensures Valid() ==> r < 16
      ensures r != 0 ==> Enabled() && waveState && r == volume
      ensures Enabled() && waveState ==> r == volume
    {
      if !Enabled() || !waveState then 0 else volume
    }

    /** doSweepShift(): with a shift, recompute the shadow and write it back to the registers when below 2048. */
    function SweepShifted(): (r: Square1State)
      ensures r == this.(freqShadow := r.freqShadow, nr13 := r.nr13, nr14 := r.nr14)
      ensures SweepShift(nr10) == 0 ==> r == this
      ensures SweepShift(nr10) > 0 ==> r.freqShadow == Swept(freqShadow, nr10)
      ensures r.freqShadow < 2048 && SweepShift(nr10) > 0 ==> (r.nr13, r.nr14) == SetFrequencyAsWritten(nr14, r.freqShadow)
      ensures r.freqShadow >= 2048 ==> r.nr13 == nr13 && r.nr14 == nr14
      ensures r.nr10 == nr10 && r.nr11 == nr11 && r.nr12 == nr12 && r.nr14 / 0x08 == nr14 / 0x08
      ensures r.Valid() == Valid()
    {
      if SweepShift(nr10) == 0 then this
      else
        var shadow := Swept(freqShadow, nr10);
        if shadow < 2048 then
          var (lo, hi) := SetFrequencyAsWritten(nr14, shadow);
          this.(freqShadow := shadow, nr13 := lo, nr14 := hi)
        else this.(freqShadow := shadow)
    }

    /** initialize(): the trigger. Length 63, counters and waveform restarted, volume from NR12, then one sweep calculation. */
    function Initialized(): (r: Square1State)
      ensures r.Valid()
      ensures LengthLoad(r.nr11) == 63 && Duty(r.nr11) == Duty(nr11)
      ensures r.frequencyCounter == 0 && r.wavePos == 0 && !r.waveState
      ensures r.envelopeCounter == EnvelopePeriod(nr12) && r.volume == EnvelopeVolume(nr12)
      ensures r.sweepCounter == SweepPeriod(nr10) && r.nr10 == nr10 && r.nr12 == nr12
      ensures r.freqShadow == if SweepShift(nr10) == 0 then Frequency(nr13, nr14) else Swept(Frequency(nr13, nr14), nr10)
    {
      var t := this.(nr11 := WithLengthLoad(nr11, 63), frequencyCounter := 0,
                     envelopeCounter := EnvelopePeriod(nr12), sweepCounter := SweepPeriod(nr10),
                     volume := EnvelopeVolume(nr12), wavePos := 0, waveState := false,
                     freqShadow := Frequency(nr13, nr14));
      assert t.Valid();
      t.SweepShifted()
    }

    /**
     * Write(): each register takes the byte and NR14 with bit 7 set also
     * triggers the channel; a write that does not trigger changes only the
     * registers, and one to any other address changes nothing.
     */
    function Write(addr: u16, d: u8): (r: (Square1State, Status))
      ensures r.1.Success? <==> AddrNR10 <= addr <= AddrNR14
      ensures r.1.Failure? ==> r.1.error == WriteOutOfRange(addr) && r.0 == this
      ensures Valid() ==> r.0.Valid()
      ensures addr == AddrNR14 && d / 0x80 == 1 ==> r.0 == this.(nr14 := d).Initialized()
      ensures !(addr == AddrNR14 && d / 0x80 == 1) ==>
                r.0 == this.(nr10 := r.0.nr10, nr11 := r.0.nr11, nr12 := r.0.nr12, nr13 := r.0.nr13, nr14 := r.0.nr14)
    {
      if addr == AddrNR10 then (this.(nr10 := d), Success)
      else if addr == AddrNR11 then (this.(nr11 := d), Success)
      else if addr == AddrNR12 then (this.(nr12 := d), Success)
      else if addr == AddrNR13 then (this.(nr13 := d), Success)
      else if addr == AddrNR14 then (if d / 0x80 == 1 then this.(nr14 := d).Initialized() else this.(nr14 := d), Success)
      else (this, Failure(WriteOutOfRange(addr)))
    }

    /** lengthClock(): with NR14 bit 6 set, a length above 0 counts down by one; nothing else changes. */
    function LengthClocked(): (r: Square1State)
      ensures r == this.(nr11 := r.nr11) && r.nr11 / 0x40 == nr11 / 0x40
      ensures LengthLoad(r.nr11) == if LengthEnabled(nr14) && LengthLoad(nr11) > 0 then LengthLoad(nr11) - 1 else LengthLoad(nr11)
    {
      if !LengthEnabled(nr14) || LengthLoad(nr11) == 0 then this
      else this.(nr11 := WithLengthLoad(nr11, LengthLoad(nr11) - 1))
    }

    /** envelopeClock(): while the envelope counter is above 0, count it down and step the volume; nothing else changes. */
    function EnvelopeClocked(): (r: Square1State)
      ensures r == this.(envelopeCounter := r.envelopeCounter, volume := r.volume)
      ensures envelopeCounter == 0 ==> r == this
      ensures envelopeCounter > 0 ==> r.envelopeCounter == envelopeCounter - 1 && r.volume == Envelope(volume, EnvelopeRises(nr12))
      ensures Valid() ==> r.Valid()
    {
      EnvelopeBounds(volume, EnvelopeRises(nr12));
      if envelopeCounter == 0 then this
      else this.(envelopeCounter := envelopeCounter - 1, volume := Envelope(volume, EnvelopeRises(nr12)))
    }

    /** sweepClock(): a sweep counter at 0 stays; otherwise it counts down, and on reaching 0 it reloads and runs doSweepShift(). */
    function SweepClocked(): (r: Square1State)
      ensures r == this.(sweepCounter := r.sweepCounter, freqShadow := r.freqShadow, nr13 := r.nr13, nr14 := r.nr14)
      ensures sweepCounter == 0 ==> r == this
      ensures sweepCounter > 1 ==> r == this.(sweepCounter := sweepCounter - 1)
      ensures sweepCounter == 1 ==> r == this.(sweepCounter := SweepPeriod(nr10)).SweepShifted()
      ensures r.Valid() == Valid()
    {
      if sweepCounter == 0 then this
      else if sweepCounter > 1 then this.(sweepCounter := sweepCounter - 1)
      else this.(sweepCounter := SweepPeriod(nr10)).SweepShifted()
    }

    /** ClockChanged(): add the cycles to the frequency counter and, when it reaches the period, take one waveform step; nothing else changes. */
    function Advanced(cycles: nat): (r: Square1State)
      ensures Valid() ==> r.Valid()
      ensures r == this.(frequencyCounter := r.frequencyCounter, waveState := r.waveState, wavePos := r.wavePos)
      ensures var (fired, rest) := Tick(frequencyCounter, cycles, WaveRate(Frequency(nr13, nr14)));
              r.frequencyCounter == rest &&
              (fired ==> r.waveState == DutyBit(Duty(nr11), wavePos) && r.wavePos == (wavePos + 1) % 8) &&
              (!fired ==> r.waveState == waveState && r.wavePos == wavePos)
    {
      var (fired, rest) := Tick(frequencyCounter, cycles, WaveRate(Frequency(nr13, nr14)));
      if fired then this.(frequencyCounter := rest, waveState := DutyBit(Duty(nr11), wavePos), wavePos := (wavePos + 1) % 8)
      else this.(frequencyCounter := rest)
    }
  }

  /**
   * A trigger with frequency 0x123 and sweep shift 1 (rising) computes the
   * shadow 0x1B4, but the registers are left holding 0x104: from then on the
   * channel steps at the rate of 0x104, not of the swept frequency.
   */
  lemma TriggerSweepLosesBits()
    ensures var r := Square1State(0x01, 0, 0, 0x23, 0x81, 0, 0, 0, 0, 0, false, 0).Initialized();
            r.freqShadow == 0x1B4 && r.nr13 == 0x04 && Frequency(r.nr13, r.nr14) == 0x104
  {
    var t := Square1State(0x01, 0, 0, 0x23, 0x81, 0, 0, 0, 0, 0, false, 0);
    assert Frequency(t.nr13, t.nr14) == 0x123;
    assert Quotient(0x123, Pow2(1)) == 0x91 by {
      assert Pow2(1) == 2 * Pow2(0);
    }
  }

  class Square1 {
    var nr10: u8
    var nr11: u8
    var nr12: u8
    var nr13: u8
    var nr14: u8
    var frequencyCounter: nat
    var envelopeCounter: u8
    var sweepCounter: u8
    var volume: u8
    var wavePos: u8
    var waveState: bool
    var freqShadow: u16

    function State(): Square1State
      reads this
    {
      Square1State(nr10, nr11, nr12, nr13, nr14, frequencyCounter, envelopeCounter, sweepCounter,
                   volume, wavePos, waveState, freqShadow)
    }

    ghost predicate Valid()
      reads this
    {
      State().Valid()
    }

    /** The zero channel NewAPU starts from, after initialize(). */
    constructor ()
      ensures Valid()
      ensures State() == Square1State(0, 0, 0, 0, 0, 0, 0, 0, 0, 0, false, 0).Initialized()
    {
      nr10, nr11, nr12, nr13, nr14 := 0, 0, 0, 0, 0;
      frequencyCounter, envelopeCounter, sweepCounter := 0, 0, 0;
      volume, wavePos, waveState, freqShadow := 0, 0, false, 0;
      new;
      Initialize();
    }

    function Read(addr: u16): (r: Result<u8>)
      reads this
      ensures r.Ok? <==> AddrNR10 <= addr <= AddrNR14
      ensures r.Err? ==> r.error == ReadOutOfRange(addr)
      ensures addr == AddrNR10 ==> r == Ok(nr10)
      ensures addr == AddrNR11 ==> r == Ok(nr11)
      ensures addr == AddrNR12 ==> r == Ok(nr12)
      ensures addr == AddrNR13 ==> r == Ok(nr13)
      ensures addr == AddrNR14 ==> r == Ok(nr14)
    {
      if addr == AddrNR10 then Ok(nr10)
      else if addr == AddrNR11 then Ok(nr11)
      else if addr == AddrNR12 then Ok(nr12)
      else if addr == AddrNR13 then Ok(nr13)
      else if addr == AddrNR14 then Ok(nr14)
      else Err(ReadOutOfRange(addr))
    }

    /** Every register takes the byte; only NR14 with bit 7 set also triggers the channel. */
    method Write(addr: u16, d: u8) returns (s: Status)
      requires Valid()
      modifies this
      ensures Valid()
      ensures s.Success? <==> AddrNR10 <= addr <= AddrNR14
      ensures s.Failure? ==> s.error == WriteOutOfRange(addr) && State() == old(State())
      ensures addr == AddrNR10 ==> State() == old(State()).(nr10 := d)
      ensures addr == AddrNR11 ==> State() == old(State()).(nr11 := d)
      ensures addr == AddrNR12 ==> State() == old(State()).(nr12 := d)
      ensures addr == AddrNR13 ==> State() == old(State()).(nr13 := d)
      ensures addr == AddrNR14 ==>
                State() == if d / 0x80 == 1 then old(State()).(nr14 := d).Initialized() else old(State()).(nr14 := d)
      ensures (State(), s) == old(State()).Write(addr, d)
    {
      if addr == AddrNR10 {
        nr10 := d;
      } else if addr == AddrNR11 {
        nr11 := d;
      } else if addr == AddrNR12 {
        nr12 := d;
      } else if addr == AddrNR13 {
        nr13 := d;
      } else if addr == AddrNR14 {
        nr14 := d;
        if d / 0x80 == 1 {
          Initialize();
        }
      } else {
        return Failure(WriteOutOfRange(addr));
      }
      return Success;
    }

    /** ClockChanged: at most one waveform step per call, the remainder kept. */
    method ClockChanged(cycles: nat) returns (s: Status)
      requires Valid()
      modifies this`frequencyCounter, this`waveState, this`wavePos
      ensures Valid() && s == Success
      ensures State() == old(State()).Advanced(cycles)
    {
      frequencyCounter := frequencyCounter + cycles;
      var waveRate := WaveRate(Frequency(nr13, nr14));
      if frequencyCounter >= waveRate {
        frequencyCounter := frequencyCounter - waveRate;
        waveState := DutyBit(Duty(nr11), wavePos);
        wavePos := (wavePos + 1) % 8;
      }
      return Success;
    }

    function Output(): (r: u8)
      reads this
      ensures r == State().Output()
    {
      if !(LengthLoad(nr11) > 0 && freqShadow < 2048 && Dac(nr12)) || !waveState then 0 else volume
    }

    method Initialize()
      requires Valid()
      modifies this
      ensures State() == old(State()).Initialized() && Valid()
    {
      nr11 := WithLengthLoad(nr11, 63);
      frequencyCounter := 0;
      envelopeCounter := EnvelopePeriod(nr12);
      sweepCounter := SweepPeriod(nr10);
      volume := EnvelopeVolume(nr12);
      wavePos := 0;
      waveState := false;
      freqShadow := Frequency(nr13, nr14);
      DoSweepShift();
    }

    method DoSweepShift()
      requires Valid()
      modifies this`freqShadow, this`nr13, this`nr14
      ensures State() == old(State()).SweepShifted() && Valid()
    {
      var shift := SweepShift(nr10);
      if shift == 0 {
        return;
      }
      freqShadow := Swept(freqShadow, nr10);
      if freqShadow < 2048 {
        nr13, nr14 := SetFrequencyAsWritten(nr14, freqShadow).0, SetFrequencyAsWritten(nr14, freqShadow).1;
      }
    }

    /** sweepClock: count the sweep period down; on reaching 0, reload it and recompute. A counter at 0 stays there. */
    method SweepClock()
      requires Valid()
      modifies this`sweepCounter, this`freqShadow, this`nr13, this`nr14
      ensures Valid()
      ensures State() == old(State()).SweepClocked()
    {
      if sweepCounter == 0 {
        return;
      }
      sweepCounter := sweepCounter - 1;
      if sweepCounter > 0 {
        return;
      }
      sweepCounter := SweepPeriod(nr10);
      DoSweepShift();
    }

    /** envelopeClock: while its counter is above 0, one envelope step; the counter is never reloaded. */
    method EnvelopeClock()
      requires Valid()
      modifies this`envelopeCounter, this`volume
      ensures Valid()
      ensures State() == old(State()).EnvelopeClocked()
    {
      if envelopeCounter == 0 {
        return;
      }
      envelopeCounter := envelopeCounter - 1;
      EnvelopeBounds(volume, EnvelopeRises(nr12));
      volume := Envelope(volume, EnvelopeRises(nr12));
    }

    /** lengthClock: with NR14 bit 6 set, the length counts down to 0 and stops there. */
    method LengthClock()
      requires Valid()
      modifies this`nr11
      ensures Valid()
      ensures State() == old(State()).LengthClocked()
    {
      if !LengthEnabled(nr14) {
        return;
      }
      var length := LengthLoad(nr11);
      if length == 0 {
        return;
      }
      nr11 := WithLengthLoad(nr11, length - 1);
    }
  }
}
