/**
 * audio/noise.go: sound channel 4, pseudo-random noise from a linear
 * feedback shift register, with a volume envelope and a length counter, on
 * NR41-NR44 (0xFF20-0xFF23). The CPU clock frequency (`cpu.Frequency`) is a
 * constructor parameter.
 */
module Noise {
  import opened Bits
  import opened Errors
  import opened Counters
  import opened Voice

  const AddrNR41: u16 := 0xFF20
  const AddrNR42: u16 := 0xFF21
  const AddrNR43: u16 := 0xFF22
  const AddrNR44: u16 := 0xFF23

  /** divisor(): NR43 bits 2-0. */
  function Divisor(nr43: u8): (r: nat)
    ensures r < 8
  {
    nr43 % 0x08
  }

  /** narrowLSFR(): NR43 bit 3, the 7-bit register. */
  predicate Narrow(nr43: u8) { (nr43 / 0x08) % 2 == 1 }

  /** clockShift(): NR43 bits 7-4. */
  function ClockShift(nr43: u8): (r: nat)
    ensures r < 16
  {
    nr43 / 0x10
  }

  /** waveRate(): with f = frequency / 8, (2f for divisor 0, else f / divisor) >> (shift + 1). */
  function NoiseRate(nr43: u8, frequency: nat): nat
  {
    var f: nat := frequency / 8;
    var r := Divisor(nr43);
    var q: nat := if r == 0 then f * 2 else f / r;
    Quotient(q, Pow2(ClockShift(nr43) + 1))
  }

  /** Each step up of the clock shift halves the period (rounding down). */
  lemma NoiseRateHalves(nr43: u8, frequency: nat)
    requires ClockShift(nr43) < 15
    ensures NoiseRate(nr43 + 0x10, frequency) == NoiseRate(nr43, frequency) / 2
  {
    var f := frequency / 8;
    var r := Divisor(nr43);
    assert Divisor(nr43 + 0x10) == r;
    var q := if r == 0 then f * 2 else f / r;
    var k := ClockShift(nr43) + 1;
    assert ClockShift(nr43 + 0x10) + 1 == k + 1;
    assert Pow2(k + 1) == 2 * Pow2(k);
    DivHalf(q, Pow2(k));
    assert q / (2 * Pow2(k)) == (q / 2) / Pow2(k);
    DivSwap(q, 2, Pow2(k));
  }

  /** `(q / a) / b == (q / b) / a`. */
  lemma DivSwap(q: nat, a: nat, b: nat)
    requires a > 0 && b > 0
    ensures (q / a) / b == (q / b) / a
  {
    DivDiv(q, a, b);
    DivDiv(q, b, a);
    assert a * b == b * a;
  }

  /** `(q / a) / b == q / (a b)`. */
  lemma DivDiv(q: nat, a: nat, b: nat)
    requires a > 0 && b > 0
    ensures (q / a) / b == q / (a * b)
  {
    var x, y := q / a, (q / a) / b;
    var r1, r2 := q % a, x % b;
    assert q == y * (a * b) + (r2 * a + r1) by {
      assert q == x * a + r1;
      assert x == y * b + r2;
      assert x * a == y * (a * b) + r2 * a;
    }
    assert r2 * a + r1 < a * b by {
      MulLess(r2, b, a);
      assert b * a == a * b;
    }
    DivUnique(q, a * b, y, r2 * a + r1);
  }

  /** One LFSR step: x = bit 0 XOR bit 1, shift right, then x into bit 14 over bits 13-0, or into bit 6 over bits 5-0 in narrow mode. */
  function LfsrStep(lfsr: u16, narrow: bool): (r: u16)
  {
    var x := if lfsr % 2 != (lfsr / 2) % 2 then 1 else 0;
    var shifted := lfsr / 2;
    if narrow then shifted % 0x40 + x * 0x40 else shifted % 0x4000 + x * 0x4000
  }

  /** The step's bits: everything moves down one, the feedback bit enters at the top, and nothing is left above it. */
  lemma LfsrStepBits(lfsr: u16, narrow: bool, i: nat)
    ensures var top := if narrow then 6 else 14;
            Bit(LfsrStep(lfsr, narrow), i) <==>
              if i < top then Bit(lfsr, i + 1)
              else i == top && (Bit(lfsr, 0) != Bit(lfsr, 1))
  {
    var x := if lfsr % 2 != (lfsr / 2) % 2 then 1 else 0;
    var top := if narrow then 6 else 14;
    Pow2Table();
    assert Pow2(14) == 0x4000 by {
      Pow2Add(7, 7);
    }
    PlaceBit(lfsr / 2, x, top, i);
    BitHalf(lfsr, i);
    BitHalf(lfsr, 0);
  }

  datatype NoiseState = NoiseState(
    nr41: u8, nr42: u8, nr43: u8, nr44: u8,
    frequencyCounter: nat, envelopeCounter: u8, volume: u8, waveState: bool, lfsr: u16)
  {
    predicate Valid() { volume < 16 }

    /** enabled(): length left and the DAC on. */
    predicate Enabled()
    {
      LengthLoad(nr41) > 0 && Dac(nr42)
    }

    /** output(): the volume while enabled and high, else 0. */
    function Output(): (r: u8)
      ensures Valid() ==> r < 16
      ensures r != 0 ==> Enabled() && waveState && r == volume
      ensures Enabled() && waveState ==> r == volume
    {
      if !Enabled() || !waveState then 0 else volume
    }

    /** trigger(): length 63, counter restarted, envelope loaded, output low; the LFSR is left as it is. */
    function Triggered(): (r: NoiseState)
      ensures r.Valid() && r.lfsr == lfsr
      ensures LengthLoad(r.nr41) == 63 && r.nr41 / 0x40 == nr41 / 0x40
      ensures r.frequencyCounter == 0 && !r.waveState
      ensures r.envelopeCounter == EnvelopePeriod(nr42) && r.volume == EnvelopeVolume(nr42)
      ensures r.nr42 == nr42 && r.nr43 == nr43 && r.nr44 == nr44
    {
      this.(nr41 := WithLengthLoad(nr41, 63), frequencyCounter := 0,
            envelopeCounter := EnvelopePeriod(nr42), volume := EnvelopeVolume(nr42), waveState := false)
    }

    /** initialize(): every LFSR bit set, then trigger(). */
    function Initialized(): (r: NoiseState)
      ensures r.lfsr == 0xFFFF && r == this.(lfsr := 0xFFFF).Triggered()
    {
      this.(lfsr := 0xFFFF).Triggered()
    }

    /**
     * Write(): each register takes the byte and NR44 with bit 7 set also
     * triggers the channel, LFSR kept; a write that does not trigger changes
     * only the registers, and one to any other address changes nothing.
     */
    function Write(addr: u16, d: u8): (r: (NoiseState, Status))
      ensures r.1.Success? <==> AddrNR41 <= addr <= AddrNR44
      ensures r.1.Failure? ==> r.1.error == WriteOutOfRange(addr) && r.0 == this
      ensures Valid() ==> r.0.Valid()
      ensures r.0.lfsr == lfsr
      ensures addr == AddrNR44 && d / 0x80 == 1 ==> r.0 == this.(nr44 := d).Triggered()
      ensures !(addr == AddrNR44 && d / 0x80 == 1) ==>
                r.0 == this.(nr41 := r.0.nr41, nr42 := r.0.nr42, nr43 := r.0.nr43, nr44 := r.0.nr44)
    {
      if addr == AddrNR41 then (this.(nr41 := d), Success)
      else if addr == AddrNR42 then (this.(nr42 := d), Success)
      else if addr == AddrNR43 then (this.(nr43 := d), Success)
      else if addr == AddrNR44 then (if d / 0x80 == 1 then this.(nr44 := d).Triggered() else this.(nr44 := d), Success)
      else (this, Failure(WriteOutOfRange(addr)))
    }

    /** lengthClock(): with NR44 bit 6 set, a length above 0 counts down by one; nothing else changes. */
    function LengthClocked(): (r: NoiseState)
      ensures r == this.(nr41 := r.nr41) && r.nr41 / 0x40 == nr41 / 0x40
      ensures LengthLoad(r.nr41) == if LengthEnabled(nr44) && LengthLoad(nr41) > 0 then LengthLoad(nr41) - 1 else LengthLoad(nr41)
    {
      if !LengthEnabled(nr44) || LengthLoad(nr41) == 0 then this
      else this.(nr41 := WithLengthLoad(nr41, LengthLoad(nr41) - 1))
    }

    /** envelopeClock(): while the envelope counter is above 0, count it down and step the volume; nothing else changes. */
    function EnvelopeClocked(): (r: NoiseState)
      ensures r == this.(envelopeCounter := r.envelopeCounter, volume := r.volume)
      ensures envelopeCounter == 0 ==> r == this
      ensures envelopeCounter > 0 ==> r.envelopeCounter == envelopeCounter - 1 && r.volume == Envelope(volume, EnvelopeRises(nr42))
      ensures Valid() ==> r.Valid()
    {
      EnvelopeBounds(volume, EnvelopeRises(nr42));
      if envelopeCounter == 0 then this
      else this.(envelopeCounter := envelopeCounter - 1, volume := Envelope(volume, EnvelopeRises(nr42)))
    }

    /** ClockChanged(): add the cycles to the frequency counter and, when it reaches the period, take one waveform step; nothing else changes. */
    function Advanced(cycles: nat, frequency: nat): (r: NoiseState)
      ensures Valid() ==> r.Valid()
      ensures r == this.(frequencyCounter := r.frequencyCounter, lfsr := r.lfsr, waveState := r.waveState)
      ensures var (fired, rest) := Tick(frequencyCounter, cycles, NoiseRate(nr43, frequency));
              r.frequencyCounter == rest &&
              (fired ==> r.lfsr == LfsrStep(lfsr, Narrow(nr43)) && r.waveState == (r.lfsr % 2 == 0)) &&
              (!fired ==> r.lfsr == lfsr && r.waveState == waveState)
    {
      var (fired, rest) := Tick(frequencyCounter, cycles, NoiseRate(nr43, frequency));
      if fired then
        var l := LfsrStep(lfsr, Narrow(nr43));
        this.(frequencyCounter := rest, lfsr := l, waveState := l % 2 == 0)
      else this.(frequencyCounter := rest)
    }
  }

  class Noise {
    var nr41: u8
    var nr42: u8
    var nr43: u8
    var nr44: u8
    var frequencyCounter: nat
    var envelopeCounter: u8
    var volume: u8
    var waveState: bool
    var lfsr: u16
    /** cpu.Frequency: CPU cycles per second. */
    const frequency: nat

    function State(): NoiseState
      reads this
    {
      NoiseState(nr41, nr42, nr43, nr44, frequencyCounter, envelopeCounter, volume, waveState, lfsr)
    }

    ghost predicate Valid()
      reads this
    {
      State().Valid()
    }

    /** The zero channel NewAPU starts from, after initialize(). */
    constructor (frequency: nat)
      ensures Valid() && this.frequency == frequency
      ensures State() == NoiseState(0, 0, 0, 0, 0, 0, 0, false, 0).Initialized()
    {
      this.frequency := frequency;
      nr41, nr42, nr43, nr44 := 0, 0, 0, 0;
      frequencyCounter, envelopeCounter, volume, waveState := 0, 0, 0, false;
      lfsr := 0xFFFF;
      new;
      Trigger();
    }

    function Read(addr: u16): (r: Result<u8>)
      reads this
      ensures r.Ok? <==> AddrNR41 <= addr <= AddrNR44
      ensures r.Err? ==> r.error == ReadOutOfRange(addr)
      ensures addr == AddrNR41 ==> r == Ok(nr41)
      ensures addr == AddrNR42 ==> r == Ok(nr42)
      ensures addr == AddrNR43 ==> r == Ok(nr43)
      ensures addr == AddrNR44 ==> r == Ok(nr44)
    {
      if addr == AddrNR41 then Ok(nr41)
      else if addr == AddrNR42 then Ok(nr42)
      else if addr == AddrNR43 then Ok(nr43)
      else if addr == AddrNR44 then Ok(nr44)
      else Err(ReadOutOfRange(addr))
    }

    /** Every register takes the byte; NR44 with bit 7 set also triggers the channel, without resetting the LFSR. */
    method Write(addr: u16, d: u8) returns (s: Status)
      requires Valid()
      modifies this
      ensures Valid()
      ensures s.Success? <==> AddrNR41 <= addr <= AddrNR44
      ensures s.Failure? ==> s.error == WriteOutOfRange(addr) && State() == old(State())
      ensures addr == AddrNR41 ==> State() == old(State()).(nr41 := d)
      ensures addr == AddrNR42 ==> State() == old(State()).(nr42 := d)
      ensures addr == AddrNR43 ==> State() == old(State()).(nr43 := d)
      ensures addr == AddrNR44 ==>
                State() == if d / 0x80 == 1 then old(State()).(nr44 := d).Triggered() else old(State()).(nr44 := d)
      ensures lfsr == old(lfsr)
      ensures (State(), s) == old(State()).Write(addr, d)
    {
      if addr == AddrNR41 {
        nr41 := d;
      } else if addr == AddrNR42 {
        nr42 := d;
      } else if addr == AddrNR43 {
        nr43 := d;
      } else if addr == AddrNR44 {
        nr44 := d;
        if d / 0x80 == 1 {
          Trigger();
        }
      } else {
        return Failure(WriteOutOfRange(addr));
      }
      return Success;
    }

    /** ClockChanged: at most one LFSR step per call, the remainder kept; the output is high when the new bit 0 is 0. */
    method ClockChanged(cycles: nat) returns (s: Status)
      requires Valid()
      modifies this`frequencyCounter, this`lfsr, this`waveState
      ensures Valid() && s == Success
      ensures State() == old(State()).Advanced(cycles, frequency)
    {
      frequencyCounter := frequencyCounter + cycles;
      var waveRate := NoiseRate(nr43, frequency);
      if frequencyCounter >= waveRate {
        frequencyCounter := frequencyCounter - waveRate;
        var x := if lfsr % 2 != (lfsr / 2) % 2 then 1 else 0;
        lfsr := lfsr / 2;
        if Narrow(nr43) {
          lfsr := lfsr % 0x40 + x * 0x40;
        } else {
          lfsr := lfsr % 0x4000 + x * 0x4000;
        }
        waveState := lfsr % 2 == 0;
      }
      return Success;
    }

    function Output(): (r: u8)
      reads this
      ensures r == State().Output()
    {
      if !(LengthLoad(nr41) > 0 && Dac(nr42)) || !waveState then 0 else volume
    }

    method Trigger()
      modifies this`nr41, this`frequencyCounter, this`envelopeCounter, this`volume, this`waveState
      ensures State() == old(State()).Triggered() && Valid()
    {
      nr41 := WithLengthLoad(nr41, 63);
      frequencyCounter := 0;
      envelopeCounter := EnvelopePeriod(nr42);
      volume := EnvelopeVolume(nr42);
      waveState := false;
    }

    /** envelopeClock: while its counter is above 0, one envelope step; the counter is never reloaded. */
    method EnvelopeClock()
      requires Valid()
      modifies this`envelopeCounter, this`volume
      ensures Valid()
      ensures State() == old(State()).EnvelopeClocked()
    {
      if envelopeCounter == 0 {
        return;
      }
      envelopeCounter := envelopeCounter - 1;
      EnvelopeBounds(volume, EnvelopeRises(nr42));
      volume := Envelope(volume, EnvelopeRises(nr42));
    }

    /** lengthClock: with NR44 bit 6 set, the length counts down to 0 and stops there. */
    method LengthClock()
      requires Valid()
      modifies this`nr41
      ensures Valid()
      ensures State() == old(State()).LengthClocked()
    {
      if !LengthEnabled(nr44) {
        return;
      }
      var length := LengthLoad(nr41);
      if length == 0 {
        return;
      }
      nr41 := WithLengthLoad(nr41, length - 1);
    }
  }
}
