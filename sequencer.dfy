/**
 * audio/framesequencer.go: the low-frequency clocks of the sound channels.
 * Three counters run on the CPU's cycles: every 32768 cycles channel 1's
 * sweep is clocked, every 16384 the four length counters, and every 65536 the
 * envelopes of channels 1, 2 and 4, in that order within one call.
 */
module Sequencer {
  import opened Bits
  import opened Errors
  import opened Counters
  import opened Voice
  import opened Square1
  import opened Square2
  import opened Wave
  import opened Noise

  const LengthRate: nat := 16384
  const EnvelopeRate: nat := 65536
  const SweepRate: nat := 32768

  /** The four channels' states together. */
  datatype Voices = Voices(c1: Square1State, c2: Square2State, c3: WaveState, c4: NoiseState)
  {
    predicate Valid() { c1.Valid() && c2.Valid() && c3.Valid() && c4.Valid() }

    /** The four channels after their own ClockChanged: each waveform one step at most, nothing else changed. */
    function Advanced(cycles: nat, frequency: nat): (r: Voices)
      ensures Valid() ==> r.Valid()
      ensures SameModulation(this, r)
    {
      Voices(c1.Advanced(cycles), c2.Advanced(cycles), c3.Advanced(cycles), c4.Advanced(cycles, frequency))
    }

    /** The 128 Hz clock: channel 1's sweep. */
    function SweepClocked(): (r: Voices)
      ensures Valid() ==> r.Valid()
      ensures SameWaveforms(this, r) && r == this.(c1 := r.c1)
    {
      this.(c1 := c1.SweepClocked())
    }

    /** The 256 Hz clock: all four length counters. */
    function LengthClocked(): (r: Voices)
      ensures Valid() ==> r.Valid()
      ensures SameWaveforms(this, r)
      ensures Duty(r.c1.nr11) == Duty(c1.nr11) && Duty(r.c2.nr21) == Duty(c2.nr21)
    {
      Voices(c1.LengthClocked(), c2.LengthClocked(), c3.LengthClocked(), c4.LengthClocked())
    }

    /** The 64 Hz clock: the envelopes of channels 1, 2 and 4; channel 3 has none. */
    function EnvelopeClocked(): (r: Voices)
      ensures Valid() ==> r.Valid()
      ensures SameWaveforms(this, r) && r.c3 == c3
    {
      Voices(c1.EnvelopeClocked(), c2.EnvelopeClocked(), c3, c4.EnvelopeClocked())
    }

    /** The frame sequencer's ClockChanged with the given clocks fired: sweep, then length, then envelope. */
    function Sequenced(sweep: bool, length: bool, envelope: bool): (r: Voices)
      ensures Valid() ==> r.Valid()
      ensures SameWaveforms(this, r)
      ensures !sweep && !length && !envelope ==> r == this
      ensures !envelope ==> r.c1.volume == c1.volume && r.c2.volume == c2.volume && r.c4.volume == c4.volume
      ensures !length ==> r.c1.nr11 == c1.nr11 && r.c2.nr21 == c2.nr21 && r.c3.nr31 == c3.nr31 && r.c4.nr41 == c4.nr41
      ensures r.c3 == c3.(nr31 := r.c3.nr31)
    {
      var a := if sweep then SweepClocked() else this;
      var b := if length then a.LengthClocked() else a;
      if envelope then b.EnvelopeClocked() else b
    }
  }

  /** The waveform state (frequency counter, position, level, shift register) is the same in both. */
  predicate SameWaveforms(a: Voices, b: Voices)
  {
    a.c1.frequencyCounter == b.c1.frequencyCounter && a.c1.wavePos == b.c1.wavePos && a.c1.waveState == b.c1.waveState &&
    a.c2.frequencyCounter == b.c2.frequencyCounter && a.c2.wavePos == b.c2.wavePos && a.c2.waveState == b.c2.waveState &&
    a.c3.frequencyCounter == b.c3.frequencyCounter && a.c3.wavePos == b.c3.wavePos &&
    a.c4.frequencyCounter == b.c4.frequencyCounter && a.c4.lfsr == b.c4.lfsr && a.c4.waveState == b.c4.waveState
  }

  /** Everything but the waveform state is the same in both. */
  predicate SameModulation(a: Voices, b: Voices)
  {
    b.c1 == a.c1.(frequencyCounter := b.c1.frequencyCounter, wavePos := b.c1.wavePos, waveState := b.c1.waveState) &&
    b.c2 == a.c2.(frequencyCounter := b.c2.frequencyCounter, wavePos := b.c2.wavePos, waveState := b.c2.waveState) &&
    b.c3 == a.c3.(frequencyCounter := b.c3.frequencyCounter, wavePos := b.c3.wavePos) &&
    b.c4 == a.c4.(frequencyCounter := b.c4.frequencyCounter, lfsr := b.c4.lfsr, waveState := b.c4.waveState)
  }

  /** n length clocks in a row on channel 2. */
  function Square2Lengths(s: Square2State, n: nat): (r: Square2State)
  {
    if n == 0 then s else Square2Lengths(s, n - 1).LengthClocked()
  }

  /** With NR24 bit 6 set, the length field counts down to 0 and stays there, so the channel falls silent after that many clocks. */
  lemma {:induction false} Square2LengthSilences(s: Square2State, n: nat)
    requires LengthEnabled(s.nr24)
    ensures LengthLoad(Square2Lengths(s, n).nr21) == if n < LengthLoad(s.nr21) then LengthLoad(s.nr21) - n else 0
    ensures Square2Lengths(s, n) == s.(nr21 := Square2Lengths(s, n).nr21)
    ensures n >= LengthLoad(s.nr21) ==> !Square2Lengths(s, n).Enabled() && Square2Lengths(s, n).Output() == 0
  {
    if n > 0 {
      Square2LengthSilences(s, n - 1);
    }
  }

  /** Without NR24 bit 6, length clocks change nothing. */
  lemma {:induction false} Square2LengthDisabled(s: Square2State, n: nat)
    requires !LengthEnabled(s.nr24)
    ensures Square2Lengths(s, n) == s
  {
    if n > 0 {
      Square2LengthDisabled(s, n - 1);
    }
  }

  /** n length clocks in a row on channel 3. */
  function WaveLengths(s: WaveState, n: nat): (r: WaveState)
  {
    if n == 0 then s else WaveLengths(s, n - 1).LengthClocked()
  }

  /** With NR34 bit 6 set, NR31 counts down to 0 and stays there, and the channel then plays nothing. */
  lemma {:induction false} WaveLengthSilences(s: WaveState, n: nat)
    requires LengthEnabled(s.nr34)
    ensures WaveLengths(s, n).nr31 == if n < s.nr31 then s.nr31 - n else 0
    ensures WaveLengths(s, n) == s.(nr31 := WaveLengths(s, n).nr31)
    ensures n >= s.nr31 ==> !WaveLengths(s, n).Enabled()
  {
    if n > 0 {
      WaveLengthSilences(s, n - 1);
    }
  }

  class FrameSequencer {
    var sweepCounter: nat
    var envelopeCounter: nat
    var lengthCounter: nat
    const ch1: Square1
    const ch2: Square2
    const ch3: Wave
    const ch4: Noise

    function Channels(): Voices
      reads ch1, ch2, ch3, ch4
    {
      Voices(ch1.State(), ch2.State(), ch3.State(), ch4.State())
    }

    ghost predicate Valid()
      reads this, ch1, ch2, ch3, ch4
    {
      Channels().Valid()
    }

    /** The sequencer NewAPU builds over its four channels, with its counters at 0. */
    constructor (ch1: Square1, ch2: Square2, ch3: Wave, ch4: Noise)
      requires ch1.Valid() && ch2.Valid() && ch3.Valid() && ch4.Valid()
      ensures Valid()
      ensures this.ch1 == ch1 && this.ch2 == ch2 && this.ch3 == ch3 && this.ch4 == ch4
      ensures sweepCounter == 0 && envelopeCounter == 0 && lengthCounter == 0
    {
      this.ch1, this.ch2, this.ch3, this.ch4 := ch1, ch2, ch3, ch4;
      sweepCounter, envelopeCounter, lengthCounter := 0, 0, 0;
    }

    /** ClockChanged: add the cycles to all three counters, then clock sweep, length and envelope in that order, each when its counter fired. */
    method ClockChanged(cycles: nat) returns (s: Status)
      requires Valid()
      modifies this, ch1, ch2, ch3, ch4
      ensures Valid() && s == Success
      ensures sweepCounter == Tick(old(sweepCounter), cycles, SweepRate).1
      ensures lengthCounter == Tick(old(lengthCounter), cycles, LengthRate).1
      ensures envelopeCounter == Tick(old(envelopeCounter), cycles, EnvelopeRate).1
      ensures Channels() == old(Channels()).Sequenced(
                Tick(old(sweepCounter), cycles, SweepRate).0,
                Tick(old(lengthCounter), cycles, LengthRate).0,
                Tick(old(envelopeCounter), cycles, EnvelopeRate).0)
    {
      sweepCounter := sweepCounter + cycles;
      envelopeCounter := envelopeCounter + cycles;
      lengthCounter := lengthCounter + cycles;

      if sweepCounter >= SweepRate {
        sweepCounter := sweepCounter - SweepRate;
        ch1.SweepClock();
      }

      if lengthCounter >= LengthRate {
        lengthCounter := lengthCounter - LengthRate;
        LengthClocks();
      }

      if envelopeCounter >= EnvelopeRate {
        envelopeCounter := envelopeCounter - EnvelopeRate;
        EnvelopeClocks();
      }
      return Success;
    }

    /** The four lengthClock calls of ClockChanged. */
    method LengthClocks()
      requires Valid()
      modifies ch1, ch2, ch3, ch4
      ensures Valid() && Channels() == old(Channels()).LengthClocked()
    {
      ch1.LengthClock();
      ch2.LengthClock();
      ch3.LengthClock();
      ch4.LengthClock();
    }

    /** The three envelopeClock calls of ClockChanged. */
    method EnvelopeClocks()
      requires Valid()
      modifies ch1, ch2, ch4
      ensures Valid() && Channels() == old(Channels()).EnvelopeClocked()
    {
      ch1.EnvelopeClock();
      ch2.EnvelopeClock();
      ch4.EnvelopeClock();
    }
  }
}
