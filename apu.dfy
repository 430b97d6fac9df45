/**
 * audio/apu.go: the sound chip. On every clock change it advances the four
 * channels and the frame sequencer, adjusts its sampling period to how full
 * the sink's buffer is, and emits one (left, right) byte pair per period.
 *
 * The audio sink (`Audioer`) is not modelled as code: its sampling frequency
 * and buffer size are constants of the APU, the number of samples waiting in
 * it is a parameter of ClockChanged, and `queued` is every byte handed to
 * its Queue, in order.
 */
module Apu {
  import opened Bits
  import opened Errors
  import opened Counters
  import opened Voice
  import opened Square1
  import opened Square2
  import opened Wave
  import opened Noise
  import opened Control
  import opened Sequencer

  /** The throttle moves between these bounds. */
  const ThrottleMin: int := -10
  const ThrottleMax: int := 0

  /**
   * The throttle step: one down (a shorter sampling period, more samples)
   * while the sink holds less than three quarters of its buffer and the
   * throttle is above -10, one up while the buffer is full and the throttle is
   * below -5. `3 * bufferSize` is 16-bit arithmetic and wraps.
   */
  function Throttled(throttle: int, samplesCount: nat, bufferSize: u16): (r: int)
    ensures ThrottleMin <= throttle <= ThrottleMax ==> ThrottleMin <= r <= ThrottleMax
    ensures throttle - 1 <= r <= throttle + 1
    ensures r < throttle <==> samplesCount < ((3 * bufferSize) % 0x10000) / 4 && throttle > -10
    ensures r > throttle <==>
              !(samplesCount < ((3 * bufferSize) % 0x10000) / 4 && throttle > -10) &&
              samplesCount == bufferSize && throttle < -5
  {
    if samplesCount < ((3 * bufferSize) % 0x10000) / 4 && throttle > -10 then throttle - 1
    else if samplesCount == bufferSize && throttle < -5 then throttle + 1
    else throttle
  }

  /** An empty sink keeps lowering the throttle to its floor: after k steps from t it is max(t - k, -10). */
  function ThrottledTimes(throttle: int, bufferSize: u16, k: nat): int
  {
    if k == 0 then throttle else Throttled(ThrottledTimes(throttle, bufferSize, k - 1), 0, bufferSize)
  }

  lemma {:induction false} EmptySinkThrottlesDown(throttle: int, bufferSize: u16, k: nat)
    requires ThrottleMin <= throttle <= ThrottleMax && 4 <= bufferSize <= 0x5555
    ensures ThrottledTimes(throttle, bufferSize, k) == if throttle - k > -10 then throttle - k else -10
  {
    if k > 0 {
      EmptySinkThrottlesDown(throttle, bufferSize, k - 1);
    }
  }

  /** `channels & mask != 0`: the channel's output on this side, else 0. */
  function Pick(output: u8, channels: u8, mask: u8): u8
  {
    if And8(channels, mask) != 0 then output else 0
  }

  /** One side of a sample: the selected channels' outputs plus the side's volume, as a byte. */
  function Side(o1: u8, o2: u8, o3: u8, o4: u8, channels: u8, volume: u8): u8
  {
    (Pick(o1, channels, Channel1) + Pick(o2, channels, Channel2)
     + Pick(o3, channels, Channel3) + Pick(o4, channels, Channel4) + volume) % 0x100
  }

  /** The (left, right) pair emitted for the given channel outputs: (0, 0) while the sound is off. */
  function Mix(c: ControlState, o1: u8, o2: u8, o3: u8, o4: u8): (r: (u8, u8))
    ensures !SoundOn(c.nr52) ==> r == (0, 0)
  {
    if SoundOn(c.nr52) then
      (Side(o1, o2, o3, o4, LeftChannels(c.nr51), LeftVolume(c.nr50)),
       Side(o1, o2, o3, o4, RightChannels(c.nr51), RightVolume(c.nr50)))
    else (0, 0)
  }

  /** `x & 2^k` is nonzero exactly when bit k of x is set. */
  lemma {:induction false} MaskBit(x: u8, k: nat)
    requires k < 8
    ensures AndN(x, Pow2(k)) != 0 <==> Bit(x, k)
  {
    var m := AndN(x, Pow2(k));
    assert m <= x;
    forall i | 0 <= i < 8
      ensures Bit(m, i) <==> i == k && Bit(x, k)
    {
      AndBit(x, Pow2(k), i);
      Pow2Bit(k, i);
    }
    ZeroIffNoBit(m);
    if Bit(x, k) {
      assert Bit(m, k);
    }
  }

  /** The masks channel1..channel4 test bits 0..3 of a side's nibble. */
  lemma ChannelMasks(channels: u8)
    ensures And8(channels, Channel1) != 0 <==> Bit(channels, 0)
    ensures And8(channels, Channel2) != 0 <==> Bit(channels, 1)
    ensures And8(channels, Channel3) != 0 <==> Bit(channels, 2)
    ensures And8(channels, Channel4) != 0 <==> Bit(channels, 3)
  {
    Pow2Table();
    MaskBit(channels, 0);
    MaskBit(channels, 1);
    MaskBit(channels, 2);
    MaskBit(channels, 3);
  }

  /** With four outputs at most 15 and a volume at most 7 the byte sum never wraps: a side is the plain sum of the channels its bits select, plus the volume. */
  lemma SideSum(o1: u8, o2: u8, o3: u8, o4: u8, channels: u8, volume: u8)
    requires o1 < 16 && o2 < 16 && o3 < 16 && o4 < 16 && volume < 8
    ensures Side(o1, o2, o3, o4, channels, volume) ==
              (if Bit(channels, 0) then o1 else 0) + (if Bit(channels, 1) then o2 else 0)
              + (if Bit(channels, 2) then o3 else 0) + (if Bit(channels, 3) then o4 else 0) + volume
    ensures Side(o1, o2, o3, o4, channels, volume) < 0x48
  {
    ChannelMasks(channels);
    var sum := Pick(o1, channels, Channel1) + Pick(o2, channels, Channel2)
               + Pick(o3, channels, Channel3) + Pick(o4, channels, Channel4) + volume;
    assert sum < 0x48;
    assert Side(o1, o2, o3, o4, channels, volume) == sum;
  }

  /** The number of whole sampling periods in `total` cycles. */
  function Periods(total: nat, period: nat): (n: nat)
    requires period >= 1
  {
    total / period
  }

  /** n copies of the pair, flattened as Queue receives them. */
  function Pairs(p: (u8, u8), n: nat): (r: seq<u8>)
  {
    if n == 0 then [] else Pairs(p, n - 1) + [p.0, p.1]
  }

  /** n pairs are 2n bytes, left at even and right at odd positions. */
  lemma {:induction false} PairsLayout(p: (u8, u8), n: nat)
    ensures |Pairs(p, n)| == 2 * n
    ensures forall i :: 0 <= i < 2 * n ==> Pairs(p, n)[i] == if i % 2 == 0 then p.0 else p.1
  {
    if n > 0 {
      PairsLayout(p, n - 1);
    }
  }

  /** The four channels of NewAPU, each initialized, and the frame sequencer over them. */
  method NewSequencer(frequency: nat) returns (fs: FrameSequencer)
    ensures fresh(fs) && fresh(fs.ch1) && fresh(fs.ch2) && fresh(fs.ch3) && fresh(fs.ch4)
    ensures fs.Valid() && fs.ch4.frequency == frequency
    ensures fs.ch1.State() == Square1State(0, 0, 0, 0, 0, 0, 0, 0, 0, 0, false, 0).Initialized()
    ensures fs.ch2.State() == Square2State(0, 0, 0, 0, 0, 0, 0, 0, false).Initialized()
    ensures fs.ch3.State() == WaveState(0, 0, 0, 0, 0, seq(16, _ => 0), 0, 0).Initialized()
    ensures fs.ch4.State() == NoiseState(0, 0, 0, 0, 0, 0, 0, false, 0).Initialized()
    ensures fs.sweepCounter == 0 && fs.lengthCounter == 0 && fs.envelopeCounter == 0
  {
    var c1 := new Square1();
    var c2 := new Square2();
    var c3 := new Wave();
    var c4 := new Noise(frequency);
    fs := new FrameSequencer(c1, c2, c3, c4);
  }

  /** NewAPU without the bus: every channel initialized, the sequencer over them, the control registers, throttle and counter at 0. */
  method NewAPU(cpuFrequency: nat, sinkFrequency: nat, bufferSize: u16) returns (a: APU)
    requires sinkFrequency > 0 && cpuFrequency / sinkFrequency > -ThrottleMin
    ensures fresh(a) && fresh(a.fs) && fresh(a.ch1) && fresh(a.ch2) && fresh(a.ch3) && fresh(a.ch4) && fresh(a.control)
    ensures a.Valid() && a.ch4.frequency == cpuFrequency
    ensures a.ch1.State() == Square1State(0, 0, 0, 0, 0, 0, 0, 0, 0, 0, false, 0).Initialized()
    ensures a.ch2.State() == Square2State(0, 0, 0, 0, 0, 0, 0, 0, false).Initialized()
    ensures a.ch3.State() == WaveState(0, 0, 0, 0, 0, seq(16, _ => 0), 0, 0).Initialized()
    ensures a.ch4.State() == NoiseState(0, 0, 0, 0, 0, 0, 0, false, 0).Initialized()
    ensures a.control.State() == ControlState(0, 0, 0)
    ensures a.fs.sweepCounter == 0 && a.fs.lengthCounter == 0 && a.fs.envelopeCounter == 0
    ensures a.samplesCounter == 0 && a.throttle == 0 && a.queued == []
    ensures a.basePeriod == cpuFrequency / sinkFrequency && a.bufferSize == bufferSize
  {
    var fs := NewSequencer(cpuFrequency);
    a := new APU(fs, cpuFrequency / sinkFrequency, bufferSize);
  }

  class APU {
    const fs: FrameSequencer
    const ch1: Square1
    const ch2: Square2
    const ch3: Wave
    const ch4: Noise
    const control: Control
    var samplesCounter: nat
    var throttle: int
    /** cpu.Frequency / the sink's Frequency(): CPU cycles per pair before the throttle. */
    const basePeriod: nat
    /** The sink's BufferSize(). */
    const bufferSize: u16
    /** Every byte handed to the sink's Queue, in order. */
    var queued: seq<u8>

    /** The sampling period stays positive: the throttle within its bounds and the sink well below the CPU's frequency. */
    predicate Tuned()
      reads this
    {
      ThrottleMin <= throttle <= ThrottleMax && basePeriod > -ThrottleMin
    }

    ghost predicate Valid()
      reads this, fs, ch1, ch2, ch3, ch4
    {
      fs.ch1 == ch1 && fs.ch2 == ch2 && fs.ch3 == ch3 && fs.ch4 == ch4 && fs.Valid() && Tuned()
    }

    /** `cpu.Frequency / Frequency() + throttle`: the CPU cycles per emitted pair. */
    function SamplePeriod(): (r: nat)
      reads this
      requires Tuned()
      ensures r >= 1
    {
      basePeriod + throttle
    }

    /** The pair the mixer emits from the current channel outputs. */
    function Sample(): (r: (u8, u8))
      reads ch1, ch2, ch3, ch4, control
      requires ch3.Valid()
    {
      Mix(control.State(), ch1.Output(), ch2.Output(), ch3.Output(), ch4.Output())
    }

    /** The APU struct over a built sequencer, with zero control registers. */
    constructor (fs: FrameSequencer, basePeriod: nat, bufferSize: u16)
      requires fs.Valid() && basePeriod > -ThrottleMin
      ensures Valid() && this.fs == fs && ch1 == fs.ch1 && ch2 == fs.ch2 && ch3 == fs.ch3 && ch4 == fs.ch4
      ensures fresh(control) && control.State() == ControlState(0, 0, 0)
      ensures samplesCounter == 0 && throttle == 0 && queued == []
      ensures this.basePeriod == basePeriod && this.bufferSize == bufferSize
    {
      this.fs, ch1, ch2, ch3, ch4 := fs, fs.ch1, fs.ch2, fs.ch3, fs.ch4;
      control := new Control();
      samplesCounter, throttle := 0, 0;
      this.basePeriod, this.bufferSize := basePeriod, bufferSize;
      queued := [];
    }

    /**
     * What ClockChanged(cycles) did with the sink holding `samplesCount`
     * samples: every channel's waveform stepped, then the frame sequencer's
     * length, envelope and sweep steps that fell due, the throttle set from
     * the fill level, and one pair queued per whole sampling period, the
     * remainder kept.
     */
    twostate predicate Clocked(cycles: nat, samplesCount: nat)
      reads this, fs, ch1, ch2, ch3, ch4, control
    {
      Valid() &&
      (var sweep, length, envelope :=
         Tick(old(fs.sweepCounter), cycles, SweepRate).0,
         Tick(old(fs.lengthCounter), cycles, LengthRate).0,
         Tick(old(fs.envelopeCounter), cycles, EnvelopeRate).0;
       fs.Channels() == old(fs.Channels()).Advanced(cycles, ch4.frequency).Sequenced(sweep, length, envelope)) &&
      fs.sweepCounter == Tick(old(fs.sweepCounter), cycles, SweepRate).1 &&
      fs.lengthCounter == Tick(old(fs.lengthCounter), cycles, LengthRate).1 &&
      fs.envelopeCounter == Tick(old(fs.envelopeCounter), cycles, EnvelopeRate).1 &&
      throttle == Throttled(old(throttle), samplesCount, bufferSize) &&
      samplesCounter == (old(samplesCounter) + cycles) % SamplePeriod() &&
      queued == old(queued) + Pairs(Sample(), Periods(old(samplesCounter) + cycles, SamplePeriod()))
    }

    /**
     * ClockChanged: the channels' waveforms, then the frame sequencer, then
     * the throttle from the sink's fill level, then one pair for every whole
     * sampling period in the accumulated cycles, the remainder kept.
     */
    method ClockChanged(cycles: nat, samplesCount: nat) returns (s: Status)
      requires Valid()
      modifies this, fs, ch1, ch2, ch3, ch4
      ensures Valid() && s == Success && Clocked(cycles, samplesCount)
    {
      Advance(cycles);
      s := fs.ClockChanged(cycles);
      samplesCounter := samplesCounter + cycles;
      Throttle(samplesCount);
      Emit();
      return Success;
    }

    /** The four channels' ClockChanged, in order. */
    method Advance(cycles: nat)
      requires ch1.Valid() && ch2.Valid() && ch3.Valid() && ch4.Valid()
      requires fs.ch1 == ch1 && fs.ch2 == ch2 && fs.ch3 == ch3 && fs.ch4 == ch4
      modifies ch1, ch2, ch3, ch4
      ensures fs.Channels() == old(fs.Channels()).Advanced(cycles, ch4.frequency)
      ensures ch1.Valid() && ch2.Valid() && ch3.Valid() && ch4.Valid()
    {
      var s := ch1.ClockChanged(cycles);
      s := ch2.ClockChanged(cycles);
      s := ch3.ClockChanged(cycles);
      s := ch4.ClockChanged(cycles);
    }

    /** The throttle step of ClockChanged. */
    method Throttle(samplesCount: nat)
      requires Tuned()
      modifies this`throttle
      ensures Tuned() && throttle == Throttled(old(throttle), samplesCount, bufferSize)
    {
      if samplesCount < ((3 * bufferSize) % 0x10000) / 4 && throttle > -10 {
        throttle := throttle - 1;
      } else if samplesCount == bufferSize && throttle < -5 {
        throttle := throttle + 1;
      }
    }

    /** The sampling loop of ClockChanged: one pair per whole period, the remainder kept. */
    method Emit()
      requires Tuned() && ch3.Valid()
      modifies this`samplesCounter, this`queued
      ensures samplesCounter == old(samplesCounter) % SamplePeriod()
      ensures queued == old(queued) + Pairs(Sample(), Periods(old(samplesCounter), SamplePeriod()))
    {
      var freq := basePeriod + throttle;
      ghost var emitted: nat := 0;
      while samplesCounter >= freq
        invariant old(samplesCounter) == samplesCounter + emitted * freq
        invariant queued == old(queued) + Pairs(Sample(), emitted)
        decreases samplesCounter
      {
        samplesCounter := samplesCounter - freq;
        var left, right := 0, 0;
        if SoundOn(control.nr52) {
          left := Side(ch1.Output(), ch2.Output(), ch3.Output(), ch4.Output(), LeftChannels(control.nr51), LeftVolume(control.nr50));
          right := Side(ch1.Output(), ch2.Output(), ch3.Output(), ch4.Output(), RightChannels(control.nr51), RightVolume(control.nr50));
        }
        queued := queued + [left, right];
        emitted := emitted + 1;
      }
      DivUnique(old(samplesCounter), freq, emitted, samplesCounter);
      ModUnique(old(samplesCounter), freq, emitted, samplesCounter);
    }
  }
}
