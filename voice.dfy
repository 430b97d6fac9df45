/**
 * The pieces the four sound channels (audio/square1.go, square2.go, wave.go,
 * noise.go) write out separately: the duty patterns of audio/apu.go, the
 * length field of NRx1, the 11-bit frequency of NRx3/NRx4 and the cycles per
 * waveform step it gives, and the volume envelope of NRx2.
 */
module Voice {
  import opened Bits

  /** DutyTable: the 8-step waveforms of duty 0..3 (12.5%, 25%, 50%, 75%). */
  const DutyTable: seq<u8> := [0x01, 0x81, 0x87, 0x7E]

  /** duty(): bits 7-6 of NRx1. */
  function Duty(nrx1: u8): (d: nat)
    ensures d < 4 && d == nrx1 / 0x40
  {
    nrx1 / 0x40
  }

  /** waveform >> (7 - pos) & 1: the level at step `pos` of the duty's pattern (low past the four duties and eight steps, which the channels never reach). */
  predicate DutyBit(duty: nat, pos: nat)
  {
    duty < 4 && pos < 8 && Bit(DutyTable[duty], 7 - pos)
  }

  /** The number of high steps of duty d among the first n positions. */
  function HighSteps(d: nat, n: nat): (r: nat)
    requires d < 4 && n <= 8
    ensures r <= n
  {
    if n == 0 then 0 else HighSteps(d, n - 1) + (if DutyBit(d, n - 1) then 1 else 0)
  }

  /** The four duties are high on 1, 2, 4 and 6 of their 8 steps. */
  lemma DutyRatios()
    ensures HighSteps(0, 8) == 1 && HighSteps(1, 8) == 2 && HighSteps(2, 8) == 4 && HighSteps(3, 8) == 6
  {
    Pow2Table();
  }

  /** lengthLoad(): bits 5-0 of NRx1 on the square and noise channels. */
  function LengthLoad(nrx1: u8): (l: u8)
    ensures l < 0x40
  {
    nrx1 % 0x40
  }

  /** setLengthLoad: `(nrx1 & 0xC0) | (length & 0x3F)`. */
  function WithLengthLoad(nrx1: u8, length: u8): (r: u8)
    ensures LengthLoad(r) == length % 0x40 && Duty(r) == Duty(nrx1)
  {
    (nrx1 / 0x40) * 0x40 + length % 0x40
  }

  /** lengthEnabled(): bit 6 of NRx4, the length counter runs. */
  predicate LengthEnabled(nrx4: u8) { (nrx4 / 0x40) % 2 == 1 }

  /** frequency(): NRx3 below bits 2-0 of NRx4. */
  function Frequency(nrx3: u8, nrx4: u8): (f: nat)
    ensures f < 2048 && f % 0x100 == nrx3 && f / 0x100 == nrx4 % 8
  {
    nrx3 + (nrx4 % 8) * 0x100
  }

  /** waveRate() of the square and wave channels: (2048 - frequency) * 4 cycles per step. */
  function WaveRate(freq: nat): (r: nat)
    requires freq < 2048
    ensures 4 <= r <= 8192 && r % 4 == 0
  {
    (2048 - freq) * 4
  }

  /** A higher frequency steps more often. */
  lemma WaveRateDecreasing(f1: nat, f2: nat)
    requires f1 < f2 < 2048
    ensures WaveRate(f2) < WaveRate(f1)
  {
  }

  /** envalopeVolume(): the starting volume, bits 7-4 of NRx2. */
  function EnvelopeVolume(nrx2: u8): (v: u8)
    ensures v < 16
  {
    nrx2 / 0x10
  }

  /** envalopeMode(): bit 3 of NRx2, set when the volume rises. */
  predicate EnvelopeRises(nrx2: u8)
  {
    (nrx2 / 0x08) % 2 == 1
  }

  /** envalopePeriod(): bits 2-0 of NRx2. */
  function EnvelopePeriod(nrx2: u8): (p: u8)
    ensures p < 8
  {
    nrx2 % 0x08
  }

  /** dac(): `nrx2 & 0xF8 != 0`, the channel's output is powered. */
  predicate Dac(nrx2: u8)
  {
    nrx2 / 0x08 != 0
  }

  /** One envelope step on the volume: up or down by one, saturating at 15 and 0. */
  function Envelope(volume: u8, rises: bool): (v: u8)
  {
    if rises then (if volume < 15 then volume + 1 else volume)
    else (if volume > 0 then volume - 1 else volume)
  }

  /** The envelope moves by at most one in its direction and keeps a volume within 0..15. */
  lemma EnvelopeBounds(volume: u8, rises: bool)
    ensures volume < 16 ==> Envelope(volume, rises) < 16
    ensures rises ==> volume <= Envelope(volume, rises) <= volume + 1
    ensures !rises ==> volume - 1 <= Envelope(volume, rises) <= volume
    ensures Envelope(volume, rises) == volume <==> (rises && volume >= 15) || (!rises && volume == 0)
  {
  }

  /** The decoded NRx2 fields are bits of the register. */
  lemma EnvelopeFields(nrx2: u8)
    ensures EnvelopeRises(nrx2) <==> Bit(nrx2, 3)
    ensures EnvelopeVolume(nrx2) == nrx2 / 0x10 && EnvelopePeriod(nrx2) == nrx2 % 0x08
    ensures Dac(nrx2) <==> EnvelopeVolume(nrx2) != 0 || EnvelopeRises(nrx2)
  {
    Pow2Table();
  }
}
