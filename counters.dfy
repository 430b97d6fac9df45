/**
 * The cycle counter every clocked unit keeps (the timer's DIV and TIMA
 * counters, the real-time clock of MBC3, the sound channels' frequency
 * counters, the frame sequencer and the sample counter): add the cycles of
 * the last instruction, and when the period is reached fire once and keep
 * the excess.
 */
module Counters {
  /** One counter step: add the cycles, and fire once when the period is reached. */
  function Tick(counter: nat, cycles: nat, rate: nat): (r: (bool, nat))
  {
    if counter + cycles >= rate then (true, counter + cycles - rate) else (false, counter + cycles)
  }

  /** Firing takes exactly one period off the accumulated cycles. */
  lemma TickConserves(counter: nat, cycles: nat, rate: nat)
    ensures var (fired, rest) := Tick(counter, cycles, rate);
            rest + (if fired then rate else 0) == counter + cycles
    ensures Tick(counter, cycles, rate).0 <==> counter + cycles >= rate
  {
  }

  /** While the counter stays below its period between calls, it fires at most once per call and stays below. */
  lemma TickStaysBelow(counter: nat, cycles: nat, rate: nat)
    requires counter < rate && cycles <= rate
    ensures Tick(counter, cycles, rate).1 < rate
  {
  }
}
