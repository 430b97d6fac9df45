/**
 * display/gpu.go: the picture processor. Each `ClockChanged` moves the
 * scanline state machine (OAM search 80 cycles, pixel transfer one pixel per
 * cycle, h-blank 204 cycles, v-blank lines of 456 cycles), draws the pixels
 * of the current line into the background, window and sprite layers, hands
 * finished frames to the monitor and raises the LCD-status and v-blank
 * interrupts.
 *
 * `Timing` is the state machine's own state and `Step` its transition: the
 * new timing, the interrupts requested in order, and the drawing `Work` that
 * goes with it. The class `GPU` holds the layers as arrays and is proved to
 * follow `Step`, with each kind of work stated as a two-state predicate.
 */
module Gpu {
  import opened Bits
  import opened Errors
  import opened Memory
  import opened Registers
  import opened Lcdc
  import opened Stat
  import opened Palette
  import opened Sprites
  import opened Screen
  import Irq

  const AddrLCDC: u16 := 0xFF40
  const AddrSTAT: u16 := 0xFF41
  const AddrSCY: u16 := 0xFF42
  const AddrSCX: u16 := 0xFF43
  const AddrLY: u16 := 0xFF44
  const AddrLYC: u16 := 0xFF45
  const AddrDMA: u16 := 0xFF46
  const AddrBGP: u16 := 0xFF47
  const AddrOBP0: u16 := 0xFF48
  const AddrOBP1: u16 := 0xFF49
  const AddrWinY: u16 := 0xFF4A
  const AddrWinX: u16 := 0xFF4B

  const OamBase: u16 := 0xFE00
  const OamSize: nat := 0xA0
  /** Sprites drawn on one line at most. */
  const MaxLineSprites: nat := 10

  const OamCycles: nat := 80
  const HBlankCycles: nat := 204
  const LineCycles: nat := 456

  datatype Timing = Timing(
    stat: u8, ly: u8, lx: u8, counter: nat,
    displayEnabled: bool, spritesEnabled: bool, backgroundEnabled: bool,
    ignoreVBlank: bool, ignoreHBlank: bool, ignoreLYC: bool, ignoreOAM: bool)
  {
    function Mode(): u8 { ModeFlag(stat) }

    /**
     * The lines each mode runs on: OAM search and transfer on 0-143, h-blank
     * after a visible line (so at most 144), v-blank on 144-153; and the
     * transfer column stays on screen.
     */
    predicate Lines()
    {
      lx < 160 &&
      (Mode() == ModeOAM || Mode() == ModeTransfer ==> ly < 144) &&
      (Mode() == ModeHBlank ==> ly <= 144) &&
      (Mode() == ModeVBlank ==> 144 <= ly <= 153)
    }
  }

  /** What a step draws, besides the timing: nothing, the power-off, the sprite search, pixels, or a frame. */
  datatype Work =
    | Idle
      /** The display was switched off: layers cleared and a blank frame shown. */
    | PowerOff
      /** End of OAM search on line `ly`: that line of both sprite layers cleared, and the sprites found. */
    | Search(ly: u8)
      /** Pixels from..from+count-1 of line `ly` drawn. */
    | Scan(from: u8, count: nat, ly: u8)
      /** The frame handed to the monitor at the start of v-blank. */
    | Frame
      /** Go's "ly > 144 during h-blank" error. */
    | LineFault

  datatype Effect = Effect(next: Timing, requests: seq<u8>, work: Work)

  /** initialize(), on the timing: line 0, OAM search, all ignores off, the enables re-read from LCDC. */
  function Initialized(t: Timing, lcdc: u8): (r: Timing)
    ensures r.Lines() && r.Mode() == ModeOAM && r.ly == 0 && !CoincidenceFlag(r.stat)
  {
    WithCoincidenceBits(t.stat, false);
    WithModeBits(WithCoincidence(t.stat, false), ModeOAM);
    WithCoincidenceBits(WithMode(WithCoincidence(t.stat, false), ModeOAM), false);
    t.(stat := WithMode(WithCoincidence(t.stat, false), ModeOAM), ly := 0, lx := 0, counter := 0,
       ignoreVBlank := false, ignoreHBlank := false, ignoreLYC := false, ignoreOAM := false,
       spritesEnabled := SpritesEnabled(lcdc), backgroundEnabled := BackgroundEnabled(lcdc))
  }

  /** The coincidence check's outcome: the timing after it, and whether it requested the LCD-status interrupt. */
  datatype Checked = Checked(next: Timing, fired: bool)

  /**
   * The coincidence check: the flag set when LY reaches LYC and cleared when
   * it leaves it. When setting it requests the interrupt, the interrupts of
   * the line LYC names are marked as raised already.
   */
  function CheckCoincidence(t: Timing, lyc: u8): Checked
  {
    if t.ly == lyc && !CoincidenceFlag(t.stat) then
      var t := t.(stat := WithCoincidence(t.stat, true));
      if CoincidenceInterruptEnabled(t.stat) && !t.ignoreLYC then
        Checked(t.(ignoreOAM := t.ignoreOAM || (lyc <= 143 && lyc > 0),
                   ignoreVBlank := t.ignoreVBlank || lyc == 143,
                   ignoreHBlank := t.ignoreHBlank || lyc <= 143), true)
      else Checked(t, false)
    else if t.ly != lyc then Checked(t.(stat := WithCoincidence(t.stat, false)), false)
    else Checked(t, false)
  }

  /** ClockChanged, on the timing: the display-off check, the coincidence check, then the mode's step. */
  function Step(t: Timing, lcdc: u8, lyc: u8, cycles: nat): Effect
  {
    if !DisplayEnabled(lcdc) then
      if t.displayEnabled then Effect(Initialized(t, lcdc).(displayEnabled := false), [], PowerOff)
      else Effect(t, [], Idle)
    else
      var c := CheckCoincidence(t.(displayEnabled := true), lyc);
      if c.fired then Effect(c.next, [Irq.LcdStatusTriggersFlag], Idle)
      else ModeStep(c.next, lcdc, cycles)
  }

  /** With the display on, Step is the coincidence check followed, unless it fired, by the mode's step. */
  lemma StepOn(t: Timing, lcdc: u8, lyc: u8, cycles: nat, ifd: u8)
    requires DisplayEnabled(lcdc)
    ensures var c := CheckCoincidence(t.(displayEnabled := true), lyc);
      Step(t, lcdc, lyc, cycles) ==
        if c.fired then Effect(c.next, [Irq.LcdStatusTriggersFlag], Idle) else ModeStep(c.next, lcdc, cycles)
    ensures Raise(ifd, [Irq.LcdStatusTriggersFlag]) == Or8(ifd, Irq.LcdStatusTriggersFlag)
  {
    assert [Irq.LcdStatusTriggersFlag][1..] == [];
  }

  /** With the display on in LCDC, Step is the same whether or not the display was marked on. */
  lemma StepMarksOn(t: Timing, lcdc: u8, lyc: u8, cycles: nat)
    requires DisplayEnabled(lcdc)
    ensures Step(t, lcdc, lyc, cycles) == Step(t.(displayEnabled := true), lcdc, lyc, cycles)
  {
    assert t.(displayEnabled := true).(displayEnabled := true) == t.(displayEnabled := true);
  }

  /** The `switch` on the mode flag. */
  function ModeStep(t: Timing, lcdc: u8, cycles: nat): Effect
  {
    var mode := t.Mode();
    if mode == ModeOAM then OamStep(t, cycles)
    else if mode == ModeTransfer then TransferStep(t, cycles)
    else if mode == ModeHBlank then HBlankStep(t, cycles)
    else VBlankStep(t, lcdc, cycles)
  }

  /** Searching OAM: after 80 cycles the sprites of the line are looked up and the transfer starts. */
  function OamStep(t: Timing, cycles: nat): Effect
  {
    if t.counter + cycles < OamCycles then Effect(t.(counter := t.counter + cycles), [], Idle)
    else Effect(t.(counter := t.counter + cycles - OamCycles, stat := WithMode(t.stat, ModeTransfer)), [], Search(t.ly))
  }

  /** The LCD-status request of a mode change, when its interrupt fires. */
  function LcdStatusIf(fire: bool): (r: seq<u8>)
    ensures |r| <= 1 && (fire <==> r == [Irq.LcdStatusTriggersFlag])
  {
    if fire then [Irq.LcdStatusTriggersFlag] else []
  }

  /** The h-blank interrupt fires unless the coincidence interrupt already stood for it. */
  predicate HBlankFires(t: Timing)
  {
    HBlankInterruptEnabled(WithMode(t.stat, ModeHBlank)) && !t.ignoreHBlank
  }

  /** The end of a transfer line: h-blank on the next line; its interrupt stands for the OAM one (and after line 143 the v-blank one). */
  function HBlankEntered(t: Timing): Timing
  {
    var fire := HBlankFires(t);
    t.(stat := WithMode(t.stat, ModeHBlank), ly := Inc8(t.ly),
       ignoreVBlank := t.ignoreVBlank || (fire && t.ly == 143),
       ignoreOAM := t.ignoreOAM || fire, ignoreHBlank := false)
  }

  /** The v-blank LCD-status interrupt fires unless an earlier one stood for it. */
  predicate VBlankFires(t: Timing)
  {
    VBlankInterruptEnabled(WithMode(t.stat, ModeVBlank)) && !t.ignoreVBlank
  }

  /** The start of v-blank; its LCD-status interrupt stands for the OAM and coincidence ones. */
  function VBlankEntered(t: Timing): Timing
  {
    var fire := VBlankFires(t);
    t.(stat := WithMode(t.stat, ModeVBlank), ignoreOAM := t.ignoreOAM || fire, ignoreLYC := t.ignoreLYC || fire,
       ignoreVBlank := false)
  }

  /** The OAM interrupt fires unless an earlier one stood for it. */
  predicate OamFires(t: Timing)
  {
    OamInterruptEnabled(WithMode(t.stat, ModeOAM)) && !t.ignoreOAM
  }

  /** The start of an OAM search. */
  function OamEntered(t: Timing): Timing
  {
    t.(stat := WithMode(t.stat, ModeOAM), ignoreOAM := false)
  }

  /** Line 0 of a new frame: the coincidence ignore cleared and the enables latched from LCDC. */
  function FrameStarted(t: Timing, lcdc: u8): Timing
  {
    t.(ignoreLYC := false, spritesEnabled := SpritesEnabled(lcdc), backgroundEnabled := BackgroundEnabled(lcdc), ly := 0)
  }

  /**
   * Transferring: `byte(cycles)` pixels are drawn, or fewer at the end of the
   * line; the cycle counter is not touched. At the end of the line comes
   * h-blank and the next line.
   */
  function TransferStep(t: Timing, cycles: nat): Effect
  {
    var count: nat := if t.lx < 160 then Min(cycles % 0x100, 160 - t.lx) else 0;
    if t.lx + count != 160 then Effect(t.(lx := t.lx + count), [], Scan(t.lx, count, t.ly))
    else Effect(HBlankEntered(t.(lx := 0)), LcdStatusIf(HBlankFires(t)), Scan(t.lx, count, t.ly))
  }

  /** H-blank: after 204 cycles, v-blank (and the frame) below line 143, else the next OAM search. */
  function HBlankStep(t: Timing, cycles: nat): Effect
  {
    if t.counter + cycles < HBlankCycles then Effect(t.(counter := t.counter + cycles), [], Idle)
    else
      var t := t.(counter := t.counter + cycles - HBlankCycles);
      if t.ly == 144 then Effect(VBlankEntered(t), LcdStatusIf(VBlankFires(t)) + [Irq.VerticalBlankFlag], Frame)
      else if t.ly < 144 then Effect(OamEntered(t), LcdStatusIf(OamFires(t)), Idle)
      else Effect(t, [], LineFault)
  }

  /** V-blank: a line every 456 cycles; after line 153, line 0 and the OAM search, with the enables re-read. */
  function VBlankStep(t: Timing, lcdc: u8, cycles: nat): Effect
  {
    if t.counter + cycles < LineCycles then Effect(t.(counter := t.counter + cycles), [], Idle)
    else
      var t := t.(counter := t.counter + cycles - LineCycles, ly := Inc8(t.ly));
      if t.ly > 153 then
        var t := FrameStarted(t, lcdc);
        Effect(OamEntered(t), LcdStatusIf(OamFires(t)), Idle)
      else Effect(t, [], Idle)
  }

  /** Within a v-blank line only the counter moves. */
  lemma VBlankWait(t: Timing, lcdc: u8, cycles: nat)
    requires t.counter + cycles < LineCycles
    ensures VBlankStep(t, lcdc, cycles) == Effect(t.(counter := t.counter + cycles), [], Idle)
  {
  }

  /** At the end of a v-blank line before 153, the next line. */
  lemma VBlankLine(t: Timing, lcdc: u8, cycles: nat)
    requires t.counter + cycles >= LineCycles && t.ly < 153
    ensures VBlankStep(t, lcdc, cycles) == Effect(t.(counter := t.counter + cycles - LineCycles, ly := t.ly + 1), [], Idle)
  {
    assert Inc8(t.ly) == t.ly + 1;
  }

  /** At the end of line 153, line 0 in OAM search, with the enables latched from LCDC. */
  lemma VBlankWrap(t: Timing, lcdc: u8, cycles: nat)
    requires t.counter + cycles >= LineCycles && t.ly == 153
    ensures var t' := FrameStarted(t.(counter := t.counter + cycles - LineCycles), lcdc);
      VBlankStep(t, lcdc, cycles) == Effect(OamEntered(t'), LcdStatusIf(OamFires(t')), Idle)
  {
    assert Inc8(t.ly) == 154;
  }

  lemma OamWait(t: Timing, cycles: nat)
    requires t.counter + cycles < OamCycles
    ensures OamStep(t, cycles) == Effect(t.(counter := t.counter + cycles), [], Idle)
  {
  }

  lemma OamDone(t: Timing, cycles: nat)
    requires t.counter + cycles >= OamCycles
    ensures OamStep(t, cycles) ==
      Effect(t.(counter := t.counter + cycles - OamCycles, stat := WithMode(t.stat, ModeTransfer)), [], Search(t.ly))
  {
  }

  /** Within the line the column moves by byte(cycles). */
  lemma TransferOn(t: Timing, cycles: nat)
    requires t.lx + cycles % 0x100 < 160
    ensures TransferStep(t, cycles) == Effect(t.(lx := t.lx + cycles % 0x100), [], Scan(t.lx, cycles % 0x100, t.ly))
  {
  }

  /** At the end of the line, h-blank on the next line. */
  lemma TransferEnd(t: Timing, cycles: nat)
    requires t.lx < 160 && t.lx + cycles % 0x100 >= 160
    ensures TransferStep(t, cycles) == Effect(HBlankEntered(t.(lx := 0)), LcdStatusIf(HBlankFires(t)), Scan(t.lx, 160 - t.lx, t.ly))
  {
  }

  lemma HBlankWait(t: Timing, cycles: nat)
    requires t.counter + cycles < HBlankCycles
    ensures HBlankStep(t, cycles) == Effect(t.(counter := t.counter + cycles), [], Idle)
  {
  }

  /** The end of h-blank on line 144: v-blank and the frame. */
  lemma HBlankFrame(t: Timing, cycles: nat)
    requires t.counter + cycles >= HBlankCycles && t.ly == 144
    ensures var t' := t.(counter := t.counter + cycles - HBlankCycles);
      HBlankStep(t, cycles) == Effect(VBlankEntered(t'), LcdStatusIf(VBlankFires(t')) + [Irq.VerticalBlankFlag], Frame)
  {
  }

  /** The end of h-blank on an earlier line: the next OAM search. */
  lemma HBlankLine(t: Timing, cycles: nat)
    requires t.counter + cycles >= HBlankCycles && t.ly < 144
    ensures var t' := t.(counter := t.counter + cycles - HBlankCycles);
      HBlankStep(t, cycles) == Effect(OamEntered(t'), LcdStatusIf(OamFires(t')), Idle)
  {
  }

  /** RequestInterrupt for each flag in turn. */
  function Raise(ifd: u8, flags: seq<u8>): u8
    decreases flags
  {
    if flags == [] then ifd else Raise(Or8(ifd, flags[0]), flags[1..])
  }

  /** One more flag at the end is one more request after the others. */
  lemma {:induction false} RaiseAppend(ifd: u8, flags: seq<u8>, f: u8)
    ensures Raise(ifd, flags + [f]) == Or8(Raise(ifd, flags), f)
    decreases flags
  {
    if flags != [] {
      assert (flags + [f])[1..] == flags[1..] + [f];
      RaiseAppend(Or8(ifd, flags[0]), flags[1..], f);
    }
  }

  /** A mode change leaves the rest of STAT as it was. */
  lemma ModeChangeBits(s: u8, mode: u8)
    requires mode < 4
    ensures ModeFlag(WithMode(s, mode)) == mode
    ensures (CoincidenceFlag(WithMode(s, mode)) <==> CoincidenceFlag(s))
    ensures (HBlankInterruptEnabled(WithMode(s, mode)) <==> HBlankInterruptEnabled(s))
    ensures (VBlankInterruptEnabled(WithMode(s, mode)) <==> VBlankInterruptEnabled(s))
    ensures (OamInterruptEnabled(WithMode(s, mode)) <==> OamInterruptEnabled(s))
    ensures (CoincidenceInterruptEnabled(WithMode(s, mode)) <==> CoincidenceInterruptEnabled(s))
  {
    WithModeBits(s, mode);
    HighBits(s);
    HighBits(WithMode(s, mode));
    SameEnables(s, WithMode(s, mode));
  }

  lemma ModeSet(s: u8, mode: u8)
    requires mode < 4
    ensures ModeFlag(WithMode(s, mode)) == mode
  {
    WithModeBits(s, mode);
  }

  /** The coincidence setter leaves the mode and the enables as they were. */
  lemma CoincidenceChangeBits(s: u8, state: bool)
    ensures ModeFlag(WithCoincidence(s, state)) == ModeFlag(s)
    ensures (HBlankInterruptEnabled(WithCoincidence(s, state)) <==> HBlankInterruptEnabled(s))
    ensures (VBlankInterruptEnabled(WithCoincidence(s, state)) <==> VBlankInterruptEnabled(s))
    ensures (OamInterruptEnabled(WithCoincidence(s, state)) <==> OamInterruptEnabled(s))
    ensures (CoincidenceInterruptEnabled(WithCoincidence(s, state)) <==> CoincidenceInterruptEnabled(s))
  {
    WithCoincidenceBits(s, state);
    SameEnables(s, WithCoincidence(s, state));
  }

  lemma {:induction false} OamStepKeepsLines(t: Timing, cycles: nat)
    requires t.Lines() && t.Mode() == ModeOAM
    ensures OamStep(t, cycles).next.Lines()
  {
    if t.counter + cycles >= OamCycles {
      ModeSet(t.stat, ModeTransfer);
      assert OamStep(t, cycles).next == t.(counter := t.counter + cycles - OamCycles, stat := WithMode(t.stat, ModeTransfer));
    }
  }

  /** Where the transfer step moves the column, the line and the mode. */
  lemma TransferNext(t: Timing, cycles: nat)
    requires t.lx < 160
    ensures var n := TransferStep(t, cycles).next;
      if t.lx + cycles % 0x100 >= 160 then n.lx == 0 && n.ly == Inc8(t.ly) && n.stat == WithMode(t.stat, ModeHBlank)
      else n.lx == t.lx + cycles % 0x100 && n.ly == t.ly && n.stat == t.stat
  {
  }

  lemma {:induction false} TransferStepKeepsLines(t: Timing, cycles: nat)
    requires t.Lines() && t.Mode() == ModeTransfer
    ensures TransferStep(t, cycles).next.Lines()
  {
    TransferNext(t, cycles);
    ModeSet(t.stat, ModeHBlank);
    assert Inc8(t.ly) == t.ly + 1;
  }

  lemma {:induction false} HBlankStepKeepsLines(t: Timing, cycles: nat)
    requires t.Lines() && t.Mode() == ModeHBlank
    ensures HBlankStep(t, cycles).next.Lines()
    ensures HBlankStep(t, cycles).work != LineFault
  {
    if t.counter + cycles >= HBlankCycles {
      if t.ly == 144 {
        ModeChangeBits(t.stat, ModeVBlank);
        assert HBlankStep(t, cycles).next.Mode() == ModeVBlank;
      } else {
        ModeChangeBits(t.stat, ModeOAM);
        assert HBlankStep(t, cycles).next.Mode() == ModeOAM;
      }
    }
  }

  lemma {:induction false} VBlankStepKeepsLines(t: Timing, lcdc: u8, cycles: nat)
    requires t.Lines() && t.Mode() == ModeVBlank
    ensures VBlankStep(t, lcdc, cycles).next.Lines()
  {
    if t.counter + cycles >= LineCycles {
      assert Inc8(t.ly) == t.ly + 1;
      var n := VBlankStep(t, lcdc, cycles).next;
      if t.ly == 153 {
        ModeSet(t.stat, ModeOAM);
        assert n.ly == 0 && n.lx == t.lx && n.stat == WithMode(t.stat, ModeOAM);
      } else {
        assert n.ly == t.ly + 1 && n.lx == t.lx && n.stat == t.stat;
      }
    }
  }

  /** Each mode's step keeps the line invariant and never hits the h-blank error. */
  lemma {:induction false} ModeStepKeepsLines(t: Timing, lcdc: u8, cycles: nat)
    requires t.Lines()
    ensures ModeStep(t, lcdc, cycles).next.Lines()
    ensures ModeStep(t, lcdc, cycles).work != LineFault
  {
    var mode := t.Mode();
    if mode == ModeOAM {
      OamStepKeepsLines(t, cycles);
    } else if mode == ModeTransfer {
      TransferStepKeepsLines(t, cycles);
    } else if mode == ModeHBlank {
      HBlankStepKeepsLines(t, cycles);
    } else {
      VBlankStepKeepsLines(t, lcdc, cycles);
    }
  }

  /** The coincidence check touches neither the mode nor the position, so it keeps the line invariant. */
  lemma CheckKeepsLines(t: Timing, lyc: u8)
    ensures var n := CheckCoincidence(t, lyc).next;
      n.Mode() == t.Mode() && n.ly == t.ly && n.lx == t.lx && n.counter == t.counter && (t.Lines() ==> n.Lines())
  {
    CoincidenceChangeBits(t.stat, true);
    CoincidenceChangeBits(t.stat, false);
  }

  /**
   * Every step keeps the line invariant, so LY never exceeds 153, and the
   * h-blank error cannot happen.
   */
  lemma {:induction false} StepKeepsLines(t: Timing, lcdc: u8, lyc: u8, cycles: nat)
    requires t.Lines()
    ensures Step(t, lcdc, lyc, cycles).next.Lines()
    ensures Step(t, lcdc, lyc, cycles).next.ly <= 153
    ensures Step(t, lcdc, lyc, cycles).work != LineFault
  {
    if DisplayEnabled(lcdc) {
      var t0 := t.(displayEnabled := true);
      CheckKeepsLines(t0, lyc);
      var c := CheckCoincidence(t0, lyc);
      if !c.fired {
        ModeStepKeepsLines(c.next, lcdc, cycles);
      }
    }
  }

  /** Each flag requested sets its bits in IF and clears none. */
  lemma {:induction false} RaiseBits(ifd: u8, flags: seq<u8>, i: nat)
    ensures Bit(Raise(ifd, flags), i) <==> Bit(ifd, i) || exists k :: 0 <= k < |flags| && Bit(flags[k], i)
    decreases flags
  {
    if flags != [] {
      Irq.RequestKeepsBits(ifd, flags[0], i);
      RaiseBits(Or8(ifd, flags[0]), flags[1..], i);
      if Bit(flags[0], i) {
        assert Bit(flags[0], i);
      }
      assert forall k :: 1 <= k < |flags| ==> flags[k] == flags[1..][k - 1];
    }
  }

  /** While the display is on, the coincidence flag tells after every step whether LY was LYC. */
  lemma {:induction false} CoincidenceTracksLY(t: Timing, lcdc: u8, lyc: u8, cycles: nat)
    requires DisplayEnabled(lcdc)
    ensures CoincidenceFlag(Step(t, lcdc, lyc, cycles).next.stat) <==> t.ly == lyc
  {
    WithCoincidenceBits(t.stat, true);
    WithCoincidenceBits(t.stat, false);
    var t0 := t.(displayEnabled := true);
    if t.ly == lyc && !CoincidenceFlag(t.stat) {
      ModeStepKeepsCoincidence(t0.(stat := WithCoincidence(t.stat, true)), lcdc, cycles);
    } else if t.ly != lyc {
      ModeStepKeepsCoincidence(t0.(stat := WithCoincidence(t.stat, false)), lcdc, cycles);
    } else {
      ModeStepKeepsCoincidence(t0, lcdc, cycles);
    }
  }

  lemma {:induction false} OamStepKeepsCoincidence(t: Timing, cycles: nat)
    ensures CoincidenceFlag(OamStep(t, cycles).next.stat) <==> CoincidenceFlag(t.stat)
  {
    WithModeBits(t.stat, ModeTransfer);
  }

  lemma {:induction false} TransferStepKeepsCoincidence(t: Timing, cycles: nat)
    ensures CoincidenceFlag(TransferStep(t, cycles).next.stat) <==> CoincidenceFlag(t.stat)
  {
    var e := TransferStep(t, cycles);
    if e.next.stat != t.stat {
      assert e.next.stat == WithMode(t.stat, ModeHBlank);
      WithModeBits(t.stat, ModeHBlank);
    }
  }

  lemma {:induction false} HBlankStepKeepsCoincidence(t: Timing, cycles: nat)
    ensures CoincidenceFlag(HBlankStep(t, cycles).next.stat) <==> CoincidenceFlag(t.stat)
  {
    if t.counter + cycles < HBlankCycles {
      HBlankWait(t, cycles);
    } else if t.ly == 144 {
      HBlankFrame(t, cycles);
      WithModeBits(t.stat, ModeVBlank);
    } else if t.ly < 144 {
      HBlankLine(t, cycles);
      WithModeBits(t.stat, ModeOAM);
    }
  }

  lemma {:induction false} VBlankStepKeepsCoincidence(t: Timing, lcdc: u8, cycles: nat)
    ensures CoincidenceFlag(VBlankStep(t, lcdc, cycles).next.stat) <==> CoincidenceFlag(t.stat)
  {
    if t.counter + cycles < LineCycles {
      VBlankWait(t, lcdc, cycles);
    } else if t.ly == 153 {
      VBlankWrap(t, lcdc, cycles);
      WithModeBits(t.stat, ModeOAM);
    } else if t.ly < 153 {
      VBlankLine(t, lcdc, cycles);
    } else {
      assert VBlankStep(t, lcdc, cycles).next.stat in {t.stat, WithMode(t.stat, ModeOAM)};
      WithModeBits(t.stat, ModeOAM);
    }
  }

  /** Mode changes leave the coincidence flag alone. */
  lemma {:induction false} ModeStepKeepsCoincidence(t: Timing, lcdc: u8, cycles: nat)
    ensures CoincidenceFlag(ModeStep(t, lcdc, cycles).next.stat) <==> CoincidenceFlag(t.stat)
  {
    var mode := t.Mode();
    if mode == ModeOAM {
      OamStepKeepsCoincidence(t, cycles);
    } else if mode == ModeTransfer {
      TransferStepKeepsCoincidence(t, cycles);
    } else if mode == ModeHBlank {
      HBlankStepKeepsCoincidence(t, cycles);
    } else {
      VBlankStepKeepsCoincidence(t, lcdc, cycles);
    }
  }

  /**
   * A coincidence interrupt ends the step: the LCD-status interrupt alone is
   * requested and the mode and the cycle counter do not move.
   */
  lemma CoincidenceInterruptPreempts(t: Timing, lcdc: u8, lyc: u8, cycles: nat)
    requires DisplayEnabled(lcdc) && t.ly == lyc && !CoincidenceFlag(t.stat)
    requires CoincidenceInterruptEnabled(t.stat) && !t.ignoreLYC
    ensures Step(t, lcdc, lyc, cycles).requests == [Irq.LcdStatusTriggersFlag]
    ensures Step(t, lcdc, lyc, cycles).work == Idle
    ensures Step(t, lcdc, lyc, cycles).next.Mode() == t.Mode()
    ensures Step(t, lcdc, lyc, cycles).next.counter == t.counter
  {
    CoincidenceChangeBits(t.stat, true);
    var t1 := t.(displayEnabled := true, stat := WithCoincidence(t.stat, true));
    assert CoincidenceInterruptEnabled(t1.stat) && !t1.ignoreLYC;
    assert t1.Mode() == t.Mode();
  }

  /**
   * The v-blank interrupt is requested exactly when the frame is shown, as
   * the last request of the step; at most two interrupts are requested, and
   * only v-blank and LCD status.
   */
  lemma {:induction false} RequestsOfStep(t: Timing, lcdc: u8, lyc: u8, cycles: nat)
    ensures var e := Step(t, lcdc, lyc, cycles);
      (Irq.VerticalBlankFlag in e.requests <==> e.work == Frame) &&
      (e.work == Frame ==> e.requests[|e.requests| - 1] == Irq.VerticalBlankFlag) &&
      |e.requests| <= 2 &&
      forall k :: 0 <= k < |e.requests| ==> e.requests[k] in {Irq.VerticalBlankFlag, Irq.LcdStatusTriggersFlag}
  {
    if DisplayEnabled(lcdc) {
      var t0 := t.(displayEnabled := true);
      var t1 := t0.(stat := WithCoincidence(t0.stat, true));
      if t.ly == lyc && !CoincidenceFlag(t.stat) {
        if !(CoincidenceInterruptEnabled(t1.stat) && !t1.ignoreLYC) {
          ModeStepRequests(t1, lcdc, cycles);
        }
      } else if t.ly != lyc {
        ModeStepRequests(t0.(stat := WithCoincidence(t0.stat, false)), lcdc, cycles);
      } else {
        ModeStepRequests(t0, lcdc, cycles);
      }
    }
  }

  /** The requests of a mode's step: v-blank last and only with the frame, LCD status at most once before it. */
  predicate RequestsFit(e: Effect)
  {
    (Irq.VerticalBlankFlag in e.requests <==> e.work == Frame) &&
    (e.work == Frame ==> e.requests == [Irq.VerticalBlankFlag] || e.requests == [Irq.LcdStatusTriggersFlag, Irq.VerticalBlankFlag]) &&
    (e.work != Frame ==> e.requests == [] || e.requests == [Irq.LcdStatusTriggersFlag])
  }

  lemma {:induction false} ModeStepRequests(t: Timing, lcdc: u8, cycles: nat)
    ensures RequestsFit(ModeStep(t, lcdc, cycles))
  {
    var mode := t.Mode();
    if mode == ModeOAM {
      assert RequestsFit(OamStep(t, cycles));
    } else if mode == ModeTransfer {
      assert RequestsFit(TransferStep(t, cycles));
    } else if mode == ModeHBlank {
      assert RequestsFit(HBlankStep(t, cycles));
    } else {
      assert RequestsFit(VBlankStep(t, lcdc, cycles));
    }
  }

  /** The OAM search lasts 80 cycles: the transfer starts once they are spent, and the surplus carries over. */
  lemma {:induction false} OamThreshold(t: Timing, cycles: nat)
    requires t.Mode() == ModeOAM
    ensures OamStep(t, cycles).next.Mode() == ModeTransfer <==> t.counter + cycles >= OamCycles
    ensures OamStep(t, cycles).work == Search(t.ly) <==> t.counter + cycles >= OamCycles
    ensures OamStep(t, cycles).next.counter == if t.counter + cycles >= OamCycles then t.counter + cycles - OamCycles else t.counter + cycles
  {
    if t.counter + cycles >= OamCycles {
      WithModeBits(t.stat, ModeTransfer);
      assert OamStep(t, cycles).next.Mode() == ModeTransfer;
    } else {
      assert OamStep(t, cycles).next == t.(counter := t.counter + cycles);
    }
  }

  /**
   * The transfer draws `byte(cycles)` pixels at a time and ends the line after
   * exactly 160, moving to h-blank on the next line.
   */
  lemma {:induction false} TransferDrawsLine(t: Timing, cycles: nat)
    requires t.Lines() && t.Mode() == ModeTransfer
    ensures TransferStep(t, cycles).work == Scan(t.lx, Min(cycles % 0x100, 160 - t.lx), t.ly)
    ensures var e := TransferStep(t, cycles);
      if t.lx + cycles % 0x100 >= 160 then e.next.lx == 0 && e.next.ly == t.ly + 1 && e.next.Mode() == ModeHBlank
      else e.next.lx == t.lx + cycles % 0x100 && e.next.ly == t.ly && e.next.Mode() == ModeTransfer
  {
    TransferNext(t, cycles);
    ModeSet(t.stat, ModeHBlank);
    assert Inc8(t.ly) == t.ly + 1;
  }

  /**
   * Each v-blank line lasts 456 cycles; after line 153 comes line 0 and the
   * OAM search, with the sprite and background enables re-read from LCDC.
   */
  lemma {:induction false} VBlankLines(t: Timing, lcdc: u8, cycles: nat)
    requires t.Lines() && t.Mode() == ModeVBlank && t.counter + cycles >= LineCycles
    ensures var n := VBlankStep(t, lcdc, cycles).next;
      n.counter == t.counter + cycles - LineCycles &&
      (if t.ly == 153 then n.ly == 0 && n.Mode() == ModeOAM && n.spritesEnabled == SpritesEnabled(lcdc)
       else n.ly == t.ly + 1 && n.Mode() == ModeVBlank)
  {
    ModeChangeBits(t.stat, ModeOAM);
  }

  /** After h-blank, line 144 starts v-blank with the frame and the v-blank interrupt; an earlier line starts the next search. */
  lemma {:induction false} HBlankEnds(t: Timing, cycles: nat)
    requires t.Lines() && t.Mode() == ModeHBlank && t.counter + cycles >= HBlankCycles
    ensures var e := HBlankStep(t, cycles);
      e.next.ly == t.ly && e.next.counter == t.counter + cycles - HBlankCycles &&
      (if t.ly == 144 then e.next.Mode() == ModeVBlank && e.work == Frame && Irq.VerticalBlankFlag in e.requests
       else e.next.Mode() == ModeOAM && e.work == Idle)
  {
    if t.ly == 144 {
      ModeChangeBits(t.stat, ModeVBlank);
      assert HBlankStep(t, cycles).next.Mode() == ModeVBlank;
    } else {
      ModeChangeBits(t.stat, ModeOAM);
      assert HBlankStep(t, cycles).next.Mode() == ModeOAM;
    }
  }

  /** With the display off nothing is drawn or requested; the first step after switching it off resets the timing. */
  lemma DisplayOff(t: Timing, lcdc: u8, lyc: u8, cycles: nat)
    requires !DisplayEnabled(lcdc)
    ensures var e := Step(t, lcdc, lyc, cycles);
      e.requests == [] && !e.next.displayEnabled &&
      (t.displayEnabled ==> e.work == PowerOff && e.next.ly == 0 && e.next.Mode() == ModeOAM) &&
      (!t.displayEnabled ==> e.work == Idle && e.next == t)
  {
  }

  // ---- sprites of a line ----

  /** Not off screen, horizontally and vertically, for sprites `width` pixels high. */
  predicate Visible(attr: SpriteAttr, width: u8)
  {
    !OffScreen(attr.CoordinateX(), 8, 8, 159) && !OffScreen(attr.CoordinateY(), 16, width, 143)
  }

  /** searchOAM's test: visible, and line `ly` between the sprite's first and last visible row. */
  predicate OnLine(attr: SpriteAttr, width: u8, ly: u8)
  {
    Visible(attr, width) &&
    match CalcCoords(attr.CoordinateY(), 16, width, 143)
    case None => false
    case Some(c) => c.start <= ly <= c.end
  }

  /**
   * searchOAM and renderSprite each take the sprite height from LCDC, and a
   * write to LCDC can come between them. A sprite at Y = 1 is kept for line 0
   * with 16-pixel sprites; once bit 2 is cleared, calcCoords has no case for
   * it at height 8, which is Go's panic and the model's SpriteOffScreen.
   */
  lemma HeightChangeStrandsSprite(attr: SpriteAttr)
    requires attr.CoordinateY() == 1 && !OffScreen(attr.CoordinateX(), 8, 8, 159)
    ensures OnLine(attr, 16, 0) && SpriteSpan(attr, 8, 0).None?
  {
    assert CalcCoords(1, 16, 16, 143) == Some(Coords(0, 0, 15));
    assert CalcCoords(1, 16, 8, 143).None?;
  }

  /** The attribute of sprite `id` (the four bytes at 0xFE00 + 4·id). */
  function AttrAt(oam: seq<u8>, id: nat): SpriteAttr
    requires |oam| == OamSize && id < 40
  {
    SpriteAttr(oam[4 * id], oam[4 * id + 1], oam[4 * id + 2], oam[4 * id + 3])
  }

  /** The sprites among the first `n` of OAM that searchOAM keeps, in OAM order. */
  function Found(oam: seq<u8>, width: u8, ly: u8, n: nat): (r: seq<SpriteAttr>)
    requires |oam| == OamSize && n <= 40
    ensures |r| <= n
  {
    if n == 0 then []
    else Found(oam, width, ly, n - 1) + (if OnLine(AttrAt(oam, n - 1), width, ly) then [AttrAt(oam, n - 1)] else [])
  }

  /** attrs[0:10] when there are more than ten. */
  function Take10(s: seq<SpriteAttr>): (r: seq<SpriteAttr>)
    ensures |r| <= MaxLineSprites && |r| <= |s| && r == s[..|r|]
    ensures |s| <= MaxLineSprites ==> r == s
    ensures |s| > MaxLineSprites ==> |r| == MaxLineSprites
  {
    if |s| > MaxLineSprites then s[..MaxLineSprites] else s
  }

  /** The sprites drawn on line `ly`: those found, sorted, the first ten. */
  function LineSprites(oam: seq<u8>, width: u8, ly: u8): seq<SpriteAttr>
    requires |oam| == OamSize
  {
    Take10(SortByLess(Found(oam, width, ly, 40)))
  }

  /**
   * A sprite is found exactly when it is one of the forty in OAM and covers
   * the line: it is on screen horizontally and `ly` is one of the `width` rows
   * starting at Y - 16.
   */
  lemma {:induction false} FoundExactly(oam: seq<u8>, width: u8, ly: u8, n: nat, a: SpriteAttr)
    requires |oam| == OamSize && n <= 40
    ensures a in Found(oam, width, ly, n) <==> exists id :: 0 <= id < n && AttrAt(oam, id) == a && OnLine(a, width, ly)
  {
    if n > 0 {
      FoundExactly(oam, width, ly, n - 1, a);
      if a in Found(oam, width, ly, n) && a !in Found(oam, width, ly, n - 1) {
        assert AttrAt(oam, n - 1) == a;
      }
    }
  }

  /** For the heights LCDC can pick, OnLine is the plain row test. */
  lemma {:induction false} OnLineRows(attr: SpriteAttr, width: u8, ly: u8)
    requires (width == 8 || width == 16) && ly < 144
    ensures OnLine(attr, width, ly) <==>
      !OffScreen(attr.CoordinateX(), 8, 8, 159) && attr.CoordinateY() - 16 <= ly < attr.CoordinateY() - 16 + width
  {
    OffScreenMeansInvisible(attr.CoordinateY(), 16, width, 143);
    if !OffScreen(attr.CoordinateY(), 16, width, 143) {
      CoordsTotal(attr.CoordinateY(), 16, width, 143);
    }
  }

  /**
   * The sprites of a line: every found sprite when there are ten or fewer,
   * otherwise ten of them, in the order of Less; no sprite left out is less
   * than one kept.
   */
  lemma {:induction false} LineSpritesCorrect(oam: seq<u8>, width: u8, ly: u8)
    requires |oam| == OamSize
    ensures var r := LineSprites(oam, width, ly);
      var f := Found(oam, width, ly, 40);
      |r| == (if |f| <= MaxLineSprites then |f| else MaxLineSprites) && Sorted(r) &&
      multiset(r) <= multiset(f) &&
      (forall a, k :: a in multiset(f) - multiset(r) && 0 <= k < |r| ==> !Less(a, r[k]))
  {
    var f := Found(oam, width, ly, 40);
    SortByLessCorrect(f);
    var s := SortByLess(f);
    var r := LineSprites(oam, width, ly);
    SortedSplit(s, |r|);
    assert s[..|r|] == r;
    assert multiset(f) - multiset(r) == multiset(s[|r|..]);
  }

  /** Cutting a sorted sequence: the front is sorted and nothing in the back is less than anything in the front. */
  lemma SortedSplit(s: seq<SpriteAttr>, n: nat)
    requires Sorted(s) && n <= |s|
    ensures Sorted(s[..n]) && multiset(s) == multiset(s[..n]) + multiset(s[n..])
    ensures forall a, k :: a in multiset(s[n..]) && 0 <= k < n ==> !Less(a, s[k])
  {
    assert s == s[..n] + s[n..];
    forall a, k | a in multiset(s[n..]) && 0 <= k < n
      ensures !Less(a, s[k])
    {
      var j :| n <= j < |s| && s[j] == a;
    }
  }

  /** Sprites visible for the height used in the search can be placed again with that height. */
  lemma {:induction false} VisibleHasSpan(attr: SpriteAttr, width: u8, ly: u8)
    requires (width == 8 || width == 16) && Visible(attr, width)
    ensures SpriteSpan(attr, width, ly).Some?
  {
    CoordsTotal(attr.CoordinateX(), 8, 8, 159);
    CoordsTotal(attr.CoordinateY(), 16, width, 143);
  }

  lemma VisibleHaveSpans(sprites: seq<SpriteAttr>, width: u8, ly: u8)
    requires (width == 8 || width == 16) && forall i :: 0 <= i < |sprites| ==> Visible(sprites[i], width)
    ensures forall i :: 0 <= i < |sprites| ==> SpriteSpan(sprites[i], width, ly).Some?
  {
    forall i | 0 <= i < |sprites|
      ensures SpriteSpan(sprites[i], width, ly).Some?
    {
      VisibleHasSpan(sprites[i], width, ly);
    }
  }

  // ---- drawing the sprites of a line ----

  /** The palette register a sprite picks: OBP1 when its palette bit is set. */
  function SpritePalette(attr: SpriteAttr, obp0: u8, obp1: u8): u8
  {
    if attr.Palette() == ObjPalette0 then obp0 else obp1
  }

  /**
   * renderSprite on the current line of the two sprite layers (above, below):
   * the sprite is painted into the layer its priority picks; `None` is the
   * panic of calcCoords.
   */
  function PaintOne(lines: (seq<u8>, seq<u8>), vram: seq<u8>, width: u8, obp0: u8, obp1: u8, ly: u8, attr: SpriteAttr): (r: Option<(seq<u8>, seq<u8>)>)
    requires |lines.0| == ScreenWidth && |lines.1| == ScreenWidth && |vram| == VramSize
    ensures r.Some? ==> |r.value.0| == ScreenWidth && |r.value.1| == ScreenWidth
    ensures r.Some? <==> SpriteSpan(attr, width, ly).Some?
  {
    match SpriteSpan(attr, width, ly)
    case None => None
    case Some(span) =>
      var pal := SpritePalette(attr, obp0, obp1);
      if attr.Priority() == SpriteAboveBackground then Some((PaintSprite(lines.0, vram, attr, width, pal, span), lines.1))
      else Some((lines.0, PaintSprite(lines.1, vram, attr, width, pal, span)))
  }

  /** PaintOne for a sprite whose span is known. */
  lemma PaintOneSpan(lines: (seq<u8>, seq<u8>), vram: seq<u8>, width: u8, obp0: u8, obp1: u8, ly: u8, attr: SpriteAttr, span: Span)
    requires |lines.0| == ScreenWidth && |lines.1| == ScreenWidth && |vram| == VramSize
    requires SpriteSpan(attr, width, ly) == Some(span)
    ensures PaintOne(lines, vram, width, obp0, obp1, ly, attr) ==
      if attr.Priority() == SpriteAboveBackground then Some((PaintSprite(lines.0, vram, attr, width, SpritePalette(attr, obp0, obp1), span), lines.1))
      else Some((lines.0, PaintSprite(lines.1, vram, attr, width, SpritePalette(attr, obp0, obp1), span)))
  {
  }

  /** The lines after the sprites `attrs` are drawn in turn; `None` once one of them panics. */
  function PaintAll(lines: (seq<u8>, seq<u8>), vram: seq<u8>, width: u8, obp0: u8, obp1: u8, ly: u8, attrs: seq<SpriteAttr>): (r: Option<(seq<u8>, seq<u8>)>)
    requires |lines.0| == ScreenWidth && |lines.1| == ScreenWidth && |vram| == VramSize
    ensures r.Some? ==> |r.value.0| == ScreenWidth && |r.value.1| == ScreenWidth
    decreases |attrs|
  {
    if attrs == [] then Some(lines)
    else match PaintAll(lines, vram, width, obp0, obp1, ly, attrs[..|attrs| - 1])
      case None => None
      case Some(l) => PaintOne(l, vram, width, obp0, obp1, ly, attrs[|attrs| - 1])
  }

  /** Drawing fails exactly when one of the sprites cannot be placed with the current height. */
  lemma {:induction false} PaintAllFails(lines: (seq<u8>, seq<u8>), vram: seq<u8>, width: u8, obp0: u8, obp1: u8, ly: u8, attrs: seq<SpriteAttr>)
    requires |lines.0| == ScreenWidth && |lines.1| == ScreenWidth && |vram| == VramSize
    ensures PaintAll(lines, vram, width, obp0, obp1, ly, attrs).Some? <==>
            forall k :: 0 <= k < |attrs| ==> SpriteSpan(attrs[k], width, ly).Some?
    decreases |attrs|
  {
    if attrs != [] {
      var init := attrs[..|attrs| - 1];
      PaintAllFails(lines, vram, width, obp0, obp1, ly, init);
      assert forall k :: 0 <= k < |init| ==> init[k] == attrs[k];
    }
  }

  /**
   * A pixel already drawn is never drawn over by a later sprite, so the first
   * sprite in the list wins; and a pixel that changes becomes opaque.
   */
  lemma {:induction false} PaintAllKeepsDrawn(lines: (seq<u8>, seq<u8>), vram: seq<u8>, width: u8, obp0: u8, obp1: u8, ly: u8, attrs: seq<SpriteAttr>, x: nat)
    requires |lines.0| == ScreenWidth && |lines.1| == ScreenWidth && |vram| == VramSize && x < ScreenWidth
    requires PaintAll(lines, vram, width, obp0, obp1, ly, attrs).Some?
    ensures var r := PaintAll(lines, vram, width, obp0, obp1, ly, attrs).value;
      (lines.0[x] != ColorTransparent ==> r.0[x] == lines.0[x]) &&
      (lines.1[x] != ColorTransparent ==> r.1[x] == lines.1[x]) &&
      (r.0[x] != lines.0[x] ==> r.0[x] < ColorTransparent) &&
      (r.1[x] != lines.1[x] ==> r.1[x] < ColorTransparent)
    decreases |attrs|
  {
    if attrs != [] {
      var init := attrs[..|attrs| - 1];
      PaintAllKeepsDrawn(lines, vram, width, obp0, obp1, ly, init, x);
      var l := PaintAll(lines, vram, width, obp0, obp1, ly, init).value;
      var attr := attrs[|attrs| - 1];
      var span := SpriteSpan(attr, width, ly).value;
      var pal := SpritePalette(attr, obp0, obp1);
      PaintKeepsDrawn(l.0, vram, attr, width, pal, span, x);
      PaintKeepsDrawn(l.1, vram, attr, width, pal, span, x);
    }
  }

  /** One more sprite drawn: the fold over a longer prefix. */
  lemma PaintAllSnoc(lines: (seq<u8>, seq<u8>), vram: seq<u8>, width: u8, obp0: u8, obp1: u8, ly: u8, attrs: seq<SpriteAttr>, k: nat)
    requires |lines.0| == ScreenWidth && |lines.1| == ScreenWidth && |vram| == VramSize && k < |attrs|
    requires PaintAll(lines, vram, width, obp0, obp1, ly, attrs[..k]).Some?
    ensures PaintAll(lines, vram, width, obp0, obp1, ly, attrs[..k + 1]) ==
            PaintOne(PaintAll(lines, vram, width, obp0, obp1, ly, attrs[..k]).value, vram, width, obp0, obp1, ly, attrs[k])
  {
    assert attrs[..k + 1][..k] == attrs[..k];
  }

  /** The number of columns in from..from+count-1 that are multiples of 16, where renderSprite runs. */
  function Turns(from: nat, count: nat): nat
  {
    if count == 0 then 0 else Turns(from, count - 1) + (if (from + count - 1) % 16 == 0 then 1 else 0)
  }

  /** From column 0, one turn per started block of 16 columns. */
  lemma {:induction false} TurnsFromZero(n: nat)
    ensures Turns(0, n) == (n + 15) / 16
  {
    if n > 0 {
      TurnsFromZero(n - 1);
    }
  }

  /** A whole line has ten turns, one for each of the ten sprites a line may hold. */
  lemma LineTurns()
    ensures Turns(0, ScreenWidth) == MaxLineSprites
  {
    TurnsFromZero(ScreenWidth);
  }

  /** One more step of the turn count. */
  lemma TurnsNext(from: nat, count: nat)
    ensures Turns(from, count + 1) == Turns(from, count) + (if (from + count) % 16 == 0 then 1 else 0)
  {
  }

  // ---- the picture processor ----

  /** A layer: a colour per pixel, indexed [x, y] as Go's [ScreenWidth][ScreenHeight]Color. */
  predicate IsLayer(a: array2<u8>)
  {
    a.Length0 == ScreenWidth && a.Length1 == ScreenHeight
  }

  /** Line `y` of a layer. */
  ghost function Line(a: array2<u8>, y: nat): (r: seq<u8>)
    reads a
    requires IsLayer(a) && y < ScreenHeight
    ensures |r| == ScreenWidth
  {
    seq(ScreenWidth, x requires 0 <= x < ScreenWidth reads a => a[x, y])
  }

  /** All lines of a layer. */
  ghost function Rows(a: array2<u8>): (r: seq<seq<u8>>)
    reads a
    requires IsLayer(a)
    ensures |r| == ScreenHeight && forall y :: 0 <= y < ScreenHeight ==> |r[y]| == ScreenWidth
  {
    seq(ScreenHeight, y requires 0 <= y < ScreenHeight reads a => Line(a, y))
  }

  /** Lines of pixels of a screen's size. */
  predicate IsRows(r: seq<seq<u8>>)
  {
    |r| == ScreenHeight && forall y :: 0 <= y < ScreenHeight ==> |r[y]| == ScreenWidth
  }

  /** createFrame on the lines of the four layers: each pixel merged as MergePixel does. */
  function FrameOf(bg: seq<seq<u8>>, win: seq<seq<u8>>, above: seq<seq<u8>>, below: seq<seq<u8>>): (r: seq<seq<u8>>)
    requires IsRows(bg) && IsRows(win) && IsRows(above) && IsRows(below)
    ensures IsRows(r)
    ensures forall x, y :: 0 <= x < ScreenWidth && 0 <= y < ScreenHeight ==>
      r[y][x] == MergePixel(win[y][x], bg[y][x], above[y][x], below[y][x])
  {
    seq(ScreenHeight, y requires 0 <= y < ScreenHeight =>
      seq(ScreenWidth, x requires 0 <= x < ScreenWidth => MergePixel(win[y][x], bg[y][x], above[y][x], below[y][x])))
  }

  /** Reading a layer's rows back pixel by pixel. */
  lemma RowsPixels(a: array2<u8>)
    requires IsLayer(a)
    ensures forall x, y :: 0 <= x < ScreenWidth && 0 <= y < ScreenHeight ==> Rows(a)[y][x] == a[x, y]
  {
  }

  /** A layer whose pixels are those of `rows` has them as its rows. */
  lemma PixelsRows(a: array2<u8>, rows: seq<seq<u8>>)
    requires IsLayer(a) && |rows| == ScreenHeight && forall y :: 0 <= y < ScreenHeight ==> |rows[y]| == ScreenWidth
    requires forall x, y :: 0 <= x < ScreenWidth && 0 <= y < ScreenHeight ==> a[x, y] == rows[y][x]
    ensures Rows(a) == rows
  {
    forall y | 0 <= y < ScreenHeight
      ensures Rows(a)[y] == rows[y]
    {
      assert Line(a, y) == rows[y];
    }
  }

  /** `line` with columns from..upto-1 taken from `row`. */
  function Splice(line: seq<u8>, row: seq<u8>, from: nat, upto: nat): (r: seq<u8>)
    requires |line| == ScreenWidth && |row| == ScreenWidth
    ensures |r| == ScreenWidth
  {
    seq(ScreenWidth, x requires 0 <= x < ScreenWidth => if from <= x < upto then row[x] else line[x])
  }

  /** `line` with the pixels of columns from..upto-1 that `row` decides taken from it. */
  function SpliceSome(line: seq<u8>, row: seq<Option<u8>>, from: nat, upto: nat): (r: seq<u8>)
    requires |line| == ScreenWidth && |row| == ScreenWidth
    ensures |r| == ScreenWidth
  {
    seq(ScreenWidth, x requires 0 <= x < ScreenWidth => if from <= x < upto && row[x].Some? then row[x].value else line[x])
  }

  /**
   * What a run of scanPixels starts from: its line and first column, the
   * background and window pixels of the line as the registers give them,
   * every line of the four layers, VRAM and the sprites still to draw.
   */
  datatype LineScan = LineScan(y: u8, from: nat, bgRow: seq<u8>, winRow: seq<Option<u8>>,
                               bg: seq<seq<u8>>, win: seq<seq<u8>>, above: seq<seq<u8>>, below: seq<seq<u8>>,
                               vram: seq<u8>, sprites: seq<SpriteAttr>)
  {
    predicate Sized()
    {
      y < ScreenHeight && |bgRow| == ScreenWidth && |winRow| == ScreenWidth && |vram| == VramSize &&
      |bg| == ScreenHeight && |win| == ScreenHeight && |above| == ScreenHeight && |below| == ScreenHeight &&
      forall y :: 0 <= y < ScreenHeight ==>
        |bg[y]| == ScreenWidth && |win[y]| == ScreenWidth && |above[y]| == ScreenWidth && |below[y]| == ScreenWidth
    }
  }

  /** Only pixel (x, y) of `a` may differ from before. */
  twostate predicate OnlyPixel(a: array2<u8>, x: nat, y: nat)
    reads a
  {
    forall x', y' :: 0 <= x' < a.Length0 && 0 <= y' < a.Length1 && (x' != x || y' != y) ==> a[x', y'] == old(a[x', y'])
  }

  /**
   * A layer whose line y was `base[y]` spliced with `row` up to column x,
   * and which has since had the pixel of `row` drawn at (x, y) and nothing
   * else changed, is that splice up to x + 1.
   */
  lemma SplicePixel(a: array2<u8>, before: seq<seq<u8>>, base: seq<seq<u8>>, row: seq<u8>, from: nat, x: nat, y: nat)
    requires IsLayer(a) && from <= x < ScreenWidth && y < ScreenHeight && |row| == ScreenWidth
    requires |base| == ScreenHeight && forall y' :: 0 <= y' < ScreenHeight ==> |base[y']| == ScreenWidth
    requires before == base[y := Splice(base[y], row, from, x)]
    requires a[x, y] == row[x]
    requires forall x', y' :: 0 <= x' < ScreenWidth && 0 <= y' < ScreenHeight && (x' != x || y' != y) ==> a[x', y'] == before[y'][x']
    ensures Rows(a) == base[y := Splice(base[y], row, from, x + 1)]
  {
    PixelsRows(a, base[y := Splice(base[y], row, from, x + 1)]);
  }

  /** The same for the window layer, where `row` may leave the pixel as it was. */
  lemma SpliceSomePixel(a: array2<u8>, before: seq<seq<u8>>, base: seq<seq<u8>>, row: seq<Option<u8>>, from: nat, x: nat, y: nat)
    requires IsLayer(a) && from <= x < ScreenWidth && y < ScreenHeight && |row| == ScreenWidth
    requires |base| == ScreenHeight && forall y' :: 0 <= y' < ScreenHeight ==> |base[y']| == ScreenWidth
    requires before == base[y := SpliceSome(base[y], row, from, x)]
    requires a[x, y] == if row[x].Some? then row[x].value else before[y][x]
    requires forall x', y' :: 0 <= x' < ScreenWidth && 0 <= y' < ScreenHeight && (x' != x || y' != y) ==> a[x', y'] == before[y'][x']
    ensures Rows(a) == base[y := SpliceSome(base[y], row, from, x + 1)]
  {
    PixelsRows(a, base[y := SpliceSome(base[y], row, from, x + 1)]);
  }

  /** Only line y of `a` may differ from before. */
  twostate predicate OnlyLine(a: array2<u8>, y: nat)
    reads a
  {
    forall x', y' :: 0 <= x' < a.Length0 && 0 <= y' < a.Length1 && y' != y ==> a[x', y'] == old(a[x', y'])
  }

  /** The lines of a layer with line y made transparent. */
  function ClearedLine(rows: seq<seq<u8>>, y: nat): seq<seq<u8>>
    requires y < |rows|
  {
    rows[y := seq(ScreenWidth, _ => ColorTransparent)]
  }

  /** A layer of which only line y changed, to transparent pixels, has that line cleared. */
  lemma LineCleared(a: array2<u8>, before: seq<seq<u8>>, y: nat)
    requires IsLayer(a) && IsRows(before) && y < ScreenHeight
    requires forall x :: 0 <= x < ScreenWidth ==> a[x, y] == ColorTransparent
    requires forall x', y' :: 0 <= x' < ScreenWidth && 0 <= y' < ScreenHeight && y' != y ==> a[x', y'] == before[y'][x']
    ensures Rows(a) == ClearedLine(before, y)
  {
    PixelsRows(a, ClearedLine(before, y));
  }

  /**
   * What a step's drawing is measured against: the sprites to draw, the
   * frames shown so far and the lines of the four layers, as they were.
   */
  datatype Before = Before(sprites: seq<SpriteAttr>, frames: seq<seq<seq<u8>>>,
                           bg: seq<seq<u8>>, win: seq<seq<u8>>, above: seq<seq<u8>>, below: seq<seq<u8>>)



  /** memory.NewRAM over `make([]byte, size)`. */
  method NewZeroedRAM(size: nat, base: u16) returns (r: RAM)
    ensures fresh(r) && fresh(r.data) && r.Valid()
    ensures r.data.Length == size && r.addrOffset == base && r.windowOffset == 0
    ensures r.data[..] == seq(size, _ => 0)
  {
    var data := new u8[size](_ => 0);
    r := new RAM(data, base);
    assert r.data[..] == seq(size, _ => 0);
  }

  /** The four layers of a new picture processor (Go zeroes them; initialize() clears them). */
  method NewLayers() returns (r: (array2<u8>, array2<u8>, array2<u8>, array2<u8>))
    ensures fresh(r.0) && fresh(r.1) && fresh(r.2) && fresh(r.3)
    ensures IsLayer(r.0) && IsLayer(r.1) && IsLayer(r.2) && IsLayer(r.3)
    ensures r.0 != r.1 && r.0 != r.2 && r.0 != r.3 && r.1 != r.2 && r.1 != r.3 && r.2 != r.3
  {
    var a := new u8[ScreenWidth, ScreenHeight];
    var b := new u8[ScreenWidth, ScreenHeight];
    var c := new u8[ScreenWidth, ScreenHeight];
    var d := new u8[ScreenWidth, ScreenHeight];
    r := (a, b, c, d);
  }

  /** The five plain byte registers of a new picture processor: SCY, SCX, WY, WX, LYC, all 0. */
  method NewRegisters() returns (r: (MemReg, MemReg, MemReg, MemReg, MemReg))
    ensures fresh(r.0) && fresh(r.1) && fresh(r.2) && fresh(r.3) && fresh(r.4)
    ensures r.0.data == 0 && r.1.data == 0 && r.2.data == 0 && r.3.data == 0 && r.4.data == 0
  {
    var a := new MemReg();
    var b := new MemReg();
    var c := new MemReg();
    var d := new MemReg();
    var e := new MemReg();
    r := (a, b, c, d, e);
  }

  /** The three palettes of a new picture processor, all 0. */
  method NewPalettes() returns (r: (Palette, Palette, Palette))
    ensures fresh(r.0) && fresh(r.1) && fresh(r.2)
    ensures r.0.data == 0 && r.1.data == 0 && r.2.data == 0
  {
    var a := new Palette(0);
    var b := new Palette(0);
    var c := new Palette(0);
    r := (a, b, c);
  }

  /** NewGPU: the struct, then initialize(); the mapping of its registers on the bus is in bus.dfy. */
  method NewGPU(ifr: MemReg) returns (g: GPU)
    ensures g.Valid() && g.ifr == ifr && fresh(g.Repr() - {ifr})
    ensures g.lcdc.data == 0x91 && g.frames == [] && g.sprites == [] && g.Cleared()
    ensures g.TimingState() == Initialized(Timing(0, 0, 0, 0, false, false, false, false, false, false, false), 0x91)
    ensures forall i :: 0 <= i < VramSize ==> g.vram.data[i] == 0
    ensures forall i :: 0 <= i < OamSize ==> g.oam.data[i] == 0
  {
    g := new GPU(ifr);
    g.Initialize();
  }

  class GPU {
    const lcdc: LCDC
    const stat: STAT
    const scy: MemReg
    const scx: MemReg
    const wy: MemReg
    const wx: MemReg
    const lyc: MemReg
    const bgp: Palette
    const obp0: Palette
    const obp1: Palette
    const vram: RAM
    const oam: RAM
    /** The core's IF register, which RequestInterrupt sets bits of. */
    const ifr: MemReg
    const bgLayer: array2<u8>
    const winLayer: array2<u8>
    const spriteAbove: array2<u8>
    const spriteBelow: array2<u8>
    var ly: u8
    var lx: u8
    var cyclesCounter: nat
    var displayEnabled: bool
    var spritesEnabled: bool
    var backgroundEnabled: bool
    var ignoreVBlank: bool
    var ignoreHBlank: bool
    var ignoreLYC: bool
    var ignoreOAM: bool
    var sprites: seq<SpriteAttr>
    /** The frames handed to the monitor, oldest first, each as its lines of pixels. */
    ghost var frames: seq<seq<seq<u8>>>
    /** The sprite height of the OAM search that found `sprites`. */
    ghost var searchWidth: u8

    ghost function Repr(): set<object>
    {
      {this, lcdc, stat, scy, scx, wy, wx, lyc, bgp, obp0, obp1, vram, vram.data, oam, oam.data, ifr,
       bgLayer, winLayer, spriteAbove, spriteBelow}
    }

    function TimingState(): Timing
      reads this`ly, this`lx, this`cyclesCounter, this`displayEnabled, this`spritesEnabled, this`backgroundEnabled
      reads this`ignoreVBlank, this`ignoreHBlank, this`ignoreLYC, this`ignoreOAM, stat
    {
      Timing(stat.data, ly, lx, cyclesCounter, displayEnabled, spritesEnabled, backgroundEnabled,
             ignoreVBlank, ignoreHBlank, ignoreLYC, ignoreOAM)
    }

    /** The four layers: the right size and four separate arrays. */
    ghost predicate Layers()
    {
      IsLayer(bgLayer) && IsLayer(winLayer) && IsLayer(spriteAbove) && IsLayer(spriteBelow) &&
      bgLayer != winLayer && bgLayer != spriteAbove && bgLayer != spriteBelow &&
      winLayer != spriteAbove && winLayer != spriteBelow && spriteAbove != spriteBelow
    }

    /** VRAM (8 KiB at 0x8000) and OAM (160 bytes at 0xFE00), read at window 0. */
    ghost predicate Memories()
      reads vram, oam
    {
      vram.data.Length == VramSize && vram.addrOffset == VramBase && vram.windowOffset == 0 &&
      oam.data.Length == OamSize && oam.addrOffset == OamBase && oam.windowOffset == 0 &&
      vram.data != oam.data
    }

    /** How the parts are connected: the layers and memories, and IF apart from the other registers. */
    ghost predicate Wired()
      reads this`searchWidth, vram, oam
    {
      Layers() && Memories() &&
      ifr != scy && ifr != scx && ifr != wy && ifr != wx && ifr != lyc && (searchWidth == 8 || searchWidth == 16)
    }

    ghost predicate Valid()
      reads this`ly, this`lx, this`cyclesCounter, this`displayEnabled, this`spritesEnabled, this`backgroundEnabled
      reads this`ignoreVBlank, this`ignoreHBlank, this`ignoreLYC, this`ignoreOAM, stat
      reads this`searchWidth, this`sprites, vram, oam
    {
      Wired() && TimingState().Lines() && SpritesFit()
    }

    /** At most ten sprites to draw, each visible with the sprite height of the search that found it. */
    ghost predicate SpritesFit()
      reads this`searchWidth, this`sprites
    {
      |sprites| <= MaxLineSprites && forall i :: 0 <= i < |sprites| ==> Visible(sprites[i], searchWidth)
    }

    /** Every pixel of every layer cleared: windows and sprites transparent, background white. */
    ghost predicate Cleared()
      reads bgLayer, winLayer, spriteAbove, spriteBelow
      requires Layers()
    {
      forall x, y :: 0 <= x < ScreenWidth && 0 <= y < ScreenHeight ==>
        winLayer[x, y] == ColorTransparent && bgLayer[x, y] == ColorWhite &&
        spriteAbove[x, y] == ColorTransparent && spriteBelow[x, y] == ColorTransparent
    }

    /**
     * The GPU struct NewGPU builds before initialize(): LCDC 0x91, every other
     * register 0, zeroed VRAM and OAM, the display marked off.
     */
    constructor (ifr: MemReg)
      ensures Wired()
      ensures fresh(lcdc) && fresh(stat) && fresh(scy) && fresh(scx) && fresh(wy) && fresh(wx) && fresh(lyc)
      ensures fresh(bgp) && fresh(obp0) && fresh(obp1) && fresh(vram) && fresh(vram.data) && fresh(oam) && fresh(oam.data)
      ensures fresh(bgLayer) && fresh(winLayer) && fresh(spriteAbove) && fresh(spriteBelow)
      ensures this.ifr == ifr && lcdc.data == 0x91 && frames == [] && sprites == []
      ensures TimingState() == Timing(0, 0, 0, 0, false, false, false, false, false, false, false)
      ensures forall i :: 0 <= i < VramSize ==> vram.data[i] == 0
      ensures forall i :: 0 <= i < OamSize ==> oam.data[i] == 0
    {
      var v := NewZeroedRAM(VramSize, VramBase);
      var o := NewZeroedRAM(OamSize, OamBase);
      var layers := NewLayers();
      this.ifr := ifr;
      var regs := NewRegisters();
      var pals := NewPalettes();
      lcdc := new LCDC(0x91);
      stat := new STAT(0);
      scy, scx, wy, wx, lyc := regs.0, regs.1, regs.2, regs.3, regs.4;
      bgp, obp0, obp1 := pals.0, pals.1, pals.2;
      vram, oam := v, o;
      bgLayer, winLayer, spriteAbove, spriteBelow := layers.0, layers.1, layers.2, layers.3;
      ly, lx, cyclesCounter := 0, 0, 0;
      displayEnabled, spritesEnabled, backgroundEnabled := false, false, false;
      ignoreVBlank, ignoreHBlank, ignoreLYC, ignoreOAM := false, false, false, false;
      sprites, frames := [], [];
      searchWidth := 8;
    }

    /**
     * initialize(): line 0 in OAM search, counters and ignores reset, the
     * sprite and background enables latched from LCDC, no sprites, and every
     * layer cleared.
     */
    method Initialize()
      requires Wired()
      modifies this, stat, bgLayer, winLayer, spriteAbove, spriteBelow
      ensures Valid()
      ensures TimingState() == Initialized(old(TimingState()), lcdc.data)
      ensures displayEnabled == old(displayEnabled) && frames == old(frames) && searchWidth == old(searchWidth)
      ensures sprites == [] && Cleared()
    {
      ResetTiming();
      ClearLayers();
    }

    /** initialize()'s assignments. */
    method ResetTiming()
      modifies this`ly, this`lx, this`cyclesCounter, this`ignoreHBlank, this`ignoreLYC, this`ignoreOAM, this`ignoreVBlank
      modifies this`sprites, this`spritesEnabled, this`backgroundEnabled, stat
      ensures TimingState() == Initialized(old(TimingState()), lcdc.data)
      ensures sprites == []
    {
      ghost var t1 := Initialized(TimingState(), lcdc.data);
      stat.SetCoincidenceFlag(false);
      stat.SetModeFlag(ModeOAM);
      ly, lx, cyclesCounter := 0, 0, 0;
      ignoreHBlank, ignoreLYC, ignoreOAM, ignoreVBlank := false, false, false, false;
      sprites, spritesEnabled, backgroundEnabled := [], SpritesEnabled(lcdc.data), BackgroundEnabled(lcdc.data);
    }

    /** initialize()'s double loop over the screen. */
    method ClearLayers()
      requires Layers()
      modifies bgLayer, winLayer, spriteAbove, spriteBelow
      ensures Cleared()
    {
      var x := 0;
      while x < ScreenWidth
        invariant 0 <= x <= ScreenWidth
        invariant forall x', y' :: 0 <= x' < x && 0 <= y' < ScreenHeight ==>
          winLayer[x', y'] == ColorTransparent && bgLayer[x', y'] == ColorWhite &&
          spriteAbove[x', y'] == ColorTransparent && spriteBelow[x', y'] == ColorTransparent
      {
        var y := 0;
        while y < ScreenHeight
          invariant 0 <= y <= ScreenHeight
          invariant forall x', y' :: 0 <= x' < x && 0 <= y' < ScreenHeight ==>
            winLayer[x', y'] == ColorTransparent && bgLayer[x', y'] == ColorWhite &&
            spriteAbove[x', y'] == ColorTransparent && spriteBelow[x', y'] == ColorTransparent
          invariant forall y' :: 0 <= y' < y ==>
            winLayer[x, y'] == ColorTransparent && bgLayer[x, y'] == ColorWhite &&
            spriteAbove[x, y'] == ColorTransparent && spriteBelow[x, y'] == ColorTransparent
        {
          winLayer[x, y] := ColorTransparent;
          bgLayer[x, y] := ColorWhite;
          spriteAbove[x, y] := ColorTransparent;
          spriteBelow[x, y] := ColorTransparent;
          y := y + 1;
        }
        x := x + 1;
      }
    }
 
    /** Read: LY, 0 for the DMA register, the bytes of VRAM and OAM; any other address is out of range. */
    function Read(addr: u16): (r: Result<u8>)
      reads this, vram, vram.data, oam, oam.data
      requires Memories()
      ensures addr == AddrLY ==> r == Ok(ly)
      ensures addr == AddrDMA ==> r == Ok(0)
      ensures VramBase <= addr < VramBase + VramSize ==> r == Ok(vram.data[addr - VramBase])
      ensures OamBase <= addr < OamBase + OamSize ==> r == Ok(oam.data[addr - OamBase])
      ensures r.Err? <==> !Owns(addr)
      ensures r.Err? ==> r.error == ReadOutOfRange(addr)
    {
      if addr == AddrLY then Ok(ly)
      else if addr == AddrDMA then Ok(0)
      else if 0x8000 <= addr <= 0x9FFF then vram.Read(addr)
      else if 0xFE00 <= addr <= 0xFE9F then oam.Read(addr)
      else Err(ReadOutOfRange(addr))
    }

    /** The addresses NewGPU maps to the GPU itself. */
    predicate Owns(addr: u16)
    {
      addr == AddrLY || addr == AddrDMA || VramBase <= addr < VramBase + VramSize || OamBase <= addr < OamBase + OamSize
    }

    /**
     * What a Write of `d` at `addr` returning `s` did: one to LY restarts
     * the display (the timing re-initialized, the layers cleared, no sprites
     * found); one to VRAM or OAM stores the byte, which reads back; any
     * other address is out of range; nothing else changes.
     */
    twostate predicate Wrote(addr: u16, d: u8, s: Status)
      reads this, stat, lcdc, vram, vram.data, oam, oam.data, bgLayer, winLayer, spriteAbove, spriteBelow
    {
      Memories() && Layers() &&
      (s.Success? <==> Owns(addr)) &&
      (s.Failure? ==> s.error == WriteOutOfRange(addr)) &&
      (addr == AddrLY ==> TimingState() == Initialized(old(TimingState()), lcdc.data) && Cleared() && sprites == []) &&
      (addr != AddrLY ==> TimingState() == old(TimingState()) && sprites == old(sprites)) &&
      (addr != AddrLY ==> unchanged(bgLayer) && unchanged(winLayer) && unchanged(spriteAbove) && unchanged(spriteBelow)) &&
      vram.data[..] == (if VramBase <= addr < VramBase + VramSize then old(vram.data[..])[addr - VramBase := d] else old(vram.data[..])) &&
      oam.data[..] == (if OamBase <= addr < OamBase + OamSize then old(oam.data[..])[addr - OamBase := d] else old(oam.data[..])) &&
      (s.Success? && addr != AddrLY && addr != AddrDMA ==> Read(addr) == Ok(d)) &&
      frames == old(frames) && displayEnabled == old(displayEnabled) && searchWidth == old(searchWidth)
    }

    /** Nothing of the picture processor but OAM changed: the OAM transfer's frame. */
    twostate predicate OamOnly()
      reads this, stat, vram.data, bgLayer, winLayer, spriteAbove, spriteBelow
    {
      Layers() && TimingState() == old(TimingState()) && Snapshot() == old(Snapshot()) &&
      searchWidth == old(searchWidth) && vram.data[..] == old(vram.data[..])
    }

    /**
     * Write, with the effect `Wrote` states. A write to the DMA
     * register starts the OAM transfer, which copies through the memory bus
     * and is therefore done by the bus (`Bus.Machine.Dma`);
     * here it changes nothing.
     */
    method Write(addr: u16, d: u8) returns (s: Status)
      requires Valid()
      modifies this, stat, bgLayer, winLayer, spriteAbove, spriteBelow, vram.data, oam.data
      ensures Valid() && Wrote(addr, d, s)
      ensures OamBase <= addr < OamBase + OamSize ==> OamOnly()
    {
      if addr == AddrLY {
        Initialize();
        return Success;
      }
      if addr == AddrDMA {
        return Success;
      }
      if 0x8000 <= addr <= 0x9FFF {
        s := vram.Write(addr, d);
        return s;
      }
      if 0xFE00 <= addr <= 0xFE9F {
        s := oam.Write(addr, d);
        return s;
      }
      return Failure(WriteOutOfRange(addr));
    }

    // ---- pixels ----

    /** The background pixel renderBackgroundPixel draws at (x, y) now. */
    ghost function BgPixel(x: u8, y: u8): u8
      reads this`backgroundEnabled, lcdc, scx, scy, bgp, vram, vram.data, oam
      requires Memories()
    {
      BackgroundPixel(vram.data[..], lcdc.data, scx.data, scy.data, bgp.data, backgroundEnabled, x, y)
    }

    /** The window pixel renderWindowPixel draws at (x, y) now, `None` when it leaves the pixel alone. */
    ghost function WinPixel(x: u8, y: u8): Option<u8>
      reads lcdc, wx, wy, bgp, vram, vram.data, oam
      requires Memories()
    {
      WindowPixel(vram.data[..], lcdc.data, wx.data, wy.data, bgp.data, x, y)
    }


    /** renderBackgroundPixel */
    method RenderBackgroundPixel(x: u8, y: u8)
      requires Wired() && x < ScreenWidth && y < ScreenHeight
      modifies bgLayer
      ensures bgLayer[x, y] == BgPixel(x, y) && OnlyPixel(bgLayer, x, y)
    {
      if !backgroundEnabled {
        bgLayer[x, y] := ColorWhite;
        return;
      }
      var vr := vram.data[..];
      var sx, sy := Wrap8(x + scx.data), Wrap8(y + scy.data);
      var code := TileCode(vr, Tileset(lcdc.data), BackgroundMap(lcdc.data), sx / 8, sy / 8, sx % 8, sy % 8);
      bgLayer[x, y] := ToColor(bgp.data, code);
    }

    /** renderWindowPixel */
    method RenderWindowPixel(x: u8, y: u8)
      requires Wired() && x < ScreenWidth && y < ScreenHeight
      modifies winLayer
      ensures WinPixel(x, y).Some? ==> winLayer[x, y] == WinPixel(x, y).value
      ensures WinPixel(x, y).None? ==> winLayer[x, y] == old(winLayer[x, y])
      ensures OnlyPixel(winLayer, x, y)
    {
      if !WindowEnabled(lcdc.data) {
        winLayer[x, y] := ColorTransparent;
        return;
      }
      var wx := wx.data;
      if wx < 7 {
        return;
      }
      var wy := wy.data;
      if x < wx - 7 || y < wy {
        winLayer[x, y] := ColorTransparent;
        return;
      }
      var wxs, wys := x - (wx - 7), y - wy;
      var code := TileCode(vram.data[..], Tileset(lcdc.data), WindowMap(lcdc.data), wxs / 8, wys / 8, wxs % 8, wys % 8);
      winLayer[x, y] := ToColor(bgp.data, code);
    }

    // ---- sprites ----

    /**
     * renderSprite: the first sprite kept for the line is drawn on line `ly`
     * of the layer its priority picks, with the sprite height LCDC selects
     * now, and dropped from the list. A sprite that no longer fits that
     * height is calcCoords' panic, here a failure that changes nothing.
     */
    method RenderSprite() returns (s: Status)
      requires Wired() && ly < ScreenHeight
      modifies this`sprites, spriteAbove, spriteBelow
      ensures old(sprites) == [] ==> s.Success? && sprites == []
      ensures old(sprites) != [] ==> (s.Success? <==> SpriteSpan(old(sprites)[0], SpriteWidth(lcdc.data), ly).Some?)
      ensures s.Success? && old(sprites) != [] ==> sprites == old(sprites)[1..]
      ensures s.Success? && old(sprites) != [] ==>
        PaintOne((old(Line(spriteAbove, ly)), old(Line(spriteBelow, ly))), vram.data[..], SpriteWidth(lcdc.data),
                 obp0.data, obp1.data, ly, old(sprites)[0]) == Some((Line(spriteAbove, ly), Line(spriteBelow, ly)))
      ensures s.Failure? || old(sprites) == [] ==> sprites == old(sprites) && unchanged(spriteAbove) && unchanged(spriteBelow)
      ensures s.Failure? ==> s.error.SpriteOffScreen?
      ensures OnlyLine(spriteAbove, ly) && OnlyLine(spriteBelow, ly)
    {
      if |sprites| == 0 {
        return Success;
      }
      var attr := sprites[0];
      var y := ly;
      var w := SpriteWidth(lcdc.data);
      var cx := CalcCoords(attr.CoordinateX(), 8, 8, 159);
      if cx.None? {
        return Failure(SpriteOffScreen(attr.CoordinateX()));
      }
      var cy := CalcCoords(attr.CoordinateY(), 16, w, 143);
      if cy.None? {
        return Failure(SpriteOffScreen(attr.CoordinateY()));
      }
      var xs, xe, spx := cx.value.start, cx.value.end, cx.value.spr;
      var ys, spy := cy.value.start, cy.value.spr;
      var pal := SpritePalette(attr, obp0.data, obp1.data);
      spy := Wrap8(spy as int + Wrap8(y as int - ys as int));
      SpanOnScreen(attr, w, y);
      var span := Span(xs, xe, spx, spy);
      assert SpriteSpan(attr, w, y) == Some(span);
      ghost var lines := (Line(spriteAbove, y), Line(spriteBelow, y));
      PaintOneSpan(lines, vram.data[..], w, obp0.data, obp1.data, y, attr, span);
      var codes := SpriteCodes(vram.data[..], attr, w, span);
      if attr.Priority() == SpriteAboveBackground {
        DrawSprite(spriteAbove, codes, pal, span, y);
        assert Line(spriteBelow, y) == lines.1;
      } else {
        DrawSprite(spriteBelow, codes, pal, span, y);
        assert Line(spriteAbove, y) == lines.0;
      }
      sprites := sprites[1..];
      return Success;
    }

    /** renderSprite's loop over the columns of the sprite on line y of `layer`, given the codes it reads. */
    method DrawSprite(layer: array2<u8>, codes: seq<u8>, pal: u8, span: Span, y: u8)
      requires IsLayer(layer) && |codes| == ScreenWidth && y < ScreenHeight && span.xs <= span.xe < ScreenWidth
      modifies layer
      ensures Line(layer, y) == PaintCodes(old(Line(layer, y)), codes, pal, span)
      ensures OnlyLine(layer, y)
    {
      ghost var before := Line(layer, y);
      var x := span.xs;
      while x <= span.xe
        invariant span.xs <= x <= span.xe + 1
        invariant forall x' :: 0 <= x' < ScreenWidth ==>
          layer[x', y] == if x' < x then PaintCodes(before, codes, pal, span)[x'] else before[x']
        invariant OnlyLine(layer, y)
        modifies layer
      {
        if layer[x, y] == ColorTransparent && codes[x] != 0 {
          layer[x, y] := ToColor(pal, codes[x]);
        }
        x := x + 1;
      }
      assert Line(layer, y) == PaintCodes(before, codes, pal, span);
    }

    /**
     * searchOAM: the forty attributes at 0xFE00 + 4·id, those on line `ly`
     * for the sprite height LCDC selects, sorted by Less.
     */
    method SearchOAM() returns (attrs: seq<SpriteAttr>)
      requires Memories()
      ensures attrs == SortByLess(Found(oam.data[..], SpriteWidth(lcdc.data), ly, 40))
    {
      attrs := [];
      var w := SpriteWidth(lcdc.data);
      var id := 0;
      while id < 40
        invariant 0 <= id <= 40
        invariant attrs == Found(oam.data[..], w, ly, id)
      {
        var addr := 4 * id;
        var attr := SpriteAttr(oam.data[addr], oam.data[addr + 1], oam.data[addr + 2], oam.data[addr + 3]);
        assert attr == AttrAt(oam.data[..], id);
        if OffScreen(attr.CoordinateX(), 8, 8, 159) || OffScreen(attr.CoordinateY(), 16, w, 143) {
          id := id + 1;
          continue;
        }
        CoordsTotal(attr.CoordinateY(), 16, w, 143);
        var c := CalcCoords(attr.CoordinateY(), 16, w, 143).value;
        if c.start <= ly <= c.end {
          attrs := attrs + [attr];
        }
        id := id + 1;
      }
      attrs := SortByLess(attrs);
    }

    /** The background pixels of line y, as renderBackgroundPixel draws them now. */
    ghost function BgRow(y: u8): (r: seq<u8>)
      reads this`backgroundEnabled, lcdc, scx, scy, bgp, vram, vram.data
      requires vram.data.Length == VramSize
      ensures |r| == ScreenWidth
    {
      var vr, l, sx, sy, p, e := vram.data[..], lcdc.data, scx.data, scy.data, bgp.data, backgroundEnabled;
      seq(ScreenWidth, x requires 0 <= x < ScreenWidth => BackgroundPixel(vr, l, sx, sy, p, e, x, y))
    }

    /** The window pixels of line y, as renderWindowPixel draws them now. */
    ghost function WinRow(y: u8): (r: seq<Option<u8>>)
      reads lcdc, wx, wy, bgp, vram, vram.data
      requires vram.data.Length == VramSize
      ensures |r| == ScreenWidth
    {
      var vr, l, x0, y0, p := vram.data[..], lcdc.data, wx.data, wy.data, bgp.data;
      seq(ScreenWidth, x requires 0 <= x < ScreenWidth => WindowPixel(vr, l, x0, y0, p, x, y))
    }

    /** The start of a run of scanPixels on line y from column `from`, as things are now. */
    ghost function Start(from: nat, y: u8): (st: LineScan)
      reads this`sprites, this`backgroundEnabled, lcdc, scx, scy, wx, wy, bgp, vram, vram.data, oam
      reads bgLayer, winLayer, spriteAbove, spriteBelow
      requires Memories() && Layers() && y < ScreenHeight
      ensures st.Sized() && st.y == y && st.from == from
    {
      LineScan(y, from, BgRow(y), WinRow(y), Rows(bgLayer), Rows(winLayer), Rows(spriteAbove), Rows(spriteBelow),
               vram.data[..], sprites)
    }

    /**
     * The run `st` has drawn columns st.from..upto-1 of its line: there the
     * background layer holds the pixels of `st.bgRow`, and the window layer
     * those of `st.winRow` where the window decides the pixel; every other
     * pixel of both is as at the start.
     */
    ghost predicate PixelsDrawn(st: LineScan, upto: nat)
      reads bgLayer, winLayer
      requires Layers() && st.Sized()
    {
      Rows(bgLayer) == st.bg[st.y := Splice(st.bg[st.y], st.bgRow, st.from, upto)] &&
      Rows(winLayer) == st.win[st.y := SpliceSome(st.win[st.y], st.winRow, st.from, upto)]
    }

    /**
     * The run `st` has drawn its first k sprites in order on its line of the
     * sprite layers, whose other lines are as at the start, and dropped them.
     */
    ghost predicate SpritesDrawn(st: LineScan, k: nat)
      reads this`sprites, lcdc, obp0, obp1, spriteAbove, spriteBelow
      requires Layers() && st.Sized()
    {
      k <= |st.sprites| && sprites == st.sprites[k..] &&
      var r := PaintAll((st.above[st.y], st.below[st.y]), st.vram, SpriteWidth(lcdc.data), obp0.data, obp1.data, st.y, st.sprites[..k]);
      r.Some? && Rows(spriteAbove) == st.above[st.y := r.value.0] && Rows(spriteBelow) == st.below[st.y := r.value.1]
    }

    /**
     * The run `st` has drawn `count` pixels of its line, and the sprites due
     * on those columns (one at each multiple of 16).
     */
    ghost predicate Scanned(st: LineScan, count: nat)
      reads this`sprites, lcdc, obp0, obp1, bgLayer, winLayer, spriteAbove, spriteBelow
      requires Layers() && st.Sized()
    {
      PixelsDrawn(st, st.from + count) && SpritesDrawn(st, Min(|st.sprites|, Turns(st.from, count)))
    }

    /** A run starts with nothing drawn, from registers and VRAM as they are. */
    lemma ScanStart(from: nat, y: u8)
      requires Wired() && from <= ScreenWidth && y < ScreenHeight
      ensures Sources(Start(from, y)) && Scanning(Start(from, y), 0, from)
    {
      var st := Start(from, y);
      assert st.sprites[..0] == [] && st.sprites[0..] == st.sprites;
      assert Splice(st.bg[y], st.bgRow, from, from) == st.bg[y] && st.bg[y := st.bg[y]] == st.bg;
      assert SpliceSome(st.win[y], st.winRow, from, from) == st.win[y] && st.win[y := st.win[y]] == st.win;
      assert st.above[y := st.above[y]] == st.above && st.below[y := st.below[y]] == st.below;
    }

    /** The registers and VRAM the run `st` read its pixels from are still in place. */
    ghost predicate Sources(st: LineScan)
      reads this`backgroundEnabled, lcdc, scx, scy, wx, wy, bgp, vram, vram.data
      requires vram.data.Length == VramSize && st.Sized()
    {
      st.bgRow == BgRow(st.y) && st.winRow == WinRow(st.y) && st.vram == vram.data[..]
    }

    /** The run `st` has reached column x with k sprites drawn. */
    ghost predicate Scanning(st: LineScan, k: nat, x: nat)
      reads this`sprites, lcdc, obp0, obp1, bgLayer, winLayer, spriteAbove, spriteBelow
      requires Layers() && st.Sized()
    {
      st.from <= x <= ScreenWidth && PixelsDrawn(st, x) && SpritesDrawn(st, k) &&
      k == Min(|st.sprites|, Turns(st.from, x - st.from))
    }

    /** The run `st` has drawn the pixel at column x, but not yet the sprite that may be due there. */
    ghost predicate Rendered(st: LineScan, k: nat, x: nat)
      reads this`sprites, lcdc, obp0, obp1, bgLayer, winLayer, spriteAbove, spriteBelow
      requires Layers() && st.Sized()
    {
      st.from <= x < ScreenWidth && PixelsDrawn(st, x + 1) && SpritesDrawn(st, k) &&
      k == Min(|st.sprites|, Turns(st.from, x - st.from))
    }

    /**
     * scanPixels: draw up to `n` pixels of line `ly` from column `lx`, which
     * moves with them; true, with `lx` back at 0, once the line is complete.
     * It fails only with a sprite that no longer fits the current height.
     */
    method ScanPixels(n: u8, ghost st: LineScan) returns (hb: bool, s: Status)
      requires Wired() && lx < ScreenWidth && ly < ScreenHeight && st == Start(lx, ly)
      modifies this`lx, this`sprites, bgLayer, winLayer, spriteAbove, spriteBelow
      ensures s.Success? ==> var count := Min(n, ScreenWidth - st.from);
        (hb <==> st.from + count == ScreenWidth) && lx == (if hb then 0 else st.from + count) &&
        Scanned(st, count)
      ensures (forall i :: 0 <= i < |st.sprites| ==> SpriteSpan(st.sprites[i], SpriteWidth(lcdc.data), ly).Some?) ==> s.Success?
      ensures s.Failure? ==> s.error.SpriteOffScreen? && lx < ScreenWidth
      ensures |sprites| <= |st.sprites| && sprites == st.sprites[|st.sprites| - |sprites|..]
    {
      ScanStart(lx, ly);
      var x;
      ghost var k;
      s, x, k := ScanColumns(n, st);
      hb := s.Success? && x == ScreenWidth;
      lx := if hb then 0 else x;
      ScanEnd(st, k, x, n, s.Success?);
    }

    /** Where a run of scanPixels ends: the line as far as it got, and the sprites not yet drawn. */
    lemma ScanEnd(st: LineScan, k: nat, x: nat, n: u8, done: bool)
      requires Layers() && st.Sized()
      requires done ==> x == st.from + Min(n, ScreenWidth - st.from) && Scanning(st, k, x)
      requires !done ==> SpritesDrawn(st, k)
      ensures done ==> Scanned(st, Min(n, ScreenWidth - st.from))
      ensures |sprites| <= |st.sprites| && sprites == st.sprites[|st.sprites| - |sprites|..]
    {
    }

    /**
     * The loop of scanPixels: up to `n` columns, stopping at
     * the end of the line or at a sprite that fails. The column runs in `x` from
     * `lx`, and the caller stores it back in `lx`; nothing reads `lx` meanwhile.
     */
    method ScanColumns(n: u8, ghost st: LineScan) returns (s: Status, x: u8, ghost k: nat)
      requires Wired() && st.Sized() && st.y == ly && st.from == lx < ScreenWidth && Sources(st) && Scanning(st, 0, lx)
      modifies this`sprites, bgLayer, winLayer, spriteAbove, spriteBelow
      ensures s.Success? ==> x == st.from + Min(n, ScreenWidth - st.from) && Scanning(st, k, x)
      ensures s.Failure? ==> k < |st.sprites| && SpriteSpan(st.sprites[k], SpriteWidth(lcdc.data), ly).None?
      ensures s.Failure? ==> s.error.SpriteOffScreen? && x < ScreenWidth && SpritesDrawn(st, k)
    {
      k, x := 0, lx;
      var left := n;
      s := Success;
      while x < ScreenWidth && left > 0
        invariant Wired() && Sources(st)
        invariant x - st.from + left == n as int && s.Success? && Scanning(st, k, x)
      {
        s, k := ScanColumn(st, k, x);
        if s.Failure? {
          return;
        }
        left := left - 1;
        x := x + 1;
      }
    }

    /** One column of scanPixels: the pixel at (x, ly), then the sprite that may be due there. */
    method ScanColumn(ghost st: LineScan, ghost k: nat, x: u8) returns (s: Status, ghost k': nat)
      requires Wired() && st.Sized() && st.y == ly && x < ScreenWidth && Sources(st) && Scanning(st, k, x)
      modifies this`sprites, bgLayer, winLayer, spriteAbove, spriteBelow
      ensures s.Success? ==> Scanning(st, k', x + 1)
      ensures s.Failure? ==> k' == k < |st.sprites| && SpriteSpan(st.sprites[k], SpriteWidth(lcdc.data), ly).None?
      ensures s.Failure? ==> s.error.SpriteOffScreen? && SpritesDrawn(st, k)
    {
      DrawPixel(st, k, x);
      s, k' := SpriteColumn(st, k, x);
    }

    /** The pixel of scanPixels at (x, ly). */
    method DrawPixel(ghost st: LineScan, ghost k: nat, x: u8)
      requires Wired() && st.Sized() && st.y == ly && x < ScreenWidth && Sources(st) && Scanning(st, k, x)
      modifies bgLayer, winLayer
      ensures Rendered(st, k, x)
    {
      ghost var bg, win := Rows(bgLayer), Rows(winLayer);
      RowsPixels(bgLayer);
      RowsPixels(winLayer);
      RenderPixel(x, ly);
      assert BgPixel(x, ly) == st.bgRow[x] && WinPixel(x, ly) == st.winRow[x];
      SplicePixel(bgLayer, bg, st.bg, st.bgRow, st.from, x, ly);
      SpliceSomePixel(winLayer, win, st.win, st.winRow, st.from, x, ly);
    }

    /** The rest of a column of scanPixels: at a multiple of 16, the next sprite. */
    method SpriteColumn(ghost st: LineScan, ghost k: nat, x: u8) returns (s: Status, ghost k': nat)
      requires Wired() && st.Sized() && st.y == ly && Sources(st) && Rendered(st, k, x)
      modifies this`sprites, spriteAbove, spriteBelow
      ensures s.Success? ==> Scanning(st, k', x + 1)
      ensures s.Failure? ==> k' == k < |st.sprites| && SpriteSpan(st.sprites[k], SpriteWidth(lcdc.data), ly).None?
      ensures s.Failure? ==> s.error.SpriteOffScreen? && SpritesDrawn(st, k)
    {
      TurnsNext(st.from, x - st.from);
      s, k' := Success, k;
      if x % 16 == 0 {
        s, k' := SpriteTurn(st, k);
        if s.Failure? {
          return;
        }
      }
    }

    /** The renderSprite call of scanPixels: on success one more sprite of the run is drawn, unless all are. */
    method SpriteTurn(ghost st: LineScan, ghost k: nat) returns (s: Status, ghost k': nat)
      requires Wired() && st.Sized() && st.y == ly && st.vram == vram.data[..] && SpritesDrawn(st, k)
      modifies this`sprites, spriteAbove, spriteBelow
      ensures s.Success? ==> k' == Min(|st.sprites|, k + 1) && SpritesDrawn(st, k')
      ensures s.Failure? ==> k' == k < |st.sprites| && SpriteSpan(st.sprites[k], SpriteWidth(lcdc.data), ly).None?
      ensures s.Failure? ==> s.error.SpriteOffScreen? && SpritesDrawn(st, k)
    {
      k' := k;
      ghost var lines := PaintAll((st.above[ly], st.below[ly]), st.vram, SpriteWidth(lcdc.data), obp0.data, obp1.data, ly, st.sprites[..k]).value;
      assert Line(spriteAbove, ly) == Rows(spriteAbove)[ly] == lines.0;
      assert Line(spriteBelow, ly) == Rows(spriteBelow)[ly] == lines.1;
      RowsPixels(spriteAbove);
      RowsPixels(spriteBelow);
      s := RenderSprite();
      if s.Success? && k < |st.sprites| {
        PaintAllSnoc((st.above[ly], st.below[ly]), st.vram, SpriteWidth(lcdc.data), obp0.data, obp1.data, ly, st.sprites, k);
        assert st.sprites[k..][1..] == st.sprites[k + 1..];
        PixelsRows(spriteAbove, st.above[ly := Line(spriteAbove, ly)]);
        PixelsRows(spriteBelow, st.below[ly := Line(spriteBelow, ly)]);
        k' := k + 1;
      }
    }

    /** renderPixel: the background pixel, then the window pixel, at (x, y). */
    method RenderPixel(x: u8, y: u8)
      requires Wired() && x < ScreenWidth && y < ScreenHeight
      modifies bgLayer, winLayer
      ensures bgLayer[x, y] == BgPixel(x, y) && OnlyPixel(bgLayer, x, y)
      ensures winLayer[x, y] == if WinPixel(x, y).Some? then WinPixel(x, y).value else old(winLayer[x, y])
      ensures OnlyPixel(winLayer, x, y)
    {
      RenderBackgroundPixel(x, y);
      RenderWindowPixel(x, y);
    }

    // ---- frames ----

    /** The frame createFrame makes of the layers as they are now. */
    ghost function CurrentFrame(): seq<seq<u8>>
      reads bgLayer, winLayer, spriteAbove, spriteBelow
      requires Layers()
    {
      FrameOf(Rows(bgLayer), Rows(winLayer), Rows(spriteAbove), Rows(spriteBelow))
    }

    /** createFrame */
    method CreateFrame() returns (f: array2<u8>)
      requires Layers()
      ensures fresh(f) && IsLayer(f) && Rows(f) == CurrentFrame()
    {
      f := new u8[ScreenWidth, ScreenHeight];
      var x := 0;
      while x < ScreenWidth
        invariant 0 <= x <= ScreenWidth
        invariant forall x', y' :: 0 <= x' < x && 0 <= y' < ScreenHeight ==>
          f[x', y'] == MergePixel(winLayer[x', y'], bgLayer[x', y'], spriteAbove[x', y'], spriteBelow[x', y'])
      {
        var y := 0;
        while y < ScreenHeight
          invariant 0 <= y <= ScreenHeight
          invariant forall x', y' :: 0 <= x' < x && 0 <= y' < ScreenHeight ==>
            f[x', y'] == MergePixel(winLayer[x', y'], bgLayer[x', y'], spriteAbove[x', y'], spriteBelow[x', y'])
          invariant forall y' :: 0 <= y' < y ==>
            f[x, y'] == MergePixel(winLayer[x, y'], bgLayer[x, y'], spriteAbove[x, y'], spriteBelow[x, y'])
        {
          if winLayer[x, y] == ColorTransparent {
            f[x, y] := bgLayer[x, y];
          } else {
            f[x, y] := winLayer[x, y];
          }
          if spriteAbove[x, y] != ColorTransparent {
            f[x, y] := spriteAbove[x, y];
          } else if f[x, y] == PixelWhite && spriteBelow[x, y] != ColorTransparent {
            f[x, y] := spriteBelow[x, y];
          }
          y := y + 1;
        }
        x := x + 1;
      }
      RowsPixels(bgLayer);
      RowsPixels(winLayer);
      RowsPixels(spriteAbove);
      RowsPixels(spriteBelow);
      PixelsRows(f, CurrentFrame());
    }

    /** One new frame after those in `shown` handed to the monitor, made of the layers as they are now. */
    ghost predicate Showed(shown: seq<seq<seq<u8>>>)
      reads this`frames, bgLayer, winLayer, spriteAbove, spriteBelow
      requires Layers()
    {
      frames == shown + [CurrentFrame()]
    }

    /**
     * updateMonitor: the frame goes to the monitor, modelled as the list of
     * frames shown so far; the frame pacing sleep is not modelled.
     */
    method UpdateMonitor()
      requires Layers()
      modifies this`frames
      ensures Showed(old(frames))
    {
      var f := CreateFrame();
      frames := frames + [Rows(f)];
    }

    // ---- the clock ----

    /** The sprites, the frames shown and the lines of the four layers, as they are now. */
    ghost function Snapshot(): Before
      reads this`sprites, this`frames, bgLayer, winLayer, spriteAbove, spriteBelow
      requires Layers()
    {
      Before(sprites, frames, Rows(bgLayer), Rows(winLayer), Rows(spriteAbove), Rows(spriteBelow))
    }

    /**
     * The end of the OAM search on line y, after `b`: that line of both
     * sprite layers transparent, every other pixel as it was, and, while
     * sprites are enabled, the sprites of the line looked up in OAM.
     */
    ghost predicate SearchDone(y: u8, b: Before)
      reads this`sprites, this`spritesEnabled, this`frames, lcdc, oam, oam.data, bgLayer, winLayer, spriteAbove, spriteBelow
      requires Layers() && oam.data.Length == OamSize && y < ScreenHeight
    {
      y < |b.above| && y < |b.below| &&
      Rows(bgLayer) == b.bg && Rows(winLayer) == b.win &&
      Rows(spriteAbove) == ClearedLine(b.above, y) && Rows(spriteBelow) == ClearedLine(b.below, y) &&
      sprites == (if spritesEnabled then LineSprites(oam.data[..], SpriteWidth(lcdc.data), y) else b.sprites) &&
      frames == b.frames
    }

    /**
     * What the step did besides the timing, after `b`, for each kind of
     * work: the pixels of a scan are those of the run `st`, as far as it got.
     */
    ghost predicate Did(w: Work, st: LineScan, s: Status, b: Before)
      reads this`sprites, this`spritesEnabled, this`frames, lcdc, obp0, obp1, oam, oam.data
      reads bgLayer, winLayer, spriteAbove, spriteBelow
      requires Layers() && oam.data.Length == OamSize
    {
      match w
      case Idle => Snapshot() == b
      case PowerOff => Cleared() && sprites == [] && Showed(b.frames)
      case Search(y) => y < ScreenHeight && SearchDone(y, b)
      case Scan(_, count, _) => st.Sized() && (s.Success? ==> Scanned(st, count)) && frames == b.frames
      case Frame => Snapshot() == b.(frames := frames) && Showed(b.frames)
      case LineFault => false
    }

    /**
     * The effect `e` carried out from the layers and sprites of `b` and the
     * interrupt flags `ifd`: its drawing, and on success its timing and its
     * interrupt requests; a failure is a transfer's sprite off the screen.
     */
    ghost predicate Performed(e: Effect, st: LineScan, s: Status, b: Before, ifd: u8)
      reads this, lcdc, obp0, obp1, oam, oam.data, bgLayer, winLayer, spriteAbove, spriteBelow, stat, ifr
      requires Layers() && oam.data.Length == OamSize
    {
      Did(e.work, st, s, b) &&
      (s.Success? ==> TimingState() == e.next && ifr.data == Raise(ifd, e.requests)) &&
      (s.Failure? ==> e.work.Scan? && s.error.SpriteOffScreen?)
    }

    /**
     * What ClockChanged(cycles) did, returning `s`, from a state in which
     * the line being drawn starts as `Start` says: the step of the scanline
     * state machine with its drawing and interrupt requests, which cannot
     * fail while the sprite height is the one the OAM search used.
     */
    twostate predicate Clocked(cycles: nat, s: Status)
      reads this, stat, lcdc, lyc, obp0, obp1, oam, oam.data, bgLayer, winLayer, spriteAbove, spriteBelow, ifr
    {
      old(Memories()) && Layers() && oam.data.Length == OamSize &&
      Performed(Step(old(TimingState()), lcdc.data, lyc.data, cycles),
                old(Start(lx, if ly < ScreenHeight then ly else 0)), s, old(Snapshot()), old(ifr.data)) &&
      (SpriteWidth(lcdc.data) == old(searchWidth) ==> s.Success?)
    }

    /**
     * ClockChanged: the step of the scanline state machine for `cycles`
     * cycles, with the drawing it calls for and its interrupt requests. It
     * fails only in a transfer, when a sprite found by the OAM search no
     * longer fits the sprite height LCDC selects now. `st` is the run of
     * scanPixels the step may make: the drawing state as it is now.
     */
    method ClockChanged(cycles: nat, ghost st: LineScan) returns (s: Status)
      requires Valid() && (ly < ScreenHeight ==> st == Start(lx, ly))
      modifies this, stat, ifr, bgLayer, winLayer, spriteAbove, spriteBelow
      ensures Valid()
      ensures Performed(Step(old(TimingState()), lcdc.data, lyc.data, cycles), st, s, old(Snapshot()), old(ifr.data))
      ensures SpriteWidth(lcdc.data) == old(searchWidth) ==> s.Success?
      ensures st == old(Start(lx, if ly < ScreenHeight then ly else 0)) ==> Clocked(cycles, s)
    {
      if !DisplayEnabled(lcdc.data) {
        s := DisplayOff(cycles, st);
      } else {
        s := DisplayOn(cycles, st);
      }
    }

    /** ClockChanged with the display off in LCDC: the power-down when it was on, else nothing. */
    method DisplayOff(cycles: nat, ghost st: LineScan) returns (s: Status)
      requires Valid() && !DisplayEnabled(lcdc.data)
      modifies this, stat, bgLayer, winLayer, spriteAbove, spriteBelow
      ensures Valid() && s.Success?
      ensures Performed(Step(old(TimingState()), lcdc.data, lyc.data, cycles), st, s, old(Snapshot()), old(ifr.data))
    {
      if displayEnabled {
        PowerDown();
      }
      return Success;
    }

    /** ClockChanged with the display on in LCDC: the display marked on, then the coincidence check and the mode's step. */
    method DisplayOn(cycles: nat, ghost st: LineScan) returns (s: Status)
      requires Valid() && DisplayEnabled(lcdc.data) && (ly < ScreenHeight ==> st == Start(lx, ly))
      modifies this, stat, ifr, bgLayer, winLayer, spriteAbove, spriteBelow
      ensures Valid()
      ensures Performed(Step(old(TimingState()), lcdc.data, lyc.data, cycles), st, s, old(Snapshot()), old(ifr.data))
      ensures SpriteWidth(lcdc.data) == old(searchWidth) ==> s.Success?
    {
      StepMarksOn(TimingState(), lcdc.data, lyc.data, cycles);
      displayEnabled := true;
      s := CoincideThenMode(cycles, st);
    }

    /** The coincidence check, then, unless it requested its interrupt, the mode's step. */
    method CoincideThenMode(cycles: nat, ghost st: LineScan) returns (s: Status)
      requires Valid() && DisplayEnabled(lcdc.data) && displayEnabled && (ly < ScreenHeight ==> st == Start(lx, ly))
      modifies this`cyclesCounter, this`lx, this`ly, this`sprites, this`searchWidth, this`frames
      modifies this`ignoreVBlank, this`ignoreHBlank, this`ignoreLYC, this`ignoreOAM, this`spritesEnabled, this`backgroundEnabled
      modifies stat, ifr, bgLayer, winLayer, spriteAbove, spriteBelow
      ensures Valid()
      ensures Performed(Step(old(TimingState()), lcdc.data, lyc.data, cycles), st, s, old(Snapshot()), old(ifr.data))
      ensures SpriteWidth(lcdc.data) == old(searchWidth) ==> s.Success?
    {
      StepOn(TimingState(), lcdc.data, lyc.data, cycles, ifr.data);
      var fired := Coincide();
      if fired {
        return Success;
      }
      s := ModeAfterCheck(cycles, st, old(TimingState()), old(Snapshot()), old(ifr.data));
    }

    /** The mode's step after a coincidence check from `t` that requested no interrupt. */
    method ModeAfterCheck(cycles: nat, ghost st: LineScan, ghost t: Timing, ghost b: Before, ghost ifd: u8) returns (s: Status)
      requires Valid() && DisplayEnabled(lcdc.data) && t.displayEnabled && (ly < ScreenHeight ==> st == Start(lx, ly))
      requires !CheckCoincidence(t, lyc.data).fired && TimingState() == CheckCoincidence(t, lyc.data).next
      requires Snapshot() == b && ifr.data == ifd
      modifies this`cyclesCounter, this`lx, this`ly, this`sprites, this`searchWidth, this`frames
      modifies this`ignoreVBlank, this`ignoreHBlank, this`ignoreLYC, this`ignoreOAM, this`spritesEnabled, this`backgroundEnabled
      modifies stat, ifr, bgLayer, winLayer, spriteAbove, spriteBelow
      ensures Valid()
      ensures Performed(Step(t, lcdc.data, lyc.data, cycles), st, s, b, ifd)
      ensures SpriteWidth(lcdc.data) == old(searchWidth) ==> s.Success?
    {
      StepOn(t, lcdc.data, lyc.data, cycles, ifd);
      assert t.(displayEnabled := true) == t;
      s := ModeClock(cycles, st);
    }

    /** The display switched off: initialize(), a frame of the cleared layers to the monitor, and the display marked off. */
    method PowerDown()
      requires Wired()
      modifies this, stat, bgLayer, winLayer, spriteAbove, spriteBelow
      ensures Valid() && searchWidth == old(searchWidth)
      ensures TimingState() == Initialized(old(TimingState()), lcdc.data).(displayEnabled := false)
      ensures Cleared() && sprites == [] && Showed(old(frames))
    {
      Initialize();
      UpdateMonitor();
      displayEnabled := false;
    }

    /**
     * The coincidence check: the flag set when LY reaches LYC and cleared
     * when it leaves it; true when that requested the LCD-status interrupt,
     * which ends the step.
     */
    method Coincide() returns (fired: bool)
      requires Valid()
      modifies this`ignoreOAM, this`ignoreVBlank, this`ignoreHBlank, stat, ifr
      ensures Valid() && Snapshot() == old(Snapshot())
      ensures var c := CheckCoincidence(old(TimingState()), lyc.data);
        TimingState() == c.next && fired == c.fired &&
        ifr.data == if fired then Or8(old(ifr.data), Irq.LcdStatusTriggersFlag) else old(ifr.data)
    {
      CheckKeepsLines(TimingState(), lyc.data);
      fired := UpdateCoincidence();
    }

    /** The coincidence check on STAT, the ignores and IF alone. */
    method UpdateCoincidence() returns (fired: bool)
      modifies this`ignoreOAM, this`ignoreVBlank, this`ignoreHBlank, stat, ifr
      requires ifr != lyc
      ensures var c := CheckCoincidence(old(TimingState()), lyc.data);
        TimingState() == c.next && fired == c.fired &&
        ifr.data == if fired then Or8(old(ifr.data), Irq.LcdStatusTriggersFlag) else old(ifr.data)
    {
      fired := false;
      if ly == lyc.data && !CoincidenceFlag(stat.data) {
        fired := RaiseCoincidence();
      } else if ly != lyc.data {
        stat.SetCoincidenceFlag(false);
      }
    }

    /** LY has just reached LYC: the flag set, and the interrupt when STAT enables it and it is not ignored. */
    method RaiseCoincidence() returns (fired: bool)
      modifies this`ignoreOAM, this`ignoreVBlank, this`ignoreHBlank, stat, ifr
      requires ifr != lyc && ly == lyc.data && !CoincidenceFlag(stat.data)
      ensures var c := CheckCoincidence(old(TimingState()), lyc.data);
        TimingState() == c.next && fired == c.fired &&
        ifr.data == if fired then Or8(old(ifr.data), Irq.LcdStatusTriggersFlag) else old(ifr.data)
    {
      stat.SetCoincidenceFlag(true);
      fired := CoincidenceInterruptEnabled(stat.data) && !ignoreLYC;
      if fired {
        IgnoreAfterCoincidence();
      }
    }

    /** The coincidence interrupt, and the interrupts of the line LYC names that it stands for. */
    method IgnoreAfterCoincidence()
      modifies this`ignoreOAM, this`ignoreVBlank, this`ignoreHBlank, ifr
      ensures TimingState() == old(TimingState()).(ignoreOAM := old(ignoreOAM) || (lyc.data <= 143 && lyc.data > 0),
                                                   ignoreVBlank := old(ignoreVBlank) || lyc.data == 143,
                                                   ignoreHBlank := old(ignoreHBlank) || lyc.data <= 143)
      ensures ifr.data == Or8(old(ifr.data), Irq.LcdStatusTriggersFlag)
    {
      Irq.Request(ifr, Irq.LcdStatusTriggersFlag);
      if lyc.data <= 143 {
        ignoreOAM, ignoreVBlank, ignoreHBlank := ignoreOAM || lyc.data > 0, ignoreVBlank || lyc.data == 143, true;
      }
    }

    /** The `switch` on the mode flag. */
    method ModeClock(cycles: nat, ghost st: LineScan) returns (s: Status)
      requires Valid() && (ly < ScreenHeight ==> st == Start(lx, ly))
      modifies this`cyclesCounter, this`lx, this`ly, this`sprites, this`searchWidth, this`frames
      modifies this`ignoreVBlank, this`ignoreHBlank, this`ignoreLYC, this`ignoreOAM, this`spritesEnabled, this`backgroundEnabled
      modifies stat, ifr, bgLayer, winLayer, spriteAbove, spriteBelow
      ensures Valid()
      ensures Performed(ModeStep(old(TimingState()), lcdc.data, cycles), st, s, old(Snapshot()), old(ifr.data))
      ensures SpriteWidth(lcdc.data) == old(searchWidth) ==> s.Success?
    {
      var mode := ModeFlag(stat.data);
      ghost var t := TimingState();
      if mode == ModeOAM {
        assert ModeStep(t, lcdc.data, cycles) == OamStep(t, cycles);
        s := OamMode(cycles, st);
      } else if mode == ModeTransfer {
        assert ModeStep(t, lcdc.data, cycles) == TransferStep(t, cycles);
        s := TransferMode(cycles, st);
      } else if mode == ModeHBlank {
        assert ModeStep(t, lcdc.data, cycles) == HBlankStep(t, cycles);
        s := HBlankMode(cycles, st);
      } else {
        assert ModeStep(t, lcdc.data, cycles) == VBlankStep(t, lcdc.data, cycles);
        s := VBlankMode(cycles, st);
      }
    }

    /** ModeClock's OAM search case. */
    method OamMode(cycles: nat, ghost st: LineScan) returns (s: Status)
      requires Valid() && TimingState().Mode() == ModeOAM
      modifies this`cyclesCounter, this`sprites, this`searchWidth, stat, spriteAbove, spriteBelow
      ensures Valid() && s.Success?
      ensures Performed(OamStep(old(TimingState()), cycles), st, s, old(Snapshot()), old(ifr.data))
    {
      OamStepKeepsLines(TimingState(), cycles);
      OamClock(cycles);
      s := Success;
    }

    /** ModeClock's transfer case. */
    method TransferMode(cycles: nat, ghost st: LineScan) returns (s: Status)
      requires Valid() && TimingState().Mode() == ModeTransfer && st == Start(lx, ly)
      modifies this`lx, this`ly, this`sprites, this`ignoreVBlank, this`ignoreHBlank, this`ignoreOAM
      modifies stat, ifr, bgLayer, winLayer, spriteAbove, spriteBelow
      ensures Valid()
      ensures Performed(TransferStep(old(TimingState()), cycles), st, s, old(Snapshot()), old(ifr.data))
      ensures SpriteWidth(lcdc.data) == old(searchWidth) ==> s.Success?
    {
      TransferStepKeepsLines(TimingState(), cycles);
      s := TransferClock(cycles, st);
    }

    /** ModeClock's h-blank case. */
    method HBlankMode(cycles: nat, ghost st: LineScan) returns (s: Status)
      requires Valid() && TimingState().Mode() == ModeHBlank
      modifies this`cyclesCounter, this`ignoreOAM, this`ignoreLYC, this`ignoreVBlank, this`frames, stat, ifr
      ensures Valid() && s.Success?
      ensures Performed(HBlankStep(old(TimingState()), cycles), st, s, old(Snapshot()), old(ifr.data))
    {
      HBlankStepKeepsLines(TimingState(), cycles);
      HBlankClock(cycles);
      s := Success;
    }

    /** ModeClock's v-blank case. */
    method VBlankMode(cycles: nat, ghost st: LineScan) returns (s: Status)
      requires Valid() && TimingState().Mode() == ModeVBlank
      modifies this`cyclesCounter, this`ly, this`ignoreLYC, this`spritesEnabled, this`backgroundEnabled, this`ignoreOAM, stat, ifr
      ensures Valid() && s.Success?
      ensures Performed(VBlankStep(old(TimingState()), lcdc.data, cycles), st, s, old(Snapshot()), old(ifr.data))
    {
      VBlankStepKeepsLines(TimingState(), lcdc.data, cycles);
      VBlankClock(cycles);
      s := Success;
    }

    /** Searching OAM: 80 cycles, then the sprites of the line and the transfer. */
    method OamClock(cycles: nat)
      requires Wired() && SpritesFit() && TimingState().Lines() && TimingState().Mode() == ModeOAM
      modifies this`cyclesCounter, this`sprites, this`searchWidth, stat, spriteAbove, spriteBelow
      ensures SpritesFit() && (searchWidth == 8 || searchWidth == 16)
      ensures var e := OamStep(old(TimingState()), cycles);
        TimingState() == e.next && e.requests == [] &&
        (e.work == Idle ==> Snapshot() == old(Snapshot()) && searchWidth == old(searchWidth)) &&
        (e.work == Search(ly) ==> SearchDone(ly, old(Snapshot()))) && e.work in {Idle, Search(ly)}
      ensures !old(spritesEnabled) ==> searchWidth == old(searchWidth)
      ensures old(spritesEnabled) && OamStep(old(TimingState()), cycles).work != Idle ==> searchWidth == SpriteWidth(lcdc.data)
    {
      if cyclesCounter + cycles < OamCycles {
        OamWait(old(TimingState()), cycles);
        cyclesCounter := cyclesCounter + cycles;
        return;
      }
      OamDone(old(TimingState()), cycles);
      cyclesCounter := cyclesCounter + cycles - OamCycles;
      EndSearch();
    }

    /** The end of the search: the line of the sprite layers cleared, the sprites found, and the transfer mode. */
    method EndSearch()
      requires Wired() && SpritesFit() && ly < ScreenHeight
      modifies this`sprites, this`searchWidth, stat, spriteAbove, spriteBelow
      ensures TimingState() == old(TimingState()).(stat := WithMode(old(stat.data), ModeTransfer))
      ensures SearchDone(ly, old(Snapshot())) && SpritesFit() && (searchWidth == 8 || searchWidth == 16)
      ensures searchWidth == if spritesEnabled then SpriteWidth(lcdc.data) else old(searchWidth)
    {
      ClearSpriteLine(spriteAbove, spriteBelow, ly);
      if spritesEnabled {
        FindSprites();
      }
      stat.SetModeFlag(ModeTransfer);
    }

    /** searchOAM, cut to the first ten, as the sprites of the line. */
    method FindSprites()
      requires Memories() && ly < ScreenHeight
      modifies this`sprites, this`searchWidth
      ensures sprites == LineSprites(oam.data[..], SpriteWidth(lcdc.data), ly) && searchWidth == SpriteWidth(lcdc.data)
      ensures SpritesFit()
    {
      var attrs := SearchOAM();
      if |attrs| > MaxLineSprites {
        attrs := attrs[..MaxLineSprites];
      }
      LineSpritesVisible(oam.data[..], SpriteWidth(lcdc.data), ly);
      sprites, searchWidth := attrs, SpriteWidth(lcdc.data);
    }

    /** Transferring data to the LCD: scanPixels, and at the end of the line h-blank and the next line. */
    method TransferClock(cycles: nat, ghost st: LineScan) returns (s: Status)
      requires Wired() && SpritesFit() && TimingState().Lines() && TimingState().Mode() == ModeTransfer && st == Start(lx, ly)
      modifies this`lx, this`ly, this`sprites, this`ignoreVBlank, this`ignoreHBlank, this`ignoreOAM
      modifies stat, ifr, bgLayer, winLayer, spriteAbove, spriteBelow
      ensures |sprites| <= |old(sprites)| && sprites == old(sprites)[|old(sprites)| - |sprites|..]
      ensures TransferStep(old(TimingState()), cycles).work.Scan? && st.Sized()
      ensures s.Success? ==> TimingState() == TransferStep(old(TimingState()), cycles).next
      ensures s.Success? ==> ifr.data == Raise(old(ifr.data), TransferStep(old(TimingState()), cycles).requests)
      ensures s.Success? ==> Scanned(st, TransferStep(old(TimingState()), cycles).work.count)
      ensures s.Failure? ==> s.error.SpriteOffScreen? && lx < ScreenWidth && TimingState() == old(TimingState()).(lx := lx)
      ensures SpriteWidth(lcdc.data) == searchWidth ==> s.Success?
    {
      var hb;
      hb, s := Transfer(cycles, st);
      if s.Failure? {
        return;
      }
      if hb {
        TransferEnd(old(TimingState()), cycles);
        EnterHBlank(st, ScreenWidth - old(lx));
      } else {
        TransferOn(old(TimingState()), cycles);
      }
    }

    /** scanPixels for byte(cycles) pixels of the line; at its end the column is back at 0. */
    method Transfer(cycles: nat, ghost st: LineScan) returns (hb: bool, s: Status)
      requires Wired() && SpritesFit() && lx < ScreenWidth && ly < ScreenHeight && st == Start(lx, ly)
      modifies this`lx, this`sprites, bgLayer, winLayer, spriteAbove, spriteBelow
      ensures |sprites| <= |old(sprites)| && sprites == old(sprites)[|old(sprites)| - |sprites|..] && st.Sized()
      ensures s.Success? ==>
        Scanned(st, Min(cycles % 0x100, ScreenWidth - old(lx))) && (hb <==> old(lx) + cycles % 0x100 >= ScreenWidth) &&
        TimingState() == old(TimingState()).(lx := if hb then 0 else old(lx) + cycles % 0x100)
      ensures s.Failure? ==> s.error.SpriteOffScreen? && lx < ScreenWidth && TimingState() == old(TimingState()).(lx := lx)
      ensures SpriteWidth(lcdc.data) == searchWidth ==> s.Success?
    {
      if SpriteWidth(lcdc.data) == searchWidth {
        VisibleHaveSpans(sprites, searchWidth, ly);
      }
      hb, s := ScanPixels((cycles % 0x100) as u8, st);
    }

    /** The end of the line: h-blank, its interrupt unless already raised, and the next line. */
    method EnterHBlank(ghost st: LineScan, ghost count: nat)
      requires Layers() && st.Sized() && Scanned(st, count)
      modifies this`ly, this`ignoreVBlank, this`ignoreHBlank, this`ignoreOAM, stat, ifr
      ensures TimingState() == HBlankEntered(old(TimingState())) && Scanned(st, count)
      ensures ifr.data == Raise(old(ifr.data), LcdStatusIf(HBlankFires(old(TimingState()))))
    {
      stat.SetModeFlag(ModeHBlank);
      if HBlankInterruptEnabled(stat.data) && !ignoreHBlank {
        Irq.Request(ifr, Irq.LcdStatusTriggersFlag);
        ignoreVBlank, ignoreOAM := ignoreVBlank || ly == 143, true;
      }
      ignoreHBlank, ly := false, Inc8(ly);
    }

    /** H-blank: 204 cycles, then the frame and v-blank after line 143, else the next OAM search. */
    method HBlankClock(cycles: nat)
      requires Layers() && TimingState().Lines() && TimingState().Mode() == ModeHBlank
      modifies this`cyclesCounter, this`ignoreOAM, this`ignoreLYC, this`ignoreVBlank, this`frames, stat, ifr
      ensures var e := HBlankStep(old(TimingState()), cycles);
        TimingState() == e.next && ifr.data == Raise(old(ifr.data), e.requests) &&
        (e.work == Idle ==> Snapshot() == old(Snapshot())) && e.work in {Idle, Frame} &&
        (e.work == Frame ==> Snapshot() == old(Snapshot()).(frames := frames) && Showed(old(frames)))
    {
      if cyclesCounter + cycles < HBlankCycles {
        HBlankWait(old(TimingState()), cycles);
        cyclesCounter := cyclesCounter + cycles;
        return;
      }
      cyclesCounter := cyclesCounter + cycles - HBlankCycles;
      if ly == 144 {
        HBlankFrame(old(TimingState()), cycles);
        UpdateMonitor();
        EnterVBlank();
      } else if ly < 144 {
        HBlankLine(old(TimingState()), cycles);
        EnterOam();
      } else {
        assert false;
      }
    }

    /** The start of v-blank: the mode, the LCD-status interrupt unless already raised, then the v-blank interrupt. */
    method EnterVBlank()
      modifies this`ignoreOAM, this`ignoreLYC, this`ignoreVBlank, stat, ifr
      ensures TimingState() == VBlankEntered(old(TimingState()))
      ensures ifr.data == Raise(old(ifr.data), LcdStatusIf(VBlankFires(old(TimingState()))) + [Irq.VerticalBlankFlag])
    {
      stat.SetModeFlag(ModeVBlank);
      ghost var first := LcdStatusIf(VBlankInterruptEnabled(stat.data) && !ignoreVBlank);
      if VBlankInterruptEnabled(stat.data) && !ignoreVBlank {
        Irq.Request(ifr, Irq.LcdStatusTriggersFlag);
        ignoreOAM, ignoreLYC := true, true;
      }
      ignoreVBlank := false;
      RaiseAppend(old(ifr.data), first, Irq.VerticalBlankFlag);
      Irq.Request(ifr, Irq.VerticalBlankFlag);
    }

    /** The switch to OAM search: the mode, its interrupt unless already raised for this line, and the ignore cleared. */
    method EnterOam()
      modifies this`ignoreOAM, stat, ifr
      ensures TimingState() == OamEntered(old(TimingState()))
      ensures ifr.data == Raise(old(ifr.data), LcdStatusIf(OamFires(old(TimingState()))))
    {
      stat.SetModeFlag(ModeOAM);
      if OamInterruptEnabled(stat.data) && !ignoreOAM {
        Irq.Request(ifr, Irq.LcdStatusTriggersFlag);
      }
      ignoreOAM := false;
    }

    /** V-blank: a line every 456 cycles, and after line 153 line 0 with the enables latched again. */
    method VBlankClock(cycles: nat)
      requires TimingState().Lines() && TimingState().Mode() == ModeVBlank
      modifies this`cyclesCounter, this`ly, this`ignoreLYC, this`spritesEnabled, this`backgroundEnabled, this`ignoreOAM, stat, ifr
      ensures var e := VBlankStep(old(TimingState()), lcdc.data, cycles);
        TimingState() == e.next && ifr.data == Raise(old(ifr.data), e.requests) && e.work == Idle
    {
      if cyclesCounter + cycles < LineCycles {
        VBlankWait(old(TimingState()), lcdc.data, cycles);
        cyclesCounter := cyclesCounter + cycles;
        return;
      }
      cyclesCounter, ly := cyclesCounter + cycles - LineCycles, ly + 1;
      if ly > 153 {
        VBlankWrap(old(TimingState()), lcdc.data, cycles);
        NewFrame();
      } else {
        VBlankLine(old(TimingState()), lcdc.data, cycles);
      }
    }

    /** After line 153: line 0, the enables latched from LCDC again, and the OAM search of the next frame. */
    method NewFrame()
      modifies this`ignoreLYC, this`spritesEnabled, this`backgroundEnabled, this`ly, this`ignoreOAM, stat, ifr
      ensures TimingState() == OamEntered(FrameStarted(old(TimingState()), lcdc.data))
      ensures ifr.data == Raise(old(ifr.data), LcdStatusIf(OamFires(old(TimingState()))))
    {
      ignoreLYC, spritesEnabled, backgroundEnabled, ly := false, SpritesEnabled(lcdc.data), BackgroundEnabled(lcdc.data), 0;
      EnterOam();
    }
  }

  /** The OAM search's loop over the columns: line y of both sprite layers made transparent. */
  method ClearSpriteLine(above: array2<u8>, below: array2<u8>, y: u8)
    requires IsLayer(above) && IsLayer(below) && above != below && y < ScreenHeight
    modifies above, below
    ensures forall x :: 0 <= x < ScreenWidth ==> above[x, y] == ColorTransparent && below[x, y] == ColorTransparent
    ensures OnlyLine(above, y) && OnlyLine(below, y)
    ensures Rows(above) == ClearedLine(old(Rows(above)), y) && Rows(below) == ClearedLine(old(Rows(below)), y)
  {
    ghost var ra, rb := Rows(above), Rows(below);
    RowsPixels(above);
    RowsPixels(below);
    var x := 0;
    while x < ScreenWidth
      invariant 0 <= x <= ScreenWidth
      invariant forall x' :: 0 <= x' < x ==> above[x', y] == ColorTransparent && below[x', y] == ColorTransparent
      invariant OnlyLine(above, y) && OnlyLine(below, y)
    {
      above[x, y] := ColorTransparent;
      below[x, y] := ColorTransparent;
      x := x + 1;
    }
    LineCleared(above, ra, y);
    LineCleared(below, rb, y);
  }

  /** Every sprite kept for a line is visible with the sprite height of the search. */
  lemma LineSpritesVisible(oam: seq<u8>, width: u8, ly: u8)
    requires |oam| == OamSize
    ensures forall k :: 0 <= k < |LineSprites(oam, width, ly)| ==> Visible(LineSprites(oam, width, ly)[k], width)
  {
    LineSpritesCorrect(oam, width, ly);
    forall k | 0 <= k < |LineSprites(oam, width, ly)|
      ensures Visible(LineSprites(oam, width, ly)[k], width)
    {
      assert LineSprites(oam, width, ly)[k] in multiset(LineSprites(oam, width, ly));
      FoundExactly(oam, width, ly, 40, LineSprites(oam, width, ly)[k]);
    }
  }
}
