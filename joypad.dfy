/**
 * joypad/joyp.go: the JOYP register at 0xFF00. The program writes the column
 * select bits (4 and 5); every read first takes at most one keystroke from
 * the input source, updates the two rows of button states, puts the selected
 * row on the low nibble (a cleared bit is a pressed button) and requests the
 * joypad interrupt when a line falls from 1 to 0.
 *
 * The keystroke source is abstract: `keys` holds the keystrokes it will hand
 * out, oldest first, and a read with none pending sees Go's nil.
 */
module Joypad {
  import opened Bits
  import opened Errors
  import opened Memory
  import Irq

  const AddrJOYP: u16 := 0xFF00

  const ColumnDirections: u8 := 0x20
  const ColumnStartSelectAB: u8 := 0x10

  /** Button codes: the row in the high nibble, the line in the low nibble. */
  const ButtonRight: u8 := 0x01
  const ButtonLeft: u8 := 0x02
  const ButtonUp: u8 := 0x04
  const ButtonDown: u8 := 0x08
  const ButtonA: u8 := 0x11
  const ButtonB: u8 := 0x12
  const ButtonSelect: u8 := 0x14
  const ButtonStart: u8 := 0x18

  /** A code whose row is 0 or 1 (Go indexes `state[btn>>4]` and would panic otherwise). */
  type Button = b: u8 | b < 0x20

  datatype Keystroke = Keystroke(button: Button, pressed: bool)

  /** A row of button lines after a keystroke: a press clears the button's lines, a release sets them. */
  function Press(row: u8, pressed: bool, lines: u8): (r: u8)
  {
    if pressed then And8(row, 0xFF - lines) else Or8(row, lines)
  }

  /** The lines of x below 2^n, inverted. */
  lemma {:induction false} NotBit(x: nat, n: nat, i: nat)
    requires x < Pow2(n) && i < n
    ensures Bit(Pow2(n) - 1 - x, i) <==> !Bit(x, i)
    decreases i
  {
    var p := Pow2(n - 1);
    assert Pow2(n) == 2 * p;
    var q, r := x / 2, x % 2;
    var y := Pow2(n) - 1 - x;
    assert y == 2 * (p - 1 - q) + (1 - r);
    DivUnique(y, 2, p - 1 - q, 1 - r);
    ModUnique(y, 2, p - 1 - q, 1 - r);
    if i > 0 {
      BitHalf(y, i - 1);
      BitHalf(x, i - 1);
      NotBit(q, n - 1, i - 1);
    }
  }

  /** Each line of the row after the keystroke: the button's lines follow `pressed` (cleared when pressed), the others keep their state. */
  lemma PressLines(row: u8, pressed: bool, lines: u8, i: nat)
    requires i < 8
    ensures Bit(Press(row, pressed, lines), i) <==> if Bit(lines, i) then !pressed else Bit(row, i)
  {
    if pressed {
      AndBit(row, 0xFF - lines, i);
      Pow2Of8();
      NotBit(lines, 8, i);
    } else {
      OrBit(row, lines, i);
    }
  }

  /** A row stays a nibble under every keystroke on it. */
  lemma PressNibble(row: u8, pressed: bool, lines: u8)
    requires row < 0x10 && lines < 0x10
    ensures Press(row, pressed, lines) < 0x10
  {
    if !pressed {
      Pow2Table();
      OrBound(row, lines, 4);
    }
  }

  /** The two rows after the keystroke, if the source handed one out. */
  function Apply(state: seq<u8>, ks: Option<Keystroke>): (r: seq<u8>)
    requires |state| == 2
    ensures |r| == 2
  {
    match ks
    case None => state
    case Some(k) =>
      var row := k.button / 0x10;
      state[row := Press(state[row], k.pressed, k.button % 0x10)]
  }

  /** Both rows stay nibbles under any keystroke. */
  lemma ApplyNibbles(state: seq<u8>, ks: Option<Keystroke>)
    requires |state| == 2 && state[0] < 0x10 && state[1] < 0x10
    ensures Apply(state, ks)[0] < 0x10 && Apply(state, ks)[1] < 0x10
  {
    if ks.Some? {
      PressNibble(state[ks.value.button / 0x10], ks.value.pressed, ks.value.button % 0x10);
    }
  }

  /** The new register: the high nibble kept and the selected row on the low one, all lines up when no row is selected. */
  function Wire(data: u8, state: seq<u8>): (r: u8)
    requires |state| == 2 && state[0] < 0x10 && state[1] < 0x10
  {
    var column := (data / 0x10) % 4 * 0x10;
    if column == ColumnStartSelectAB then (data / 0x10) * 0x10 + state[1]
    else if column == ColumnDirections then (data / 0x10) * 0x10 + state[0]
    else (data / 0x10) * 0x10 + 0x0F
  }

  /** The column bits choose the row: bit 4 alone the buttons, bit 5 alone the directions; the high nibble never changes. */
  lemma WireSelects(data: u8, state: seq<u8>)
    requires |state| == 2 && state[0] < 0x10 && state[1] < 0x10
    ensures Wire(data, state) / 0x10 == data / 0x10
    ensures Wire(data, state) % 0x10 ==
            if Bit(data, 4) && !Bit(data, 5) then state[1]
            else if Bit(data, 5) && !Bit(data, 4) then state[0]
            else 0x0F
  {
    Pow2Table();
  }

  /** `(prev ^ now) & prev != 0`. */
  predicate Fell(prev: u8, now: u8)
  {
    And8(Xor8(prev, now), prev) != 0
  }

  /** The interrupt condition is a line that went from 1 to 0. */
  lemma FellIff(prev: u8, now: u8)
    ensures Fell(prev, now) <==> exists i :: 0 <= i < 8 && Bit(prev, i) && !Bit(now, i)
  {
    var m := And8(Xor8(prev, now), prev);
    forall i | 0 <= i < 8
      ensures Bit(m, i) <==> Bit(prev, i) && !Bit(now, i)
    {
      AndBit(Xor8(prev, now), prev, i);
      XorBit(prev, now, i);
    }
    ZeroIffNoBit(m);
  }

  class JOYP {
    var data: u8
    /** Rows of button lines: state[0] the directions, state[1] A, B, Select and Start. */
    var state: seq<u8>
    /** The keystrokes the input source has yet to hand out. */
    var keys: seq<Keystroke>
    /** The core's IF register, which RequestInterrupt sets bits of. */
    const ifr: MemReg

    ghost predicate Valid()
      reads this
    {
      |state| == 2 && state[0] < 0x10 && state[1] < 0x10
    }

    /** NewJOYP: both rows released, every line up. */
    constructor (ifr: MemReg, keys: seq<Keystroke>)
      ensures Valid()
      ensures this.ifr == ifr && this.keys == keys
      ensures state == [0x0F, 0x0F] && data == 0xFF
    {
      this.ifr := ifr;
      this.keys := keys;
      state := [0x0F, 0x0F];
      data := 0xFF;
    }

    /** The register, the two rows and the pending keystrokes: everything a Read or a Write may change here. */
    ghost function View(): (u8, seq<u8>, seq<Keystroke>)
      reads this
    {
      (data, state, keys)
    }

    /** The keystroke the next Read consumes, if any is pending. */
    function NextKey(): Option<Keystroke>
      reads this
    {
      if keys == [] then None else Some(keys[0])
    }

    /** The byte the next Read returns. */
    ghost function NextRead(): u8
      reads this
      requires Valid()
    {
      ApplyNibbles(state, NextKey());
      Wire(data, Apply(state, NextKey()))
    }

    /**
     * What a Read returning `r` did: the oldest pending keystroke taken and
     * applied to its row, the selected row wired onto the register, which
     * is the result, and the joypad interrupt requested when a line fell.
     */
    twostate predicate Took(new r: Result<u8>)
      reads this, ifr
    {
      old(Valid()) && Valid() &&
      keys == (if old(keys) == [] then [] else old(keys)[1..]) &&
      state == Apply(old(state), if old(keys) == [] then None else Some(old(keys)[0])) &&
      data == Wire(old(data), state) && r == Ok(data) && r == Ok(old(NextRead())) &&
      ifr.data == if Fell(old(data) % 0x10, data % 0x10) then Or8(old(ifr.data), Irq.JoypadPressFlag) else old(ifr.data)
    }

    /** setWireState, then the register; never fails. */
    method Read(addr: u16) returns (r: Result<u8>)
      requires Valid()
      modifies this, ifr
      ensures Valid() && Took(r)
    {
      if keys != [] {
        var ks := keys[0];
        keys := keys[1..];
        var row := ks.button / 0x10;
        PressNibble(state[row], ks.pressed, ks.button % 0x10);
        state := state[row := Press(state[row], ks.pressed, ks.button % 0x10)];
      }
      var prev := data % 0x10;
      if (data / 0x10) % 4 * 0x10 == ColumnStartSelectAB {
        data := (data / 0x10) * 0x10 + state[1];
      } else if (data / 0x10) % 4 * 0x10 == ColumnDirections {
        data := (data / 0x10) * 0x10 + state[0];
      } else {
        data := (data / 0x10) * 0x10 + 0x0F;
      }
      if And8(Xor8(prev, data % 0x10), prev) != 0 {
        Irq.Request(ifr, Irq.JoypadPressFlag);
      }
      return Ok(data);
    }

    /** Write takes the high nibble and keeps the low one. */
    method Write(addr: u16, d: u8) returns (s: Status)
      modifies this`data
      ensures s == Success
      ensures data / 0x10 == d / 0x10 && data % 0x10 == old(data) % 0x10
    {
      data := (d / 0x10) * 0x10 + data % 0x10;
      return Success;
    }
  }
}
