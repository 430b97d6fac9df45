/**
 * The failures a memory unit, the cartridge loader, the picture processor or the
 * CPU can report, and the two result shapes used everywhere: a value or an error
 * (Go's `(T, error)`), and success or an error (Go's bare `error`); and an
 * optional value.
 */
module Errors {
  import opened Bits

  datatype Error =
    | ReadAccessViolation(addr: u16)
    | WriteAccessViolation(addr: u16)
    | ReadOutOfRange(addr: u16)
    | WriteOutOfRange(addr: u16)
      /** `SetWindow` with an offset at or past the end of the buffer. */
    | WindowOutOfRange(offset: nat)
      /** `MMU.Map` with from > to. */
    | InvalidMapping(from: u16, to: u16)
      /** An opcode (base table, or CB table after the prefix) with no entry. */
    | NoSuchInstruction(opcode: u8)
      /** Cartridge header RAM-size code outside 0..3. */
    | Corrupted
      /** Cartridge header type code without a bank controller. */
    | CartridgeNotSupported(mbcType: u8)
      /** The picture processor found LY > 144 at the end of an h-blank. */
    | LineOutOfRange(ly: u8)
      /** calcCoords' panic: a sprite kept for the line no longer fits the sprite height LCDC now selects. */
    | SpriteOffScreen(coordinate: u8)

  datatype Result<T> = Ok(value: T) | Err(error: Error)

  datatype Status = Success | Failure(error: Error)

  /** A Go slice that may be nil, or a value that may be absent. */
  datatype Option<T> = None | Some(value: T)
}
