# gopherboy core in Dafny

A verified model of the core of gopherboy, a Game Boy (DMG) emulator. The model
covers the memory bus, the LR35902 CPU, the timers, the joypad, the cartridge bank
controllers, the picture processor and the sound unit. Every module follows the
package it models, and each Go object whose fields change becomes a Dafny class
with the same fields. Pure decoders and arithmetic become functions. Each class
method is proved against a specification function, and the promised properties
are proved about that function.

- **Memory** (`memory.dfy`, `mmu.dfy`, `bus.dfy`):
  - The MMU's table of 65,536 owners is an `array<Unit>`. `Map` fills a range in
    place. `Mmu.Remap` is its value-level specification, with "last mapping wins"
    and idempotence.
  - `RAM`, `ROM`, `MemReg`, `ROMemReg`, `Null` and the boot-ROM unmapper are
    classes with the source's windows and error cases.
  - `Bus.Machine` owns one object per unit and dispatches `Read`/`Write` to the
    owner the table names. Echo RAM (`Echoer`) resolves to its target, and the
    OAM DMA copy runs through the bus.
- **CPU** (`registers.dfy`, `flags.dfy`, `alu.dfy`, `opcodes.dfy`,
  `instructions.dfy`, `irq.dfy`, `core.dfy`):
  - `Instructions` is a value-level specification of every opcode and every CB
    opcode. It gives the new registers, the bus accesses in order, the cycles
    reported and the error cases.
  - `Cpu.Core` is the class that executes it. Its methods ensure agreement with
    the specification.
  - `Opcodes` proves that the decoding table agrees with the source's table,
    entry by entry.
  - Interrupt servicing, the fetch/execute step, and the clock pass over the
    registered units are modelled as in `core.go` and `interrupts.go`.
- **Timers and joypad** (`counters.dfy`, `timers.dfy`, `joypad.dfy`): DIV and
  TIMA with their counters and overflow interrupt, and the joypad's select lines
  and keystrokes.
- **Cartridge** (`cartridge.dfy`, `nullmbc.dfy`, `mbc1.dfy`, `mbc2.dfy`,
  `mbc3.dfy`):
  - header decoding, with the RAM-size code checked before the controller type;
  - the three bank controllers, with their banking registers, RAM enable and
    MBC3's real-time clock with its latch.
- **Display** (`lcdc.dfy`, `stat.dfy`, `palette.dfy`, `sprites.dfy`,
  `screen.dfy`, `gpu.dfy`):
  - the register decoders, the sprite order and its sort, and tile addressing;
  - background, window and sprite pixels, and the frame merge;
  - the `GPU` class with its mode machine (OAM search, transfer, h-blank,
    v-blank), the coincidence check and the LCD-status and v-blank requests.
    `Gpu.Step` specifies all of it on values.
- **Sound** (`voice.dfy`, `square1.dfy`, `square2.dfy`, `wave.dfy`, `noise.dfy`,
  `sequencer.dfy`, `control.dfy`, `apu.dfy`):
  - the four channels, each a class whose methods are tied to a pure state
    function;
  - the frame sequencer, the control registers, and the APU's sampling loop
    with its throttle.
- **Wiring** (`gameboy.dfy`): the address map that `main.go`, `NewCore`,
  `NewGPU`, `NewAPU` and `NewGameboy` build. It is done by the same `Map` calls
  in the same order. It is proved equal to one `MemoryMap` and to satisfy the
  bus invariant (echoes resolve, and the picture processor owns OAM and VRAM),
  and the start PC is proved as well. `RegisterClocks` makes the three
  `RegisterToClockChanges` calls of the assembly: sound unit, timer, then
  picture processor.

Where the emulator's description and its code disagree, the model follows the
code:
- Sprites with equal X are ordered by tile number (`spriteattr.go:34-37`), not by
  their OAM index.
- The cartridge header never selects MBC3 (`cartridge.go:76-93`). `NewCartridge` never
  builds one. A cartridge with an MBC3 exists only through `Cartridge`'s constructor.

Integers are unbounded in Dafny. `u8` and `u16` are subset types, and every
8- and 16-bit wrap of the source is written out with `% 0x100` or `% 0x10000`.

## Model

| member | source | states |
|---|---|---|
| Memory.WindowRead | memory/ram.go:25-50 | SetWindow then Read: the window error when the offset is past the end; otherwise the byte at offset + (addr - base) when that is inside the buffer, else a read out-of-range error |
| Memory.WindowWrite | memory/ram.go:25-68 | SetWindow then Write succeeds exactly when the matching read would, and then changes only that one byte; a failure leaves the buffer and reports the window or range error |
| Memory.RAM.constructor | memory/ram.go:15-21 | NewRAM: the window starts at offset 0 and covers the whole buffer |
| Memory.RAM.SetWindow | memory/ram.go:25-34 | fails exactly when the offset is not below the buffer length, keeping the old window; otherwise the window is the buffer from the offset on |
| Memory.RAM.Read | memory/ram.go:37-50 | succeeds exactly for an address inside the window, returning the window's byte at addr - base; otherwise a read out-of-range error |
| Memory.RAM.Write | memory/ram.go:53-68 | succeeds exactly inside the window, changing only that byte, which then reads back; otherwise a write out-of-range error and no change |
| Memory.ROM.constructor | memory/rom.go:13-19 | NewROM: the window starts at offset 0 |
| Memory.ROM.SetWindow | memory/rom.go:23-32 | as RAM.SetWindow on the ROM's contents |
| Memory.ROM.Read | memory/rom.go:35-48 | as RAM.Read on the ROM's window |
| Memory.ROM.Write | memory/rom.go:51-53 | writes are accepted and change nothing |
| Memory.MemReg.Write | memory/memreg.go:21-24 | the write succeeds and every later read returns the byte written |
| Memory.ROMemReg.Write | memory/romemreg.go:21-23 | the write succeeds and changes what no read returns |
| Memory.Null.Write | memory/null.go:22-24 | the write succeeds and every read still returns 0 |
| Mmu.Remap | memory/mmu.go:50-64 | the table after a mapping: the unit on [from, to], every other entry unchanged |
| Mmu.LastMappingWins | memory/mmu.go:50-64 | of two mappings the later one owns the overlap, and the earlier one what only it covers |
| Mmu.RemapIdempotent | memory/mmu.go:50-64 | mapping the same unit over the same range twice equals mapping it once |
| Mmu.MMU.constructor | memory/mmu.go:14-16 | NewMMU: 65,536 entries, none owned |
| Mmu.MMU.Map | memory/mmu.go:50-64 | Map fails exactly when from > to, leaving the table; otherwise the table becomes Remap of the old one (the range-length checks cannot fire for 16-bit bounds) |
| Mmu.BiosUnmapper.Read | memory/biosunmapper.go:26-28 | every read fails with a read access violation |
| Mmu.BiosUnmapper.Write | memory/biosunmapper.go:31-42 | only 0xFF50 is writable; writing 0x01 there maps 0x0000-0x00FF to the cartridge; any other value succeeds and changes nothing |
| Memory.MemReg.constructor | memory/memreg.go:12-13 | A plain register starts at 0 |
| Memory.MemReg.Read | memory/memreg.go:16-18 | A plain register reads its byte at any address and never fails |
| Mmu.BiosUnmapper.constructor | memory/biosunmapper.go:20-23 | The unmapper remembers the table and the cartridge it hands the boot range to |
| Bus.FirstFailure | display/gpu.go:258-266 | the number of leading successful reads: every read before it succeeded and the one at it, if any, failed |
| Bus.Transferred | display/gpu.go:254-272 | OAM after a transfer: byte j is the byte read when every read up to j succeeded, else the old byte |
| Bus.Copied | display/gpu.go:258-270 | OAM after i successful copies: the first i bytes are the bytes read, the rest unchanged |
| Bus.TransferCopies | display/gpu.go:254-272 | a transfer whose 160 reads all succeed reports success and replaces OAM by the bytes read |
| Bus.TransferStopsAtFailure | display/gpu.go:262-264 | a transfer whose read k fails reports that read's error, has copied bytes 0..k-1 and leaves bytes k onwards as they were |
| Bus.Machine.constructor | gameboy.go:20-100 | the machine NewGameboy assembles: the MMU's table maps every address to the unit the wiring names, echoes resolve to non-echo destinations, OAM and VRAM are owned by the picture processor; no access made yet |
| Bus.Machine.ResolveLands | memory/echoer.go:16-23 | an echo forwards to an address that is not itself an echo, so one level of forwarding reaches the owner |
| Bus.Machine.ReadUnit | memory/mmu.go:67-78 | a read goes to the unit the table names; an address no unit owns fails with a read access violation; a joypad read has the joypad's own effect (`Joypad.JOYP.Took`: one keystroke taken, the rows and register rewired, the joypad interrupt on a falling line), and no read changes the cartridge's state |
| Bus.Machine.Load | memory/mmu.go:67-78 | MMU.Read through the table and any echo: the result is what the owner holds at the resolved address; a read that reaches the joypad has its effect (`Joypad.JOYP.Took`); the table and the cartridge's state are unchanged |
| Bus.Machine.Read | memory/mmu.go:67-78 | the same, joypad effect included, recorded once on the access trace |
| Bus.Machine.StoreRam | memory/ram.go:53-68 | a RAM write succeeds exactly where a read would succeed, then reads back the byte written, and every other address of that RAM reads as before |
| Bus.Machine.StoreStat | display/stat.go:85-88 | a STAT write takes bits 3-7 of the byte and keeps the mode and coincidence bits |
| Bus.Machine.StoreRegister | memory/memreg.go:21-24 | a write to a plain register (LCDC, SCY, SCX, LYC, BGP, OBP0/1, WY, WX, IE, IF) succeeds and reads back the byte written |
| Bus.Machine.StoreGpu | display/gpu.go:216-272 | the picture processor's Write as `Gpu.GPU.Write` states it: a write to LY re-initializes the timing, clears the four layers and drops the found sprites; a write to VRAM or OAM stores the byte, which then reads back through the bus; any other address fails; the joypad, IF and the cartridge's state stay. A write to DMA changes nothing of the picture processor but OAM (`Gpu.GPU.OamOnly`) and keeps the cartridge's state; from a storage page it performs the OAM transfer (`Transferred`) and leaves the joypad and IF |
| Bus.Machine.StoreDisplay | display/gpu.go:216-251 | a write to the picture processor or one of its registers has the owner's own effect (`Wrote`): plain registers read back the byte, STAT takes bits 3-7 and keeps the rest, a GPU write is as `StoreGpu` states (LY restart, VRAM/OAM byte, DMA transfer from a storage page, nothing but OAM changed by DMA) |
| Bus.Machine.StoreIo | memory/biosunmapper.go:31-42 | a write to the joypad, the timer, IE, IF or the unmapper has that unit's own effect (`Wrote`): the joypad takes the high nibble and keeps its rows and pending keystrokes; the timer clears DIV or sets TIMA, TMA or TAC, restarting the TIMA counter when TAC's low bits change, and fails outside 0xFF04-0xFF07; IE and IF read back; the unmapper remaps on 0x01 at 0xFF50 |
| Bus.Machine.UnmapKeepsInvariants | memory/biosunmapper.go:31-42 | the boot-ROM unmapper's remap keeps echoes resolvable and OAM and VRAM owned by the picture processor |
| Bus.Machine.VramReadsReachPicture | display/gpu.go:176-179 | an mmu.Read of 0x8000-0x9FFF reaches the picture processor and returns the byte of its VRAM buffer, so the tile-map and tile-row reads of gpu.go:595-614, 675-694 and 907-913 see the bytes the drawing model takes from that buffer |
| Bus.Machine.Store | memory/mmu.go:81-92 | MMU.Write: the write reaches the owner of the resolved address and has that owner's effect (`Wrote`): an unowned address fails with a write access violation; registers read back; a RAM write reads back iff in its window and leaves the RAM's other addresses; the cartridge follows its controller; the timer, STAT, GPU (LY restart, VRAM/OAM byte leaving joypad, IF and cartridge, DMA changing nothing of the GPU but OAM and transferring from a storage page) and each sound channel's state change as their Writes say; the joypad takes the high nibble and keeps its rows and queue; only the unmapper changes the table |
| Bus.Machine.Write | memory/mmu.go:81-92 | the same effect as `Store` for the owner of the resolved address, recorded once on the access trace |
| Bus.Machine.Wrote | memory/mmu.go:81-92 | the effect of a write of d that reached unit u at a, owner by owner: the unit's own Write (cartridge controller, RAM byte with the rest of the RAM kept, register read-back, timer `Wrote`, joypad high nibble with rows and queue kept, GPU `Wrote` with joypad, IF and cartridge kept, DMA `OamOnly` and the transfer from a storage page, STAT bits 3-7, each sound state's `Write`, the unmapper's remap); only the unmapper changes the table |
| Bus.Machine.PeekIsStorage | memory/ram.go:37-50 | a read of the boot ROM, RAMs or cartridge depends only on their contents, windows and the cartridge state |
| Bus.Machine.ReadsMissStorage | memory/mmu.go:67-78 | no read changes the boot ROM or the RAMs |
| Bus.Machine.Sources | display/gpu.go:256-260 | the 160 bytes the transfer reads from page from*0x100 |
| Bus.Machine.CopyByte | display/gpu.go:260-268 | one step of the transfer: the read through the bus and, on success, that byte written to OAM offset i; nothing of the picture processor but OAM changes, and a read of storage leaves the joypad and IF |
| Bus.Machine.Fetch | display/gpu.go:260-264 | the transfer's read through the bus returns what the address holds, changes nothing of the picture processor, the storage units or the cartridge's state, and a read of storage leaves the joypad and IF |
| Bus.Machine.StoreOam | display/gpu.go:266-268 | the transfer's write puts the byte at OAM offset i and changes nothing else |
| Bus.Machine.Dma | display/gpu.go:254-272 | transferDataToOAM: from any page, nothing of the picture processor but OAM changes and the cartridge's state and the table stay; from a storage page the final OAM and status are Transferred of the reads, stopping at the first failure, and the joypad and IF are untouched |
| Bus.Machine.ClockSound | audio/apu.go:87-188 | one `APU.ClockChanged`: it never fails, and the channels, the frame-sequencer counters, the throttle and the queued samples change exactly as that call states (`Ticked`) |
| Bus.Machine.ClockDisplay | display/gpu.go:343-561 | one `GPU.ClockChanged` from the line's current drawing state: the timing, IF and layers become what `Step` prescribes, with its drawing performed (`Ticked`); it fails only with the sprite-off-screen error |
| Bus.Machine.ClockUnit | cpu/core.go:150-155 | one ClockChanged call with the unit's own effect (`Ticked`): the sound unit's step, the timer's DIV/TIMA/IF step, or the picture processor's `Step`; only the picture unit can fail, and only with the sprite-off-screen error; the table stays |
| Bus.Machine.Ticked | cpu/core.go:150-155 | one unit's ClockChanged effect: the sound unit's `Apu.APU.Clocked` with success, the timer's `Timers.Timer.Clocked` with success, or the picture processor's `Gpu.GPU.Clocked` |
| Bus.Machine.ReadKeys | joypad/joyp.go:67-120 | A read routed to the joypad returns what the joypad register holds after the read and has the joypad Read's effect (`Joypad.JOYP.Took`) |
| Bus.Machine.ReadCart | game/cartridge.go:99-101 | A read routed to the cartridge returns its bank controller's read and leaves the cartridge unchanged |
| Bus.Machine.StoreCart | game/cartridge.go:104-106 | A write routed to the cartridge changes it and reports exactly as its bank controller's Write does |
| Bus.Machine.StoreMemory | memory/mmu.go:81-92 | Storage writes, as `Wrote` states them: unowned addresses fail with a write access violation, the cartridge follows its controller, the boot ROM and the unused range accept and ignore, a RAM write succeeds iff the address is in its window, then reads back, and leaves the RAM's other addresses |
| Bus.Machine.StoreKeys | joypad/joyp.go:75-80 | A joypad write always succeeds; the register takes the high nibble of the byte and keeps its own low nibble; the rows and pending keystrokes stay |
| Bus.Machine.StoreUnmapper | memory/biosunmapper.go:31-42 | The unmapper accepts only 0xFF50; writing 0x01 there remaps 0x0000-0x00FF to the cartridge, anything else leaves the table alone |
| Bus.Machine.StoreSound | audio/apu.go:50-80 | A write to a sound unit succeeds exactly at an address that unit owns, and the channel's or control's new state is the state-level `Write` of its old state (bit 7 of NRx4 triggers); the table never changes |
| Bus.Machine.StoreUnit | memory/mmu.go:81-92 | The owner's Write, unit by unit (`Wrote`): registers read back, a RAM write reads back iff in its window and leaves the other addresses, the cartridge follows its controller, the timer, joypad, STAT, GPU and sound units change as their own Writes say, a DMA write changes nothing of the GPU but OAM and from a storage page performs the transfer, the unmapper remaps on 0x01 at 0xFF50; only the unmapper changes the table |
| Registers.Inc8 | cpu/register8.go:29-31 | the byte increment agrees with x + 1 modulo 256, and is x + 1 below 0xFF |
| Registers.Dec8 | cpu/register8.go:34-36 | the byte decrement agrees with x - 1 modulo 256, and is x - 1 above 0 |
| Registers.Inc16 | cpu/register16.go:59-61 | the word increment agrees with x + 1 modulo 65536 |
| Registers.Dec16 | cpu/register16.go:64-66 | the word decrement agrees with x - 1 modulo 65536 |
| Registers.IncDec8Inverse | cpu/register8.go:29-36 | byte increment and decrement undo each other |
| Registers.IncDec16Inverse | cpu/register16.go:59-66 | word increment and decrement undo each other |
| Registers.RotateInverse | cpu/register8.go:9-16 | rotateRight undoes rotateLeft on a byte and the other way round |
| Registers.RotateEight | cpu/register8.go:9-11 | eight left rotations of a byte give it back |
| Registers.RotateFour | cpu/register8.go:9-11 | four left rotations of a byte exchange its nibbles |
| Registers.Rotate16Inverse | cpu/register16.go:19-36 | the 16-bit right rotation undoes the left one and the other way round |
| Registers.PairRotLIsRotation | cpu/register16.go:19-26 | rotating both halves left and swapping their bit 0s when they differ is the 16-bit left rotation of the word |
| Registers.PairRotRIsRotation | cpu/register16.go:29-36 | rotating both halves right and swapping their bit 7s when they differ is the 16-bit right rotation |
| Registers.Register8.Set | cpu/register8.go:19-21 | the register holds the byte written |
| Registers.Register8.Increment | cpu/register8.go:29-31 | the register holds Inc8 of its old value |
| Registers.Register8.Decrement | cpu/register8.go:34-36 | the register holds Dec8 of its old value |
| Registers.Register8.RotateLeft | cpu/register8.go:9-11 | the register holds its old value rotated left |
| Registers.Register8.RotateRight | cpu/register8.go:14-16 | the register holds its old value rotated right |
| Registers.Register16.Get | cpu/register16.go:75-79 | the word's high byte is the high register and its low byte the low register |
| Registers.Register16.Set | cpu/register16.go:69-72 | the halves hold the word's high and low bytes, so Get returns the word written |
| Registers.Register16.Increment | cpu/register16.go:59-61 | the pair's word becomes Inc16 of the old word, the carry crossing into the high byte |
| Registers.Register16.Decrement | cpu/register16.go:64-66 | the pair's word becomes Dec16 of the old word |
| Registers.Register16.SetHigh | cpu/register16.go:82-84 | only the high register changes, to the byte given |
| Registers.Register16.SetLow | cpu/register16.go:107-109 | only the low register changes, to the byte given |
| Registers.Register16.IncrementHigh | cpu/register16.go:87-89 | the high byte alone is incremented with byte wrap-around |
| Registers.Register16.DecrementHigh | cpu/register16.go:92-94 | the high byte alone is decremented with byte wrap-around |
| Registers.Register16.IncrementLow | cpu/register16.go:112-114 | the low byte alone is incremented, without a carry into the high byte |
| Registers.Register16.DecrementLow | cpu/register16.go:117-119 | the low byte alone is decremented, without a borrow from the high byte |
| Registers.Register16.High | cpu/register16.go:97-99 | the high register object itself, so writes through it change the pair |
| Registers.Register16.Low | cpu/register16.go:122-124 | the low register object itself |
| Registers.Register16.RotateLeft | cpu/register16.go:19-26 | the pair's word becomes its 16-bit left rotation |
| Registers.Register16.RotateRight | cpu/register16.go:29-36 | the pair's word becomes its 16-bit right rotation |
| Registers.Register8.constructor | cpu/core.go:64-89 | A register starts at 0 |
| Registers.Register16.constructor | cpu/core.go:64-89 | A pair starts as two fresh zero halves |
| Flags.Pack | cpu/flags.go:4-48 | the F byte built from four flags and a low nibble reads back those four flags (Z bit 7, N bit 6, H bit 5, C bit 4) and that nibble |
| Flags.Unpack | cpu/flags.go:4-48 | every F byte is its four flags over its low nibble |
| Flags.FlagPositions | cpu/flags.go:4-48 | Z, N, H and C are exactly bits 7, 6, 5 and 4 of F |
| Flags.WithZero | cpu/flags.go:9-15 | setZeroFlag: Z becomes the given state; N, H, C and the low nibble are unchanged |
| Flags.WithSubtract | cpu/flags.go:23-29 | setSubtractFlag: N becomes the given state; the other flags and the low nibble are unchanged |
| Flags.WithHalfCarry | cpu/flags.go:37-43 | setHalfCarryFlag: H becomes the given state; the rest of F is unchanged |
| Flags.WithCarry | cpu/flags.go:51-57 | setCarryFlag: C becomes the given state; the rest of F is unchanged |
| Flags.SettersKeepLowNibble | cpu/flags.go:9-57 | none of the four setters changes the low nibble of F |
| Flags.HalfCarryAdd8 | cpu/flags.go:61-63 | true iff the low nibbles of x and y sum to 16 or more (a carry out of bit 3) |
| Flags.HalfCarryTripleAdd8 | cpu/flags.go:67-69 | the two-step test is true iff the low nibbles of x, y and z sum to 16 or more |
| Flags.HalfCarrySub8 | cpu/flags.go:73-75 | true iff the nibble difference of x - y wraps (a borrow into bit 3) |
| Flags.HalfCarryTripleSub8 | cpu/flags.go:79-81 | the two-step test is true iff x's low nibble is below the sum of y's and z's |
| Flags.HalfCarryAdd16 | cpu/flags.go:85-87 | true iff bits 0-11 of x and y sum to 0x1000 or more (a carry out of bit 11) |
| Flags.HalfCarryTripleAdd16 | cpu/flags.go:91-93 | the two-step test is true iff bits 0-11 of x, y and z sum to 0x1000 or more |
| Flags.HalfCarrySub16 | cpu/flags.go:97-99 | true iff the difference of bits 0-11 wraps |
| Flags.HalfCarryTripleSub16 | cpu/flags.go:103-105 | the two-step test is true iff bits 0-11 of x are below those of y plus those of z |
| Flags.CarryAdd8 | cpu/flags.go:109-111 | `x > 0xFF-y` is true iff x + y reaches 256, and iff the wrapped sum is below x |
| Flags.CarryTripleAdd8 | cpu/flags.go:115-117 | the two-step test, with the wrapped x + y, is true iff x + y + z reaches 256 |
| Flags.CarrySub8 | cpu/flags.go:121-123 | `x < y` is true iff the byte difference wraps |
| Flags.CarryTripleSub8 | cpu/flags.go:127-129 | the two-step test is true iff x < y + z |
| Flags.CarryAdd16 | cpu/flags.go:133-135 | true iff x + y reaches 65536 |
| Flags.CarryTripleAdd16 | cpu/flags.go:139-141 | the two-step test is true iff x + y + z reaches 65536 |
| Flags.CarrySub16 | cpu/flags.go:145-147 | true iff the word difference wraps |
| Flags.CarryTripleSub16 | cpu/flags.go:151-153 | the two-step test is true iff x < y + z |
| Flags.AddCarryExamples | cpu/flags.go:58-111 | 0x0F + 0x01 carries out of the nibble only; 0xFF + 0x01 carries out of both |
| Flags.SubCarryExamples | cpu/flags.go:70-123 | 0x00 - 0x01 borrows on both; 0x10 - 0x01 borrows on the nibble only |
| Bits.AndBit | cpu/instructiontemplates.go:301-307 | bit i of Go's `x & y` is set iff bit i is set in both operands |
| Bits.OrBit | cpu/instructiontemplates.go:283-289 | bit i of Go's `x \| y` is set iff bit i is set in either operand |
| Bits.XorBit | cpu/instructiontemplates.go:292-298 | bit i of Go's `x ^ y` is set iff exactly one operand has bit i set |
| Bits.ZeroIffNoBit | cpu/instructiontemplates.go:25-30 | a byte is 0 iff none of its eight bits is set, the fact the Z flag of the bit tests rests on |
| Bits.Word | cpu/register16.go:75-79 | `uint16(h)<<8 \| uint16(l)`: the word's high byte is h and its low byte l |
| Bits.WordOfHalves | cpu/register16.go:69-79 | a word is rebuilt from its high and low bytes |
| Bits.Signed8 | cpu/instructions.go:244-260 | Go's `int8(b)`: a value in -128..127 congruent to b modulo 256 |
| Alu.Add | cpu/instructiontemplates.go:350-356 | ADD A,n: the result is A + n mod 256; F is Z iff the result is 0, N clear, H iff the low nibbles carry, C iff the sum reaches 256, with F's low nibble kept |
| Alu.Adc | cpu/instructiontemplates.go:334-347 | ADC A,n: A + n + C mod 256; H and C are the carries of the three-way sum, N clear, Z from the result |
| Alu.Sub | cpu/instructiontemplates.go:325-331 | SUB n: A - n mod 256; N set, H iff A's low nibble is below n's, C iff A < n, Z from the result |
| Alu.Sbc | cpu/instructiontemplates.go:310-322 | SBC A,n: A - n - C mod 256; H and C are the borrows of n + C taken together, N set |
| Alu.And | cpu/instructiontemplates.go:301-307 | AND n: each bit of the result is the AND of the operands' bits; H set, N and C clear, Z from the result |
| Alu.Xor | cpu/instructiontemplates.go:292-298 | XOR n: each bit of the result is the XOR of the operands' bits; N, H and C clear |
| Alu.Or | cpu/instructiontemplates.go:283-289 | OR n: each bit of the result is the OR of the operands' bits; N, H and C clear |
| Alu.Cp | cpu/instructiontemplates.go:275-280 | CP n: A is unchanged; Z iff A == n, N set, H and C are the borrows of A - n |
| Alu.Inc | cpu/instructiontemplates.go:267-272 | INC r: x + 1 mod 256; H iff the low nibble was 0xF, N clear, C unchanged |
| Alu.Dec | cpu/instructiontemplates.go:259-264 | DEC r: x - 1 mod 256; H iff the low nibble was 0, N set, C unchanged |
| Alu.AddWords | cpu/instructiontemplates.go:453-463 | ADD HL,rr: HL + rr mod 65536; Z unchanged, N clear, H iff bits 0-11 carry, C iff the sum reaches 65536 |
| Alu.AddOffset | cpu/instructions.go:244-260 | ADD SP,r8 (and LD HL,SP+r8): SP plus the sign-extended byte mod 65536; Z and N clear, H and C from the unsigned add of SP's low byte and the byte |
| Alu.Daa | cpu/instructions.go:1539-1579 | DAA: the result is the low byte of the adjusted sum (+0x06/+0x60 after an add, -0x06/-0x60 after a subtract); Z from the result, H clear, N unchanged, C set when bit 8 of the sum is set and never cleared |
| Alu.Cpl | cpu/instructions.go:1591-1599 | CPL: A becomes 0xFF - A, its complement; N and H set, Z and C unchanged |
| Alu.Scf | cpu/instructions.go:1581-1589 | SCF: C set, N and H clear, Z unchanged |
| Alu.Ccf | cpu/instructions.go:1601-1609 | CCF: C flipped, N and H clear, Z unchanged |
| Alu.Rlc | cpu/instructiontemplates.go:136-143 | RLC r: the byte rotated left; C is the old bit 7; Z set iff the result is 0 and the CB form is used; N and H clear |
| Alu.Rrc | cpu/instructiontemplates.go:125-132 | RRC r: the byte rotated right; C is the old bit 0; Z only in the CB form |
| Alu.Rl | cpu/instructiontemplates.go:106-121 | RL r: 2 * (x mod 128) + old C; C is the old bit 7; Z only in the CB form |
| Alu.Rr | cpu/instructiontemplates.go:86-101 | RR r: x / 2 + 128 * old C; C is the old bit 0; Z only in the CB form |
| Alu.Sla | cpu/instructiontemplates.go:58-67 | SLA r: 2 * (x mod 128); C is the old bit 7, Z from the result, N and H clear |
| Alu.Sra | cpu/instructiontemplates.go:72-81 | SRA r: x / 2 with bit 7 kept; C is the old bit 0 |
| Alu.Swap | cpu/instructiontemplates.go:46-53 | SWAP r: the nibbles exchanged; N, H and C clear, Z from the result |
| Alu.Srl | cpu/instructiontemplates.go:35-43 | SRL r: x / 2; C is the old bit 0, bit 7 clear |
| Alu.SetBit | cpu/instructiontemplates.go:13-16 | SET n,r: bit i of the result is set iff i == n or bit i of x is set |
| Alu.ResetBit | cpu/instructiontemplates.go:19-22 | RES n,r: bit i of the result is set iff i != n and bit i of x is set |
| Alu.TestBit | cpu/instructiontemplates.go:25-30 | BIT n,r: Z iff bit n of x is clear; N clear, H set, C unchanged |
| Alu.CompareIsSubtractFlags | cpu/instructiontemplates.go:275-331 | CP leaves exactly the flags SUB leaves and does not change A |
| Alu.CarryFreeForms | cpu/instructiontemplates.go:310-356 | with C clear, ADC equals ADD and SBC equals SUB, value and flags |
| Alu.SubtractUndoesAdd | cpu/instructiontemplates.go:325-356 | SUB n applied to the result of ADD n gives the original A back, whatever F is |
| Alu.XorSelfClears | cpu/instructiontemplates.go:292-298 | XOR A with itself gives 0 with only Z set among the four flags |
| Alu.DecUndoesInc | cpu/instructiontemplates.go:259-272 | DEC undoes INC, and neither INC nor DEC changes C |
| Alu.RotationsInvert | cpu/instructiontemplates.go:86-143 | RR after RL gives the byte and the carry back; RRC after RLC gives the byte back |
| Alu.AccumulatorRotationsClearZero | cpu/instructions.go:1953-1975 | RLCA, RRCA, RLA and RRA always leave Z clear, even for a zero result |
| Alu.ShiftRightSign | cpu/instructiontemplates.go:35-81 | SRA keeps the sign bit and SRL always clears it |
| Alu.SwapTwice | cpu/instructiontemplates.go:46-53 | SWAP applied twice restores the byte |
| Alu.BitAfterSetAndReset | cpu/instructiontemplates.go:13-30 | BIT after SET reports the bit set (Z clear); BIT after RES reports it clear (Z set) |
| Alu.DaaAfterAdd | cpu/instructions.go:1539-1579 | after ADD of two packed-decimal bytes, DAA gives the packed-decimal sum mod 100, and C iff the decimal sum reaches 100 |
| Opcodes.TableAgrees | cpu/instructions.go:13-1976 | decoding: an opcode has no entry exactly when it is one of the eleven unassigned opcodes; any other entry holds the one instruction that encodes to that opcode, with the length and cycles that instruction's form reports |
| Opcodes.EncodeAgrees | cpu/instructions.go:13-1976 | encoding: every well-formed instruction sits in the table at its own opcode with the expected length and cycles, so Table and Encode are inverse on assigned opcodes |
| Opcodes.TableCbAgrees | cpu/instructionscb.go:13-1906 | decoding the CB table: all 256 entries are filled, each holding the CB instruction that encodes to its opcode, with 8 cycles on a register and 16 on (HL) |
| Opcodes.EncodeCbAgrees | cpu/instructionscb.go:13-1906 | encoding the CB table: every CB instruction sits at its own opcode |
| Opcodes.CbWellFormed | cpu/instructionscb.go:13-1906 | every CB entry that tests, resets or sets a bit names a bit below 8 |
| Instructions.PutPairGets | cpu/register16.go:69-72 | setting a 16-bit pair makes it read back the value set (high byte first), and no other pair, PC or IME changes |
| Instructions.LoadImmediate16LittleEndian | cpu/core.go:213-233 | loadImmediate16 reads PC+1 then PC+2, leaves PC at PC+2 (mod 0x10000) and puts the first byte in the low half |
| Instructions.ReadsBack | cpu/instructiontemplates.go:401-438 | two successful writes below SP followed by reads of the same addresses over RAM-like memory return the bytes written |
| Instructions.PushThenPop | cpu/instructiontemplates.go:401-438 | PushRr then PopRr of a pair other than SP, over RAM-like memory, restores every register and SP |
| Instructions.PushThenPopAf | cpu/instructions.go:146-175 | PUSH AF then POP AF over RAM-like memory restores A and all of F |
| Instructions.PopAfKeepsLowNibble | cpu/instructions.go:146-158 | a successful POP AF takes F's high nibble from the stack and keeps F's old low nibble |
| Instructions.PushPcSucceeds | cpu/instructiontemplates.go:423-438 | a successful push of PC makes two writes, SP-1 then SP-2, high byte first, and leaves SP two lower |
| Instructions.RetTaken | cpu/instructiontemplates.go:216-239 | a taken RetCond reads SP then SP+1, and on success sets PC one before the popped address and SP two higher; a failed read leaves the registers the Go code has already changed |
| Instructions.CallTaken | cpu/instructiontemplates.go:168-195 | a taken CALL a16 reads its two operand bytes, then pushes the next instruction's address |
| Instructions.RetAfterPush | cpu/instructiontemplates.go:216-239 | a RET right after a push of an address over RAM-like memory reads it back, restores SP and leaves PC one before it |
| Instructions.CallThenRet | cpu/instructions.go:1840-1844 | CALL a16 then RET over RAM-like memory: SP is restored and PC ends on the call's last byte, so the step's increment lands on the next instruction |
| Instructions.IsrThenReti | cpu/interrupts.go:113-132 | jumpToISR then RETI over RAM-like memory: SP is restored, IME is set again and PC resumes the interrupted instruction |
| Instructions.HlStepOnlyOnSuccess | cpu/instructions.go:276-296 | LD (HL+),A, LD (HL-),A and LD A,(HL±) step HL only when the access succeeded; a failure leaves every register as it was |
| Instructions.DiEntry | cpu/instructions.go:24-28 | DI clears IME, makes no memory access and reports 4 cycles |
| Instructions.EiEntry | cpu/instructions.go:30-34 | EI sets IME immediately (no one-instruction delay), makes no access and reports 4 cycles |
| Instructions.HaltEntry | cpu/instructions.go:61-65 | HALT sets the halt flag, makes no access and reports 4 cycles |
| Instructions.StopEntry | cpu/instructions.go:54-59 | STOP steps PC over its second byte, sets the stop flag, makes no access and reports 4 cycles |
| Instructions.UnassignedFails | cpu/core.go:129-133 | a step on an opcode with no table entry reads the opcode, changes no register and fails with a no-such-instruction error |
| Instructions.ResSetKeepFlags | cpu/instructiontemplates.go:13-22 | RES n and SET n leave F alone and change only bit n of the operand |
| Instructions.TestBitAtHlOnlyReads | cpu/instructionscb.go:527-542 | BIT n,(HL) reads the byte at HL and never writes; Z is set iff bit n was clear, H set, N clear, C kept |
| Instructions.PrefixRunsCbEntry | cpu/instructions.go:36-52 | PREFIX CB reads the byte after PC and runs that CB entry: 16 cycles on (HL), 8 on a register; a failed read fails after 4 cycles |
| Instructions.BranchCycles | cpu/instructions.go:1615-1850 | conditional JR/JP/CALL/RET report the taken cycle count only when they succeed with the condition true (JR 12/8, JP 16/12, CALL 24/12, RET 20/8); unconditional JR, JP, CALL and RET report 12, 16, 24 and 16 |
| Instructions.FlagTest | cpu/interrupts.go:56-109 | an interrupt's bit is pending in a mask exactly when mask AND flag is non-zero |
| Instructions.PendingTests | cpu/interrupts.go:56-109 | handleInterrupts tests IE AND IF for V-blank, LCD STAT, timer, serial and joypad, in that order |
| Instructions.RequestWakes | cpu/interrupts.go:56-70 | any pending request (IF non-zero) ends HALT and STOP whatever IME says |
| Instructions.NeverHalts | cpu/interrupts.go:56-109 | handleInterrupts never sets HALT or STOP: a running CPU stays running |
| Instructions.NothingServiced | cpu/interrupts.go:56-109 | with IME off, or nothing both enabled and requested, handleInterrupts makes no access and changes only HALT and STOP |
| Instructions.ServicesFirstPending | cpu/interrupts.go:56-132 | with IME on, the lowest-numbered enabled and requested interrupt k is serviced: only its IF bit is cleared, IME goes off, PC is pushed high byte first and PC jumps to 0x40 + 8k |
| Cpu.Core.constructor | cpu/core.go:64-89 | NewCore: every register and flag zero, IME off, not quitting, no timed unit registered |
| Cpu.Core.SetPair | cpu/register16.go:69-72 | Register16.set: the pair reads back the word set; the other registers are unchanged |
| Cpu.Core.LoadImmediate8 | cpu/core.go:200-210 | loadImmediate8: PC steps by one, then one read at the new PC, whose reply is the result |
| Cpu.Core.LoadImmediate16 | cpu/core.go:213-233 | loadImmediate16: two such reads, the first byte low; registers, accesses and error as Instructions.LoadImmediate16 |
| Cpu.Core.LdRm | cpu/instructiontemplates.go:359-370 | LdRm: one read of the address into the register; a failed read leaves the register |
| Cpu.Core.LdRd8 | cpu/instructiontemplates.go:373-384 | LdRd8: the immediate byte into the register |
| Cpu.Core.LdRrD16 | cpu/instructiontemplates.go:387-398 | LdRrD16: the immediate word into the pair |
| Cpu.Core.PopRr | cpu/instructiontemplates.go:401-420 | PopRr: reads SP then SP+1 into the low then high byte, SP two higher; on a failure the effects already made stay, as Instructions.PopRr computes |
| Cpu.Core.PushRr | cpu/instructiontemplates.go:423-438 | PushRr: SP-1 gets the high byte, SP-2 the low byte, SP two lower; as Instructions.PushRr |
| Cpu.Core.PushPc | cpu/interrupts.go:113-132 | the push of PC shared by Rst, CallCondA16 and jumpToISR |
| Cpu.Core.Rst | cpu/instructiontemplates.go:146-164 | Rst: push PC, then PC one before the restart vector |
| Cpu.Core.CallCondA16 | cpu/instructiontemplates.go:168-195 | CallCondA16: reads the target, and only when the condition holds pushes the next address and jumps |
| Cpu.Core.JpCondA16 | cpu/instructiontemplates.go:199-212 | JpCondA16: reads the target, jumps only when the condition holds |
| Cpu.Core.RetCond | cpu/instructiontemplates.go:216-239 | RetCond: pops PC only when the condition holds |
| Cpu.Core.JrCondR8 | cpu/instructiontemplates.go:243-256 | JrCondR8: reads the signed offset and adds it to PC only when the condition holds |
| Cpu.Core.LdA16Sp | cpu/instructions.go:91-105 | LD (a16),SP: SP's low byte at a16, its high byte at a16+1 (wrapping) |
| Cpu.Core.LdHlStepA | cpu/instructions.go:276-298 | LD (HL+),A and LD (HL-),A: the write, then HL stepped only on success |
| Cpu.Core.LdAHlStep | cpu/instructions.go:357-380 | LD A,(HL+) and LD A,(HL-): the read, then HL stepped only on success |
| Cpu.Core.LdHigh | cpu/instructions.go:780-810 | LDH: the access at 0xFF00 + a8 |
| Cpu.Core.LdAbs | cpu/instructions.go:831-853 | LD (a16),A and LD A,(a16) |
| Cpu.Core.IncDecHl | cpu/instructions.go:1461-1537 | INC (HL) and DEC (HL): F is updated before the write-back, so a failed write keeps the new flags |
| Cpu.Core.PopAf | cpu/instructions.go:146-158 | POP AF: PopRr, then F's low nibble restored from before |
| Cpu.Core.SpOffset | cpu/instructions.go:107-122 | LD HL,SP+r8 and ADD SP,r8: SP plus the signed offset, Z and N clear, H and C from the low byte |
| Cpu.Core.Reti | cpu/instructions.go:1689-1698 | RETI: RetCond, then IME set only if the pop succeeded |
| Cpu.Core.ExecCb | cpu/instructionscb.go:13-1906 | a CB entry: read the operand, apply the operation, write back unless it only tests a bit; agrees with Instructions.ExecCb |
| Cpu.Core.PrefixCb | cpu/instructions.go:36-52 | PREFIX CB: reads the opcode after PC and runs that CB entry, failing when the read fails or the entry is unassigned |
| Cpu.Core.Exec | cpu/instructions.go:13-1976 | any table entry run on the core's fields and the bus leaves the registers, accesses, error and cycle count Instructions.Exec computes |
| Cpu.Core.Step | cpu/core.go:101-140 | one turn of Start's loop up to the clocks: read the opcode at PC, fail on an unassigned entry, run it, step PC only on success; agrees with Instructions.Step |
| Cpu.Core.RequestInterrupt | cpu/interrupts.go:51-53 | RequestInterrupt: IF becomes IF OR flag |
| Cpu.Core.JumpToIsr | cpu/interrupts.go:113-132 | jumpToISR: IME off, PC pushed high byte first, PC set to the vector only if both writes succeed |
| Cpu.Core.Service | cpu/interrupts.go:72-106 | one branch of handleInterrupts: interrupt k's IF bit cleared, then jumpToISR |
| Cpu.Core.HandleInterrupts | cpu/interrupts.go:56-109 | handleInterrupts on the core: agrees with Instructions.HandleInterrupts, whose properties are RequestWakes, NothingServiced and ServicesFirstPending |
| Cpu.Core.RegisterToClockChanges | cpu/core.go:92-94 | the unit is appended to the timed units; registers unchanged |
| Cpu.Core.Stop | cpu/core.go:166-168 | quit is set; nothing else changes |
| Cpu.Core.ReturnFromStop0 | cpu/core.go:171-173 | the stop flag is cleared; nothing else changes |
| Cpu.Core.ClockUnits | cpu/core.go:150-155 | every timed unit, in registration order, is told the same cycle count; the first failure (only the picture unit's sprite error can fail) ends the pass; registers and bus trace unchanged |
| Cpu.Core.Tick | cpu/core.go:148-160 | the do-while: clocks then handleInterrupts, repeated while halted and not quitting; each pass makes the same calls; a CPU that was not halted makes exactly one pass |
| Cpu.Core.WaitWhileStopped | cpu/core.go:142-146 | STOP's wait: only reads of 0xFF00 while stopped and not quitting; a failed read ends it with that read's error |
| Cpu.Core.Start | cpu/core.go:97-163 | Start: PC set to the start address; a core already told to quit returns success with no access; the loop ends with success only through Stop, and otherwise with the first error |
| Cpu.Ticks | cpu/core.go:150-155 | the calls of one clock pass: unit k told the cycles, in order |
| Cpu.Repeat | cpu/core.go:148-160 | n passes make n times the calls of one |
| Cpu.Core.LdRR | cpu/instructions.go:262-854 | LD r, r' and its (HL) forms change the state and the bus trace exactly as `Instructions.RunTransfer` says |
| Cpu.Core.LdRImm | cpu/instructions.go:300-345 | LD r, d8 and LD (HL), d8 change the state and the bus trace exactly as `Instructions.RunTransfer` says |
| Cpu.Core.RunTransfer | cpu/instructions.go:67-854 | Every 8- and 16-bit load and store matches `Instructions.RunTransfer` on state, trace and status |
| Cpu.Core.AluHl | cpu/instructions.go:855-1419 | The accumulator operations on (HL) read the bus once and match `Instructions.RunArith` |
| Cpu.Core.AluImm | cpu/instructions.go:855-1419 | The accumulator operations on d8 read the immediate and match `Instructions.RunArith` |
| Cpu.Core.IncDecR | cpu/instructions.go:1420-1460 | INC r and DEC r leave the register and F as `Alu.Inc` and `Alu.Dec` give them |
| Cpu.Core.ArithOnRegisters | cpu/instructions.go:855-1460 | The register-only 8-bit arithmetic matches `Instructions.RunArith` without touching the bus |
| Cpu.Core.OnAccumulator | cpu/instructions.go:1539-1610 | DAA, CPL, SCF, CCF and the accumulator rotations match `Instructions.RunArith` without touching the bus |
| Cpu.Core.RunArith | cpu/instructions.go:855-1610 | Every 8-bit arithmetic instruction matches `Instructions.RunArith` on state, trace and status |
| Cpu.Core.RunWords | cpu/instructions.go:180-261 | The 16-bit arithmetic and the stack instructions match `Instructions.RunWords` |
| Cpu.Core.RunControl | cpu/instructions.go:1611-1948 | The jumps, calls, returns and control instructions match `Instructions.RunControl` |
| Cpu.Core.Run | cpu/instructions.go:13-1976 | Every closure of the table except PREFIX CB matches `Instructions.Run` on state, trace and status, and leaves the quit flag and units alone |
| Timers.RateOfTima | timers/timers.go:53-68 | the cycles per TIMA step that TAC bits 0-1 select is one of 16, 64, 256 and 1024 |
| Timers.RateTable | timers/timers.go:53-68 | TAC 0, 1, 2, 3 select 1024, 16, 64 and 256 cycles (4096, 262144, 65536 and 16384 Hz), and only bits 0-1 matter |
| Timers.Timer.constructor | timers/timers.go:44-49 | NewTimer: every register and counter zero, IF shared with the core |
| Timers.Timer.Read | timers/timers.go:76-95 | reads succeed exactly on 0xFF04-0xFF07 and return DIV, TIMA, TMA or TAC; elsewhere a read out-of-range error |
| Timers.Timer.Write | timers/timers.go:98-127 | `Wrote`: any write to DIV clears it; TIMA and TMA take the byte; TAC takes the byte and restarts the TIMA counter only when its low three bits change; writes outside 0xFF04-0xFF07 fail; the DIV counter stays |
| Timers.Timer.Wrote | timers/timers.go:98-127 | DIV cleared by any write to it; TIMA and TMA take the byte; TAC takes the byte and restarts the TIMA counter only when its low three bits change; other addresses fail with a write out-of-range error and change nothing; the DIV counter stays |
| Timers.Timer.ClockChanged | timers/timers.go:130-161 | `Clocked`: DIV steps once each time its counter reaches 256 cycles; only while TAC enables it, TIMA steps once per rate, and on wrapping to 0 reloads TMA and raises the timer interrupt; TAC and TMA unchanged |
| Timers.Timer.Clocked | timers/timers.go:130-161 | DIV and its counter after the cycles, TIMA stepping only while TAC enables it, reloading TMA and raising the timer interrupt in IF on wrap-around; TAC and TMA unchanged |
| Counters.TickConserves | timers/timers.go:132-140 | a counter step fires exactly when the accumulated cycles reach the period, and firing takes exactly one period off |
| Counters.TickStaysBelow | timers/timers.go:130-161 | a counter below its period, given at most one period of cycles, fires at most once and stays below its period |
| Irq.Request | cpu/interrupts.go:51-53 | IF becomes IF OR flag |
| Irq.RequestKeepsBits | cpu/interrupts.go:51-53 | after a request, a bit of IF is set exactly when it was set before or is in the flag: no pending request is lost |
| Joypad.PressLines | joypad/joyp.go:88-94 | after a keystroke each line of the button's row follows the key (cleared when pressed, set when released) and every other line keeps its state |
| Joypad.PressNibble | joypad/joyp.go:88-94 | a row stays a nibble under any keystroke |
| Joypad.Apply | joypad/joyp.go:85-95 | the two rows after the keystroke the source hands out, if any: only the button's row changes |
| Joypad.ApplyNibbles | joypad/joyp.go:85-95 | both rows stay nibbles under any keystroke |
| Joypad.WireSelects | joypad/joyp.go:97-113 | the column bits choose the row: bits 5-4 = 01 the buttons, 10 the directions, otherwise all lines up; the high nibble never changes |
| Joypad.FellIff | joypad/joyp.go:115-119 | the interrupt condition holds exactly when some line went from 1 to 0 |
| Joypad.JOYP.constructor | joypad/joyp.go:55-64 | NewJOYP: both rows released (0x0F), the register 0xFF |
| Joypad.JOYP.Read | joypad/joyp.go:67-120 | a read consumes at most one keystroke, updates the rows, rewires the low nibble from the selected row, returns the new register and requests the joypad interrupt exactly when a line fell |
| Joypad.JOYP.Took | joypad/joyp.go:67-120 | what a JOYP read did: the oldest pending keystroke taken and applied to its row, the register's low nibble rewired from the selected row and returned, and the joypad interrupt requested exactly when a line fell |
| Joypad.JOYP.Write | joypad/joyp.go:75-80 | a write takes the high nibble of the byte and keeps the low one; it never fails |
| Cartridge.DecodeHeader | game/cartridge.go:40-95 | NewCartridge's checks in order: the RAM-size byte at 0x149 must be readable and a known code, then the controller type at 0x147 must be supported; success exactly when all hold |
| Cartridge.RamSizeTable | game/cartridge.go:45-62 | RAM-size codes 0, 1, 2, 3 give no RAM, 2 KiB, 8 KiB and 32 KiB; any other code is the corrupted-cartridge error |
| Cartridge.TypeTable | game/cartridge.go:74-93 | type 0 is ROM only, 1-3 MBC1, 5-6 MBC2; every other type, MBC3's included, is not supported |
| Cartridge.ErrorOrder | game/cartridge.go:45-72 | a short image fails with the ROM's range error before anything else; a bad RAM code is reported before a bad type |
| Cartridge.Initial | game/cartridge.go:74-93 | the cartridge right after NewCartridge: the controller the type names, over zeroed RAM of the header's size |
| Cartridge.WriteKeepsValid | game/cartridge.go:104-106 | every write keeps the controller's invariants |
| Cartridge.Mbc1PowerOnIsFlat | game/mbc1.go:27-92 | at power-on an MBC1 cartridge reads 0x0000-0x7FFF like a ROM-only one: bank 1 follows bank 0 |
| Cartridge.Cartridge.Read | game/cartridge.go:99-101 | forwards to the controller: the result is the controller model's read, and nothing changes |
| Cartridge.Cartridge.Write | game/cartridge.go:104-106 | forwards to the controller: the new state and status are the controller model's write |
| Cartridge.NewCartridge | game/cartridge.go:30-96 | fails exactly when DecodeHeader does, with its error; otherwise the cartridge is Initial for the header |
| Mbc1.Initial | game/mbc1.go:27-37 | NewMBC1: ROM bank 1, RAM bank 0, mode 0, RAM disabled |
| Mbc1.WriteKeepsValid | game/mbc1.go:96-153 | every write keeps bankROM0 = bankRAM·32 + bankROM1 with bankROM1 below 32 and bankRAM below 4 |
| Mbc1.ControlWritesKeepContents | game/mbc1.go:98-130 | a write below 0x8000 only sets control registers: it succeeds and leaves ROM and RAM contents alone |
| Mbc1.SelectRomBank | game/mbc1.go:105-115 | a ROM-bank write selects bankRAM·32 + (data AND 0x1F), with only the whole byte 0 turned into 1, so 0x20 selects bank 0 of its group |
| Mbc1.BankedRead | game/mbc1.go:53-73 | 0x4000-0x7FFF reads the byte at offset addr - 0x4000 of the selected bank |
| Mbc1.SelectingFiveReadsBankFive | game/mbc1.go:105-115 | from power-on, writing 5 to 0x2000 makes 0x4000-0x7FFF read bank 5 |
| Mbc1.ReadsIgnoreEnable | game/mbc1.go:76-89 | RAM reads do not depend on the RAM enable |
| Mbc1.DisabledWritesDropped | game/mbc1.go:133-137 | while RAM is disabled, RAM writes succeed and change nothing |
| Mbc1.RamRoundTrip | game/mbc1.go:132-150 | an enabled RAM write succeeds exactly when a read there would, and is then read back |
| Mbc1.OutOfRange | game/mbc1.go:40-153 | addresses outside 0x0000-0x7FFF and 0xA000-0xBFFF fail with the range errors, changing nothing |
| Mbc1.MBC1.constructor | game/mbc1.go:27-37 | NewMBC1 over the ROM image and RAM buffer: the model is Initial |
| Mbc1.MBC1.Read | game/mbc1.go:40-92 | the read the model gives, leaving the model unchanged |
| Mbc1.MBC1.ReadRom | game/mbc1.go:43-73 | bank 0 below 0x4000, the selected bank through its window above |
| Mbc1.MBC1.ReadRam | game/mbc1.go:76-89 | RAM through the window of bank bankRAM in mode 1, bank 0 in mode 0 |
| Mbc1.MBC1.Write | game/mbc1.go:96-153 | the new state and status are the model's write |
| Mbc1.MBC1.WriteRegister | game/mbc1.go:98-130 | the control-register writes |
| Mbc1.MBC1.WriteRam | game/mbc1.go:133-150 | the RAM write through the selected window, dropped while disabled |
| Mbc2.Initial | game/mbc2.go:24-33 | NewMBC2: bank 1, 512 zeroed RAM cells, RAM disabled |
| Mbc2.WriteKeepsValid | game/mbc2.go:68-106 | every write keeps the bank in 1-15 and every RAM cell a nibble |
| Mbc2.EnableNeedsBit8Clear | game/mbc2.go:71-78 | a write to 0x0000-0x1FFF changes the enable only when address bit 8 is clear, and changes nothing else |
| Mbc2.BankNeedsBit8Set | game/mbc2.go:81-92 | a write to 0x2000-0x3FFF changes the bank only when address bit 8 is set, to data AND 0x0F with 0 meaning 1 |
| Mbc2.RamReadsNibble | game/mbc2.go:59-61 | every read of 0xA000-0xA1FF succeeds with a nibble, enabled or not |
| Mbc2.RamRoundTrip | game/mbc2.go:95-103 | an enabled RAM write stores the data's low nibble, which is read back |
| Mbc2.DisabledWritesDropped | game/mbc2.go:97-99 | while RAM is disabled, RAM writes succeed and change nothing |
| Mbc2.BankedRead | game/mbc2.go:49-56 | 0x4000-0x7FFF reads the selected bank |
| Mbc2.OutOfRange | game/mbc2.go:36-106 | 0xA200-0xBFFF and everything outside ROM and RAM fail with the range errors |
| Mbc2.MBC2.constructor | game/mbc2.go:24-33 | NewMBC2 allocates its own RAM: the model is Initial |
| Mbc2.MBC2.Read | game/mbc2.go:36-64 | the read the model gives, leaving it unchanged |
| Mbc2.MBC2.Write | game/mbc2.go:68-106 | the new state and status are the model's write |
| Mbc3.Days | game/mbc3.go:69-71 | the 9-bit day counter, rtc[3] plus bit 0 of rtc[4] as bit 8 |
| Mbc3.SetDays | game/mbc3.go:73-76 | stores a day count below 512 so that Days reads it back, keeping the other bits of rtc[4] |
| Mbc3.WithDayCarry | game/mbc3.go:82-84 | sets bit 7 of rtc[4] and nothing else |
| Mbc3.NextSecond | game/mbc3.go:95-126 | one second of the carry chain: seconds wrap at 60 into minutes, minutes at 60 into hours, hours at 24 into days, and days wrapping to 0 set the carry |
| Mbc3.TickSeconds | game/mbc3.go:98-100 | a tick below 59 seconds only adds one second |
| Mbc3.TickMinutes | game/mbc3.go:100-108 | at 59 seconds the tick carries into the minutes and stops there |
| Mbc3.TickHours | game/mbc3.go:108-114 | at 59:59 the tick carries into the hours |
| Mbc3.TickDays | game/mbc3.go:114-123 | at 23:59:59 the tick goes to 00:00:00 of the next day, modulo 512 days |
| Mbc3.NextSecondCounts | game/mbc3.go:95-126 | on an in-range clock one tick adds exactly one second to the total modulo 512 days, stays in range, keeps the halt and other control bits, and sets the carry exactly on the wrap |
| Mbc3.DayElapsed | game/mbc3.go:114-123 | counted in seconds, the tick into the day counter adds one second modulo the 512-day period |
| Mbc3.LastSecondWraps | game/mbc3.go:119-123 | day 511, 23:59:59 rolls over to day 0, 00:00:00 with the carry set |
| Mbc3.State.ClockChanged | game/mbc3.go:87-131 | keeps the clock registers well formed; the cycles are added; once a second's worth (cpu.Frequency) is reached one second is spent and, unless halted, the clock ticks |
| Mbc3.Initial | game/mbc3.go:24-43 | NewMBC3: bank 1, RTC code 0, no latch, the clock set to the given time of day |
| Mbc3.WriteKeepsValid | game/mbc3.go:187-284 | every write keeps the bank and clock invariants |
| Mbc3.ClockAtMostOneSecond | game/mbc3.go:87-131 | ClockChanged moves the clock by at most one second, never while halted, and keeps the cycles it did not spend |
| Mbc3.LatchToggles | game/mbc3.go:227-256 | writing 0x00 then 0x01 takes a latched copy of the clock if there is none and drops it if there is |
| Mbc3.LatchDisarms | game/mbc3.go:227-256 | any other latch write disarms, and only 0x01 on an armed latch changes the copy |
| Mbc3.SnapshotFreezesReads | game/mbc3.go:170-177 | while a latched copy exists, clock-register reads return the copy, not the running clock |
| Mbc3.RtcWritesGoLive | game/mbc3.go:274-278 | an enabled clock-register write goes to the live clock even while a copy is latched |
| Mbc3.UnusedCodes | game/mbc3.go:157-284 | RTC codes 4-7 and above 0x0C read 0 without error, and writes to them change nothing |
| Mbc3.ControlRegisters | game/mbc3.go:189-225 | only 0x00 and 0x0A change the enable; a 0x4000-0x5FFF write sets the RAM bank only for values 0-3 |
| Mbc3.DisabledWritesDropped | game/mbc3.go:258-262 | writes to 0xA000-0xBFFF need the enable |
| Mbc3.OutOfRange | game/mbc3.go:134-284 | addresses outside ROM and 0xA000-0xBFFF fail with the range errors |
| Mbc3.MBC3.AdvanceSecond | game/mbc3.go:95-126 | the carry chain register by register computes NextSecond |
| Mbc3.MBC3.ClockChanged | game/mbc3.go:87-131 | the new clock and counter are the model's ClockChanged |
| Mbc3.MBC3.Read | game/mbc3.go:134-183 | the read the model gives |
| Mbc3.MBC3.Write | game/mbc3.go:187-284 | the new state and status are the model's write |
| Mbc3.MBC3.WriteRegister | game/mbc3.go:189-256 | the control-register writes, including the clock latch |
| Mbc3.MBC3.WriteRam | game/mbc3.go:257-281 | the RAM and clock-register writes |
| NullMbc.ReadsFlatRom | game/nullmbc.go:17-24 | 0x0000-0x7FFF reads the image byte at the same address, or fails past its end |
| NullMbc.Ranges | game/nullmbc.go:17-34 | everything from 0x8000 up fails both ways; below it writes succeed and change nothing |
| Cartridge.Cartridge.constructor | game/cartridge.go:74-95 | The cartridge wraps the bank controller the header selected, well formed |
| Mbc3.MBC3.constructor | game/mbc3.go:24-43 | The controller starts from `Initial`: ROM bank 1, no latch, no snapshot, and the clock set from the day, hour, minute and second passed in for time.Now (days modulo 512, not halted) |
| Lcdc.SpriteWidth | display/lcdc.go:47-54 | sprites are 16 rows tall exactly when LCDC bit 2 is set, else 8 |
| Lcdc.EnableBits | display/lcdc.go:27-54 | the display, window, sprite and background enables are bits 7, 5, 1 and 0, and the sprite height is bit 2 |
| Lcdc.MapBits | display/lcdc.go:57-69 | the tile set is bit 4, the background map bit 3 and the window map bit 6 |
| Lcdc.LCDC.Read | display/lcdc.go:16-18 | any address reads the register and never fails |
| Lcdc.LCDC.Write | display/lcdc.go:21-24 | a write replaces the whole byte, which reads back |
| Stat.ModeFlag | display/stat.go:54-56 | the mode is bits 0-1, a value below 4 |
| Stat.FieldBits | display/stat.go:34-68 | the coincidence flag is bit 2 and the H-blank, V-blank, OAM and coincidence interrupt enables are bits 3, 4, 5 and 6 |
| Stat.WithModeBits | display/stat.go:59-63 | setting a mode below 4 makes bits 0-1 the mode and changes nothing else; 4 and above change nothing |
| Stat.WithCoincidenceBits | display/stat.go:71-77 | the coincidence setter sets or clears bit 2 and changes nothing else |
| Stat.SameEnables | display/stat.go:34-51 | two values that agree on bits 3-7 have the same interrupt enables |
| Stat.WrittenBits | display/stat.go:85-88 | a bus write keeps bits 0-2 (mode and coincidence) and takes bits 3-7 from the data |
| Stat.STAT.Read | display/stat.go:80-82 | any address reads the register and never fails |
| Stat.STAT.Write | display/stat.go:85-88 | the register becomes Written of the old value and the data |
| Stat.STAT.SetModeFlag | display/stat.go:59-63 | the register after setModeFlag |
| Stat.STAT.SetCoincidenceFlag | display/stat.go:71-77 | the register after setCoincidenceFlag |
| Palette.ToColor | display/palette.go:34-36 | toColor in byte arithmetic: a shade in 0-3 |
| Palette.SmallShifts | display/palette.go:34-36 | codes 0-3 shift the palette left by 6, 4, 2 and 0 |
| Palette.ToColorIsField | display/palette.go:34-36 | for a code c in 0-3 the shade is bits 2c and 2c+1 of the palette |
| Palette.NeverTransparent | display/palette.go:34-36 | no palette lookup gives the transparent shade |
| Palette.IdentityPalette | display/palette.go:34-36 | the palette 0xE4 maps every code 0-3 to itself |
| Palette.WideCodes | display/palette.go:34-36 | only the two low bits of the code matter, except that byte wrap-around lets codes 128-131 through as 0-3; every other code above 3 gives white |
| Palette.WideShift | display/palette.go:34-36 | the shift amount is 8 or more for codes 4-127 and 132-255 |
| Palette.Palette.Read | display/palette.go:39-41 | any address reads the register and never fails |
| Palette.Palette.Write | display/palette.go:44-47 | a write replaces the byte, which reads back |
| Sprites.SpriteAttr.Priority | display/spriteattr.go:55-57 | the priority is bit 7 of the flags byte |
| Sprites.Bytes | display/spriteattr.go:43-69 | the four OAM bytes of an attribute, in order |
| Sprites.Layout | display/spriteattr.go:43-69 | Y, X and tile are bytes 0, 1 and 2; priority, flips and palette are bits 7, 6, 5 and 4 of byte 3 |
| Sprites.LessIrreflexive | display/spriteattr.go:34-37 | no attribute is Less than itself |
| Sprites.LessTransitive | display/spriteattr.go:34-37 | Less is transitive |
| Sprites.LessTies | display/spriteattr.go:34-37 | two attributes neither of which is Less than the other share X and tile ID: Less never looks at Y, flags or OAM index |
| Sprites.Swap | display/spriteattr.go:39-41 | entries i and j are exchanged and nothing else changes |
| Sprites.InsertPermutes | display/gpu.go:831 | inserting into a line keeps every sprite and adds exactly the one inserted |
| Sprites.InsertSorted | display/gpu.go:831 | inserting into a Less-sorted line keeps it sorted |
| Sprites.SortByLess | display/gpu.go:831 | the line of sprites in Less order: sorted, and the same multiset of sprites |
| Sprites.SortByLessCorrect | display/gpu.go:831 | the sorted line is in Less order and holds the same sprites |
| Screen.OffScreenMeansInvisible | display/gpu.go:926-928 | offScreen holds exactly when none of the sprite's pixels falls on screen |
| Screen.CoordsTotal | display/gpu.go:930-959 | every sprite that is not off screen hits one of calcCoords' three cases, so its panic is unreachable; the visible range is the sprite's span cut to the screen, and the skipped count is the pixels cut off on the left |
| Screen.TileAddrTable | display/gpu.go:713-725 | tile set 1 puts tile n at 0x8000 + 16n; tile set 0 at 0x9000 + 16 * signed n; every tile's 16 bytes lie in 0x8000-0x97FF |
| Screen.SharedTiles | display/gpu.go:713-725 | tiles 128-255 of set 0 are tiles 128-255 of set 1 |
| Screen.MapBase | display/lcdc.go:62-69 | the tile map at 0x9800 or at 0x9C00, 32 by 32 tile numbers within VRAM |
| Screen.ShiftBitIsBit | display/gpu.go:620-621 | for a pixel 0-7 the shift picks bit 7 - px, so pixel 0 is the leftmost bit; a shift of 8 or more gives 0 |
| Screen.ColorCode | display/gpu.go:620-623 | a pixel's colour code takes bit 0 from the row's first byte and bit 1 from the second |
| Screen.TileCode | display/gpu.go:564-630 | the colour code at a pixel of the map: tile number from the map, then the tile's row bytes at 2·py |
| Screen.BackgroundPixel | display/gpu.go:564-630 | renderBackgroundPixel: white when the background is off, else the BGP shade of the map pixel at (x + SCX, y + SCY), wrapping round the 256-by-256 map |
| Screen.WindowPixel | display/gpu.go:633-710 | renderWindowPixel: transparent when the window is off or the pixel is left of WX-7 or above WY, else the BGP shade of the window map pixel; with WX below 7 the pixel is left unset |
| Screen.WindowCovers | display/gpu.go:633-710 | the window covers exactly the pixels right of WX-7 and below WY, when it is on and WX is at least 7 |
| Screen.SpriteRowAddr | display/gpu.go:880-924 | the row address of a sprite's tile: 8-row sprites use the tile itself; 16-row sprites use the even tile for rows 0-7 and the odd tile for rows 8-15 |
| Screen.SpriteColorCode | display/gpu.go:880-924 | spriteColorCode: the colour code at (x, y) of the sprite after its X and Y flips, in byte arithmetic |
| Screen.FlipInvolution | display/gpu.go:880-924 | flipping twice reads the same pixel |
| Screen.SpanOnScreen | display/gpu.go:930-959 | a visible span is a non-empty range of columns on screen |
| Screen.ColumnsOnScreen | display/gpu.go:930-959 | the horizontal placement keeps a non-empty range of columns within 0-159 |
| Screen.SpriteCodes | display/gpu.go:837-877 | the codes renderSprite reads across the span: sprite column spx + (x - xs) of the sprite row |
| Screen.PaintCodes | display/gpu.go:837-877 | a pixel is painted only where the layer is still transparent and the code is not 0, so an earlier sprite stays on top |
| Screen.PaintSprite | display/gpu.go:837-877 | the sprite layer's line after renderSprite draws one sprite |
| Screen.PaintKeepsDrawn | display/gpu.go:837-877 | painting never changes a pixel already drawn, and a pixel left transparent had code 0 |
| Screen.MergeProperties | display/gpu.go:728-761 | the frame pixel is one of the four layer pixels; it is opaque whenever the background is, and a sprite below the background shows only through white |
| Lcdc.LCDC.constructor | display/gpu.go:113 | LCDC holds the value it is built with (NewGPU uses 0x91) |
| Stat.STAT.constructor | display/gpu.go:111 | STAT holds the value it is built with (zero in NewGPU) |
| Palette.Palette.constructor | display/gpu.go:111 | A palette register holds the value it is built with (zero in NewGPU) |
| Gpu.Initialized | display/gpu.go:315-330 | initialize() on the timing: line 0, OAM search, coincidence flag clear, the line invariant holds |
| Gpu.StepOn | display/gpu.go:365-401 | with the display on, a step is the coincidence check followed, unless it raised its interrupt, by the mode's step |
| Gpu.StepMarksOn | display/gpu.go:365 | with LCDC's display bit set, the step does not depend on whether the display was already marked on |
| Gpu.LcdStatusIf | display/gpu.go:455-515 | a mode change requests the LCD-status interrupt exactly when it fires, and nothing else |
| Gpu.VBlankWait | display/gpu.go:530-534 | within a v-blank line only the cycle counter moves |
| Gpu.VBlankLine | display/gpu.go:536-538 | after 456 cycles of a v-blank line before 153, the next line |
| Gpu.VBlankWrap | display/gpu.go:540-557 | after line 153, line 0 in OAM search with the sprite and background enables latched from LCDC |
| Gpu.TransferOn | display/gpu.go:443-449 | within the line the column moves by byte(cycles) |
| Gpu.TransferEnd | display/gpu.go:451-469 | at the end of the line, h-blank on the next line |
| Gpu.HBlankFrame | display/gpu.go:485-506 | the end of h-blank on line 144: v-blank, the frame, and the v-blank interrupt |
| Gpu.HBlankLine | display/gpu.go:508-517 | the end of h-blank on an earlier line: the next OAM search |
| Gpu.ModeChangeBits | display/stat.go:59-63 | a mode change sets the mode and keeps the coincidence flag and every interrupt enable |
| Gpu.CoincidenceChangeBits | display/stat.go:71-77 | the coincidence setter keeps the mode and every interrupt enable |
| Gpu.ModeStepKeepsLines | display/gpu.go:401-558 | each mode's step keeps the line invariant (LY within its mode's lines, column within the line) and never reaches the h-blank error |
| Gpu.CheckKeepsLines | display/gpu.go:371-399 | the coincidence check changes neither mode nor position, so it keeps the line invariant |
| Gpu.StepKeepsLines | display/gpu.go:343-561 | every ClockChanged step keeps the line invariant, so LY never exceeds 153 and the "ly > 144 during h-blank" error cannot happen |
| Gpu.RaiseBits | cpu/interrupts.go:51-53 | requesting a list of flags sets exactly their bits in IF in addition to those already set |
| Gpu.CoincidenceTracksLY | display/gpu.go:371-399 | with the display on, after every step the coincidence flag says whether LY equalled LYC |
| Gpu.ModeStepKeepsCoincidence | display/gpu.go:401-558 | the mode steps leave the coincidence flag alone |
| Gpu.CoincidenceInterruptPreempts | display/gpu.go:375-394 | a coincidence interrupt ends the step: only the LCD-status interrupt is requested, and the mode and cycle counter do not move |
| Gpu.RequestsOfStep | display/gpu.go:343-561 | the v-blank interrupt is requested exactly when the frame is shown, as the step's last request; a step requests at most two interrupts, only v-blank and LCD status |
| Gpu.OamThreshold | display/gpu.go:407-437 | the OAM search lasts 80 cycles: the search and the transfer happen exactly once they are spent, and the surplus carries over |
| Gpu.TransferDrawsLine | display/gpu.go:443-469 | the transfer scans min(byte(cycles), 160 - lx) pixels and ends the line after exactly 160 columns, moving to h-blank on the next line |
| Gpu.VBlankLines | display/gpu.go:528-557 | each v-blank line lasts 456 cycles; after 153 comes line 0 and the OAM search, with the enables re-read from LCDC |
| Gpu.HBlankEnds | display/gpu.go:475-522 | after 204 cycles of h-blank, line 144 starts v-blank with the frame and the v-blank interrupt; an earlier line starts the next OAM search |
| Gpu.DisplayOff | display/gpu.go:345-363 | with LCDC's display bit clear nothing is requested; the first step after switching off resets the timing and shows a frame, later ones change nothing |
| Gpu.Found | display/gpu.go:802-834 | the sprites among the first n OAM entries that searchOAM keeps, in OAM order; at most n |
| Gpu.Take10 | display/gpu.go:430-432 | attrs[0:10] when there are more than ten, else all of them: a prefix of at most ten |
| Gpu.FoundExactly | display/gpu.go:802-834 | a sprite is found exactly when it is one of the forty in OAM and is on the line for the current height |
| Gpu.OnLineRows | display/gpu.go:802-834 | for heights 8 and 16, a sprite is on line ly exactly when it is horizontally on screen and ly is one of its rows, Y - 16 up to Y - 16 + height |
| Gpu.LineSpritesCorrect | display/gpu.go:422-434 | the sprites of a line: all found when there are ten or fewer, else ten of them; in Less order; and no sprite left out is less than one kept |
| Gpu.LineSpritesVisible | display/gpu.go:802-834 | every sprite kept for a line can be placed with the height of the search |
| Gpu.HeightChangeStrandsSprite | display/gpu.go:846-849 | a sprite at Y = 1 is kept for line 0 at height 16, yet calcCoords has no placement for it at height 8, so clearing LCDC bit 2 between the search and the draw reaches the panic |
| Gpu.PaintOne | display/gpu.go:837-877 | renderSprite on the current line of the two sprite layers: succeeds exactly when calcCoords can place the sprite, painting the layer its priority picks |
| Gpu.PaintAll | display/gpu.go:837-877 | the two lines after the sprites are drawn in turn |
| Gpu.PaintAllFails | display/gpu.go:930-959 | drawing a list of sprites fails exactly when one of them cannot be placed |
| Gpu.PaintAllKeepsDrawn | display/gpu.go:837-877 | a pixel already drawn is never drawn over by a later sprite, so the first sprite in the list wins; a pixel that changes becomes opaque |
| Gpu.TurnsFromZero | display/gpu.go:283-287 | scanning from column 0 over n columns gives renderSprite one turn per started block of 16 columns |
| Gpu.LineTurns | display/gpu.go:278-290 | a whole line gives renderSprite ten turns, one for each of the at most ten sprites of a line |
| Gpu.FrameOf | display/gpu.go:728-761 | createFrame: each pixel of the frame is the merge of the four layers' pixels at that place |
| Gpu.NewGPU | display/gpu.go:105-191 | NewGPU: the struct, then initialize(): LCDC 0x91, other registers 0, line 0 in OAM search, layers cleared |
| Gpu.GPU.constructor | display/gpu.go:105-115 | the GPU struct before initialize(): LCDC 0x91, every other register 0, zeroed VRAM and OAM, the display marked off |
| Gpu.GPU.Initialize | display/gpu.go:315-340 | initialize(): the timing becomes Initialized, no sprites, every layer cleared (window and sprites transparent, background white) |
| Gpu.GPU.ClearLayers | display/gpu.go:332-339 | the double loop: every pixel of the four layers set to its cleared colour |
| Gpu.GPU.Read | display/gpu.go:194-213 | LY, 0 for DMA, the VRAM and OAM bytes; any other address fails out of range |
| Gpu.GPU.Write | display/gpu.go:216-251 | a write to LY runs initialize(); to VRAM or OAM stores the byte, which reads back; other addresses fail out of range; nothing else changes, and an OAM write changes nothing but OAM (`OamOnly`) |
| Gpu.GPU.Wrote | display/gpu.go:216-251 | success exactly at the addresses the unit owns, else write out of range; LY re-initializes the timing, clears the layers and drops the sprites; any other address keeps timing, sprites and layers; VRAM and OAM change at that byte only; the byte reads back except at LY and DMA; frames and the search height stay |
| Gpu.GPU.OamOnly | display/gpu.go:254-272 | the OAM transfer's frame: the timing registers, sprites, frames, layers, search height and VRAM are all as before; only OAM may differ |
| Gpu.GPU.RenderBackgroundPixel | display/gpu.go:564-630 | the background layer pixel at (x, y) becomes BackgroundPixel and no other pixel changes |
| Gpu.GPU.RenderWindowPixel | display/gpu.go:633-710 | the window layer pixel at (x, y) becomes WindowPixel when it decides one, and no other pixel changes |
| Gpu.GPU.RenderPixel | display/gpu.go:301-312 | the background pixel, then the window pixel at (x, y) |
| Gpu.GPU.RenderSprite | display/gpu.go:837-877 | the first sprite of the line is painted as PaintOne says and dropped; with none left nothing happens; failure (only the sprite-off-screen error) leaves the layers and the list |
| Gpu.GPU.DrawSprite | display/gpu.go:855-876 | the loop over the sprite's columns paints the codes over the span as PaintCodes says |
| Gpu.GPU.SearchOAM | display/gpu.go:802-834 | the forty attributes at 0xFE00 + 4·id, those on line ly for the current height, sorted by Less |
| Gpu.GPU.ScanPixels | display/gpu.go:276-298 | scans min(n, 160 - lx) pixels; true, with lx back at 0, exactly when the line is complete; fails only with the sprite error, and never when every sprite of the line can be placed |
| Gpu.GPU.ScanEnd | display/gpu.go:276-298 | where a run of scanPixels ends: the line as far as it got, and the sprites still to draw |
| Gpu.GPU.CreateFrame | display/gpu.go:728-761 | the frame's rows are FrameOf the four layers |
| Gpu.GPU.UpdateMonitor | display/gpu.go:764-778 | the current frame is appended to the frames shown |
| Gpu.GPU.ClockChanged | display/gpu.go:343-561 | the registers, IF, layers and frames after the call are those Step prescribes, with its drawing performed; it cannot fail while the sprite height is the one the search used |
| Gpu.GPU.Clocked | display/gpu.go:343-561 | the registers, IF, sprites, layers and frames after the call are those `Step` from the old timing prescribes, with its drawing `Performed`, and the call succeeds while the sprite height is the one the search used |
| Gpu.GPU.PowerDown | display/gpu.go:347-360 | initialize(), a frame of the cleared layers shown, the display marked off |
| Gpu.GPU.Coincide | display/gpu.go:371-399 | the coincidence flag set when LY reaches LYC and cleared when it leaves it; reports whether the LCD-status interrupt was requested |
| Gpu.GPU.IgnoreAfterCoincidence | display/gpu.go:378-391 | the LCD-status interrupt is requested; when LYC is a visible line (at most 143) the h-blank interrupt, the OAM interrupt (LYC above 0) and the v-blank interrupt (LYC 143) are marked ignored |
| Gpu.GPU.OamClock | display/gpu.go:407-437 | the OAM search step on the object |
| Gpu.GPU.FindSprites | display/gpu.go:422-435 | the line's sprites are Take10 of searchOAM, only while sprites are enabled |
| Gpu.GPU.TransferClock | display/gpu.go:443-469 | the transfer step on the object |
| Gpu.GPU.HBlankClock | display/gpu.go:475-522 | the h-blank step on the object |
| Gpu.GPU.VBlankClock | display/gpu.go:528-557 | the v-blank step on the object |
| Gpu.ClearSpriteLine | display/gpu.go:417-420 | line y of both sprite layers made transparent, and nothing else changed |
| Gpu.GPU.ResetTiming | display/gpu.go:315-330 | The timing state becomes the initialized one for the current LCDC and no sprites are pending |
| Gpu.GPU.ScanColumns | display/gpu.go:278-296 | The scan loop covers min(n, 160 - lx) columns, or stops at the first sprite whose coordinates fail with the off-screen error, having drawn exactly the sprites before it |
| Gpu.GPU.ScanColumn | display/gpu.go:279-289 | One column: the pixel is drawn, then the sprite due at that column, or the off-screen error for it |
| Gpu.GPU.DrawPixel | display/gpu.go:279-281 | The pixel at (x, LY) is drawn from the background and window as they are now |
| Gpu.GPU.SpriteColumn | display/gpu.go:283-287 | At a column that is a multiple of 16 the next sprite is drawn, otherwise nothing more |
| Gpu.GPU.SpriteTurn | display/gpu.go:284-286 | On success one more sprite of the line is drawn (none past the last); a failure is the off-screen error of that sprite |
| Gpu.GPU.DisplayOff | display/gpu.go:345-363 | With LCDC's display bit clear the step performed is the display-off step of `Step`, and it succeeds |
| Gpu.GPU.DisplayOn | display/gpu.go:365-558 | With LCDC's display bit set the step performed is `Step`'s: display marked on, coincidence check, then the mode's step |
| Gpu.GPU.CoincideThenMode | display/gpu.go:371-558 | The coincidence check and then, unless it requested its interrupt, the mode's step: together `Step` |
| Gpu.GPU.ModeAfterCheck | display/gpu.go:401-558 | After a coincidence check that requested nothing, the mode's step completes `Step` |
| Gpu.GPU.UpdateCoincidence | display/gpu.go:371-399 | STAT's coincidence flag, the ignore flags and IF become what `CheckCoincidence` gives |
| Gpu.GPU.RaiseCoincidence | display/gpu.go:371-394 | LY has reached LYC: the flag is set and the LCD-status interrupt requested exactly when STAT enables it and it is not ignored |
| Gpu.GPU.ModeClock | display/gpu.go:401-558 | The switch on STAT's mode performs `ModeStep` |
| Gpu.GPU.OamMode | display/gpu.go:407-437 | The OAM-search case performs `OamStep` and succeeds |
| Gpu.GPU.TransferMode | display/gpu.go:443-469 | The transfer case performs `TransferStep`, succeeding whenever the sprites were searched at the current size |
| Gpu.GPU.HBlankMode | display/gpu.go:475-522 | The h-blank case performs `HBlankStep` and succeeds |
| Gpu.GPU.VBlankMode | display/gpu.go:528-557 | The v-blank case performs `VBlankStep` and succeeds |
| Gpu.GPU.EndSearch | display/gpu.go:416-437 | The search ends in transfer mode with the line's sprites found at the current size (when sprites are on) and the sprite line cleared |
| Gpu.GPU.Transfer | display/gpu.go:443-449 | scanPixels over the cycles' pixels: on success the line is scanned that far, else the off-screen error |
| Gpu.GPU.EnterHBlank | display/gpu.go:451-469 | The line ends in h-blank, with the LCD-status request when STAT enables it and it is not ignored |
| Gpu.GPU.EnterVBlank | display/gpu.go:485-506 | Line 144 enters v-blank: the LCD-status request when enabled and not ignored, then the v-blank request |
| Gpu.GPU.EnterOam | display/gpu.go:508-517 | The next line enters OAM search, with the LCD-status request when enabled and not ignored |
| Gpu.GPU.NewFrame | display/gpu.go:540-557 | After line 153 the frame restarts at line 0 with the enables latched from LCDC, in OAM search |
| Apu.Throttled | audio/apu.go:114-118 | The throttle moves by at most one and stays in -10..-5 once there: down exactly when the sink holds less than three quarters of its (16-bit wrapped) `3 * bufferSize` and the throttle is above -10, up exactly when the buffer is full and the throttle is below -5 |
| Apu.EmptySinkThrottlesDown | audio/apu.go:114-118 | With an empty sink, k throttle steps from t reach max(t - k, -10) |
| Apu.Mix | audio/apu.go:127-180 | While NR52's sound switch is off every emitted sample is (0, 0) |
| Apu.MaskBit | audio/apu.go:143-173 | `x & 2^k` is non-zero exactly when bit k of x is set |
| Apu.ChannelMasks | audio/apu.go:143-173 | The four channel masks select NR51 bits 0-3 on each side |
| Apu.SideSum | audio/apu.go:143-177 | One side of a sample is the sum of the outputs of the channels the side selects plus the side's volume, and it never wraps (below 0x48) |
| Apu.PairsLayout | audio/apu.go:122-185 | The queued bytes of n samples alternate left, right: 2n bytes with the left value at even positions |
| Apu.NewSequencer | audio/apu.go:39-48 | The sequencer over four fresh channels, each in its initialized state, counters at 0 |
| Apu.NewAPU | audio/apu.go:37-84 | The APU starts with zero control registers, initialized channels, counters and throttle at 0, an empty queue and the sampling period cpu frequency / sink frequency |
| Apu.APU.SamplePeriod | audio/apu.go:120 | The sampling period base + throttle is at least 1 whenever the base exceeds 10 |
| Apu.APU.constructor | audio/apu.go:37-84 | The APU owns the sequencer's four channels and a fresh zero Control |
| Apu.APU.ClockChanged | audio/apu.go:87-188 | One call: the channels advance and the frame sequencer clocks them as its counters fire, the throttle takes one step, and exactly the samples for the whole periods elapsed are queued as left/right pairs of the current mix, the remainder kept in the counter |
| Apu.APU.Clocked | audio/apu.go:87-188 | the channels advance and the frame sequencer clocks them as its counters fire, the throttle takes one step, and the samples for the whole periods elapsed are queued as pairs of the current mix, the remainder kept in the counter |
| Apu.APU.Advance | audio/apu.go:89-103 | The four channels each take their own ClockChanged |
| Apu.APU.Throttle | audio/apu.go:114-118 | The throttle takes the step `Throttled` describes |
| Apu.APU.Emit | audio/apu.go:120-185 | The sampling loop queues floor(counter / period) sample pairs and leaves counter mod period |
| Control.LeftVolume | audio/control.go:80-82 | NR50's left volume is below 8 |
| Control.RightVolume | audio/control.go:84-86 | NR50's right volume is below 8 |
| Control.LeftChannels | audio/control.go:88-90 | NR51's left channel set is a nibble |
| Control.RightChannels | audio/control.go:92-94 | NR51's right channel set is a nibble |
| Control.ControlFields | audio/control.go:68-94 | NR50 is exactly its two VIN bits and two 3-bit volumes; NR51 is exactly its two nibbles; the volume is bits 6-4 |
| Control.ControlState.Read | audio/control.go:29-41 | NR50-NR52 read their register; every other address is a read-out-of-range error |
| Control.ControlState.Write | audio/control.go:44-66 | NR50-NR52 are accepted; every other address is a write-out-of-range error that changes nothing |
| Control.WriteReadBack | audio/control.go:44-66 | A write to NR50 or NR51 reads back; one to NR52 replaces only bit 7 and keeps bits 6-0 |
| Control.Control.constructor | audio/apu.go:37-39 | The control registers start at zero |
| Control.Control.Read | audio/control.go:29-41 | The object reads as its register values do |
| Control.Control.Write | audio/control.go:44-66 | The object's new registers and status are those of `ControlState.Write` |
| Sequencer.Voices.Advanced | audio/apu.go:89-103 | Advancing the channels changes only their waveform state (counters, positions, levels, LFSR) |
| Sequencer.Voices.SweepClocked | audio/framesequencer.go:41-45 | The 128 Hz clock touches only channel 1 and no waveform state |
| Sequencer.Voices.LengthClocked | audio/framesequencer.go:48-56 | The 256 Hz clock keeps every waveform and both square duties |
| Sequencer.Voices.EnvelopeClocked | audio/framesequencer.go:59-66 | The 64 Hz clock leaves channel 3 untouched and keeps every waveform |
| Sequencer.Voices.Sequenced | audio/framesequencer.go:34-69 | With no clock fired nothing changes; without the envelope clock no volume changes; without the length clock no length field changes; channel 3 only ever changes its length |
| Sequencer.Square2LengthSilences | audio/square2.go:160-173 | With NR24 bit 6 set, n length clocks count the length down by n to a floor of 0 and change nothing else, and once it reaches 0 the channel is disabled and outputs 0 |
| Sequencer.Square2LengthDisabled | audio/square2.go:160-173 | With NR24 bit 6 clear, length clocks change nothing |
| Sequencer.WaveLengthSilences | audio/wave.go:153-166 | With NR34 bit 6 set, n length clocks count NR31 down by n to a floor of 0, and once it reaches 0 the channel is disabled |
| Sequencer.FrameSequencer.constructor | audio/apu.go:45-47 | The sequencer holds the four channels with its counters at 0 |
| Sequencer.FrameSequencer.ClockChanged | audio/framesequencer.go:34-69 | Each counter keeps the remainder of its rate, and the channels take the sweep, length and envelope clocks that fired, in that order |
| Sequencer.FrameSequencer.LengthClocks | audio/framesequencer.go:48-56 | The four channels take one length clock |
| Sequencer.FrameSequencer.EnvelopeClocks | audio/framesequencer.go:59-66 | Channels 1, 2 and 4 take one envelope clock |
| Voice.Duty | audio/square1.go:249-251 | The duty is NRx1 bits 7-6 |
| Voice.HighSteps | audio/apu.go:8-14 | A duty is high on at most n of its first n steps |
| Voice.DutyRatios | audio/apu.go:8-14 | The four duty patterns are high on 1, 2, 4 and 6 of their 8 steps (12.5%, 25%, 50%, 75%) |
| Voice.LengthLoad | audio/square1.go:253-255 | The length load is below 64 |
| Voice.WithLengthLoad | audio/square1.go:257-259 | Setting the length load stores it modulo 64 and keeps the duty |
| Voice.Frequency | audio/square1.go:277-279 | The 11-bit frequency has NRx3 as its low byte and NRx4 bits 2-0 above it |
| Voice.WaveRate | audio/square1.go:230-235 | The step period (2048 - f) * 4 lies in 4..8192 and is a multiple of 4 |
| Voice.WaveRateDecreasing | audio/square1.go:230-235 | A higher frequency has a strictly shorter step period |
| Voice.EnvelopeVolume | audio/square1.go:265-267 | The starting volume is below 16 |
| Voice.EnvelopePeriod | audio/square1.go:273-275 | The envelope period is below 8 |
| Voice.EnvelopeBounds | audio/square1.go:191-213 | One envelope step moves the volume by at most one in its direction, stays within 0..15, and leaves it only at 15 rising or 0 falling |
| Voice.EnvelopeFields | audio/square1.go:265-275 | The mode is NRx2 bit 3, volume and period are bits 7-4 and 2-0, and the DAC is on exactly when volume or mode is non-zero |
| Square1.SweepPeriod | audio/square1.go:237-239 | The sweep period is below 8 |
| Square1.SweepShift | audio/square1.go:245-247 | The sweep shift is below 8 |
| Square1.SweepFields | audio/square1.go:237-247 | The sweep period is NR10 bits 6-4 and negation is bit 3 |
| Square1.SweptDirection | audio/square1.go:169-189 | A negating sweep never raises the shadow frequency; otherwise a shadow below 2048 rises by shadow >> shift |
| Square1.SetFrequencyAsWrittenReadsBack | audio/square1.go:281-284 | As written, the write-back keeps only bits 10-8 and 3-0 of the frequency and NR14 bits 7-3 |
| Square1.SetFrequencyRoundTrip | audio/square1.go:281-284 | Corrected: any 11-bit frequency written back reads back, with NR14 bits 7-3 kept |
| Square1.Square1State.Output | audio/square1.go:127-134 | The output is the volume while enabled and high, else 0, and below 16 |
| Square1.Square1State.SweepShifted | audio/square1.go:169-189 | With no shift nothing changes; otherwise the shadow takes one sweep step and, below 2048, is written back to NR13/NR14 (as written); NR10-NR12 and NR14 bits 7-3 are kept |
| Square1.Square1State.Initialized | audio/square1.go:136-146 | The trigger loads length 63 with the duty kept, restarts counters and waveform, loads volume and envelope counter from NR12, the sweep counter from NR10, and the shadow from the frequency after one sweep step |
| Square1.Square1State.LengthClocked | audio/square1.go:215-228 | With NR14 bit 6 set a non-zero length counts down by one; nothing else changes |
| Square1.Square1State.EnvelopeClocked | audio/square1.go:191-213 | A non-zero envelope counter counts down and the volume takes one envelope step; nothing else changes |
| Square1.Square1State.SweepClocked | audio/square1.go:152-167 | A sweep counter at 0 stays; above 1 it counts down; at 1 it reloads from NR10 and runs the sweep shift |
| Square1.Square1State.Advanced | audio/square1.go:108-125 | At most one waveform step per call when the frequency counter reaches the step period, the remainder kept; nothing else changes |
| Square1.TriggerSweepLosesBits | audio/square1.go:281-284 | As written: a trigger with frequency 0x123 and rising shift 1 computes shadow 0x1B4 but leaves the registers holding 0x104 |
| Square1.Square1.constructor | audio/apu.go:39-42 | The zero channel after its initialization |
| Square1.Square1.Read | audio/square1.go:50-66 | NR10-NR14 read their register; every other address is a read-out-of-range error |
| Square1.Square1.Write | audio/square1.go:69-105 | NR10-NR14 take the byte and NR14 with bit 7 also triggers; every other address is an error that changes nothing |
| Square1.Square1State.Write | audio/square1.go:69-105 | NR10-NR14 succeed and every other address fails with the state unchanged; NR14 with bit 7 triggers (`Initialized`), any other write changes only the registers; validity is kept |
| Square1.Square1.ClockChanged | audio/square1.go:108-125 | The new state is `Advanced(cycles)` of the old |
| Square1.Square1.Output | audio/square1.go:127-134 | The object outputs what its state does |
| Square1.Square1.Initialize | audio/square1.go:136-146 | The new state is `Initialized()` of the old |
| Square1.Square1.DoSweepShift | audio/square1.go:169-189 | The new state is `SweepShifted()` of the old |
| Square1.Square1.SweepClock | audio/square1.go:152-167 | The new state is `SweepClocked()` of the old |
| Square1.Square1.EnvelopeClock | audio/square1.go:191-213 | The new state is `EnvelopeClocked()` of the old |
| Square1.Square1.LengthClock | audio/square1.go:215-228 | The new state is `LengthClocked()` of the old |
| Square2.Square2State.Output | audio/square2.go:114-121 | The output is the volume while enabled and high, else 0, and below 16 |
| Square2.Square2State.Initialized | audio/square2.go:123-130 | The trigger loads length 63 with the duty kept, restarts counters and waveform, and loads volume and envelope counter from NR22 |
| Square2.Square2State.LengthClocked | audio/square2.go:160-173 | With NR24 bit 6 set a non-zero length counts down by one; nothing else changes |
| Square2.Square2State.EnvelopeClocked | audio/square2.go:136-158 | A non-zero envelope counter counts down and the volume takes one envelope step; nothing else changes |
| Square2.Square2State.Advanced | audio/square2.go:94-112 | At most one waveform step per call when the frequency counter reaches the step period, the remainder kept; nothing else changes |
| Square2.Square2.constructor | audio/apu.go:39-42 | The zero channel after its initialization |
| Square2.Square2.Read | audio/square2.go:43-57 | NR21-NR24 read their register; every other address is a read-out-of-range error |
| Square2.Square2.Write | audio/square2.go:60-91 | NR21-NR24 take the byte and NR24 with bit 7 also triggers; every other address is an error that changes nothing |
| Square2.Square2State.Write | audio/square2.go:60-91 | NR21-NR24 succeed and every other address fails with the state unchanged; NR24 with bit 7 triggers (`Initialized`), any other write changes only the registers; validity is kept |
| Square2.Square2.ClockChanged | audio/square2.go:94-112 | The new state is `Advanced(cycles)` of the old |
| Square2.Square2.Output | audio/square2.go:114-121 | The object outputs what its state does |
| Square2.Square2.Initialize | audio/square2.go:123-130 | The new state is `Initialized()` of the old |
| Square2.Square2.EnvelopeClock | audio/square2.go:136-158 | The new state is `EnvelopeClocked()` of the old |
| Square2.Square2.LengthClock | audio/square2.go:160-173 | The new state is `LengthClocked()` of the old |
| Wave.VolumeShift | audio/wave.go:191-203 | The volume shift is at most 4 |
| Wave.VolumeShiftTable | audio/wave.go:191-203 | NR32 bits 6-5 select shifts 4 (mute), 0, 1 and 2 |
| Wave.Sample | audio/wave.go:205-213 | A sample is a nibble |
| Wave.SamplesOfByte | audio/wave.go:205-213 | Samples 2i and 2i+1 together make up table byte i |
| Wave.WaveState.Output | audio/wave.go:134-141 | The output is a nibble: 0 while disabled or muted, the current sample at full volume |
| Wave.WaveState.ReadAsWritten | audio/wave.go:51-71 | As written: every channel address but NR34 reads, and so does NR24 (returning NR34) |
| Wave.WaveState.Read | audio/wave.go:51-71 | Corrected: exactly the channel's own addresses read; the rest are read-out-of-range errors |
| Wave.WaveState.Initialized | audio/wave.go:143-147 | The trigger sets NR31 to 255 and restarts the counter and position; registers and table kept |
| Wave.WaveState.LengthClocked | audio/wave.go:153-166 | With NR34 bit 6 set a non-zero NR31 counts down by one; it reaches 0 only from 1 |
| Wave.WaveState.Advanced | audio/wave.go:119-132 | At most one position step (mod 32) per call when the counter reaches the step period, the remainder kept; nothing else changes |
| Wave.ReadAsWrittenMissesNR34 | audio/wave.go:62 | As written, NR34 belongs to the channel but reads as an error, and NR24, which is not the channel's, reads NR34 |
| Wave.ReadCoversWrites | audio/wave.go:51-116 | Corrected: the addresses that read are exactly the ones that write, NR34 included |
| Wave.Wave.constructor | audio/apu.go:39-42 | The zero channel with a zero table after its initialization |
| Wave.Wave.Read | audio/wave.go:51-71 | The object reads as the as-written state read |
| Wave.Wave.Write | audio/wave.go:74-116 | Exactly the channel's addresses write, and all but NR34 read back; NR34 with bit 7 also triggers; a table address stores one table byte |
| Wave.WaveState.Write | audio/wave.go:74-116 | exactly the channel's addresses succeed, a failure changes nothing, every byte but NR34's reads back; NR34 with bit 7 triggers (`Initialized`), any other write changes only the registers and the table |
| Wave.Wave.ClockChanged | audio/wave.go:119-132 | The new state is `Advanced(cycles)` of the old |
| Wave.Wave.Output | audio/wave.go:134-141 | The object outputs what its state does |
| Wave.Wave.Initialize | audio/wave.go:143-147 | The new state is `Initialized()` of the old |
| Wave.Wave.LengthClock | audio/wave.go:153-166 | The new state is `LengthClocked()` of the old |
| Noise.Divisor | audio/noise.go:232-234 | The divisor code is below 8 |
| Noise.ClockShift | audio/noise.go:240-242 | The clock shift is below 16 |
| Noise.NoiseRateHalves | audio/noise.go:192-206 | Raising the clock shift by one halves the noise step period, rounding down |
| Noise.DivSwap | audio/noise.go:192-206 | `(q / a) / b == (q / b) / a` |
| Noise.DivDiv | audio/noise.go:192-206 | `(q / a) / b == q / (a * b)` |
| Noise.LfsrStepBits | audio/noise.go:108-118 | One LFSR step shifts every bit down one, puts bit0 xor bit1 at bit 14 (bit 6 in narrow mode) and clears everything above it |
| Noise.NoiseState.Output | audio/noise.go:126-133 | The output is the volume while enabled and high, else 0, and below 16 |
| Noise.NoiseState.Triggered | audio/noise.go:141-147 | The trigger loads length 63, restarts the counter, loads the envelope, sets the output low and keeps the LFSR |
| Noise.NoiseState.Initialized | audio/noise.go:135-139 | Initialization sets all LFSR bits and then triggers |
| Noise.NoiseState.LengthClocked | audio/noise.go:177-190 | With NR44 bit 6 set a non-zero length counts down by one; nothing else changes |
| Noise.NoiseState.EnvelopeClocked | audio/noise.go:153-175 | A non-zero envelope counter counts down and the volume takes one envelope step; nothing else changes |
| Noise.NoiseState.Advanced | audio/noise.go:98-124 | At most one LFSR step per call when the counter reaches the noise period, the remainder kept, the output high when the new bit 0 is clear; nothing else changes |
| Noise.Noise.constructor | audio/apu.go:42 | The zero channel at the CPU frequency after its initialization |
| Noise.Noise.Read | audio/noise.go:47-61 | NR41-NR44 read their register; every other address is a read-out-of-range error |
| Noise.Noise.Write | audio/noise.go:64-95 | NR41-NR44 take the byte and NR44 with bit 7 also triggers without touching the LFSR; every other address is an error that changes nothing |
| Noise.NoiseState.Write | audio/noise.go:64-95 | NR41-NR44 succeed and every other address fails with the state unchanged; NR44 with bit 7 triggers (`Triggered`), any other write changes only the registers; the LFSR is never touched |
| Noise.Noise.ClockChanged | audio/noise.go:98-124 | The new state is `Advanced(cycles, frequency)` of the old |
| Noise.Noise.Output | audio/noise.go:126-133 | The object outputs what its state does |
| Noise.Noise.Trigger | audio/noise.go:141-147 | The new state is `Triggered()` of the old |
| Noise.Noise.EnvelopeClock | audio/noise.go:153-175 | The new state is `EnvelopeClocked()` of the old |
| Noise.Noise.LengthClock | audio/noise.go:177-190 | The new state is `LengthClocked()` of the old |
| Gameboy.Echoes | gameboy.go:85-90 | the echo loop: each address of 0xE000-0xFDFF forwards to the address 0x2000 below it; every other entry is unchanged |
| Gameboy.CoreStageAt | cpu/core.go:78-84 | NewCore's mappings give IF (0xFF0F) and IE (0xFFFF) their registers and leave every other address as it was |
| Gameboy.GpuStageAt | display/gpu.go:105-191 | NewGPU's mappings give its registers, DMA, VRAM and OAM their memory-map owners and leave every other address |
| Gameboy.ApuStageAt | audio/apu.go:52-80 | NewAPU's mappings give NR10-NR14, NR21-NR24, NR30-NR34, NR50-NR52, the wave table and NR41-NR44 their channels and leave every other address |
| Gameboy.GameboyStageAt | gameboy.go:20-100 | NewGameboy's mappings give the unused range, JOYP, the timer, boot ROM or cartridge, cartridge RAM, the unmapper, work RAM, the echoes and the zero page their owners, and leave every other address |
| Gameboy.LayoutIsMemoryMap | main.go:128-170 | after main.go's sequence of constructors every address is mapped to the owner the memory map gives it, whatever the table held before |
| Gameboy.LayoutFitsMachine | gameboy.go:85-90 | every echo forwards to work RAM, never to another echo, and the GPU owns OAM and VRAM |
| Gameboy.UnmapBiosGivesCartridgeLayout | memory/biosunmapper.go:31-42 | writing 0x01 to 0xFF50 with a boot ROM leaves exactly the table built without a boot ROM |
| Gameboy.StartPc | gameboy.go:103-110 | Start begins at 0x0000 (the boot ROM) when there is one, else at the cartridge's 0x0100 |
| Gameboy.MapIo | main.go:130-132 | the 128-byte I/O RAM over 0xFF00-0xFF7F |
| Gameboy.MapCore | cpu/core.go:78-84 | NewCore's two Map calls |
| Gameboy.MapGpu | display/gpu.go:105-191 | NewGPU's Map calls, in order |
| Gameboy.MapApu | audio/apu.go:37-84 | NewAPU's Map calls, in order |
| Gameboy.MapEchoes | gameboy.go:85-90 | one Map call per echo address, 0xE000 to 0xFDFF |
| Gameboy.MapGameboy | gameboy.go:20-100 | NewGameboy's Map calls, in order, with or without a boot ROM |
| Gameboy.Wire | main.go:128-170 | the table main.go builds is the memory map, and it is the table Bus.Machine requires |
| Gameboy.RegisterClocks | audio/apu.go:81 | the core's timed units become the old list followed by the sound unit (apu.go:81), the timer (timers/timers.go:47) and the picture processor (gameboy.go:97), in main.go's order; registers and the quit flag unchanged |
| Gameboy.ClockPassOrder | cpu/core.go:150-155 | with that registration, every pass of the clocks tells the sound unit, then the timer, then the picture processor, the same cycles |

## Left out

- I/O is not modelled: the SDL window, the keyboard loop, the audio device, the goroutines and WaitGroup, and the settings files (`main.go`, `ui/`, `config/`). Only the address-map part of `main.go` (`main.go:128-170`) is modelled, in `Gameboy.MapIo` and `Gameboy.Wire`.
- External collaborators are parameters or fields:
  - `cpu.Frequency` is a parameter (`cpuFrequency`).
  - The `Audioer` is a sink frequency, a buffer size, a samples-count argument, and a `queued` byte sequence standing for what was handed to `Queue`.
  - The `Keystroker` is the sequence `keys` of pending keystrokes.
  - The `Monitor` is the `frames` sequence of frames handed to `DrawFrame`.
- Apu.APU.ClockChanged: the error a failing `Audioer.Queue` returns (`apu.go:182`) is not modelled. The sink always accepts, so the method always succeeds.
- Apu.APU.Tuned: the sampling loop needs a period above 0. The model requires cpu frequency / sink frequency > 10, so that base + throttle stays at least 1. In the source, a period of 0 or less makes the `for a.samplesCounter >= freq` loop (`apu.go:122`) never end. That case has no model.
- Gameboy.MapApu: NewAPU's six `Map` calls (`apu.go:52-80`) are modelled here and in `Gameboy.ApuStage`, not inside `Apu.NewAPU`. `Apu.NewAPU` builds the unit, and the wiring maps it. Their error returns are dead, because every call passes `from <= to`.
- Mmu.MMU.Map: the error return of every `Map` call in the wiring (`gameboy.go`, `main.go`, `NewGPU`, `NewAPU`, `NewCore`) is unreachable, because every range has `from <= to`. The wiring methods require nothing and never fail.
- Gpu.GPU.UpdateMonitor: the frame pacing through `time.Since`/`time.Sleep` and the error `DrawFrame` may return (`gpu.go:764-778`) are not modelled. The frame is appended to `frames`, and the call succeeds.
- Gpu.GPU.RenderSprite: the `panic("sprite off screen")` in `calcCoords` (`gpu.go:955`) becomes the error `SpriteOffScreen`, because Dafny has no panic. The panic is reachable: `searchOAM` filters with the sprite height in force during the OAM search, `renderSprite` places the sprite with the height in force at draw time, and LCDC can be written in between. `Gpu.HeightChangeStrandsSprite` exhibits such a sprite; `Screen.CoordsTotal` proves that the panic cannot happen while the height is the one the search used.
- Sprites.SortByLess: `sort.Sort` (`gpu.go:831`) is the Go library's unstable sort. The model uses a stable insertion sort by the same `Less`. So two sprites with equal X and equal tile number may come out in a different order than Go's. Everything proved about the order (sorted by `Less`, a permutation of the found entries) holds for any correct sort.
- Bus.Machine.Dma: the OAM DMA that `GPU.Write(AddrDMA)` starts (`gpu.go:223-229`, `gpu.go:254-272`) copies through the bus. The GPU object does not call back into the MMU, because the copy has to read every unit and only the bus can. The bytes copied and their order are the source's.
- Bus.Machine.Dma: the copy is stated only for a source page whose every address reaches the cartridge, the boot ROM, a RAM or the unused range (`StoragePage`). Under the tables the wiring builds, that is every page except 0x80-0x9F (VRAM), 0xFE (OAM) and 0xFF (I/O). From those pages the model runs the same loop, but the contract states only that nothing of the picture processor but OAM changes and the cartridge's state stays. A VRAM or OAM source would need each read stated against the bytes the copy has already written. Page 0xFF reads JOYP, whose read changes IF, which the same copy reads later.
- Bus.Machine.StoreGpu: a write to the DMA register carries the `Bus.Machine.Dma` restriction above. The OAM contents are stated only for a storage source page; from other pages only the frame is stated.
- Bus.Machine.StoreDisplay: a write to the DMA register carries the `Bus.Machine.Dma` restriction above. The OAM contents are stated only for a storage source page; from other pages only the frame is stated.
- Bus.Machine.StoreUnit: a write to the DMA register carries the `Bus.Machine.Dma` restriction above. The OAM contents are stated only for a storage source page; from other pages only the frame is stated.
- Bus.Machine.Store: a write to the DMA register carries the `Bus.Machine.Dma` restriction above. The OAM contents are stated only for a storage source page; from other pages only the frame is stated.
- Bus.Machine.Write: a write to the DMA register carries the `Bus.Machine.Dma` restriction above. The OAM contents are stated only for a storage source page; from other pages only the frame is stated.
- Cpu.Core.Start: the run loop is bounded by a `fuel` count of instructions. Where the source loops until `quit`, the model stops after `fuel` steps and reports whether it finished. `Cpu.Core.Tick` bounds the halted clock passes, and `Cpu.Core.WaitWhileStopped` bounds the STOP busy wait on 0xFF00, in the same way. Nothing is claimed past the bound.
- Cpu.Core.ReturnFromStop0: the STOP wait depends on another thread calling `ReturnFromStop0`, and that thread is not modelled. The wait polls the joypad register until `stop` is clear or the fuel runs out.
- Cpu.Core.Exec: each instruction closure also returns an instruction length and a mnemonic. The fetch loop never uses either (`core.go:134`), so the model keeps only the cycle count.
- The disabled logrus trace (`core.go:111-126`) and error message formatting are not modelled. Errors are datatype values, and `wrapErrorf` calling itself (`core.go:176-178`) has no counterpart.
- `Gameboy.Pause` calls a `core.Pause` that does not exist in `cpu/core.go` (`gameboy.go:113-115`), and it is not modelled.
- Mbc3.MBC3.constructor: `NewMBC3` reads the clock with `time.Now()` (`mbc3.go:35-40`). The model takes the day, hour, minute and second as parameters.
- Cartridge.NewCartridge: reading the ROM file (`cartridge.go:33-37`) is not modelled. The ROM bytes are a parameter. `MMU.Dump` (`mmu.go:18-47`) is file output and is not modelled.
- The type and interface declarations in `display/monitor.go` and `memory/unit.go` are datatypes here (`Errors`, `Bus.Unit`) and have no behaviour of their own.
- Joypad.Button: a keystroke code whose row `btn >> 4` is 2 or more would index `state` out of range and panic (`joyp.go:90`, `joyp.go:92`). The type admits only codes below 0x20; the Keystroker only ever sends the eight button constants (`joyp.go:8-30`), all of which are below 0x20, so the panic has no model.
- Cpu.Core.ClockUnits: states which units were told the cycles, in which order, and how the pass ends, but not each unit's new state across the whole pass. Each call's own effect is stated by `Bus.Machine.ClockUnit` (`Ticked`); carrying it to the end of the pass would need the intermediate states between the calls, and the timer and the picture processor both raise bits in IF.
- Interface-typed fields (`memory.Unit`, `Clock`) become the enumeration `Bus.Unit`. The `Bus.Machine` class holds one object per unit. So the model has no aliasing between units beyond what the source's wiring creates, and the bus invariant states that.

## Findings

| source | as written | input that shows it | evidently intended | confidence | as-written member | corrected member |
|---|---|---|---|---|---|---|
| audio/square1.go:281-284 | `setFrequency` stores only bits 3-0 of the new frequency in NR13, so a sweep write-back clears bits 7-4 of the frequency | NR10 = 0x01 (rising sweep, shift 1), NR13 = 0x23, NR14 = 0x01, then a write of 0x81 to NR14: the trigger computes shadow 0x1B4 but the registers then hold 0x104, and the channel plays that pitch | NR13 takes the whole low byte of the frequency, so the written frequency reads back | not executed | Square1.SetFrequencyAsWrittenReadsBack, Square1.TriggerSweepLosesBits | Square1.SetFrequency, Square1.SetFrequencyRoundTrip |
| audio/wave.go:51-71 | The read switch tests `AddrNR24` (0xFF19, channel 2's register) where channel 3's NR34 (0xFF1E) is meant | Reading 0xFF1E, which NewAPU maps to channel 3, fails with a read-out-of-range error whatever was written there; 0xFF19 would read NR34 but is routed to channel 2 | The case tests NR34, so every register the channel accepts on write reads back | not executed | Wave.WaveState.ReadAsWritten, Wave.ReadAsWrittenMissesNR34 | Wave.WaveState.Read, Wave.ReadCoversWrites |

The channel classes `Square1.Square1` and `Wave.Wave` run the code as written. The corrected definitions are proved alongside them.
