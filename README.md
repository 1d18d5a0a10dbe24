# vibemulator core in Dafny

A model of the core of vibemulator, an NES emulator written in Go with a
Python reinforcement-learning client. It covers:

- the iNES cartridge loader;
- the NROM, UxROM, CNROM, MMC1 and MMC3 mappers and their save records;
- the 6502 CPU state machine around the instruction table;
- the 2C02 PPU: its registers, its `loopy` scroll address, the rendering
  pipeline's shifters, the memory map and the debug views;
- the APU's pulse channel registers and frame counter;
- the controller shift registers and the system bus;
- the input recorder and the replay client, end to end;
- the RL gym environment and the replay memory that trains against it.

Each Go file of the core becomes one Dafny module, or a module plus a class.
Pure logic, such as a mapper's bank arithmetic or the `loopy` register
updates, is written as functions over value types. The objects the source
mutates in place (the cartridge, the mappers, the PPU, the APU channels, the
controller, the CPU, the recorder, the gym environment, the replay memory)
are classes with `modifies` clauses. Each method's postcondition ties the new
state to those functions, and lemmas state what the source promises about
them.

Modules and files:

| module | file | models |
|---|---|---|
| `Word` | word.dfy | the 16-bit address type |
| `Wrappers` | wrappers.dfy | `Option` and `Result` |
| `Arith` | arith.dfy | floor-division facts |
| `GoStrings` | gostrings.dfy | the Go `strings`/`strconv` functions the client and the recorder use |
| `Ines` | ines.dfy | iNES header decoding, `NewMapper`'s switch |
| `Nrom`, `Uxrom`, `Cnrom`, `Mmc1`, `Mmc3` | nrom.dfy … mmc3.dfy | each mapper's bank arithmetic and register machine |
| `MapperState` | mapper_state.dfy | the byte layout of the MMC1/MMC3 save records |
| `Cartridge` | cartridge.dfy | the cartridge and mapper classes, `New`, `SaveState`/`LoadState` |
| `Loopy`, `PpuMemory`, `PpuState`, `Ppu`, `PatternView` | loopy.dfy … pattern_view.dfy | the PPU |
| `Apu` | apu.dfy | the APU |
| `Controller` | controller.dfy | the controllers |
| `Cpu` | cpu.dfy | the CPU |
| `Bus` | bus.dfy | the system bus |
| `Api`, `Display`, `Client`, `Recording` | api.dfy … recording.dfy | the input message, the recorder, the replay client, and their composition |
| `RlEnv`, `TrainDqn` | rl_env.dfy, train_dqn.dfy | the gym environment and the DQN trainer's replay memory |

## Model

| member | source | states |
|---|---|---|
| Ines.PrgSize | cartridge/cartridge.go:48 | the PRG-ROM size is header byte 4 times 16384 |
| Ines.ChrSize | cartridge/cartridge.go:49 | the CHR-ROM size is header byte 5 times 8192 |
| Ines.PrgRom | cartridge/cartridge.go:51 | PRG-ROM is exactly the `PrgSize` bytes that start at offset 16 |
| Ines.ChrRom | cartridge/cartridge.go:53-54 | CHR-ROM is the `ChrSize` bytes right after the PRG-ROM |
| Ines.MapperId | cartridge/cartridge.go:61 | the mapper number's low nibble is the high nibble of flags 6; its high nibble is that of flags 7 |
| Ines.MirrorAsWritten | cartridge/cartridge.go:62 | the code as written: bit 0 of flags 6, with bit 4 of flags 6 moved to bit 1 |
| Ines.MirrorAsWrittenMisreadsFlags | cartridge/cartridge.go:62 | as written, the four-screen flag gives horizontal, and the mapper-number bit gives the one-screen codes |
| Ines.Mirror | cartridge/cartridge.go:62 | corrected: four-screen exactly when bit 3 of flags 6 is set, otherwise the bit-0 code |
| Ines.MirrorIgnoresMapperNibble | cartridge/cartridge.go:61-62 | the corrected code ignores the mapper nibble; the code as written depends on bit 4 exactly |
| Ines.MapperKindOf | cartridge/cartridge.go:74-83 | mapper 0 is NROM and 1 is MMC1 (both directions); any other number is the error "unsupported mapper: n" |
| Nrom.CpuIndex | cartridge/nrom.go:26-40 | only $8000-$FFFF is mapped; the index is below 32 KB, and below 16 KB with one bank |
| Nrom.OneBankMirrors | cartridge/nrom.go:34-36 | with one 16 KB bank, $C000+k reads the same byte as $8000+k |
| Nrom.TwoBanksLinear | cartridge/nrom.go:33-37 | with any other bank count, the index is the offset from $8000 |
| Nrom.CpuIndexInBounds | cartridge/nrom.go:13-37 | a 16 or 32 KB PRG-ROM holds every mapped index |
| Uxrom.CpuIndex | cartridge/uxrom.go:27-40 | $8000-$BFFF is the selected bank modulo the bank count; $C000-$FFFF is the last bank; all indices lie inside the PRG-ROM |
| Uxrom.FixedBankIgnoresSelect | cartridge/uxrom.go:33-37 | the fixed window does not depend on the bank select |
| Uxrom.SelectAfterWrite | cartridge/uxrom.go:43-50 | a write to $8000-$FFFF replaces the select with the data byte; other writes leave it |
| Cnrom.SelectAfterWrite | cartridge/cnrom.go:41-50 | a write selects the data modulo the bank count (below the count and below 256), and leaves the select alone when there are no banks |
| Cnrom.ChrIndex | cartridge/cnrom.go:53-57 | the index lies in the selected 8 KB bank, at the address's offset |
| Cnrom.ChrIndexInBounds | cartridge/cnrom.go:53-57 | a select below the bank count keeps every index inside the CHR-ROM |
| Cnrom.RamSelectIsZero | cartridge/cnrom.go:62-72 | with 8 KB of CHR-RAM an in-range select is 0, so a write lands at the address itself |
| Mmc1.Mirroring | cartridge/mmc1.go:184-196 | control bits 0-1 select one-screen lower, one-screen upper, vertical, horizontal |
| Mmc1.MirroringIsBijective | cartridge/mmc1.go:184-196 | four control settings give four different codes, and only bits 0-1 matter |
| Mmc1.PrgMode | cartridge/mmc1.go:44 | the PRG mode is control bits 2-3 |
| Mmc1.PrgBank16K | cartridge/mmc1.go:43-71 | the 16 KB bank of a read in each of the four PRG modes, always below the bank count |
| Mmc1.PrgIndex | cartridge/mmc1.go:43-72 | the index keeps the address's offset inside the bank `PrgBank16K` chooses, and lies inside the PRG-ROM |
| Mmc1.Mode3FixesLastBank | cartridge/mmc1.go:62-70 | mode 3 fixes $C000-$FFFF to the last bank, whatever the PRG register holds |
| Mmc1.Mode2FixesFirstBank | cartridge/mmc1.go:53-61 | mode 2 fixes $8000-$BFFF to bank 0 |
| Mmc1.Mode32KContiguous | cartridge/mmc1.go:49-52 | in the 32 KB modes the window is one contiguous bank, and bit 0 of the PRG register is ignored |
| Mmc1.ChrBank4K | cartridge/mmc1.go:124-144 | the 4 KB CHR bank in 8 KB and 4 KB mode, always below the bank count |
| Mmc1.ChrIndex | cartridge/mmc1.go:124-146 | the index keeps the address's offset inside the chosen bank and lies inside CHR memory |
| Mmc1.Chr8KContiguous | cartridge/mmc1.go:131-134 | in 8 KB mode pattern space is one contiguous bank chosen by CHR bank 0 without bit 0; CHR bank 1 is ignored |
| Mmc1.Chr4KHalvesIndependent | cartridge/mmc1.go:135-144 | in 4 KB mode each half of pattern space depends only on its own CHR register |
| Mmc1.Target | cartridge/mmc1.go:98 | the target register is address bits 13-14, below 4 |
| Mmc1.Commit | cartridge/mmc1.go:99-114 | the target register gets the value and the others keep theirs; the PRG register's bit 4 arms the work-RAM counter, or re-enables work RAM at once |
| Mmc1.SerialWriteAsWritten | cartridge/mmc1.go:85-118 | as written, the reset branch is never taken, so every write is an ordinary shift |
| Mmc1.ResetTestAsWrittenNeverHolds | cartridge/mmc1.go:86 | `data&0x80 == 1` holds for no data byte |
| Mmc1.SerialWrite | cartridge/mmc1.go:85-118 | corrected: a bit-7 write clears the port and sets PRG mode 3, keeping the other control bits; any other write is one shift step |
| Mmc1.ResetWriteDiffers | cartridge/mmc1.go:86-95 | on a concrete write the code as written shifts the reset byte in, where the corrected code abandons the sequence |
| Mmc1.SerialWriteKeepsSettled | cartridge/mmc1.go:94-117 | between writes fewer than five bits are pending, all in bits 0-4 |
| Mmc1.Assembled | cartridge/mmc1.go:94 | the five data bits give a value below 32 |
| Mmc1.FiveWritesLoadRegister | cartridge/mmc1.go:94-117 | five ordinary writes load the register the fifth address picks with the five data bit-0s, least significant first; the port is then empty and the other registers are unchanged |
| Mmc1.PushFive | cartridge/mmc1.go:94 | five shifts leave exactly the five data bits, the first in bit 0 |
| Mmc1.Clock | cartridge/mmc1.go:198-205 | an armed counter runs down, and work RAM is disabled when it reaches 0 |
| Mmc1.WramDisableTakesTwoClocks | cartridge/mmc1.go:107-113 | after the PRG register is loaded with bit 4 set, work RAM is disabled after exactly two clocks of the countdown in `Clock` (lines 198-205); with bit 4 clear it is enabled at once |
| Mmc3.PowerOn | cartridge/mmc3.go:31-49 | four-screen is bit 2 of the cartridge code, mirroring is bit 0, and everything else is zero |
| Mmc3.PrgBank | cartridge/mmc3.go:63-83 | $E000 is the last bank and $A000 is R7 modulo the count; every bank is in range when there are at least two |
| Mmc3.PrgModeSwapsWindows | cartridge/mmc3.go:67-78 | the PRG mode exchanges the banks at $8000 and $C000 and leaves $A000 and $E000 alone |
| Mmc3.PrgIndex | cartridge/mmc3.go:55-58 | the index keeps the address's offset in its 8 KB bank and lies inside the PRG-ROM |
| Mmc3.ChrBank | cartridge/mmc3.go:154-195 | the 1 KB bank is always below the bank count |
| Mmc3.InversionSwapsHalves | cartridge/mmc3.go:155-193 | inversion exchanges the $0000 and $1000 halves |
| Mmc3.ChrIndex | cartridge/mmc3.go:133-135 | the index keeps the address's offset in its 1 KB bank and lies inside CHR memory |
| Mmc3.CpuWrite | cartridge/mmc3.go:92-125 | the register each even and odd address of the four windows writes, and nothing else |
| Mmc3.SelectThenData | cartridge/mmc3.go:96-103 | selecting a register and then writing data changes exactly that register |
| Mmc3.Mirroring | cartridge/mmc3.go:227-235 | four-screen overrides the register; register 0 is vertical and 1 is horizontal |
| Mmc3.ClockIrq | cartridge/mmc3.go:213-224 | a zero counter or a pending reload reloads from the latch; otherwise the counter counts down; the IRQ becomes pending at 0 when enabled |
| Mmc3.CounterFiresAfterN | cartridge/mmc3.go:213-224 | a counter at n fires after exactly n clocks, and not before |
| Mmc3.CheckA12 | cartridge/mmc3.go:197-211 | only a rising edge of A12 after two low cycles clocks the counter; A12 high restarts the low-time count |
| Mmc3.Clock | cartridge/mmc3.go:237-242 | each CPU cycle with A12 low adds one to the low-time count |
| Mmc3.A12FilterNeedsTwoCycles | cartridge/mmc3.go:197-242 | a rising edge two cycles after a low access clocks the counter; after one cycle it does not |
| Mmc3.RisingEdge | cartridge/mmc3.go:197-211 | a rising edge clocks the counter exactly when the low-time count is at least 2 |
| Mmc3.ClockIrqDelay | cartridge/mmc3.go:213-224 | the counter does not read the low-time count |
| Mmc3.NoClockWithoutEdge | cartridge/mmc3.go:201 | with A12 already high, no access clocks the counter |
| MapperState.FlagByte | cartridge/state.go:71 | a flag is the byte 1 exactly when it is set, and 0 otherwise |
| MapperState.Zigzag | cartridge/state.go:101 | the zig-zag code is even exactly for non-negative numbers |
| MapperState.UnzigzagZigzag | cartridge/state.go:101 | zig-zag decoding inverts the encoding for every Go `int` |
| MapperState.Varint | cartridge/state.go:101 | a varint ends in its only byte below 128 |
| MapperState.ReadVarint | cartridge/state.go:118 | a varint read takes between one byte and the whole input |
| MapperState.ReadVarintOfVarint | cartridge/state.go:101-118 | a varint followed by anything reads back as its value and its length |
| MapperState.ReadVarintCons | cartridge/state.go:118 | a continuation byte adds its low seven bits below the value of the rest |
| MapperState.EncodeMmc1 | cartridge/state.go:76-80 | an MMC1 record is eight bytes |
| MapperState.DecodeMmc1 | cartridge/state.go:82-92 | decoding succeeds exactly on eight bytes with a 0/1 flag, and then re-encodes to the same bytes |
| MapperState.DecodeEncodeMmc1 | cartridge/state.go:76-92 | every MMC1 record decodes back to itself |
| MapperState.Mmc3Prefix | cartridge/state.go:95-103 | the fixed part of an MMC3 record is 18 bytes |
| MapperState.EncodeMmc3 | cartridge/state.go:107-111 | an MMC3 record is at least 20 bytes |
| MapperState.DecodeMmc3 | cartridge/state.go:113-123 | a decoded record has every flag byte 0 or 1 |
| MapperState.DecodeEncodeMmc3 | cartridge/state.go:107-123 | every MMC3 record decodes back to itself, whatever its `A12Delay` |
| Cartridge.Copied | cartridge/state.go:16-35 | `copy`: the first min(dst, src) bytes come from the source and the rest are kept |
| Cartridge.CopyInto | cartridge/state.go:34 | copying into an array leaves exactly `Copied` of its old contents |
| Cartridge.Cartridge.constructor | cartridge/cartridge.go:47 | a cartridge with the given PRG-ROM, CHR memory, mirroring and no mapper |
| Cartridge.New | cartridge/cartridge.go:47-71 | succeeds exactly for a supported mapper; PRG-ROM and CHR-ROM are the header's slices, or CHR is 8 KB of zeroed RAM; mirroring is the corrected `Ines.Mirror` of flags 6 (not line 62 as written); the mapper matches the number |
| Cartridge.NewMapper | cartridge/cartridge.go:74-83 | NROM for 0 and power-on MMC1 for 1, both sharing the cartridge's memory; any other number is the error |
| Cartridge.Cartridge.SaveState | cartridge/state.go:14-30 | CHR memory only when it is RAM, PRG-RAM only from the mappers that have it, and the mapper's record |
| Cartridge.Cartridge.LoadState | cartridge/state.go:32-44 | non-empty CHR-RAM and PRG-RAM are copied back, and the mapper loads its record; the error is the mapper's |
| Cartridge.NROM.constructor | cartridge/nrom.go:12-23 | shares the cartridge's memory and mirroring, with bank counts in 16 KB and 8 KB units |
| Cartridge.NROM.CPUMapRead | cartridge/nrom.go:26-40 | a read is handled exactly at $8000-$FFFF and returns the byte at `Nrom.CpuIndex` |
| Cartridge.NROM.CPUMapWrite | cartridge/nrom.go:43-47 | no CPU write is handled |
| Cartridge.NROM.PPUMapRead | cartridge/nrom.go:50-57 | pattern space reads CHR memory directly |
| Cartridge.NROM.PPUMapWrite | cartridge/nrom.go:60-70 | a write is accepted exactly in pattern space with 8 KB of CHR, and changes that byte only |
| Cartridge.NROM.Save | cartridge/state.go:47 | NROM saves no bytes |
| Cartridge.NROM.Load | cartridge/state.go:48 | NROM loads without error |
| Cartridge.UxROM.constructor | cartridge/uxrom.go:15-24 | shares the cartridge's memory, with bank select 0 |
| Cartridge.UxROM.CPUMapRead | cartridge/uxrom.go:27-40 | handled exactly at $8000-$FFFF, reading at `Uxrom.CpuIndex` |
| Cartridge.UxROM.CPUMapWrite | cartridge/uxrom.go:43-50 | handled exactly at $8000-$FFFF; the select becomes `Uxrom.SelectAfterWrite`, a byte |
| Cartridge.UxROM.PPUMapRead | cartridge/uxrom.go:53-58 | pattern space reads CHR memory directly |
| Cartridge.UxROM.PPUMapWrite | cartridge/uxrom.go:61-70 | accepted exactly with 8 KB of CHR, changing that byte only |
| Cartridge.UxROM.IRQPending | cartridge/uxrom.go:80 | UxROM never raises an IRQ |
| Cartridge.UxROM.Save | cartridge/state.go:51 | one byte: the select truncated to 8 bits, which is the select itself since it stays below 256 |
| Cartridge.UxROM.Load | cartridge/state.go:52-57 | a non-empty record sets the select to its first byte (so a saved record restores the select) and saving again gives that byte back; an empty one keeps it; the select stays below 256 |
| Cartridge.CNROM.constructor | cartridge/cnrom.go:15-26 | shares the cartridge's memory, with CHR select 0 |
| Cartridge.CNROM.CPUMapRead | cartridge/cnrom.go:29-38 | PRG-ROM laid out as in NROM |
| Cartridge.CNROM.CPUMapWrite | cartridge/cnrom.go:41-50 | handled at $8000-$FFFF; the select becomes `Cnrom.SelectAfterWrite` and stays in range and below 256 |
| Cartridge.CNROM.PPUMapRead | cartridge/cnrom.go:53-59 | pattern space reads in the selected 8 KB bank |
| Cartridge.CNROM.PPUMapWrite | cartridge/cnrom.go:62-72 | accepted exactly with 8 KB of CHR, changing the selected bank's byte only |
| Cartridge.CNROM.Save | cartridge/state.go:60 | one byte: the select truncated to 8 bits, which is the select itself since it stays below 256 |
| Cartridge.CNROM.Load | cartridge/state.go:61-66 | a non-empty record sets the select to its first byte, without reducing it (so a saved record restores the select) and saving again gives that byte back; the select stays below 256 |
| Cartridge.MMC1.constructor | cartridge/mmc1.go:24-33 | zeroed 8 KB work RAM and the power-on registers (control $0C) |
| Cartridge.MMC1.CPUMapRead | cartridge/mmc1.go:36-75 | work RAM unless disabled, PRG-ROM at `Mmc1.PrgIndex`, nothing below $6000 |
| Cartridge.MMC1.CPUMapWrite | cartridge/mmc1.go:77-121 | work-RAM writes unless disabled; at $8000-$FFFF the registers become the corrected `Mmc1.SerialWrite` (bit-7 reset, not line 86 as written), and the cartridge's mirroring follows a control commit |
| Cartridge.MMC1.WramWrite | cartridge/mmc1.go:78-84 | a work-RAM write lands exactly when work RAM is enabled |
| Cartridge.MMC1.SerialPort | cartridge/mmc1.go:85-118 | the registers become the corrected `Mmc1.SerialWrite` (bit-7 reset, not line 86 as written), and the cartridge's mirroring is set on a control commit |
| Cartridge.MMC1.CommitShift | cartridge/mmc1.go:97-117 | the fifth write commits the shift register to the target and clears the port |
| Cartridge.MMC1.PPUMapRead | cartridge/mmc1.go:124-149 | pattern space reads at `Mmc1.ChrIndex` |
| Cartridge.MMC1.PPUMapWrite | cartridge/mmc1.go:152-181 | pattern-space writes land at `Mmc1.ChrIndex` exactly when CHR is RAM |
| Cartridge.MMC1.Clock | cartridge/mmc1.go:198-205 | the registers become `Mmc1.Clock` of the old ones |
| Cartridge.MMC1.Save | cartridge/state.go:76-80 | the saved record decodes back to the registers |
| Cartridge.MMC1.Load | cartridge/state.go:82-92 | an empty record changes nothing; a malformed one is an error and changes nothing; otherwise the registers become the record |
| Cartridge.MMC3.constructor | cartridge/mmc3.go:31-49 | zeroed 8 KB PRG-RAM and `Mmc3.PowerOn` of the cartridge's code |
| Cartridge.MMC3.CPUMapRead | cartridge/mmc3.go:52-61 | PRG-RAM at $6000-$7FFF, PRG-ROM at `Mmc3.PrgIndex`, nothing below |
| Cartridge.MMC3.CPUMapWrite | cartridge/mmc3.go:86-127 | PRG-RAM writes, and register writes as `Mmc3.CpuWrite`; handled exactly from $6000 up |
| Cartridge.MMC3.RegisterWrite | cartridge/mmc3.go:92-125 | the registers become `Mmc3.CpuWrite` of the old ones |
| Cartridge.MMC3.BankWrite | cartridge/mmc3.go:96-103 | as `Mmc3.CpuWrite` in $8000-$9FFF |
| Cartridge.MMC3.MirroringWrite | cartridge/mmc3.go:104-109 | as `Mmc3.CpuWrite` in $A000-$BFFF |
| Cartridge.MMC3.IrqLatchWrite | cartridge/mmc3.go:110-115 | as `Mmc3.CpuWrite` in $C000-$DFFF |
| Cartridge.MMC3.IrqEnableWrite | cartridge/mmc3.go:116-122 | as `Mmc3.CpuWrite` in $E000-$FFFF |
| Cartridge.MMC3.CheckA12 | cartridge/mmc3.go:197-211 | the registers become `Mmc3.CheckA12` of the old ones |
| Cartridge.MMC3.ClockIRQ | cartridge/mmc3.go:213-224 | the registers become `Mmc3.ClockIrq` of the old ones |
| Cartridge.MMC3.PPUMapRead | cartridge/mmc3.go:130-138 | A12 is checked first, then pattern space is read at `Mmc3.ChrIndex` |
| Cartridge.MMC3.PPUMapWrite | cartridge/mmc3.go:141-152 | A12 is checked even for CHR-ROM; the write lands only in CHR-RAM |
| Cartridge.MMC3.PPUDebugRead | cartridge/mmc3.go:253-260 | the byte `PPUMapRead` would return, with the registers unchanged |
| Cartridge.MMC3.Clock | cartridge/mmc3.go:237-242 | the registers become `Mmc3.Clock` of the old ones |
| Cartridge.MMC3.IRQPending | cartridge/mmc3.go:244-246 | the pending flag of the registers |
| Cartridge.MMC3.ClearIRQ | cartridge/mmc3.go:248-250 | only the pending flag is cleared |
| Cartridge.MMC3.Save | cartridge/state.go:107-111 | the saved record decodes back to the registers |
| Cartridge.MMC3.SetRegs | cartridge/state.go:121 | the registers become the decoded record |
| Cartridge.MMC3.Load | cartridge/state.go:113-123 | as for MMC1: empty changes nothing, malformed is an error, otherwise the record |
| Loopy.Fields | ppu/ppu.go:277-291 | the address with given coarse X/Y, nametable X/Y, fine Y and bit 15 is their weighted sum at bits 0, 5, 10, 11, 12 and 15 |
| Loopy.FieldsOfAddress | ppu/ppu.go:182-224 | every 16-bit address is made of its six scroll fields, bit 15 being below 2 |
| Loopy.FieldsRoundTrip | ppu/ppu.go:182-224 | reading the fields back from `Fields(...)` gives exactly the fields it was built from |
| Loopy.ScrollFirstSetsCoarseX | ppu/ppu.go:279-282 | the first $2005 write puts data bits 3-7 into coarse X and keeps every other field of the temporary address |
| Loopy.ScrollSecondSetsCoarseAndFineY | ppu/ppu.go:275-278 | the second $2005 write (with the intended fine-Y mask) sets coarse Y from data bits 3-7 and fine Y from bits 0-2 and keeps the rest |
| Loopy.ScrollWritesSetScroll | ppu/ppu.go:274-283 | the pair of $2005 writes sets the whole scroll position and keeps the nametable select and bit 15 |
| Loopy.ScrollSecondAsWrittenLosesFields | ppu/ppu.go:276-277 | as written, the second $2005 write zeroes coarse X and nametable X whatever the first write set |
| Loopy.AddrWritesSetBytes | ppu/ppu.go:285-291 | the first $2006 write sets the high byte to data & $3F and keeps the low byte; the second sets the low byte and keeps the high byte |
| Loopy.AddrWritesSetAddress | ppu/ppu.go:284-292 | a $2006 pair gives the 14-bit address (hi & $3F) * 256 + lo whatever was held before |
| Loopy.IncrementXWraps | ppu/ppu.go:182-189 | coarse X 31 wraps to 0 and flips nametable X, otherwise coarse X counts up; the vertical fields stay |
| Loopy.IncrementYFine | ppu/ppu.go:195-196 | below fine Y 7 only fine Y counts up |
| Loopy.IncrementYRow | ppu/ppu.go:197-210 | from fine Y 7: fine Y 0 and coarse Y counts up, wrapping at 29 with the nametable Y flip or at 31 without it; horizontal fields stay |
| Loopy.TransfersRestoreScroll | ppu/ppu.go:214-224 | the horizontal and vertical copies commute and together take bits 0-14 from the temporary address |
| PpuMemory.PaletteIndex | ppu/ppu.go:102-114 | the palette entry index stays below 32 |
| PpuMemory.PaletteIndexMirrors | ppu/ppu.go:102-114 | $10/$14/$18/$1C map to $00/$04/$08/$0C, every other address to itself |
| PpuMemory.PaletteAliases | ppu/ppu.go:102-114 | two palette addresses share an entry exactly when equal or the same backdrop slot of a background and a sprite palette |
| PpuMemory.DecodeRegions | ppu/ppu.go:95-118 | after the 14-bit mask: pattern space below $2000, nametables up to $3EFF indexed by the low 12 bits, palette from $3F00 by the low 5 bits |
| PpuMemory.DecodePattern | ppu/ppu.go:96-98 | an address below $2000 is its own CHR index |
| PpuMemory.DecodeNametable | ppu/ppu.go:99-100 | $2000-$3EFF reach VRAM at the low 12 bits |
| PpuMemory.DecodePalette | ppu/ppu.go:101-115 | $3F00-$3FFF reach the mirrored palette entry of the low 5 bits |
| PpuMemory.PaletteRepeats | ppu/ppu.go:101-115 | the palette repeats every 32 bytes through $3F00-$3FFF |
| PpuMemory.SpaceRepeats | ppu/ppu.go:96 | the address space repeats every 16 KB |
| PpuMemory.NametableOutsideVram | ppu/ppu.go:99-100 | the 12-bit nametable index falls outside the 2 KB VRAM exactly when address bit 11 is set |
| PpuMemory.DebugDecode | ppu/debug.go:11-45 | the debugger's read reaches pattern space only below $2000 |
| PpuMemory.DebugDecodeAgrees | ppu/debug.go:11-45 | the debugger's read picks the same region as `ppuRead`, the same location outside nametables, and the mirrored VRAM index inside them |
| PpuMemory.Put | ppu/ppu.go:71-93 | a store leaves CHR and the sizes alone, changes nothing in pattern space and updates exactly one VRAM or palette byte |
| PpuMemory.PutThenGet | ppu/ppu.go:71-118 | a stored VRAM or palette byte reads back |
| PpuMemory.PutOther | ppu/ppu.go:71-118 | a store leaves every other location as it was |
| PpuMemory.Write | ppu/ppu.go:71-93 | `ppuWrite` ignores pattern space and stores into VRAM or the mirrored palette entry, changing nothing else |
| PpuMemory.ReadAfterWrite | ppu/ppu.go:71-118 | `ppuRead` after `ppuWrite` of the same address returns the byte written, or the old byte in pattern space |
| PpuMemory.WriteIsLocal | ppu/ppu.go:71-118 | after a write, an address decoding to the same entry reads the new byte and any other address the old one |
| PpuState.Increment | ppu/ppu.go:295-299 | the $2007 step is 1 or 32, and 32 exactly when PPUCTRL bit 2 is set |
| PpuState.WriteRegisterFrame | ppu/ppu.go:264-303 | ignored register addresses change nothing; only the second $2006 write moves the current address; no register write touches the counters, buffer, status or NMI line |
| PpuState.WriteData | ppu/ppu.go:293-299 | a $2007 write advances the address by the PPUCTRL step (16-bit wrap) and the byte reads back at the old address outside pattern space |
| PpuState.SetAddress | ppu/ppu.go:284-292 | a $2006 pair from a cleared latch sets both addresses to the 14-bit pair address and clears the latch; nothing else changes |
| PpuState.StatusReadResetsLatch | ppu/ppu.go:246-250 | a $2002 read between the halves of a $2006 pair makes the next write a high byte again |
| PpuState.ReadStatusClearsVBlank | ppu/ppu.go:246-250 | a $2002 read returns the old status and clears only bit 7 and the latch |
| PpuState.DataWriteThenRead | ppu/ppu.go:251-258 | after a $2006 pair and a $2007 write, re-pointing and reading $2007 returns the stale buffer below $3F00 (buffering the byte written) and the byte itself from $3F00 up |
| PpuState.Advance | ppu/ppu.go:234-241 | cycle 340 wraps to 0 on the next scanline, scanline 260 wraps to -1, and the counters stay in the frame |
| PpuState.AdvanceCountsDots | ppu/ppu.go:234-241 | the counters step through the 262 x 341 dots of a frame one at a time and start over |
| PpuState.VBlank | ppu/ppu.go:226-231 | at scanline 241 cycle 1 the flag is set and the NMI raised when PPUCTRL bit 7 asks; elsewhere nothing changes; only status and NMI ever change |
| PpuState.VBlankAsWrittenIsDead | ppu/ppu.go:226-231 | inside the scanline < 240 block opened at line 125 the vertical-blank check never fires, where the intended one raises the NMI |
| PpuState.PixelIndex | ppu/ppu.go:131-141 | the background palette index is below 16, and 0 when the background is hidden |
| PpuState.PixelBits | ppu/ppu.go:136-140 | two pattern bits and two attribute bits give an index below 16 |
| PpuState.PixelAddr | ppu/ppu.go:142 | the colour is looked up in $3F00-$3F0F |
| PpuState.PixelOffset | ppu/ppu.go:142 | the frame-buffer index lies inside the 256 x 240 frame, at row scanline and column cycle |
| PpuState.HiddenBackgroundDrawsBackdrop | ppu/ppu.go:131-142 | with the background hidden every pixel comes through the backdrop entry $3F00 |
| PpuState.NameAddrInNametables | ppu/ppu.go:163 | the tile number is read from the nametables at the nametable select and coarse position |
| PpuState.AttribAddrInAttributeTable | ppu/ppu.go:166 | the attribute byte lies in the last 64 bytes of the tile's own 1 KB nametable, at its 4x4-tile block |
| PpuState.AttribBitsAsWritten | ppu/ppu.go:167-173 | the selected attribute bits are below 4 |
| PpuState.AttribBits | ppu/ppu.go:167-173 | the selected attribute bits (NES quadrant order) are below 4 |
| PpuState.AttribBitsQuadrant | ppu/ppu.go:166-173 | each 16x16 quadrant reads its own bit pair: top left 0-1, top right 2-3, bottom left 4-5, bottom right 6-7 |
| PpuState.AttribBitsAsWrittenSwapsQuadrants | ppu/ppu.go:167-172 | as written the top-right and bottom-left quadrants read each other's bits; $0C at coarse X 2 gives 0 instead of 3 |
| PpuState.PatternAddrInPatternTables | ppu/ppu.go:176-179 | the pattern fetch address stays below $2008 without wrapping, is row fine Y of the tile, and is in pattern space while bit 15 is clear |
| PpuState.ReloadFillsLowBytes | ppu/ppu.go:157-160 | the reload puts the tile's pattern bytes and attribute bits in the low bytes and keeps the high bytes |
| PpuState.ShiftBit | ppu/ppu.go:133-151 | a left shift moves the bit under fine X f + 1 to fine X f |
| PpuState.ShiftMovesPixels | ppu/ppu.go:147-152 | after a shift fine X f draws what fine X f + 1 drew; a hidden background shifts nothing |
| PpuState.SameSelectionSamePixel | ppu/ppu.go:131-141 | two pipelines whose shifter bits under fine X agree draw the same palette index |
| PpuState.ShiftedPipelineDraws | ppu/ppu.go:131-152 | shifters shifted left by one draw at fine X f what the old ones drew at f + 1 |
| PpuState.ClearVBlankDefined | ppu/ppu.go:126-128 | clearing vertical blank keeps the dot, the mask and fine X, so the rest of the dot is still well defined |
| PpuState.FetchKeeps | ppu/ppu.go:145-191 | a fetch-window step changes only the current address, and that only at phase 7 with the background shown |
| PpuState.FetchStepsX | ppu/ppu.go:180-189 | phase 7 with the background shown is the horizontal increment |
| PpuState.ScrollUpdatesKeep | ppu/ppu.go:193-224 | the scroll updates change only the current address, and not at all with rendering off |
| PpuState.ClearVBlankStatus | ppu/ppu.go:126-128 | cycle 1 of the pre-render line clears bit 7 of the status and nothing else |
| PpuState.RenderBlockKeeps | ppu/ppu.go:125-224 | the rendering block changes the status only by the vertical-blank clear and the current address only while rendering |
| PpuState.EndOfDotKeeps | ppu/ppu.go:226-241 | the end of a clock moves the counters by `Advance` and otherwise does the corrected vertical-blank check, which the source as written never reaches |
| PpuState.TickCounters | ppu/ppu.go:124-242 | a clock advances the counters, keeps the temporary address, latch, buffer and fine X, and outside the rendering block leaves the address and pipeline alone |
| PpuState.TickVBlank | ppu/ppu.go:226-231 | corrected: the flag is set at 241/1 (with NMI if enabled), which the source as written never does; cleared at -1/1 (lines 126-128), and left alone at every other dot |
| PpuState.TickScrollAt256 | ppu/ppu.go:180-212 | cycle 256 with the background shown applies the horizontal then the vertical increment |
| PpuState.TickScrollAt257 | ppu/ppu.go:220-224 | cycle 257 with rendering on copies the horizontal scroll from the temporary address |
| PpuState.TickScrollPreRender | ppu/ppu.go:214-218 | cycles 280-304 of the pre-render line copy the vertical scroll |
| PpuState.TickScrollOff | ppu/ppu.go:145-224 | with background and sprites hidden the current address never moves |
| Ppu.PPU.constructor | ppu/ppu.go:54-57 | every register, pipeline byte and memory is zero and no cartridge is connected |
| Ppu.PPU.ConnectCartridge | ppu/ppu.go:59-62 | the cartridge is connected, apart from the PPU's own memories |
| Ppu.PPU.PpuWrite | ppu/ppu.go:71-93 | the memories become `PpuMemory.Write` of the old ones |
| Ppu.PPU.PpuRead | ppu/ppu.go:95-118 | the byte is `PpuMemory.Read` of the memories |
| Ppu.PPU.DebugRead | ppu/debug.go:11-45 | the byte is the debugger's decoding (mapper CHR read without side effects, 0 with no cartridge, mirrored VRAM, mirrored palette) and nothing it can read changes |
| Ppu.PPU.GetPatternTable | ppu/debug.go:48-83 | every one of the 128 x 128 pixels gets the colour `PatternView.Pixel` gives it for the bytes the debugger reads; bytes past 65536 are untouched |
| Ppu.PPU.DrawTileRow | ppu/debug.go:52-80 | one tile row draws its eight pixels, extending the drawn part in loop order |
| Ppu.PPU.ReadPlanes | ppu/debug.go:53-54 | the two plane bytes are table bytes k and k + 8 |
| Ppu.PPU.DrawColumn | ppu/debug.go:56-79 | one column draws pixel 7 - col and shifts both planes by one |
| Ppu.PPU.DrawPixel | ppu/debug.go:62-78 | the pixel gets black for value 0 and its palette entry's system colour otherwise, always with alpha 255 |
| Ppu.PPU.Plot | ppu/debug.go:74-78 | the pixel's four bytes hold the colour and no other pixel or debugger-readable byte changes |
| Ppu.PPU.Read | ppu/ppu.go:244-261 | $2002 and $2007 reads are `PpuState.ReadStatus` and `PpuState.ReadData`; other addresses return 0 and change nothing |
| Ppu.PPU.Write | ppu/ppu.go:264-303 | register writes are `PpuState.WriteRegister` (its $2005 case the corrected `Loopy.ScrollSecond`, not line 277 as written); a $2007 write is `PpuState.WriteData` on registers and memories |
| Ppu.PPU.WriteData | ppu/ppu.go:293-299 | registers and memories become `PpuState.WriteData` of the old ones |
| Ppu.PPU.WriteScroll | ppu/ppu.go:274-283 | the registers become `PpuState.WriteScroll` of the old ones, whose second write is the corrected `Loopy.ScrollSecond` (not the $FBE0 mask of line 277) |
| Ppu.PPU.WriteAddress | ppu/ppu.go:284-292 | the registers become `PpuState.WriteAddress` of the old ones |
| Ppu.PPU.Clock | ppu/ppu.go:124-242 | registers and pipeline become `PpuState.Tick`, which uses the corrected vertical blank and attribute quadrants; at a visible dot exactly one frame-buffer byte changes, to `PpuState.PixelValue`; the memories are unchanged |
| Ppu.PPU.EndOfDotStep | ppu/ppu.go:226-241 | the registers become `PpuState.EndOfDot`, with the corrected vertical-blank check |
| Ppu.PPU.VBlankCheck | ppu/ppu.go:226-231 | the result is the corrected `PpuState.VBlank`, not the dead check as written |
| Ppu.PPU.Counters | ppu/ppu.go:234-241 | the counters are `PpuState.Advance` |
| Ppu.PPU.RenderBlock | ppu/ppu.go:125-224 | `PpuState.RenderBlock` (attribute quadrants in the corrected order) and the pixel write of the visible dots |
| Ppu.PPU.ClearVBlankStep | ppu/ppu.go:126-128 | the registers become `PpuState.ClearVBlank` |
| Ppu.PPU.FetchAndScrollStep | ppu/ppu.go:145-224 | registers and pipeline become `PpuState.FetchAndScroll`, with the corrected attribute quadrants |
| Ppu.PPU.RenderPixel | ppu/ppu.go:130-143 | exactly the pixel at `PixelOffset` becomes `PixelValue` |
| Ppu.PPU.PixelColour | ppu/ppu.go:142 | the colour is `PpuState.PixelValue` |
| Ppu.PPU.BackgroundPixel | ppu/ppu.go:131-141 | the index is `PpuState.PixelIndex` |
| Ppu.PPU.FetchStep | ppu/ppu.go:145-191 | registers and pipeline become `PpuState.Fetch`, with the corrected attribute quadrants |
| Ppu.PPU.FetchTileStep | ppu/ppu.go:155-173 | the pipeline becomes `PpuState.FetchTile`, whose attribute latch is the corrected `PpuState.AttribBits` |
| Ppu.PPU.FetchPatternStep | ppu/ppu.go:174-179 | the pipeline becomes `PpuState.FetchPattern` |
| Ppu.PPU.LoadTileId | ppu/ppu.go:155-163 | shifters reloaded, then the tile number read from the nametable |
| Ppu.PPU.LoadAttribute | ppu/ppu.go:164-173 | the attribute bits of the tile's quadrant, in the corrected order (not lines 167-172 as written) |
| Ppu.PPU.SelectQuadrant | ppu/ppu.go:167-173 | the bits are the corrected `PpuState.AttribBits`, not lines 167-172 as written |
| Ppu.PPU.ScrollStep | ppu/ppu.go:193-224 | the registers become `PpuState.ScrollUpdates` |
| Ppu.PPU.ScrollAddress | ppu/ppu.go:193-224 | the address is `PpuState.ScrollAddr` |
| PatternView.TableAddr | ppu/debug.go:53 | for table 0-15 and an offset below $1000 the 16-bit sum is i * $1000 + k |
| PatternView.PlaneOffsetsCoverTable | ppu/debug.go:49-54 | every byte of a 4 KB table is one row of one plane of one tile |
| PatternView.PlaneOffsetInTable | ppu/debug.go:51-54 | the offset of tile (x, y), row r, plane p lies in the table and gives those back |
| PatternView.EntryAddr | ppu/debug.go:65 | the palette entry address lies in $3F00-$42FF without wrapping |
| PatternView.PixelBits | ppu/debug.go:57 | a pixel value is below 4 |
| PatternView.TilePixel | ppu/debug.go:57-62 | the value of pixel px is below 4 |
| PatternView.RowPixels | ppu/debug.go:56-63 | eight values, pixel px from bit 7 - px of both planes |
| PatternView.RowPlanesDecode | ppu/debug.go:56-63 | decoding the planes of a row of values 0-3 gives the row back |
| PatternView.RowPixelsEncode | ppu/debug.go:56-63 | encoding a decoded row gives its two plane bytes back |
| PatternView.Shade | ppu/debug.go:66-78 | the alpha is 255; value 0 is black, any other its palette entry's system colour |
| PatternView.OffsetInverse | ppu/debug.go:74 | a pixel's four bytes lie inside 65536 bytes, four-aligned, and give back x and y |
| PatternView.OffsetsApart | ppu/debug.go:74-78 | two different pixels write disjoint bytes |
| PatternView.EveryByteOnePixel | ppu/debug.go:74-78 | every byte of the 65536-byte buffer belongs to one pixel |
| PatternView.PutPixel | ppu/debug.go:74-78 | the pixel's four bytes are red, green, blue, alpha; no other pixel changes |
| PatternView.TileCoordinates | ppu/debug.go:62-63 | pixel px of row r of tile (x, y) is image pixel (8x + px, 8y + r) |
| PatternView.PlaneIsShift | ppu/debug.go:58-59 | col one-bit shifts are one shift by col |
| PatternView.ShiftPlanes | ppu/debug.go:57-62 | after col shifts the two low bits make the value of pixel 7 - col |
| PatternView.PixelOfStep | ppu/debug.go:53-78 | the step (tile, row, col) draws its pixel in the colour of its value |
| PatternView.DrawnStep | ppu/debug.go:49-63 | each inner step draws exactly one pixel not drawn before |
| PatternView.DrawnAfterPut | ppu/debug.go:56-79 | drawing a step's pixel extends the drawn part by that pixel |
| PatternView.DrawnCarry | ppu/debug.go:49-82 | the loop bounds: after 16 tile rows every pixel is drawn |
| Apu.WriteControl | apu/apu.go:226-230 | $4000 splits the byte into duty, halt, constant-volume flag and volume, which give the byte back; nothing else changes |
| Apu.WriteSweep | apu/apu.go:231-236 | $4001 splits the byte into sweep enable, period, negate and shift, which give the byte back, and sets the reload flag; nothing else changes |
| Apu.WriteTimerLow | apu/apu.go:237-238 | $4002 replaces the timer's low byte, keeps its high bits and keeps it below $800 |
| Apu.WriteTimerHigh | apu/apu.go:239-243 | $4003 sets timer bits 8-10, loads the length counter from the table entry of bits 3-7 and restarts the duty sequence |
| Apu.WriteElsewhere | apu/apu.go:224-244 | addresses outside $4000-$4003 leave the channel alone |
| Apu.WriteValid | apu/apu.go:224-244 | register writes keep every field in the range its decoding gives |
| Apu.ClockValid | apu/apu.go:164-171 | a timer clock changes only the timer counter and the sequencer step, and keeps them in range |
| Apu.CountDown | apu/apu.go:164-167 | as many clocks as the counter holds run it to 0 and change nothing else |
| Apu.StepPeriod | apu/apu.go:164-171 | from counter 0 the sequencer advances one step every timer + 1 clocks |
| Apu.ClockLengthNoUnderflow | apu/apu.go:158-162 | a length clock changes only the length counter, by at most one, never below 0 |
| Apu.LengthClockValid | apu/apu.go:158-162 | a length clock keeps the channel in range |
| Apu.LengthClocksKeep | apu/apu.go:158-162 | any number of length clocks change only the length counter |
| Apu.HaltedLength | apu/apu.go:158-162 | with the halt flag set length clocks change nothing |
| Apu.LengthCountdown | apu/apu.go:158-162 | unhalted, n length clocks take the counter to max(lengthCounter - n, 0) |
| Apu.EnableValid | apu/apu.go:173-179 | enabling or disabling keeps the channel in range |
| Apu.OutputSilentOrVolume | apu/apu.go:181-196 | the output is 0 or the volume, at most 15, and non-zero exactly when enabled, length running, timer >= 8, duty high and volume non-zero |
| Apu.DisabledIsSilent | apu/apu.go:174-185 | a disabled channel has length 0 and stays silent through length and timer clocks |
| Apu.FrameTickBounds | apu/apu.go:102-139 | the frame counter stays below the sequence period, restarts exactly at its end, and clocks the length counter at 7457 and at the end |
| Apu.FrameTicksWithin | apu/apu.go:102-139 | within a sequence the counter counts the ticks, with one length clock after passing 7457 |
| Apu.FrameSequence | apu/apu.go:102-139 | a whole sequence from 0 takes 14915 (4-step) or 18641 (5-step) ticks, ends at 0 and clocks the length counter twice |
| Apu.FrameTicksSplit | apu/apu.go:102-139 | m + n ticks are m ticks followed by n |
| Apu.ApuClockValid | apu/apu.go:97-151 | an APU clock keeps the channel and the frame counter in range |
| Apu.ApuWriteValid | apu/apu.go:206-222 | APU register writes keep the state in range |
| Apu.FrameCounterWrite | apu/apu.go:213-220 | $4017 sets the mode from bit 7 and the inhibit flag from bit 6, zeroes the counter, keeps the cycle and clocks the length counter exactly in 5-step mode |
| Apu.StatusWrite | apu/apu.go:210-211 | $4015 enables the channel exactly when bit 0 is set and otherwise silences it; the sequencer is unaffected |
| Apu.PulseChannel.constructor | apu/apu.go:58 | every field zero or false |
| Apu.PulseChannel.CpuWrite | apu/apu.go:224-244 | the fields become `PulseWrite` of the old ones |
| Apu.PulseChannel.WriteControlRegister | apu/apu.go:226-230 | the fields become `ControlWrite` of the old ones |
| Apu.PulseChannel.WriteSweepRegister | apu/apu.go:231-236 | the fields become `SweepWrite` of the old ones |
| Apu.PulseChannel.WriteTimerLowRegister | apu/apu.go:237-238 | the fields become `TimerLowWrite` of the old ones |
| Apu.PulseChannel.WriteTimerHighRegister | apu/apu.go:239-243 | the fields become `TimerHighWrite` of the old ones |
| Apu.PulseChannel.Clock | apu/apu.go:164-171 | the fields become `PulseClock` of the old ones |
| Apu.PulseChannel.ClockLength | apu/apu.go:158-162 | the fields become `LengthClock` of the old ones |
| Apu.PulseChannel.SetEnabled | apu/apu.go:173-179 | the fields become `Enable` of the old ones |
| Apu.PulseChannel.Output | apu/apu.go:181-196 | the result is `PulseOutput` of the fields |
| Apu.APU.constructor | apu/apu.go:55-63 | a zero channel, cycle, counter, mode and inhibit flag |
| Apu.APU.Clock | apu/apu.go:97-151 | the state becomes `ApuClock` of the old one |
| Apu.APU.ClockLengthCountersAndSweeps | apu/apu.go:153-156 | the channel becomes `LengthClock` of the old one |
| Apu.APU.CPUWrite | apu/apu.go:205-222 | the state becomes `ApuWrite` of the old one |
| Controller.Reads | controller/controller.go:29-45 | n reads give n values |
| Controller.StrobeWrite | controller/controller.go:21-26 | the strobe latches bit 0; only a set bit resets the index; the buttons are kept |
| Controller.SetButtonsKeeps | controller/controller.go:16-18 | setting the buttons leaves the index and the strobe alone |
| Controller.ValidKept | controller/controller.go:16-45 | every operation keeps the index at most 8 and the strobe a bit |
| Controller.ReadIsBit | controller/controller.go:29-45 | a read is 0 or 1: 1 past the eighth bit, otherwise the current button |
| Controller.ShiftOut | controller/controller.go:29-45 | with a low strobe consecutive reads return the buttons from the index on, then 1s |
| Controller.StrobeThenEightReads | controller/controller.go:21-45 | strobe high then low, and the reads are A, B, Select, Start, Up, Down, Left, Right, then 1s |
| Controller.StrobeHighRepeats | controller/controller.go:21-45 | while the strobe is high every read returns A |
| Controller.Controller.constructor | controller/controller.go:11-13 | no button pressed, index and strobe 0 |
| Controller.Controller.SetButtons | controller/controller.go:16-18 | the state becomes `WithButtons` of the old one |
| Controller.Controller.Write | controller/controller.go:21-26 | the state becomes `Strobe` of the old one |
| Controller.Controller.Read | controller/controller.go:29-45 | the value is `ReadValue` and the state `Advance` of the old one |
| Bus.RamIndex | bus/bus.go:23-31 | the RAM cell index is below $800 |
| Bus.Poke | bus/bus.go:29-33 | a write keeps the RAM at 2 KB |
| Bus.Mirrors | bus/bus.go:21-26 | the RAM repeats every $800 bytes through $0000-$1FFF, at cell addr % $800 |
| Bus.Unmapped | bus/bus.go:21-33 | above $1FFF reads are 0 and writes change nothing |
| Bus.ReadAfterWrite | bus/bus.go:21-33 | after a write every mirror of the address reads the byte written and every other address what it read before |
| Bus.WriteIsLocal | bus/bus.go:29-33 | a write changes exactly the cell addr & $7FF |
| Bus.Bus.constructor | bus/bus.go:11-18 | the RAM is 2 KB of zeros |
| Bus.Bus.Read | bus/bus.go:21-26 | the byte is `Peek` of the RAM |
| Bus.Bus.Write | bus/bus.go:29-33 | the RAM becomes `Poke` of the old RAM |
| Cpu.ResetVector | cpu/cpu.go:54-67 | after a reset the PC is the little-endian vector at $FFFC/$FFFD, A, X and Y are 0, SP is $FD and 8 cycles remain |
| Cpu.Busy | cpu/cpu.go:70-85 | with cycles left a clock only uses one up: no fetch, the PC stays |
| Cpu.InvalidOpcode | cpu/cpu.go:71-79 | an opcode without an operation is fetched and skipped: PC one on, cycle count still 0 |
| Cpu.ValidOpcode | cpu/cpu.go:71-84 | a valid opcode runs on the fetched state with its cycle count loaded, then one cycle is used up |
| Cpu.CountOut | cpu/cpu.go:70-85 | k clocks with k cycles to go bring the count to 0 and change nothing else |
| Cpu.OneInstruction | cpu/cpu.go:70-85 | an instruction that leaves the count alone takes exactly its cycle count in clocks before the next fetch |
| Cpu.CPU.constructor | cpu/cpu.go:42-46 | every register 0, with the given lookup table |
| Cpu.CPU.Reset | cpu/cpu.go:54-67 | the registers become `ResetRegs` of the old ones |
| Cpu.CPU.Clock | cpu/cpu.go:70-85 | the registers become `ClockRegs` of the old ones |
| Cpu.CPU.Load | cpu/cpu.go:81-82 | the registers become the instruction's result |
| Display.PressedUpTo | display/display.go:126-150 | at most one name per button looked at |
| Display.PressedUpToNames | display/display.go:126-150 | a name is listed exactly when one of the buttons looked at is pressed and has that name |
| Display.PressedUpToEmpty | display/display.go:126-155 | no name is listed exactly when none of the buttons looked at is pressed (the "NONE" case) |
| Display.PressedUpToPlain | display/display.go:126-150 | every listed name is one of A, B, SELECT, START, UP, DOWN, LEFT, RIGHT |
| Display.Repeat | display/display.go:229-243 | n copies of one button state |
| Display.Step | display/display.go:229-243 | the encoding has at least one run after a frame |
| Display.ExpandRunLength | display/display.go:229-243 | the run-length encoding of the recorded frames expands back to exactly those frames |
| Display.RunLengthWellFormed | display/display.go:229-243 | every run has at least one frame and neighbouring runs have different button states |
| Display.RunLengthExpand | display/display.go:229-243 | a well-formed run sequence is the encoding of its own expansion, so the encoding is the only well-formed one |
| Display.RunLengthAppend | display/display.go:229-243 | n frames of a state other than the last run's add exactly one run of n |
| Display.BlinkBounds | display/display.go:183-200 | a RESET click leaves the indicator at 29 after its frame; otherwise it drops by one while positive, and stays in 0..29 |
| Display.BlinkRunsOut | display/display.go:198-200 | without clicks the indicator after n frames is timer - n, held at 0 |
| Display.RecordStepFollows | display/display.go:229-243 | each recorded frame keeps the file equal to the closed runs' lines and the fields equal to the open run |
| Display.RecordRunFollows | display/display.go:229-243 | after any frames, the file holds the lines of all runs but the open one and the fields hold the open one |
| Display.CollectNames | display/display.go:126-150 | the names are those of the pressed buttons, in shift-register order |
| Display.Display.constructor | display/display.go:71-110 | recording exactly when a file is given, nothing written, the first frame pending, the indicator off |
| Display.Display.WriteRecord | display/display.go:125-157 | the file gains the line "<frames> <names joined by + or NONE>\n" and nothing else changes |
| Display.Display.Record | display/display.go:229-243 | when recording, the fields take one `RecordStep` and the frame joins the history, which the fields keep following; otherwise nothing changes |
| Display.Display.Blink | display/display.go:183-200 | the indicator becomes `BlinkStep` of the old one and nothing else changes |
| Display.Display.Update | display/display.go:161-243 | the recorder follows the frames recorded and the indicator takes one step |
| Display.RecordedFrames | display/display.go:229-243 | the written runs plus the open one expand to exactly the recorded frames and are well formed |
| GoStrings.Split | cmd/client/main.go:24 | at least one part, no part holds the separator, and joining the parts gives the string back (also the field split at line 89) |
| GoStrings.SplitNoSeparator | cmd/client/main.go:24 | a string without the separator splits into itself alone |
| GoStrings.SplitAfterPart | cmd/client/main.go:89 | a part followed by the separator splits off as the first element |
| GoStrings.SplitJoin | display/display.go:154 | names without the separator, joined by it, split back into the same names |
| GoStrings.JoinChars | display/display.go:154 | every character of a join is the separator or one of a part's characters |
| GoStrings.JoinLast | display/display.go:154 | a join ends with the last part's last character |
| GoStrings.TrimSpace | cmd/client/main.go:84 | the result neither starts nor ends with white space and is no longer than the input |
| GoStrings.TrimLeft | cmd/client/main.go:84 | a suffix whose dropped characters are all white space and which does not start with white space |
| GoStrings.TrimRight | cmd/client/main.go:84 | a prefix whose dropped characters are all white space and which does not end with white space |
| GoStrings.TrimSpaceKeeps | cmd/client/main.go:84 | a string with no white space at either end is left as it is |
| GoStrings.ToUpper | cmd/client/main.go:26 | the same length, each letter a-z raised to A-Z, dotless i (U+0131) raised to I, long s (U+017F) raised to S, and every other character kept |
| GoStrings.UpperChar | cmd/client/main.go:26 | a-z is raised by 32 code points and A-Z is kept |
| GoStrings.ToUpperOfCapitals | cmd/client/main.go:26 | a word of capitals is its own upper case |
| GoStrings.DigitChar | display/display.go:156 | the decimal digit for a value 0..9 |
| GoStrings.NatToString | display/display.go:156 | `%d` of a non-negative number is a non-empty string of decimal digits |
| GoStrings.Itoa | display/display.go:156 | `%d` is never empty |
| GoStrings.DigitsValueOfNat | display/display.go:156 | the digits `%d` writes have the number's value |
| GoStrings.Atoi | cmd/client/main.go:95-99 | a success lies in the 64-bit `int` range, and the empty string is a syntax error |
| GoStrings.AtoiItoa | cmd/client/main.go:95 | `Atoi` reads back every non-negative `int` that `%d` writes |
| GoStrings.FirstNewline | cmd/client/main.go:82-83 | the position of the first newline |
| GoStrings.ScanLinesCons | cmd/client/main.go:82-83 | a newline-terminated line is yielded first, without its carriage return, then the rest |
| GoStrings.ScanLinesUnlines | cmd/client/main.go:82-83 | the scanner yields back exactly the lines written each with a newline, when none holds a newline or ends in a carriage return |
| GoStrings.UnlinesSnoc | display/display.go:156 | one more line written adds its text and a newline at the end |
| Client.NameIndex | cmd/client/main.go:26-43 | a recognised token is the name of that button; an unrecognised one is no button name |
| Client.NameIndexOfName | cmd/client/main.go:26-43 | each button name selects exactly its own button |
| Client.PressBit | cmd/client/main.go:26-43 | a token holds button j exactly when it is j's name and keeps the player |
| Client.MentionedInNames | cmd/client/main.go:19-44 | a button is held exactly when some token, upper-cased, names it, and the player is 1 |
| Client.MentionedUnion | cmd/client/main.go:24-44 | the buttons of two token lists one after the other are the union of their buttons |
| Client.MentionedSameSet | cmd/client/main.go:24-44 | the order and repetition of the tokens make no difference |
| Client.ParsedMeaning | cmd/client/main.go:18-46 | player 1; "NONE" holds nothing; otherwise a button is held exactly when a "+"-separated token names it in any case |
| Client.PressToken | cmd/client/main.go:26-43 | the message becomes `Press` of the token |
| Client.ParseButtons | cmd/client/main.go:18-46 | the message is `Parsed` of the field, so `ParsedMeaning` describes it |
| Client.AcceptedAppend | cmd/client/main.go:83-113 | the lines of two scripts one after the other send the two scripts' commands one after the other |
| Client.AcceptedAll | cmd/client/main.go:83-113 | when every line is accepted, the commands are those of the lines, in order |
| Client.AcceptedNone | cmd/client/main.go:84-99 | lines no one accepts, such as blank lines and comments, send nothing |
| Client.HandleLine | cmd/client/main.go:84-101 | the command is `ParseLine` of the line: none for a blank line, a comment, a line that is not two fields, or a bad frame count |
| Client.Replay | cmd/client/main.go:83-113 | the commands sent are those of the lines, in order |
| Recording.NameCapitals | display/display.go:127-150 | each name the recorder writes is a non-empty word of capitals |
| Recording.FieldChars | display/display.go:152-155 | the button field is non-empty, ends in a capital and holds only capitals and "+" |
| Recording.NamesParse | display/display.go:125-155 | the names written for a state, read back token by token, hold exactly that state's buttons |
| Recording.FieldSplits | display/display.go:152-155 | a field of names splits on "+" back into those names and is never "NONE" |
| Recording.ButtonFieldParses | display/display.go:152-155 | `parseButtons` reads any button field the recorder writes back as the same buttons for player 1 |
| Recording.LineChars | display/display.go:156 | a record line is the decimal count, one space and the field, without newline or trailing carriage return |
| Recording.LineParses | display/display.go:156 | every record line is a script line, sending the run's buttons for player 1 held for its count |
| Recording.MapRuns | display/display.go:229-243 | one line per run |
| Recording.MapRunsAt | display/display.go:229-243 | line i belongs to run i |
| Recording.SerializeLines | display/display.go:156 | the recorder's text is its lines, each closed by a newline |
| Recording.LinesClean | display/display.go:156 | no record line holds a newline or ends in a carriage return |
| Recording.ScanRecording | display/display.go:156 | the client's scanner splits the recorder's text back into exactly its lines |
| Recording.CommandsOfLines | cmd/client/main.go:83-113 | the script loop sends one command per record line, in order, with that run's buttons and count |
| Recording.ReplayRuns | display/display.go:125-157 | replaying recorded runs sends exactly those runs, in order |
| Recording.RunCountBound | display/display.go:229-243 | no run is longer than the frames the runs stand for |
| Recording.ReplayRecorder | display/display.go:229-243 | after any recorded frames the client replaying the file sends one command per closed run, with its buttons and length, and the closed runs plus the open one add up to the frames |
| RlEnv.ActionBits | rl/vibemulator_env.py:55-66 | the decoded message is player 1 with button i equal to bit i of the action |
| RlEnv.BitsAt | rl/vibemulator_env.py:58-65 | entry i of the low bits is `action & (1 << i)` being non-zero |
| RlEnv.ValueBits | rl/vibemulator_env.py:29-66 | an action in [0, 2^n) is the number its low n bits stand for |
| RlEnv.BitsValue | rl/vibemulator_env.py:29-66 | the number a bit list stands for has exactly those low bits |
| RlEnv.BitsMod | rl/vibemulator_env.py:55-66 | reducing an action mod 2^n keeps its low n bits, for negative actions too |
| RlEnv.DecodeInjective | rl/vibemulator_env.py:29-66 | two actions of `Discrete(256)` give the same message exactly when they are equal |
| RlEnv.DecodeValue | rl/vibemulator_env.py:29-66 | every button combination is the message of an action below 256 |
| RlEnv.DecodeMasked | rl/vibemulator_env.py:55-66 | only the low eight bits of an action matter |
| RlEnv.Zeros | rl/vibemulator_env.py:135-139 | the zero observation has 240 x 256 x 3 entries (also the initial `_last_obs`, line 38) |
| RlEnv.DropAlpha | rl/vibemulator_env.py:130-134 | dropping alpha from 256 x 240 x 4 bytes leaves 240 x 256 x 3 |
| RlEnv.ObserveShape | rl/vibemulator_env.py:124-139 | every observation has the shape 240 x 256 x 3 and is made of bytes when the payload is |
| RlEnv.ObservePixels | rl/vibemulator_env.py:124-139 | with a payload of the right length, channel c of pixel p is byte c of that pixel's RGBA; with a wrong length or an RPC error it is 0 |
| RlEnv.SumAbsDiffZero | rl/vibemulator_env.py:147 | the summed absolute difference is 0 exactly when the frames are equal |
| RlEnv.SumAbsDiffBound | rl/vibemulator_env.py:147 | on byte frames the summed difference is at most 255 per entry |
| RlEnv.RewardMeaning | rl/vibemulator_env.py:141-157 | the reward is never negative, 0 exactly when the frame did not change, at most 0.05 x 255 on byte frames, and the episode is never done |
| RlEnv.Env.constructor | rl/vibemulator_env.py:23-46 | the state file stored, player 1 with nothing held, and a zero last observation |
| RlEnv.Env.Step | rl/vibemulator_env.py:68-88 | holds the decoded action, observes the frame, rewards the change from the last observation, keeps the new one, and is never done or truncated |
| RlEnv.Env.Reset | rl/vibemulator_env.py:90-112 | calls `ResetSystem` when the state file is absent or empty and `LoadState` of it otherwise, then observes and keeps the frame; the held action stays |
| TrainDqn.PushedFacts | rl/train_dqn.py:57-60 | a bounded deque keeps its bound, gains the new item at the newest end, evicts exactly its oldest item when full, and keeps nothing with bound 0 |
| TrainDqn.LastAppend | rl/train_dqn.py:57-60 | trimming to the newest n items before an append makes no difference |
| TrainDqn.PushAllLast | rl/train_dqn.py:57-60 | after any pushes the deque holds the newest `capacity` items of all it has seen, in order |
| TrainDqn.TrainerMemory | rl/train_dqn.py:19-60 | the trainer's memory holds the newest 50000 transitions, oldest first, and its length is the smaller of 50000 and the pushes |
| TrainDqn.PickedSubMultiset | rl/train_dqn.py:62-63 | a draw without replacement takes no transition more often than memory holds it |
| TrainDqn.PickedDrop | rl/train_dqn.py:62-63 | leaving one draw out of a draw leaves its item out of the batch |
| TrainDqn.PickedPrefix | rl/train_dqn.py:62-63 | positions below n pick the same items from the first n items |
| TrainDqn.ReplayMemory.constructor | rl/train_dqn.py:56-57 | an empty deque with the given bound |
| TrainDqn.ReplayMemory.Push | rl/train_dqn.py:59-60 | the memory becomes `Pushed` of the old memory, within the bound |
| TrainDqn.ReplayMemory.Len | rl/train_dqn.py:65-66 | the number of transitions held, never above the bound |
| TrainDqn.ReplayMemory.Sample | rl/train_dqn.py:62-63 | an error exactly when the batch size is negative or above the length; otherwise that many transitions at distinct drawn positions, a sub-multiset of memory |
| TrainDqn.OptimizeModel | rl/train_dqn.py:69-73 | nothing is drawn while memory holds fewer than 32 transitions; otherwise exactly 32 distinct positions' transitions |
| TrainDqn.ConvWindow | rl/train_dqn.py:37-38 | when the input holds the kernel the output size is the number of kernel placements at the stride: at least 1, the last fits and one more would not |
| TrainDqn.ConvMonotone | rl/train_dqn.py:37-38 | a larger input never gives a smaller output |
| TrainDqn.ConvStackPositive | rl/train_dqn.py:32-41 | the three convolutions leave a non-empty output exactly when the side is at least 36 pixels |
| TrainDqn.LinearInputSize | rl/train_dqn.py:40-42 | on the 256 x 240 screen the first linear layer takes 28 x 26 x 64 = 46592 inputs |

## Left out

- Go panics (an index out of range, a modulo by zero, a nil dereference) are not modelled as behaviour. Each becomes a `requires` on the member that would panic: the ROM image being long enough for its slices, a bank count above 0 where the source takes a modulo by it, a nametable address inside the 2 KB `vram`, a palette entry whose `% 0x40` lands inside the 32-byte palette, and CHR banks present for an MMC3 pattern read.
- The controller message is `InputState(playerIndex, buttons)`, with the eight protobuf flags kept as one vector in the order A, B, Select, Start, Up, Down, Left, Right.
- The PPU's `getMirrorAddress` and `SystemPalette` are not part of this model. They are function parameters (`mirror`, `colour`) of the debug read and the pattern-table view.
- The `gob` codec of the mapper save records is replaced by a fixed byte layout of the same fields. `a12Delay` is written as a zig-zag base-128 varint. The round trip is proved for that layout, not for `gob`.
- The `apu`, `ppu`, `cpu` and `bus` `state.go` files are not part of this model. They copy fields that the structs shown do not have.
- The APU sample path is floating point and is left out: `sampleCycleCounter`, `output()` divided by 15.0, and `ReadSamples`. `PulseChannel.output` is modelled as the byte it returns.
- Mmc3.Clock: the Go `int` `a12Delay` is an unbounded natural; its wrap after 2^63 CPU cycles with A12 low is not modelled.
- Apu.ApuClock: the `uint64` `cycle` and `frameCounter` are unbounded naturals; a wrap after 2^64 clocks is not modelled.
- `frameSequenceStep` and the envelope and sweep fields are stored by the register writes but read by nothing in the source, so no behaviour of theirs is modelled. The frame-counter steps at 3729 and 11186 are empty in the source and are empty here.
- `APU.CPURead` returns 0 for every address and has no state to model.
- The bus's connection to the CPU, PPU, APU and cartridge is not part of this model; only the 2 KB RAM is.
- The CPU's instruction table and the instruction effects are not shown: each table entry carries a cycle count, a validity flag and an arbitrary effect function. The `U` status constant is a parameter of `Reset`, and bus reads are the function `read`.
- Display.Display.Update: only the reset-indicator countdown and the recording block are modelled. Rendering, audio, the mouse menu, the file dialog, the keyboard and remote polling, the TV static and the frame loop are left out.
- Display.RecordedFrames: the recorder never writes its last open run (the file is closed without it). The model keeps that run in the fields, and the end-to-end property covers only the runs written.
- Display.RecordLine: Go's `int` count is an unbounded integer here. The replay property needs each run to stay within `MaxInt64` frames, which the source does not enforce.
- GoStrings.ToUpper: only the code points whose capital is an ASCII letter are raised (a-z, dotless i U+0131 to I, long s U+017F to S). Go maps further code points to non-ASCII capitals; those are kept as they are here, which no comparison with an ASCII button name can tell apart.
- Client.Replay: the line-length limit of `bufio.Scanner` (cmd/client/main.go:82-83) is not modelled. In the source a line longer than 64 KiB stops the scan loop (`ErrTooLong`) and no later line is sent; the model goes on with every line. The recorder's lines stay far below the limit.
- The replay client's sleep between commands, its gRPC connection and stream, its command-line flags and its log output are not modelled. The client's output is the sequence of commands it would send.
- The gym environment's gRPC calls are parameters: a frame is `Some(pixels)` or `None` for an RPC error, and `reset` reports the console call it makes. The caught RPC error of `ResetSystem`/`LoadState` changes nothing and is not modelled further. `time.sleep`, the perpetual input stream and `render`/`close` are left out.
- RlEnv.RewardAndDone: the reward is an exact real. NumPy's float64 mean and its rounding are not modelled.
- TrainDqn.ReplayMemory.Sample: the random draw of `random.sample` is a parameter (the drawn positions). The transitions are generic items. The network, the optimiser, the loss, the epsilon schedule, the random action choice and the training loop are left out.
- The members below run the corrected definitions of the five "## Findings" rows, not the code as written; the as-written definitions and the lemmas that show where they differ are listed there.
- Cartridge.New: mirroring is the corrected `Ines.Mirror`. As written (cartridge/cartridge.go:62), flags 6 = $10 gives 2 where the model gives 0, and $08 gives 0 where the model gives 4.
- Cartridge.MMC1.CPUMapWrite: runs the corrected `Mmc1.SerialWrite`. As written (cartridge/mmc1.go:86), $80 to $8000 shifts bit 0 in (write count 1) where the model resets the port.
- Cartridge.MMC1.SerialPort: branches on the corrected `Mmc1.IsReset`; as written the reset branch is never taken.
- PpuState.EndOfDotKeeps: states the corrected vertical-blank check at 241/1, which the source as written never reaches.
- PpuState.TickVBlank: states that the flag and the NMI are set at 241/1; as written (ppu/ppu.go:226-231) they never are.
- Ppu.PPU.Write: the $2005 case is the corrected `Loopy.ScrollSecond`. As written (ppu/ppu.go:277), $08 then $00 clears coarse X 1, which the model keeps.
- Ppu.PPU.WriteScroll: the second write is the corrected `Loopy.ScrollSecond`, not the $FBE0 mask.
- Ppu.PPU.Clock: `PpuState.Tick` uses the corrected vertical blank and attribute quadrants. It differs from the code as written at 241/1 and on attribute byte $0C at coarse X 2, coarse Y 0.
- Ppu.PPU.EndOfDotStep: runs the corrected vertical-blank check, which the source as written never reaches.
- Ppu.PPU.VBlankCheck: is the corrected `PpuState.VBlank`, not the dead check as written.
- Ppu.PPU.RenderBlock: fetches attributes in the corrected quadrant order.
- Ppu.PPU.FetchAndScrollStep: fetches attributes in the corrected quadrant order.
- Ppu.PPU.FetchStep: fetches attributes in the corrected quadrant order.
- Ppu.PPU.FetchTileStep: latches the corrected `PpuState.AttribBits`. For attribute byte $0C at coarse X 2, coarse Y 0 that is 3; as written (ppu/ppu.go:167-172) it is 0.
- Ppu.PPU.LoadAttribute: the attribute bits in the corrected quadrant order, not as written.
- Ppu.PPU.SelectQuadrant: computes the corrected `PpuState.AttribBits`, not the selection of ppu/ppu.go:167-172.
- The UxROM and CNROM classes are modelled, but `NewMapper` builds only NROM and MMC1 (its switch has no other case). The MMC3 class is likewise not reachable from `NewMapper`.

## Findings

| source | as written | input that shows it | evidently intended | confidence | as-written member | corrected member |
|---|---|---|---|---|---|---|
| cartridge/mmc1.go:86 | the reset test is `data&0x80 == 1`, which is never true because the masked value is 0 or $80 | any write of $80-$FF to $8000-$FFFF, e.g. $80 to $8000: it shifts bit 0 in instead of resetting the shift register | a write with bit 7 set clears the shift register and the write count (and sets PRG mode 3) | not executed | Mmc1.ResetTestAsWrittenNeverHolds | Mmc1.SerialWrite |
| ppu/ppu.go:226-231 | the vertical-blank start at scanline 241 sits inside the `scanline < 240` block opened at line 125, so it is dead: status bit 7 and the NMI are never set | any clock at scanline 241, cycle 1 | scanline 241, cycle 1 sets status bit 7, and sets the NMI when control bit 7 is set | not executed | PpuState.VBlankAsWrittenIsDead | PpuState.VBlank |
| ppu/ppu.go:277 | the second $2005 write masks the temporary address with $FBE0, which also clears coarse X and the horizontal nametable bit set by the first write | $2005 writes $08 then $00: coarse X 1 is lost | the second write keeps coarse X and nametable X and replaces only coarse Y and fine Y (the fine-Y mask $8FFF) | not executed | Loopy.ScrollSecondAsWrittenLosesFields | Loopy.ScrollSecond |
| cartridge/cartridge.go:62 | `Mirror = (b6 & 1) \| ((b6 >> 3) & 2)` reads bit 4 of flags 6 (a mapper-number bit), never bit 3 (four-screen) | flags 6 = $08 (four-screen) gives 0, horizontal; flags 6 = $10 (mapper 1) gives 2 | the mirror code is 4 (four-screen) when bit 3 is set, and bit 0 otherwise | not executed | Ines.MirrorAsWrittenMisreadsFlags | Ines.Mirror |
| ppu/ppu.go:167-172 | the attribute quadrant is chosen with coarse X bit 1 selecting the high nibble and coarse Y bit 1 the 2-bit shift | attribute byte $0C at coarse X 2, coarse Y 0 (top right) gives 0 as written; the top-right quadrant holds 3 | coarse Y bit 1 selects the high nibble and coarse X bit 1 the 2-bit shift (top left bits 0-1, top right 2-3, bottom left 4-5, bottom right 6-7) | not executed | PpuState.AttribBitsAsWrittenSwapsQuadrants | PpuState.AttribBits |
