# Sound Blaster driver for DOS: a Dafny model

This project models the logic inside a DOS Sound Blaster driver, under its port
writes and DPMI calls. It has four parts:

- **sb.c, the streaming engine.** Two DMA buffers in conventional memory play
  in turn. At the end of each block the interrupt routine `sb_intr_play` starts
  the other buffer, then refills the one just played. The refill uses the
  block the producer staged through `StreamBuf`/`StreamReady` if there is one,
  and silence otherwise. The model also covers the sample-rate time constants,
  the 64 KiB-aligned buffer placement, and the `size == -1` sentinels that make
  handler cleanup safe to repeat. It covers card set-up and teardown, and the
  BLASTER parser `sb_getparams`. The driver's state is the class
  `Sb.SbDriver`. Its buffers are arrays.
- **IRQFUNCS.C, the per-line interrupt handler table.** It has sixteen handler
  slots, the sixteen vectors they displaced, eight interrupt stacks and the lazy
  initialisation flag `bInitIRQ`. This is the class `IrqFuncs.IrqTable`.
- **SBLASTER.C, the 16-bit demo driver.** It covers the "not our interrupt"
  filter and counter in `sb_intr`, the IRQ-to-vector mapping, the PIC unmask
  and the 64 KiB round-up of the DOS buffer. It covers the channel-indexed
  DMA port tables and bytes in `init_sb_dma`, the byte splits of `test_sound`,
  and the BLASTER parser `read_env_string` with its validation in
  `init_blaster`. The class is `Sblaster.SoundBlaster`.
- **defs.h, the shared helpers.** It covers `LOWBYTE`/`HIBYTE`, the `RESULT`
  codes, `ISERR` and `CHECKRESULT`.

What the driver does at the hardware boundary is kept as a ghost trace of
events, in order. The events are port writes and reads, `disable()`/`enable()`,
the DSP reset, block copies into conventional memory, and frees of DPMI
resources. Ordering and byte-split properties are stated on that trace.

Values the hardware, DPMI or the C library hand back are parameters of the
operations. These are port reads, allocation results, lock outcomes and
`malloc` results. Where the code calls `exit`, the model returns a
`Completion` or `Outcome` that records the exit status. C's `&`, `|` and `>>`
are modelled bit by bit on non-negative integers (module `Defs`). Channel
masks, the page byte and the PIC mask are computed the way the C code writes
them, and their arithmetic meaning is proved. `LowByte`, `HiByte`,
`CountBytes` and `AddressBytes` are computed with `%` and `/`; for each, a
lemma proves it equal to the C mask-and-shift expression.

The BLASTER parsers of SBLASTER.C and sb.c are one specification function,
`BlasterEnv.ParseEnv`, with a `Dialect` parameter. The sb.c dialect has no mixer
or MPU setting. The `strtok` loop itself is the method `BlasterEnv.ScanTokens`,
which is proved against that function.

Files: `defs.dfy` (module `Defs`), `blaster_env.dfy` (`BlasterEnv`),
`irqfuncs.dfy` (`IrqFuncs`), `sblaster.dfy` (`Sblaster`), `sb.dfy` (`Sb`).

## Model

| member | source | states |
|---|---|---|
| Defs.CheckResult | defs.h:30-34 | `result` receives the expression's value, and control goes to the error label exactly when that value is negative |
| Defs.ResultCodes | defs.h:26-29 | `ISERR(RESULT_OK)` is false and `ISERR(RESULT_ERR)` is true. `CHECKRESULT` falls through on `RESULT_OK` and jumps on `RESULT_ERR` |
| Defs.LowByteIsMask | defs.h:10 | LOWBYTE equals C's `(x) & 0xFF` on the 32-bit pattern of `x` |
| Defs.HiByteIsMask | defs.h:11 | HIBYTE equals C's `((x) & 0xFF00) >> 8` on the 32-bit pattern of `x` |
| Defs.LowByteIsMod256 | defs.h:10 | LOWBYTE is in 0..255 and is `x mod 256`, negative `x` included |
| Defs.HiByteIsBits8To15 | defs.h:11 | HIBYTE is in 0..255 and is `(x / 256) mod 256`, so only bits 8..15 of `x` affect it |
| Defs.ByteSplitRoundTrip | defs.h:10-11 | for `0 <= x < 65536`, `HIBYTE(x) * 256 + LOWBYTE(x) == x` |
| Defs.ByteSplitOfBytes | defs.h:10-11 | the converse: splitting `h * 256 + l`, for two bytes `h` and `l`, gives back `h` and `l` |
| Defs.SentBytes | defs.h:10-11 | what `outportb` receives for HIBYTE and LOWBYTE of any value is bits 8..15 and bits 0..7 of that value |
| BlasterEnv.FieldSelection | SBLASTER.C:284-309 | a token's first letter selects a setting regardless of case. Exactly A, I, D, H, M and P select one; for sb.c only A, I, D and H do |
| BlasterEnv.NextToken | SBLASTER.C:316 | a `strtok` step returns nothing exactly when only delimiters remain. A token it returns is non-empty, contains no space, and the rest is shorter than the input |
| BlasterEnv.Tokens | SBLASTER.C:281-316 | every token `strtok` yields is non-empty and free of spaces |
| BlasterEnv.TokensSkipDelimiter | SBLASTER.C:281-316 | a leading delimiter changes nothing, so runs of spaces never produce empty tokens |
| BlasterEnv.TokensOfJoinAll | SBLASTER.C:281-316 | `strtok` splits space-free tokens joined by single spaces back into the same list |
| BlasterEnv.ParseEnv | SBLASTER.C:269-324 | the result is `RESULT_OK` exactly when the variable exists and the copy's `malloc` succeeds. On `RESULT_ERR` no setting changes |
| BlasterEnv.ScanTokens | SBLASTER.C:281-317 | the `strtok` loop leaves the settings equal to applying every token, in order, to the initial settings |
| BlasterEnv.UnselectedSettingKept | SBLASTER.C:282-315 | a setting that no token selects keeps its value |
| BlasterEnv.LastTokenWins | SBLASTER.C:282-315 | the last token for a setting decides its value and overwrites any earlier token for it. For `A`, this requires that its hex digits matched |
| BlasterEnv.MissingVariable | SBLASTER.C:275 | a missing variable gives `RESULT_ERR` and assigns nothing |
| BlasterEnv.ScanNumberOfDigits | SBLASTER.C:311-314 | `atoi` (base 10) and `sscanf("%x")` (base 16) read a number's digits back as that number |
| BlasterEnv.ApplyFormattedToken | SBLASTER.C:310-315 | a token made of a selecting letter and the digits of `n` stores `n` in the selected setting and changes no other setting |
| BlasterEnv.IgnoredFormattedToken | sb.c:249-256 | a token whose letter selects nothing, such as M or P in sb.c, leaves every setting unchanged |
| BlasterEnv.ParseFormatRoundTrip | SBLASTER.C:269-324 | parsing the string "A… I… D… H… M… P…" built from some settings gives back all six of them. The sb.c parser gives back the four it knows and keeps its own mixer and MPU values |
| IrqFuncs.IrqVector | IRQFUNCS.C:102-105 | lines 0..7 map to vectors 8..15 and lines 8..15 to 0x70..0x77. The line can be recovered from its vector |
| IrqFuncs.IrqVectorInjective | IRQFUNCS.C:120-123 | two lines share a vector exactly when they are the same line, so install and uninstall of one line never touch another line's vector |
| IrqFuncs.Granted | IRQFUNCS.C:61-68 | the number of `LOCK_*` calls that succeed before the first failure: all earlier ones succeeded and the next one failed |
| IrqFuncs.GrantedAll | IRQFUNCS.C:61-68 | every lock is granted exactly when all four succeed |
| IrqFuncs.AllStacksLocked | IRQFUNCS.C:70-78 | when every stack's `LockData` succeeds, the lock record lists all eight stacks in allocation order |
| IrqFuncs.NoStackLocked | IRQFUNCS.C:70-78 | when every stack's `LockData` fails, no stack is listed |
| IrqFuncs.StackLocksAreStacks | IRQFUNCS.C:70-78 | the stack locks name only stacks, and only bases `malloc` returned |
| IrqFuncs.StackRoundTrip | IRQFUNCS.C:76-88 | the pointers `ShutDownIRQ` frees, `stored - (STACK_SIZE - 16)`, are exactly the bases `malloc` returned to `InitIRQ` |
| IrqFuncs.IrqTable.constructor | IRQFUNCS.C:9-16 | at program start `bInitIRQ` is 0, every handler slot is NULL, and nothing is locked or freed |
| IrqFuncs.IrqTable.InitIRQ | IRQFUNCS.C:55-81 | returns 1 exactly when all four locks succeed. On failure the flag and stacks are unchanged and the locks already taken stay taken. On success each stack slot holds its base plus `STACK_SIZE - 16`, even for a NULL `malloc`. The stacks locked are exactly those whose unchecked `LockData` succeeded, in order (StackLocks), and `bInitIRQ` is 1 |
| IrqFuncs.IrqTable.AllocateStacks | IRQFUNCS.C:70-78 | the stack loop stores each base plus `STACK_SIZE - 16` in its slot and adds a stack's lock only when its `LockData` succeeds. It touches only the stack slots and the lock record |
| IrqFuncs.IrqTable.ShutDownIRQ | IRQFUNCS.C:83-92 | frees the eight stack bases in order and clears `bInitIRQ`. Nothing is unlocked and no vector changes |
| IrqFuncs.IrqTable.InstallIRQ | IRQFUNCS.C:94-114 | returns 0 exactly when the table was uninitialised and a lock failed; then the handlers, saved vectors, stack slots and vector table are untouched and `bInitIRQ` stays 0. On 1 it saves the line's old vector, records the handler, points the vector at the line's wrapper, and changes no other slot. It initialises only on first use. A first use that succeeds adds the four table locks and the granted stack locks, and a failure adds the locks taken before it; an already initialised table takes no lock |
| IrqFuncs.IrqTable.UninstallIRQ | IRQFUNCS.C:116-135 | restores the saved vector and clears only this slot. It shuts down (frees the stacks, `bInitIRQ` 0) exactly when every slot is now NULL, and otherwise keeps the flag and frees nothing |
| IrqFuncs.IrqTable.TwoLinesShareShutdown | IRQFUNCS.C:131-134 | after installing lines a and b, uninstalling a leaves `bInitIRQ` at 1. Uninstalling b then sets it to 0 and frees the stacks |
| IrqFuncs.IrqTable.InstallThenUninstall | IRQFUNCS.C:107-126 | a successful install followed by an uninstall of the same line leaves the vector table as it was and that slot empty |
| Sblaster.IntVector | SBLASTER.C:62-64 | lines 0..7 use vectors 8..15 and lines 8..15 use 0x70..0x77 |
| Sblaster.VectorMapsAgree | SBLASTER.C:95-97 | the mapping in `init_sb_intr`/`release_sb_intr` equals IRQFUNCS.C's for all sixteen lines and fits the byte DPMI receives |
| Sblaster.PicUnmaskClearsOneBit | SBLASTER.C:87-90 | the mask bit is `irq mod 8`. The new mask `old & ~(1 << bit)` clears exactly that bit, keeps the other seven, and is written unchanged as a byte |
| Sblaster.AlignUpBounds | SBLASTER.C:52-56 | `realmem_buffer_start` is 64 KiB aligned and lies within 0..0xFFFF above the linear address. An address that is already aligned is kept |
| Sblaster.AlignUpSmallest | SBLASTER.C:52-56 | no aligned address lies between the linear address and the chosen start |
| Sblaster.DmaProgramming | SBLASTER.C:142-166 | the channel's mask port gets `(dma16 & 3) \| 4` first and `dma16 & 3` last. The mode port gets `0x58 \| (dma16 & 3)`, both address bytes go to the channel's start port and the page to its page port. The page, high and low bytes together give the start's low 24 bits |
| Sblaster.ChannelBytes | SBLASTER.C:142-164 | the mask, unmask and mode bytes are `d mod 4 + 4`, `d mod 4` and `0x58 + d mod 4` |
| Sblaster.AddressBytesSent | SBLASTER.C:150-161 | page, HIBYTE and LOWBYTE of the start, as sent, give back its low 24 bits |
| Sblaster.PageIsBits16To23 | SBLASTER.C:161 | `(start & 0xFF0000) >> 16` is bits 16..23 of the start |
| Sblaster.RateBytes | SBLASTER.C:229-233 | 44100 is sent as HIBYTE 0xAC, then LOWBYTE 0x44 |
| Sblaster.SizeBytes | SBLASTER.C:238-241 | 32767 is sent as LOWBYTE 0xFF, then HIBYTE 0x7F |
| Sblaster.TestSoundByteValues | SBLASTER.C:231-241 | the seven bytes are 0x41, the rate's high and low byte, 0xB6, 0x10, and the size's low and high byte. For any 16-bit rate and size, each pair rebuilds its value |
| Sblaster.TestSoundCommand | SBLASTER.C:231-241 | `test_sound` sends 0x41 0xAC 0x44 0xB6 0x10 0xFF 0x7F |
| Sblaster.StatusBitOne | SBLASTER.C:29-31 | `test_intr & 2` is twice bit 1 of the status byte |
| Sblaster.MixerAndMpuOptional | SBLASTER.C:329-332 | the configuration check needs exactly `base_io`, `irq`, `dma8` and `dma16` to differ from -1. The mixer and MPU ports play no part |
| Sblaster.SoundBlaster.constructor | SBLASTER.C:14-23 | at program start every setting is -1 and the counter and `realmem_*` globals are 0 |
| Sblaster.SoundBlaster.SbIntr | SBLASTER.C:26-42 | only the counter, the interrupt flag and the I/O trace may change. The mixer's status register is always selected and read. If bit 1 is clear, nothing more happens: the counter and the interrupt flag are unchanged. If it is set, the counter rises by exactly 1, `base_io + 0xF` is read, EOI 0x20 goes to 0xA0 for `irq >= 8` and to 0x20 otherwise, and interrupts are enabled |
| Sblaster.SoundBlaster.InitSbIntr | SBLASTER.C:44-91 | exits with `EXIT_FAILURE` exactly when the DOS allocation or one of the two vector calls fails, and then leaves the vector table alone. After an allocation the buffer start is the 64 KiB round-up and the offset is its distance from the linear address. On success the old vector is saved, the line's vector points at the wrapper, and the PIC mask is read and then written with the line unmasked |
| Sblaster.SoundBlaster.ReleaseSbIntr | SBLASTER.C:93-101 | puts the saved vector back into the line's slot and frees the DOS block's selector. Nothing else changes |
| Sblaster.SoundBlaster.HookThenRelease | SBLASTER.C:93-101 | a successful `init_sb_intr` followed by `release_sb_intr` leaves the vector table as it was and frees the block once |
| Sblaster.SoundBlaster.InitSbDma | SBLASTER.C:126-171 | only the interrupt flag and the I/O trace change, so the buffer it programs is the one `init_sb_intr` placed. With interrupts disabled, it performs the nine channel writes of DmaWrites. Interrupts are re-enabled only if they were on at entry |
| Sblaster.SoundBlaster.DspWrite | SBLASTER.C:173-179 | one write of the byte to `port_offset + base_io`, truncated to 16 bits |
| Sblaster.SoundBlaster.TestSound | SBLASTER.C:222-242 | changes only the interrupt flag and the I/O trace. It programs the DMA channel, then makes the seven DSP writes of the rate and transfer commands, in that order |
| Sblaster.SoundBlaster.StartTransfer | SBLASTER.C:231-241 | the seven `dsp_write`s send TestSoundBytes for the given rate and size to port `0x0C + base_io` |
| Sblaster.SoundBlaster.ReadEnvString | SBLASTER.C:269-324 | the result and the new settings are ParseEnv's, in the SBLASTER.C dialect. Only the settings change |
| Sblaster.SoundBlaster.InitBlaster | SBLASTER.C:326-338 | returns `RESULT_ERR` without touching the DSP if parsing fails or a required setting is still -1. After a good parse with the four settings present, a failed DSP reset returns `RESULT_ERR` with only the reset in the trace. A successful reset returns `RESULT_OK` exactly when the allocation and both vector calls succeed, with the vector hooked and the reset and PIC writes in the trace. The method exits, with `EXIT_FAILURE` and the vector table untouched, exactly when one of those fails. The counter and interrupt flag never change |
| Sblaster.SoundBlaster.ResetAndHook | SBLASTER.C:333-335 | with the settings present, a failed DSP reset returns `RESULT_ERR` with only the reset in the trace. A good reset returns `RESULT_OK` exactly when the hook succeeds, and exits with `EXIT_FAILURE` exactly when it fails. The settings, counter and interrupt flag cannot change |
| Sb.SbVectorAgreesOnMasterLines | sb.c:328 | sb.c's vector `8 + sb_irq` equals the 0x70-remapping vector exactly for lines 0..7 |
| Sb.SbUnmaskClearsLine | sb.c:148-150 | for lines 0..7 the new PIC mask clears exactly the line's bit. For lines 8..31 `~(1 << sb_irq)` truncated to a byte is 0xFF, so the mask is written back unchanged. Outside 0..31 the shift is undefined in C, and the model takes it to give no bit |
| Sb.NormalTcPeriod | sb.c:201 | the normal-mode constant is `(256 - 1000000 / rate) mod 256`. From 3892 Hz to 1 MHz no wrap happens, and `256 - tc` is the sample period in microseconds, rounded down. From 3892 to 3906 Hz the constant is 0, and below 3892 Hz the subtraction goes negative |
| Sb.HighSpeedTcPeriod | sb.c:199 | above 37000 Hz, up to 256 MHz, the constant is the high byte of `65536 - 256000000 / rate`, and that subtraction does not wrap |
| Sb.TimeConstantExamples | sb.c:194-201 | 22050 Hz gives 211, 37000 Hz (still normal mode) gives 229, 37001 Hz (high speed) gives 228, and 44100 Hz gives 233 |
| Sb.BufferPlacement | sb.c:388-391 | `sb_buf[0]` is 64 KiB aligned, at or after `rm_segment * 16` and less than 64 KiB past it. Both 64 KiB windows fit in the three-window allocation. The start equals SBLASTER.C's round-up |
| Sb.BufferStartSmallest | sb.c:388-390 | no 64 KiB boundary lies between the allocation and `sb_buf[0]`: it is the smallest aligned address at or after `rm_segment * 16` |
| Sb.CountBytes | sb.c:163-164 | the two count bytes, low then high, rebuild the low 16 bits of `sb_buflen[n] - 1` |
| Sb.CountBytesAreMasks | sb.c:163-164 | those bytes are C's `(len - 1) & 0xFF` and `(len - 1) >> 8` as `outportb` receives them |
| Sb.ChunkCountBytes | sb.c:178-179 | a full chunk of 2048 bytes is announced as 0xFF, then 0x07 |
| Sb.AddressBytesAreMasks | sb.c:157-161 | the page byte is `addr >> 16` and the offset bytes are `(addr & 0xFFFF) & 0xFF` and `(addr & 0xFFFF) >> 8`, as `outportb` receives them |
| Sb.AddressBytes | sb.c:157-161 | page, low and high offset byte rebuild the buffer's low 24 bits. For a 64 KiB-aligned buffer both offset bytes are 0 |
| Sb.SbGetParamsKeepsMixerAndMpu | sb.c:249-256 | whatever tokens the variable holds, `sb_getparams` never changes the mixer or MPU setting |
| Sb.CleanupFrees | sb.c:338-340 | over two rounds of cleanup, each wrapper is freed once if a size was recorded and never otherwise |
| Sb.CleanupTraceFrees | sb.c:368-370 | one cleanup round frees its own wrapper once if the sentinel allowed it, and frees nothing else |
| Sb.SbDriver.constructor | sb.c:63-111 | at program start, as for zero-initialised statics, the parameters, `sb_bufnum`, both lengths and addresses and the three `size` fields are 0. Nothing is playing, no block is staged, high-speed mode is off, and the vector tables are the given ones |
| Sb.SbDriver.WriteDac | sb.c:49-54 | one write of the value to the DSP's write-data port |
| Sb.SbDriver.Voice | sb.c:207-209 | writes the speaker-on command for a true state and speaker-off otherwise |
| Sb.SbDriver.SetSampleRate | sb.c:191-205 | high-speed mode is on exactly when `rate > 37000`. The DSP gets the time-constant command, then the mode's constant |
| Sb.SbDriver.DosMemPut | sb.c:131 | the DMA buffer receives the source block's contents, and the copy is recorded at that buffer's address |
| Sb.SbDriver.FillBuffer | sb.c:128-137 | if a block is staged, buffer n receives it and the slot is freed. Otherwise buffer n receives the silence block. Either way `sb_buflen[n]` is 2048 and the other length is unchanged |
| Sb.SbDriver.PlayBuffer | sb.c:139-186 | an empty buffer only clears `sb_dma_active`, with no port write and `sb_bufnum` unchanged. Otherwise `sb_bufnum = n`, the writes are PlayTrace's (PIC, DMA controller, DSP, with the count bytes of CountBytes), and `sb_dma_active` is 1 |
| Sb.SbDriver.ArmDma | sb.c:146-170 | the PIC and DMA-controller programming runs with interrupts disabled. Interrupts come back on only if they were on |
| Sb.SbDriver.ProgramDma | sb.c:148-166 | reads the PIC mask and writes it with the line unmasked, then programs mask, flip-flop and mode. It records `sb_bufnum = n`, then writes the page, the address bytes, the count bytes and the unmask |
| Sb.SbDriver.StartDsp | sb.c:172-183 | the block command for the mode, the two count bytes, and the high-speed start command in high-speed mode only |
| Sb.SbDriver.IntrPlay | sb.c:113-125 | with n the buffer just played: acknowledge the card, play buffer 1-n, then refill buffer n, then EOI 0x20 to port 0x20, then enable interrupts. `sb_bufnum` becomes 1-n when that buffer has data, otherwise it stays n and `sb_dma_active` is 0 |
| Sb.SbDriver.StreamBuf | sb.c:487-493 | returns null with `*len` untouched while a block is staged. Otherwise it returns the staging buffer with `*len = 2048`. No state changes |
| Sb.SbDriver.StreamReady | sb.c:495 | sets the staged flag and nothing else |
| Sb.SbDriver.InstallRmInterrupt | sb.c:317-331 | a failed callback allocation exits with status 1 and leaves the vectors unchanged. Otherwise the size is recorded, and with interrupts off the old real-mode vector `8 + sb_irq` is saved and replaced by the callback |
| Sb.SbDriver.CleanupRmInterrupt | sb.c:334-342 | restores the saved real-mode vector. It frees the callback only if a size is recorded, then records -1 |
| Sb.SbDriver.InstallPmInterrupt | sb.c:346-362 | interrupts go off first, and a failed wrapper allocation exits with status 1 with interrupts still off. Otherwise the size is recorded, the old vector saved, and the wrapper installed in this code segment |
| Sb.SbDriver.CleanupPmInterrupt | sb.c:365-374 | frees the wrapper only if a size is recorded, records -1, then restores the saved protected-mode vector |
| Sb.SbDriver.InstallInterrupts | sb.c:305-308 | real mode first. A real-mode failure exits before the protected-mode handler is touched. Success installs both |
| Sb.SbDriver.CleanupInts | sb.c:417-421 | the real-mode cleanup, then the protected-mode cleanup |
| Sb.SbDriver.CleanupIntsTwice | sb.c:334-374 | calling the cleanup twice frees each wrapper exactly once if its size was recorded, and never otherwise |
| Sb.SbDriver.InitBuffers | sb.c:378-394 | on allocation failure the size becomes -1, the result is 0 and the segment and buffer addresses are unchanged. Otherwise the result is 1, the segment is the one allocated, and the two addresses are the aligned start and the start plus 64 KiB |
| Sb.SbDriver.GetParams | sb.c:217-272 | the result and new settings are ParseEnv's in the sb.c dialect |
| Sb.SbDriver.SbInit | sb.c:399-414 | presets all three sizes to -1, parses, and resets the card. With a zero address it returns 0 and allocates nothing. A failed allocation returns 0 with the size -1. In both cases the segment and buffer addresses are unchanged. Otherwise it returns the address, with the allocated segment recorded and the buffers placed |
| Sb.SbDriver.SbCleanup | sb.c:426-434 | with size -1 it returns 1 and frees nothing. Otherwise it frees the memory and returns 1 if that failed, 0 if it succeeded |
| Sb.SbDriver.StreamStart | sb.c:469-485 | all 2048 silence bytes are 128. It sends speaker on and the rate, then installs both handlers (any failure exits with status 1). Buffer 0 takes any staged block, buffer 1 holds silence, both lengths are 2048, and buffer 0 is started: `sb_bufnum` is 0, `sb_dma_active` is 1, and interrupts are enabled |
| Sb.SbDriver.StartHardware | sb.c:474-479 | speaker on, the sample rate, then both handlers, with the mode set by the rate |
| Sb.SbDriver.FillSilence | sb.c:470-472 | every byte of the silence block is 128 |
| Sb.SbDriver.FillAndPlay | sb.c:481-484 | fills buffer 0, then buffer 1, then starts buffer 0. Buffer 1 always ends up with silence |
| Sb.SbDriver.StreamStop | sb.c:497-506 | halts the transfer with a DSP reset in high-speed mode and a halt command otherwise, then removes both handlers, then turns the speaker off |
| Sb.SbDriver.HandoffThenInterrupt | sb.c:487-495 | a block the producer writes through `StreamBuf` and commits with `StreamReady` is what the next interrupt copies into the buffer just played. The slot is free again afterwards |
| Sb.SbDriver.StartThenStop | sb.c:469-506 | a successful start followed by a stop leaves both vector tables as they were and both sizes at -1 |

## Left out

- Busy-waiting on the DSP's status port is not modelled. This covers `sb_writedac`'s wait (sb.c:49-54) and `dsp_write`/`dsp_read` (SBLASTER.C:173-187). A write is one event, recorded as if the DSP were ready.
- The DSP reset handshakes `sb_reset` (sb.c:274-295) and `init_dsp` (SBLASTER.C:247-267) each become a single `DspReset` event. They depend on timing, with empty delay loops and a poll for 0xAA. `init_blaster` takes `init_dsp`'s result as a parameter.
- `sb_read_dac`, `sb_dsp_version`, `sb_read_counter` and `kbclear` (sb.c:297-303, 436-448, 462-467) are not modelled. They only read hardware registers or BIOS memory, with no logic to state.
- `sb_initcard` (sb.c:211-215) is folded into `SbInit` as its reset event.
- `sb_writemixer` (sb.c:56-60) is never used.
- `write_test_data` (SBLASTER.C:191-211) computes a floating-point sine wave. The MAIN.C producer loop is not part of this model. `TestSound` models `test_sound` without the waveform.
- `release_sb_dma` is empty. `release_blaster` is only `init_dsp`. `get_interrupt_counter` returns the counter field.
- DPMI and go32 calls become parameters or events. These cover memory locking (`LockData`/`LockCode`, IRQFUNCS.C:21-53), callback and wrapper allocation, DOS memory allocation and free, and getting and setting vectors. An allocation that can fail is an `Allocation` or `Option` parameter. A lock outcome is a `bool`. This includes the eight stack `LockData` calls whose result `InitIRQ` ignores: their outcomes decide only which stacks the ghost lock record lists. `malloc` is an address, 0 for NULL. The assembly `IRQWrap`/`IRQWrappers` is not part of this model; only its addresses are used.
- `sb_init`'s `memset` of `rm_regs` (sb.c:400) is not modelled. The register block plays no other part in the model.
- The constants of sb.h are not part of this model: the DSP, mixer and DMA ports and the DSP command bytes. They appear as symbolic `Reg` and `Command` values and are never given numbers. The port tables and bytes of SBLASTER.C are modelled with their numbers.
- Interrupt preemption is not modelled. The interrupt routines `IntrPlay` and `SbIntr` are ordinary methods, called between producer steps. `volatile` and the interleavings that `disable()`/`enable()` guard against are therefore not captured.
- Whether the DMA programming is correct for the hardware is not modelled. For example, sb.c writes the fixed mask 5, mode 0x49 and page register `SB_DMAPAGE + 3` whatever the channel, and channels 5..7 address 16-bit words. Only the bytes the code computes are modelled.
- Sb.SbDriver.StreamStart: requires the rate, read as an unsigned 32-bit value, to be non-zero. For a rate that is 0 modulo 2^32, sb.c:199 and sb.c:201 divide by zero, which C leaves undefined, so that case has no modelled behaviour.
- Sb.SbDriver.StartHardware: requires `0 < rate < 2^32` for the same reason. A zero rate would divide by zero.
- Sb.SbDriver.SetSampleRate: requires `0 < rate < 2^32` for the same reason.
- Sb.SbDriver.StartThenStop: requires a non-zero 32-bit rate, as StreamStart does.
- Sb.SbUnmaskClearsLine: for a line below 0 or from 32 up, the unchanged mask follows from the model's choice for an undefined shift, not from C. An x86 processor reduces the shift count modulo 32, so there `sb_irq = 35` would clear bit 3.
- Sblaster.ShiftOne: takes `1 << b` as 0 for a count outside 0..30, where C leaves the shift undefined (for 31 it overflows a signed `int`).
- BLASTER settings are unbounded integers. A value beyond C's `int` range is kept exact, although C's `atoi` and `%x` are undefined there (SBLASTER.C:311-314, sb.c:259-262).
- `printf` output is not modelled. Nor are the headers sblaster.h and irqfuncs.h, which hold declarations and lock macros only.

Where the code and the documented intent of the system differ, the model
follows the code:

- `ShutDownIRQ` frees the stacks but unlocks nothing: neither the locked tables nor the stacks.
- `InitIRQ` ignores a NULL from `malloc`. It calls `LockData` on it and stores `NULL + STACK_SIZE - 16` as that stack's pointer. It also ignores each stack's `LockData` result.
- sb.c uses vector `8 + sb_irq` for every line and never unmasks the slave PIC. For IRQ 8..15 it hooks the wrong vector and writes the master mask back unchanged.
- `sb_cleanup` does not reset `dosmem.size`, so calling it a second time frees the memory again.
- Below 3892 Hz the normal-mode time constant `256 - 1000000 / rate` wraps modulo 256. From 3892 to 3906 Hz the quotient is 256 and the constant is 0 without wrapping. The no-wrap property of the high-speed constant is proved only up to 256 MHz.
