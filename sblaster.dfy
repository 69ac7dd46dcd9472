// SBLASTER.C: the demo driver that reads the BLASTER variable, hooks the
// card's interrupt, programs the 16-bit DMA channel and starts a 44.1 kHz
// auto-initialised transfer.

module Sblaster {
  import opened Defs
  import opened BlasterEnv
  import IrqFuncs

  const EXIT_FAILURE: int := 1
  const SAMPLE_RATE: int := 44100
  /** `32 * 1024 - 1`, the block size `test_sound` programs. */
  const BLOCK_SIZE_M1: int := 32 * 1024 - 1

  /** What the driver does at the hardware boundary, in order. Port numbers
      are the 16-bit values `outportb`/`inportb` receive. */
  datatype IoEvent =
    | Out(port: nat, data: byte)
    | In(port: nat)
    | Cli                  // disable()
    | Sti                  // enable() or `sti`
    | DspReset(port: nat)  // init_dsp's reset handshake on base_io + 6

  /** Conversion of a port expression to `unsigned short`. */
  function Port(x: int): (p: nat)
    ensures p < 0x10000
  {
    x % 0x10000
  }

  // ---------------------------------------------------------------------
  // Interrupt vector and PIC mask
  // ---------------------------------------------------------------------

  /** `int_vec` in `init_sb_intr` and `release_sb_intr`. */
  function IntVector(irq: int): (v: int)
    ensures 0 <= irq < 8 ==> 8 <= v < 16
    ensures 8 <= irq < 16 ==> 0x70 <= v < 0x78
  {
    if irq >= 8 then 0x70 + irq - 8 else 0x08 + irq
  }

  /** The vector number DPMI receives (it takes the low byte, in BL). */
  function Vec8(v: int): (r: nat)
    ensures r < 256
  {
    v % 256
  }

  /** SBLASTER.C and IRQFUNCS.C map the sixteen lines to the same vectors. */
  lemma VectorMapsAgree(irq: int)
    requires 0 <= irq < 16
    ensures IntVector(irq) == IrqFuncs.IrqVector(irq)
    ensures Vec8(IntVector(irq)) == IntVector(irq)
  {
  }

  function PicPort(irq: int): nat
  {
    if irq >= 8 then 0xA1 else 0x21
  }

  function MaskBit(irq: int): int
  {
    if irq >= 8 then irq - 8 else irq
  }

  /** `1 << b`; shift counts outside 0..30 are undefined in C and are taken
      to give no bit. */
  function ShiftOne(b: int): nat
  {
    if 0 <= b < 31 then Pow2(b) else 0
  }

  /** C's `~x` on an `int`, as a 32-bit pattern. */
  function Not32(x: nat): nat
  {
    Bits32(-(x as int) - 1)
  }

  /** `INP(pic_port) & ~(1 << mask_bit)`. */
  function UnmaskedPic(prev: byte, irq: int): nat
  {
    BitAnd(prev, Not32(ShiftOne(MaskBit(irq))))
  }

  /** The new mask clears exactly the line's bit and keeps the other seven,
      so `OUT` writes it unchanged. */
  lemma PicUnmaskClearsOneBit(prev: byte, irq: int)
    requires 0 <= irq < 16
    ensures 0 <= MaskBit(irq) < 8
    ensures UnmaskedPic(prev, irq) < 256 && ToUint8(UnmaskedPic(prev, irq)) == UnmaskedPic(prev, irq)
    ensures Bit(UnmaskedPic(prev, irq), MaskBit(irq)) == 0
    ensures forall i: nat :: i != MaskBit(irq) ==> Bit(UnmaskedPic(prev, irq), i) == Bit(prev, i)
  {
    var mask := NotOfPow2(MaskBit(irq));
    assert UnmaskedPic(prev, irq) == BitAnd(prev, mask);
    ClearOneBitOfByte(prev, MaskBit(irq), mask);
  }

  /** Masking a byte with every bit but `b` clears bit `b` and keeps the
      others, and the result is still a byte. */
  lemma ClearOneBitOfByte(prev: byte, b: nat, mask: nat)
    requires b < 8 && mask == Pow2(32) - 1 - Pow2(b)
    ensures BitAnd(prev, mask) < 256 && ToUint8(BitAnd(prev, mask)) == BitAnd(prev, mask)
    ensures Bit(BitAnd(prev, mask), b) == 0
    ensures forall i: nat :: i != b ==> Bit(BitAnd(prev, mask), i) == Bit(prev, i)
  {
    assert Pow2(8) == 256 && Pow2(b) < Pow2(32) by {
      Pow2Values();
      Pow2Below(b, 32);
    }
    BitAndAtMost(prev, mask);
    SmallByte(BitAnd(prev, mask));
    forall i: nat
      ensures Bit(BitAnd(prev, mask), i) == (if i == b then 0 else Bit(prev, i))
    {
      ClearedBit(prev, b, i, 8, 32, mask);
    }
  }

  /** `~(1 << b)` for a bit of the low byte: every bit of the word but `b`. */
  lemma NotOfPow2(b: nat) returns (mask: nat)
    requires b < 8
    ensures mask == Not32(ShiftOne(b)) && mask == Pow2(32) - 1 - Pow2(b)
  {
    Pow2Values();
    Pow2Below(b, 32);
    Pow2Below(b, 8);
    var p := Pow2(b);
    mask := Pow2(32) - 1 - p;
    DivModUnique(-(p as int) - 1, 0x1_0000_0000, -1, mask);
  }

  /** Bit `i` of `prev & ~(1 << b)`, for a `w`-bit word and a value of the
      low `v` bits. */
  lemma ClearedBit(prev: nat, b: nat, i: nat, v: nat, w: nat, mask: nat)
    requires prev < Pow2(v) && b < v <= w && Pow2(b) < Pow2(w)
    requires mask == Pow2(w) - 1 - Pow2(b)
    ensures Bit(BitAnd(prev, mask), i) == (if i == b then 0 else Bit(prev, i))
  {
    BitAndBit(prev, mask, i);
    BitOfAllButOne(w, b, i);
    if i >= v {
      BitAboveWidth(prev, v, i);
    }
  }

  // ---------------------------------------------------------------------
  // The 64 KiB-aligned DMA buffer
  // ---------------------------------------------------------------------

  /** `realmem_buffer_start` for the buffer's linear address. */
  function AlignUp(lin: nat): nat
    requires lin < 0x1_0000_0000
  {
    if BitAnd(lin, 0xFFFF) == 0 then lin else BitAnd(lin, 0xFFFF0000) + 0x10000
  }

  /** The start is 64 KiB aligned, at or after the allocation, and less than
      64 KiB after it (so one 64 KiB window fits the 128 KiB block); an
      aligned address is kept. */
  lemma AlignUpBounds(lin: nat)
    requires lin < 0x1_0000_0000
    ensures AlignUp(lin) % 0x10000 == 0
    ensures lin <= AlignUp(lin) <= lin + 0xFFFF
    ensures lin % 0x10000 == 0 ==> AlignUp(lin) == lin
  {
    LowHalfMask(lin);
    HighHalfMask(lin);
    if lin % 0x10000 != 0 {
      DivModUnique(lin - lin % 0x10000 + 0x10000, 0x10000, lin / 0x10000 + 1, 0);
    }
  }

  /** No aligned address between the allocation and the chosen start. */
  lemma AlignUpSmallest(lin: nat, a: int)
    requires lin < 0x1_0000_0000
    requires a % 0x10000 == 0 && a >= lin
    ensures a >= AlignUp(lin)
  {
    LowHalfMask(lin);
    HighHalfMask(lin);
    if lin % 0x10000 != 0 {
      DivModUnique(a, 0x10000, a / 0x10000, 0);
      DivModUnique(lin, 0x10000, lin / 0x10000, lin % 0x10000);
      assert a / 0x10000 > lin / 0x10000;
    }
  }

  // ---------------------------------------------------------------------
  // The DMA controller programming of init_sb_dma
  // ---------------------------------------------------------------------

  const StartPorts: seq<nat> := [0x00, 0x02, 0x04, 0x06, 0xC0, 0xC4, 0xC8, 0xCC]
  const CountPorts: seq<nat> := [0x01, 0x03, 0x05, 0x07, 0xC2, 0xC6, 0xCA, 0xCE]
  const MaskPorts: seq<nat> := [0x0A, 0x0A, 0x0A, 0x0A, 0xD4, 0xD4, 0xD4, 0xD4]
  const FlipFlopPorts: seq<nat> := [0x0C, 0x0C, 0x0C, 0x0C, 0xD8, 0xD8, 0xD8, 0xD8]
  const PagePorts: seq<nat> := [0x87, 0x83, 0x81, 0x82, 0x8F, 0x8B, 0x89, 0x8A]
  const ModePorts: seq<nat> := [0x0B, 0x0B, 0x0B, 0x0B, 0xD6, 0xD6, 0xD6, 0xD6]

  /** `(realmem_buffer_start & 0xFF0000) >> 16`. */
  function PageByte(start: int): nat
  {
    Shr(BitAnd(Bits32(start), 0xFF0000), 16)
  }

  /** The nine writes of `init_sb_dma` for channel `d` and buffer `start`. */
  function DmaWrites(d: int, start: int): (r: seq<IoEvent>)
    requires 0 <= d < 8
    ensures |r| == 9
  {
    var mask := BitAnd(d, 3);
    [ Out(MaskPorts[d], ToUint8(BitOr(mask, 0x04))),
      Out(FlipFlopPorts[d], 0xFF),
      Out(StartPorts[d], ToUint8(LowByte(start))),
      Out(StartPorts[d], ToUint8(HiByte(start))),
      Out(CountPorts[d], 0xFF),
      Out(CountPorts[d], 0xFF),
      Out(PagePorts[d], ToUint8(PageByte(start))),
      Out(ModePorts[d], ToUint8(BitOr(0x58, BitAnd(d, 3)))),
      Out(MaskPorts[d], ToUint8(mask)) ]
  }

  lemma LowTwoBits(d: nat)
    ensures BitAnd(d, 3) == d % 4
  {
    Pow2Values();
    BitAndLowMask(d, 2);
  }

  /** Setting bit 2, or bits 3, 4 and 6, above a two-bit channel number adds. */
  lemma OrAboveChannel(c: nat)
    requires c < 4
    ensures BitOr(c, 4) == c + 4 && BitOr(0x58, c) == 0x58 + c
  {
    BelowTwoBitsClear(c, 4);
    BelowTwoBitsClear(c, 0x58);
    BitAndCommutes(0x58, c);
    BitOrDisjoint(c, 4);
    BitOrDisjoint(0x58, c);
  }

  /** A two-bit value shares no bit with a multiple of 4. */
  lemma BelowTwoBitsClear(c: nat, n: nat)
    requires c < 4 && n % 4 == 0
    ensures BitAnd(c, n) == 0
  {
    if c != 0 && n != 0 {
      var h := n / 2;
      assert n % 2 == 0 && h % 2 == 0;
      assert BitAnd(c, n) == 2 * BitAnd(c / 2, h);
      assert c / 2 < 2;
      if c / 2 != 0 && h != 0 {
        assert BitAnd(c / 2, h) == 2 * BitAnd(c / 4, h / 2);
        assert c / 4 == 0;
      }
    }
  }

  lemma BitAndCommutes(a: nat, b: nat)
    ensures BitAnd(a, b) == BitAnd(b, a)
  {
    forall i: nat
      ensures Bit(BitAnd(a, b), i) == Bit(BitAnd(b, a), i)
    {
      BitAndBit(a, b, i);
      BitAndBit(b, a, i);
    }
    BitsAgreeEverywhere(BitAnd(a, b), BitAnd(b, a));
  }

  lemma BitsAgreeEverywhere(a: nat, b: nat)
    requires forall i: nat :: Bit(a, i) == Bit(b, i)
    ensures a == b
  {
    var w := a + b;
    PowAbove(a + b);
    BitsDetermine(a, b, w);
  }

  lemma {:induction false} PowAbove(n: nat)
    ensures n < Pow2(n)
  {
    if n > 0 {
      PowAbove(n - 1);
    }
  }

  /** The channel is masked first (`(dma16 & 3) | 4`) and unmasked last
      (`dma16 & 3`); the mode is single-cycle auto-initialised playback of the
      channel; the two address bytes and the page rebuild the buffer's
      address below 16 MiB. */
  lemma DmaProgramming(d: int, start: int)
    requires 0 <= d < 8 && start >= 0
    ensures DmaWrites(d, start)[0] == Out(MaskPorts[d], d % 4 + 4)
    ensures DmaWrites(d, start)[8] == Out(MaskPorts[d], d % 4)
    ensures DmaWrites(d, start)[7] == Out(ModePorts[d], 0x58 + d % 4)
    ensures DmaWrites(d, start)[2].port == StartPorts[d] && DmaWrites(d, start)[3].port == StartPorts[d]
    ensures DmaWrites(d, start)[6].port == PagePorts[d]
    ensures DmaWrites(d, start)[6].data * 0x10000 + DmaWrites(d, start)[3].data * 0x100
            + DmaWrites(d, start)[2].data == start % 0x100_0000
  {
    ChannelBytes(d);
    AddressBytesSent(start);
  }

  /** The mask and mode bytes for channel `d`. */
  lemma ChannelBytes(d: nat)
    ensures ToUint8(BitOr(BitAnd(d, 3), 0x04)) == d % 4 + 4
    ensures ToUint8(BitOr(0x58, BitAnd(d, 3))) == 0x58 + d % 4
    ensures ToUint8(BitAnd(d, 3)) == d % 4
  {
    LowTwoBits(d);
    OrAboveChannel(d % 4);
    SmallByte(d % 4);
    SmallByte(d % 4 + 4);
    SmallByte(0x58 + d % 4);
  }

  /** The three address bytes as sent rebuild the low 24 bits of the start. */
  lemma AddressBytesSent(start: int)
    requires start >= 0
    ensures ToUint8(PageByte(start)) * 0x10000 + ToUint8(HiByte(start)) * 0x100
            + ToUint8(LowByte(start)) == start % 0x100_0000
  {
    var lo := ToUint8(LowByte(start));
    var hi := ToUint8(HiByte(start));
    var pg := ToUint8(PageByte(start));
    assert lo == start % 256 && hi == (start / 256) % 256 by {
      SentBytes(start);
    }
    assert pg == (start / 0x10000) % 256 by {
      var p := PageByte(start);
      PageIsBits16To23(start);
      DivModUnique(p, 256, 0, p);
    }
    AddressBytes(start);
  }

  lemma PageIsBits16To23(start: int)
    requires start >= 0
    ensures PageByte(start) == (start / 0x10000) % 256
  {
    Pow2Values();
    var u := Bits32(start);
    MaskedByte(u, 16);
    assert 255 * Pow2(16) == 0xFF0000;
    HighBitsIgnored(start, start / 0x1_0000_0000, u);
  }

  /** Bits 16..23 do not depend on bits 32 and above. */
  lemma HighBitsIgnored(x: int, q: int, u: int)
    requires 0 <= u < 0x1_0000_0000 && x == 0x1_0000_0000 * q + u
    ensures (x / 0x10000) % 256 == (u / 0x10000) % 256
  {
    DivModUnique(x, 0x10000, 0x1_0000 * q + u / 0x10000, u % 0x10000);
    DivModUnique(x / 0x10000, 256, 0x100 * q + (u / 0x10000) / 256, (u / 0x10000) % 256);
  }

  lemma AddressBytes(a: int)
    requires a >= 0
    ensures ((a / 0x10000) % 256) * 0x10000 + ((a / 256) % 256) * 0x100 + a % 256 == a % 0x100_0000
  {
    var lo := a % 256;
    var hi := (a / 256) % 256;
    var pg := (a / 0x10000) % 256;
    DivModUnique(a / 256, 256, (a / 256) / 256, hi);
    DivModUnique(a, 0x10000, (a / 256) / 256, hi * 256 + lo);
    DivModUnique(a, 0x100_0000, (a / 0x10000) / 256, pg * 0x10000 + hi * 256 + lo);
  }

  // ---------------------------------------------------------------------
  // test_sound's DSP bytes
  // ---------------------------------------------------------------------

  /** The rate 44100 is sent as 0xAC then 0x44. */
  lemma RateBytes()
    ensures HiByte(SAMPLE_RATE) == 0xAC && LowByte(SAMPLE_RATE) == 0x44
  {
    ByteSplitOfBytes(0xAC, 0x44);
  }

  /** The block size 32767 is sent as 0xFF then 0x7F. */
  lemma SizeBytes()
    ensures HiByte(BLOCK_SIZE_M1) == 0x7F && LowByte(BLOCK_SIZE_M1) == 0xFF
  {
    ByteSplitOfBytes(0x7F, 0xFF);
  }

  /** The seven bytes `test_sound` sends to the DSP for a sample rate and a
      block size less one: set output rate (high byte first), 16-bit
      auto-initialised output of mono signed data, block size (low byte
      first). */
  function TestSoundBytes(rate: int, sizeM1: int): (r: seq<byte>)
    ensures |r| == 7
  {
    [0x41, ToUint8(HiByte(rate)), ToUint8(LowByte(rate)), 0xB6, 0x10,
     ToUint8(LowByte(sizeM1)), ToUint8(HiByte(sizeM1))]
  }

  /** The pairs go out as bits 8..15 and bits 0..7 of their values, and
      rebuild them for any 16-bit rate and size. */
  lemma TestSoundByteValues(rate: int, sizeM1: int)
    requires 0 <= rate < 0x10000 && 0 <= sizeM1 < 0x10000
    ensures TestSoundBytes(rate, sizeM1) ==
      [0x41, (rate / 256) % 256, rate % 256, 0xB6, 0x10, sizeM1 % 256, (sizeM1 / 256) % 256]
    ensures (TestSoundBytes(rate, sizeM1)[1] as int) * 256 + TestSoundBytes(rate, sizeM1)[2] == rate
    ensures (TestSoundBytes(rate, sizeM1)[6] as int) * 256 + TestSoundBytes(rate, sizeM1)[5] == sizeM1
  {
    SentBytes(rate);
    SentBytes(sizeM1);
    Rebuild16(rate);
    Rebuild16(sizeM1);
  }

  lemma Rebuild16(x: int)
    requires 0 <= x < 0x10000
    ensures ((x / 256) % 256) * 256 + x % 256 == x
  {
    DivModUnique(x, 256, x / 256, x % 256);
    DivModUnique(x / 256, 256, 0, x / 256);
  }

  /** The seven bytes `test_sound` sends. */
  lemma TestSoundCommand()
    ensures TestSoundBytes(SAMPLE_RATE, BLOCK_SIZE_M1) == [0x41, 0xAC, 0x44, 0xB6, 0x10, 0xFF, 0x7F]
  {
    RateBytes();
    SizeBytes();
  }

  /** Seven `dsp_write`s of `bytes`, in order, to the DSP's write port. */
  function SevenWrites(port: nat, bytes: seq<byte>): (r: seq<IoEvent>)
    requires |bytes| == 7
    ensures |r| == 7 && forall i :: 0 <= i < 7 ==> r[i] == Out(port, bytes[i])
  {
    [Out(port, bytes[0]), Out(port, bytes[1]), Out(port, bytes[2]), Out(port, bytes[3]),
     Out(port, bytes[4]), Out(port, bytes[5]), Out(port, bytes[6])]
  }

  // ---------------------------------------------------------------------
  // The driver's globals
  // ---------------------------------------------------------------------

  /** `init_blaster` needs all four of these; `mixer_io` and `mpu_io` are
      optional. */
  predicate Configured(s: Settings)
  {
    s.baseIo != -1 && s.irq != -1 && s.dma8 != -1 && s.dma16 != -1
  }

  /** How a call ends: returning a result, or `exit(status)`. */
  datatype Outcome = Returned(result: int) | Exited(status: int)

  class SoundBlaster {
    /** `base_io`, `irq`, `dma8`, `dma16`, `mixer_io`, `mpu_io`. */
    var settings: Settings
    var interruptCounter: int
    var realmemSelector: int
    var realmemSegment: int
    var realmemBufferStart: int
    var realmemOffset: int
    var oldInterrupt: IrqFuncs.FarAddr
    var myInterrupt: IrqFuncs.FarAddr
    /** The protected-mode interrupt vector table. */
    var vectors: map<int, IrqFuncs.FarAddr>
    /** The CPU's interrupt flag. */
    var intsEnabled: bool
    const cs: int            // _go32_my_cs()
    const sbIntrEntry: int   // (long int)&sb_intr
    ghost var trace: seq<IoEvent>
    /** Selectors handed to `__dpmi_free_dos_memory`. */
    ghost var dosFreed: seq<int>

    predicate Valid()
      reads this
    {
      forall v :: 0 <= v < 256 ==> v in vectors
    }

    /** The program's start: every setting -1, the other globals 0. */
    constructor (cs: int, sbIntrEntry: int, vectors: map<int, IrqFuncs.FarAddr>, intsEnabled: bool)
      requires forall v :: 0 <= v < 256 ==> v in vectors
      ensures Valid() && settings == Settings(-1, -1, -1, -1, -1, -1) && interruptCounter == 0
      ensures this.vectors == vectors && this.intsEnabled == intsEnabled
      ensures this.cs == cs && this.sbIntrEntry == sbIntrEntry
      ensures realmemSelector == 0 && realmemSegment == 0
      ensures realmemBufferStart == 0 && realmemOffset == 0
      ensures trace == [] && dosFreed == []
    {
      this.cs := cs;
      this.sbIntrEntry := sbIntrEntry;
      this.vectors := vectors;
      this.intsEnabled := intsEnabled;
      settings := Settings(-1, -1, -1, -1, -1, -1);
      interruptCounter := 0;
      realmemSelector := 0;
      realmemSegment := 0;
      realmemBufferStart := 0;
      realmemOffset := 0;
      oldInterrupt := IrqFuncs.FarAddr(0, 0);
      myInterrupt := IrqFuncs.FarAddr(0, 0);
      trace := [];
      dosFreed := [];
    }

    /** `sb_intr`, run with `status` as the byte the mixer's interrupt-status
        register returns. Bit 1 clear: not the card's 16-bit interrupt, so no
        count, acknowledge or end-of-interrupt. */
    method SbIntr(status: byte)
      requires Valid()
      modifies this`interruptCounter, this`intsEnabled, this`trace
      ensures Valid() && settings == old(settings) && vectors == old(vectors)
      ensures Bit(status, 1) == 0 ==>
        interruptCounter == old(interruptCounter) && intsEnabled == old(intsEnabled) &&
        trace == old(trace) + [Out(Port(settings.baseIo + 4), 0x82), In(Port(settings.baseIo + 5))]
      ensures Bit(status, 1) == 1 ==>
        interruptCounter == old(interruptCounter) + 1 && intsEnabled &&
        trace == old(trace) + [Out(Port(settings.baseIo + 4), 0x82), In(Port(settings.baseIo + 5)),
                               In(Port(settings.baseIo + 0xF)),
                               Out(if settings.irq >= 8 then 0xA0 else 0x20, 0x20), Sti]
    {
      var mixerIo := settings.baseIo + 4;
      trace := trace + [Out(Port(mixerIo), 0x82)];
      trace := trace + [In(Port(mixerIo + 1))];
      StatusBitOne(status);
      if BitAnd(status, 2) == 0 {
        return;  // not our interrupt
      }
      interruptCounter := interruptCounter + 1;
      trace := trace + [In(Port(settings.baseIo + 0xF))];
      if settings.irq >= 8 {
        trace := trace + [Out(0xA0, 0x20)];
      } else {
        trace := trace + [Out(0x20, 0x20)];
      }
      intsEnabled := true;
      trace := trace + [Sti];
    }

    /** `init_sb_intr`: allocate the 128 KiB real-mode block (`segment` is
        what DPMI returns, -1 on failure), place the 64 KiB-aligned buffer,
        hook the vector (the two DPMI calls' success given by `getOk` and
        `chainOk`, the wrapper address by `wrapper`) and unmask the line at
        the PIC (whose mask register reads `picOld`). Each failure exits. */
    method InitSbIntr(segment: int, selector: int, getOk: bool, chainOk: bool,
                      wrapper: IrqFuncs.FarAddr, picOld: byte)
      returns (exit: Option<int>)
      requires Valid() && (segment == -1 || 0 <= segment < 0x10000)
      modifies this`realmemSegment, this`realmemSelector, this`realmemBufferStart, this`realmemOffset
      modifies this`oldInterrupt, this`myInterrupt, this`vectors, this`trace
      ensures Valid() && settings == old(settings) && interruptCounter == old(interruptCounter)
      ensures realmemSegment == segment && dosFreed == old(dosFreed)
      ensures exit.Some? ==> exit.value == EXIT_FAILURE && vectors == old(vectors) && trace == old(trace)
      ensures exit.None? <==> segment != -1 && getOk && chainOk
      ensures segment != -1 ==>
        realmemSelector == selector &&
        realmemBufferStart == AlignUp(segment * 16) &&
        realmemOffset == realmemBufferStart - segment * 16
      ensures segment != -1 && getOk ==>
        oldInterrupt == old(vectors)[Vec8(IntVector(settings.irq))] &&
        myInterrupt == IrqFuncs.FarAddr(cs, sbIntrEntry)
      ensures exit.None? ==>
        vectors == old(vectors)[Vec8(IntVector(settings.irq)) := wrapper] &&
        trace == old(trace) + [In(PicPort(settings.irq)),
                               Out(PicPort(settings.irq), ToUint8(UnmaskedPic(picOld, settings.irq)))]
    {
      realmemSegment := segment;
      if realmemSegment == -1 {
        return Some(EXIT_FAILURE);
      }
      realmemSelector := selector;
      var linearAddress := realmemSegment * 16;
      realmemBufferStart := AlignUp(linearAddress);
      realmemOffset := realmemBufferStart - linearAddress;
      var intVec := Vec8(IntVector(settings.irq));
      if !getOk {
        return Some(EXIT_FAILURE);
      }
      oldInterrupt := vectors[intVec];
      myInterrupt := IrqFuncs.FarAddr(cs, sbIntrEntry);
      if !chainOk {
        return Some(EXIT_FAILURE);
      }
      vectors := vectors[intVec := wrapper];
      var picPort := PicPort(settings.irq);
      trace := trace + [In(picPort)];
      var mask := UnmaskedPic(picOld, settings.irq);
      trace := trace + [Out(picPort, ToUint8(mask))];
      return None;
    }

    /** `release_sb_intr`: put the saved vector back and free the block. */
    method ReleaseSbIntr()
      requires Valid()
      modifies this`vectors, this`dosFreed
      ensures Valid() && settings == old(settings) && trace == old(trace)
      ensures interruptCounter == old(interruptCounter) && intsEnabled == old(intsEnabled)
      ensures realmemSelector == old(realmemSelector) && realmemSegment == old(realmemSegment)
      ensures realmemBufferStart == old(realmemBufferStart) && realmemOffset == old(realmemOffset)
      ensures oldInterrupt == old(oldInterrupt) && myInterrupt == old(myInterrupt)
      ensures vectors == old(vectors)[Vec8(IntVector(settings.irq)) := oldInterrupt]
      ensures dosFreed == old(dosFreed) + [realmemSelector]
    {
      var intVec := Vec8(IntVector(settings.irq));
      vectors := vectors[intVec := oldInterrupt];
      dosFreed := dosFreed + [realmemSelector];
    }

    /** A successful hook followed by its release leaves the vector table as
        it was. */
    method HookThenRelease(segment: int, selector: int, wrapper: IrqFuncs.FarAddr, picOld: byte)
      returns (exit: Option<int>)
      requires Valid() && 0 <= segment < 0x10000
      modifies this`realmemSegment, this`realmemSelector, this`realmemBufferStart, this`realmemOffset
      modifies this`oldInterrupt, this`myInterrupt, this`vectors, this`trace, this`dosFreed
      ensures exit.None? && vectors == old(vectors)
      ensures dosFreed == old(dosFreed) + [selector]
    {
      exit := InitSbIntr(segment, selector, true, true, wrapper, picOld);
      ReleaseSbIntr();
      var v := Vec8(IntVector(settings.irq));
      assert v in old(vectors);
      assert vectors == old(vectors)[v := old(vectors)[v]];
    }

    /** `init_sb_dma`: program the 16-bit channel with interrupts off, and turn
        them back on only if they were on. */
    method InitSbDma()
      requires Valid() && 0 <= settings.dma16 < 8
      modifies this`intsEnabled, this`trace
      ensures Valid() && settings == old(settings) && vectors == old(vectors)
      ensures intsEnabled == old(intsEnabled)
      ensures trace == old(trace) + [Cli] + DmaWrites(settings.dma16, realmemBufferStart)
                       + (if old(intsEnabled) then [Sti] else [])
    {
      var intsWereEnabled := intsEnabled;
      intsEnabled := false;
      trace := trace + [Cli];
      trace := trace + DmaWrites(settings.dma16, realmemBufferStart);
      if intsWereEnabled {
        intsEnabled := true;
        trace := trace + [Sti];
      }
    }

    /** `dsp_write(port_offset, data)` once the DSP reports it is ready: the
        byte goes to `port_offset + base_io`, truncated to 16 bits. */
    method DspWrite(portOffset: int, data: byte)
      modifies this`trace
      ensures trace == old(trace) + [Out(Port(portOffset + settings.baseIo), data)]
    {
      var port := Port(portOffset + settings.baseIo);
      trace := trace + [Out(port, data)];
    }

    /** `test_sound` without its waveform: program the DMA channel, then send
        the DSP its rate and transfer commands. */
    method TestSound()
      requires Valid() && 0 <= settings.dma16 < 8
      modifies this`intsEnabled, this`trace
      ensures Valid() && settings == old(settings) && intsEnabled == old(intsEnabled)
      ensures trace == old(trace) + [Cli] + DmaWrites(settings.dma16, realmemBufferStart)
                       + (if old(intsEnabled) then [Sti] else [])
                       + SevenWrites(Port(0x0C + settings.baseIo), TestSoundBytes(SAMPLE_RATE, BLOCK_SIZE_M1))
    {
      InitSbDma();
      StartTransfer(SAMPLE_RATE, BLOCK_SIZE_M1);
    }

    /** The seven `dsp_write`s of `test_sound`, for its rate and block size. */
    method StartTransfer(rate: int, sizeM1: int)
      modifies this`trace
      ensures trace == old(trace) + SevenWrites(Port(0x0C + settings.baseIo), TestSoundBytes(rate, sizeM1))
    {
      DspWrite(0x0C, 0x41);
      DspWrite(0x0C, ToUint8(HiByte(rate)));
      DspWrite(0x0C, ToUint8(LowByte(rate)));
      DspWrite(0x0C, 0xB6);
      DspWrite(0x0C, 0x10);
      DspWrite(0x0C, ToUint8(LowByte(sizeM1)));
      DspWrite(0x0C, ToUint8(HiByte(sizeM1)));
    }

    /** `read_env_string`: `env` is the BLASTER variable (absent: `None`),
        `copyOk` whether `malloc` for its copy succeeded. */
    method ReadEnvString(env: Option<string>, copyOk: bool) returns (r: int)
      modifies this`settings
      ensures (r, settings) == ParseEnv(env, copyOk, old(settings), Dialect.ReadEnvString)
      ensures trace == old(trace) && vectors == old(vectors) && intsEnabled == old(intsEnabled)
      ensures realmemBufferStart == old(realmemBufferStart)
    {
      if env.None? {
        return RESULT_ERR;
      }
      if !copyOk {
        return RESULT_ERR;
      }
      settings := ScanTokens(env.value, Dialect.ReadEnvString, settings);
      return RESULT_OK;
    }

    /** `init_blaster`: parse, validate, reset the DSP (its result given by
        `dspResult`), hook the interrupt. */
    method InitBlaster(env: Option<string>, copyOk: bool, dspResult: int,
                       segment: int, selector: int, getOk: bool, chainOk: bool,
                       wrapper: IrqFuncs.FarAddr, picOld: byte)
      returns (out: Outcome)
      requires Valid() && (segment == -1 || 0 <= segment < 0x10000)
      requires dspResult == RESULT_OK || dspResult == RESULT_ERR
      modifies this`settings, this`realmemSegment, this`realmemSelector, this`realmemBufferStart
      modifies this`realmemOffset, this`oldInterrupt, this`myInterrupt, this`vectors, this`trace
      ensures Valid() && interruptCounter == old(interruptCounter) && intsEnabled == old(intsEnabled)
      ensures settings == ParseEnv(env, copyOk, old(settings), Dialect.ReadEnvString).1
      ensures env.None? || !copyOk ==> out == Returned(RESULT_ERR) && trace == old(trace)
      ensures !Configured(settings) ==> out == Returned(RESULT_ERR) && trace == old(trace)
      ensures env.Some? && copyOk && Configured(settings) && dspResult == RESULT_ERR ==>
        out == Returned(RESULT_ERR) && vectors == old(vectors) &&
        trace == old(trace) + [DspReset(Port(settings.baseIo + 0x6))]
      ensures env.Some? && copyOk && Configured(settings) && dspResult == RESULT_OK ==>
        (out == Returned(RESULT_OK) <==> segment != -1 && getOk && chainOk)
      ensures out == Returned(RESULT_OK) ==>
        Configured(settings) && dspResult == RESULT_OK &&
        vectors == old(vectors)[Vec8(IntVector(settings.irq)) := wrapper] &&
        trace == old(trace) + [DspReset(Port(settings.baseIo + 0x6)), In(PicPort(settings.irq)),
                               Out(PicPort(settings.irq), ToUint8(UnmaskedPic(picOld, settings.irq)))]
      ensures out.Exited? <==>
        env.Some? && copyOk && Configured(settings) && dspResult == RESULT_OK &&
        !(segment != -1 && getOk && chainOk)
      ensures out.Exited? ==>
        out.status == EXIT_FAILURE && vectors == old(vectors) &&
        trace == old(trace) + [DspReset(Port(settings.baseIo + 0x6))]
    {
      var r := ReadEnvString(env, copyOk);
      var (result, flow) := CheckResult(r);
      if flow == GotoOnError {
        return Returned(result);
      }
      if settings.baseIo == -1 || settings.irq == -1 || settings.dma8 == -1 || settings.dma16 == -1 {
        return Returned(RESULT_ERR);
      }
      out := ResetAndHook(dspResult, segment, selector, getOk, chainOk, wrapper, picOld);
    }

    /** The rest of `init_blaster` once the four settings are present: reset
        the DSP, then hook the interrupt. */
    method ResetAndHook(dspResult: int, segment: int, selector: int, getOk: bool, chainOk: bool,
                        wrapper: IrqFuncs.FarAddr, picOld: byte)
      returns (out: Outcome)
      requires Valid() && Configured(settings) && (segment == -1 || 0 <= segment < 0x10000)
      requires dspResult == RESULT_OK || dspResult == RESULT_ERR
      modifies this`realmemSegment, this`realmemSelector, this`realmemBufferStart, this`realmemOffset
      modifies this`oldInterrupt, this`myInterrupt, this`vectors, this`trace
      ensures Valid()
      ensures dspResult == RESULT_ERR ==>
        out == Returned(RESULT_ERR) && vectors == old(vectors) &&
        trace == old(trace) + [DspReset(Port(settings.baseIo + 0x6))]
      ensures dspResult == RESULT_OK ==> (out == Returned(RESULT_OK) <==> segment != -1 && getOk && chainOk)
      ensures out == Returned(RESULT_OK) ==>
        dspResult == RESULT_OK &&
        vectors == old(vectors)[Vec8(IntVector(settings.irq)) := wrapper] &&
        trace == old(trace) + [DspReset(Port(settings.baseIo + 0x6)), In(PicPort(settings.irq)),
                               Out(PicPort(settings.irq), ToUint8(UnmaskedPic(picOld, settings.irq)))]
      ensures out.Exited? <==> dspResult == RESULT_OK && !(segment != -1 && getOk && chainOk)
      ensures out.Exited? ==>
        out.status == EXIT_FAILURE && vectors == old(vectors) &&
        trace == old(trace) + [DspReset(Port(settings.baseIo + 0x6))]
    {
      trace := trace + [DspReset(Port(settings.baseIo + 0x6))];
      var (result, flow) := CheckResult(dspResult);
      if flow == GotoOnError {
        return Returned(result);
      }
      var exit := InitSbIntr(segment, selector, getOk, chainOk, wrapper, picOld);
      if exit.Some? {
        return Exited(exit.value);
      }
      return Returned(RESULT_OK);
    }
  }

  /** `(test_intr & 2) == 0` tests bit 1 of the status byte. */
  lemma StatusBitOne(status: nat)
    ensures BitAnd(status, 2) == 2 * Bit(status, 1)
    ensures Bit(status, 1) == 0 || Bit(status, 1) == 1
  {
    if status != 0 {
      assert BitAnd(status, 2) == 2 * BitAnd(status / 2, 1);
      if status / 2 != 0 {
        assert BitAnd(status / 2, 1) == 2 * BitAnd(status / 4, 0) + (status / 2) % 2;
      }
    }
  }

  /** Only the four DMA/IRQ settings are required: the mixer and MPU ports
      play no part in the check. */
  lemma MixerAndMpuOptional(s: Settings, mixer: int, mpu: int)
    ensures Configured(s) == Configured(s.(mixerIo := mixer, mpuIo := mpu))
    ensures Configured(s) <==> s.baseIo != -1 && s.irq != -1 && s.dma8 != -1 && s.dma16 != -1
  {
  }
}
