// sb.c: the streaming Sound Blaster driver. Two DMA buffers in conventional
// memory are played in turn; every end-of-block interrupt starts the other
// buffer and refills the one just played, with the block the producer staged
// if there is one and with silence otherwise.

module Sb {
  import opened Defs
  import opened BlasterEnv
  import Sblaster
  import IrqFuncs

  /** `DMA_CHUNK`: the size of each DMA buffer and of the staging block. */
  const DMA_CHUNK: nat := 2048
  /** The unsigned 8-bit sample of silence. */
  const SILENCE: byte := 128
  /** Rates above this one play in high-speed mode. */
  const HIGHSPEED_LIMIT: nat := 37000
  /** The conventional memory `sb_init_buffers` asks for, in 16-byte
      paragraphs: three 64 KiB windows. */
  const DOSMEM_PARAGRAPHS: int := 65536 * 3 / 16
  /** The `size == -1` sentinel of a `_go32_dpmi_seginfo`: nothing to free. */
  const UNALLOCATED: int := -1
  /** The 64 KiB window a DMA transfer must not cross. */
  const WINDOW: nat := 0x10000

  // ---------------------------------------------------------------------
  // What the driver does at the hardware boundary
  // ---------------------------------------------------------------------

  /** The registers the driver touches. sb.h gives the card's and the DMA
      controller's ports their numbers and is not part of this model, so those
      stay symbolic; the PIC ports are the literals the code writes. */
  datatype Reg =
    | PicMask                 // port 0x21
    | PicCommand              // port 0x20
    | DmaMaskReg              // SB_DMA_MASK
    | DmaFlipFlop             // SB_DMA_FF
    | DmaModeReg              // SB_DMA_MODE
    | DmaPageReg              // SB_DMAPAGE + 3
    | DmaAddress(chan: int)   // SB_DMA + 2 * chan
    | DmaCount(chan: int)     // SB_DMA + 2 * chan + 1
    | DspWriteData(base: int) // base + SB_DSP_WRITE_DATA
    | DspDataAvail(base: int) // base + SB_DSP_DATA_AVAIL

  /** The DSP command bytes of sb.h, by name. */
  datatype Command =
    | SetBlockSize | Dma8BitDac | HighDma8BitDac | TimeConstant
    | SpeakerOn | SpeakerOff | HaltDma

  datatype Value = Data(b: byte) | Cmd(c: Command)

  datatype Event =
    | Out(reg: Reg, v: Value)
    | In(reg: Reg)
    | Cli                   // disable()
    | Sti                   // enable()
    | DspReset(base: int)   // sb_reset's handshake with the DSP
    | DosMemPut(addr: nat)  // a block of DMA_CHUNK bytes copied to conventional memory
    | FreeCallback          // _go32_dpmi_free_real_mode_callback(&rm_si)
    | FreeWrapper           // _go32_dpmi_free_iret_wrapper(&pm_si)
    | FreeDosMemory         // _go32_dpmi_free_dos_memory(&dosmem)

  /** What a DPMI allocation of a callback or wrapper gives back: an error, or
      the entry point and the value it leaves in the `size` field. */
  datatype Allocation = Failed(code: int) | Allocated(entry: IrqFuncs.FarAddr, size: int)

  /** How a `void` routine ends: it returns, or it calls `exit(status)`. */
  datatype Completion = Done | Exited(status: int)

  /** How often `e` occurs in `t`. */
  function Occurrences(t: seq<Event>, e: Event): (k: nat)
    ensures k <= |t|
  {
    if t == [] then 0 else Occurrences(t[..|t| - 1], e) + (if t[|t| - 1] == e then 1 else 0)
  }

  lemma {:induction false} OccurrencesAppend(a: seq<Event>, b: seq<Event>, e: Event)
    ensures Occurrences(a + b, e) == Occurrences(a, e) + Occurrences(b, e)
    decreases |b|
  {
    if b != [] {
      var b' := b[..|b| - 1];
      assert (a + b)[..|a + b| - 1] == a + b';
      OccurrencesAppend(a, b', e);
    } else {
      assert a + b == a;
    }
  }

  // ---------------------------------------------------------------------
  // Interrupt vector and PIC mask
  // ---------------------------------------------------------------------

  /** `8 + sb_irq`, the vector every install and cleanup routine uses, as
      the DPMI host receives it (its low byte). */
  function SbVector(irq: int): (v: nat)
    ensures v < 256
  {
    Sblaster.Vec8(8 + irq)
  }

  /** sb.c never remaps the slave PIC's lines: it agrees with the 0x70-based
      mapping of SBLASTER.C exactly for the master PIC's lines 0..7. */
  lemma SbVectorAgreesOnMasterLines(irq: int)
    requires 0 <= irq < 16
    ensures SbVector(irq) == Sblaster.IntVector(irq) <==> irq < 8
  {
  }

  /** `im & tm` with `tm = ~(1 << sb_irq)` stored in an `unsigned char`. */
  function SbUnmasked(prev: byte, irq: int): nat
  {
    BitAnd(prev, ToUint8(Sblaster.Not32(Sblaster.ShiftOne(irq))))
  }

  /** On lines 0..7 the new mask clears exactly the line's bit. On any other
      line the bit falls outside the `unsigned char` and the mask is written
      back unchanged: the slave PIC is never unmasked. */
  lemma SbUnmaskClearsLine(prev: byte, irq: int)
    ensures SbUnmasked(prev, irq) < 256
    ensures 0 <= irq < 8 ==> Bit(SbUnmasked(prev, irq), irq) == 0
    ensures 0 <= irq < 8 ==> forall i: nat :: i != irq ==> Bit(SbUnmasked(prev, irq), i) == Bit(prev, i)
    ensures !(0 <= irq < 8) ==> SbUnmasked(prev, irq) == prev
  {
    if 0 <= irq < 8 {
      var b: nat := irq;
      var m8 := LineMask(b);
      var r := BitAnd(prev, m8);
      assert r < 256 by {
        BitAndAtMost(prev, m8);
      }
      forall i: nat
        ensures Bit(r, i) == (if i == b then 0 else Bit(prev, i))
      {
        Sblaster.ClearedBit(prev, b, i, 8, 8, m8);
      }
    } else {
      OtherLineMask(irq);
      assert BitAnd(prev, Pow2(8) - 1) == prev by {
        BitAndLowMask(prev, 8);
        DivModUnique(prev, Pow2(8), 0, prev);
      }
    }
  }

  /** `~(1 << b)` cut to 8 bits, for a line of the master PIC. */
  lemma LineMask(b: nat) returns (m8: nat)
    requires b < 8
    ensures m8 == ToUint8(Sblaster.Not32(Sblaster.ShiftOne(b)))
    ensures Pow2(b) < Pow2(8) && m8 == Pow2(8) - 1 - Pow2(b)
  {
    var mask := Sblaster.NotOfPow2(b);
    Pow2Below(b, 8);
    Pow2Values();
    m8 := Pow2(8) - 1 - Pow2(b);
    DivModUnique(mask, 256, 0xFF_FFFF, m8);
  }

  /** `~(1 << irq)` cut to 8 bits keeps every bit for a line outside 0..7. */
  lemma OtherLineMask(irq: int)
    requires !(0 <= irq < 8)
    ensures ToUint8(Sblaster.Not32(Sblaster.ShiftOne(irq))) == Pow2(8) - 1
  {
    Pow2Values();
    var p := Sblaster.ShiftOne(irq);
    var q: int := 0;
    if 8 <= irq < 31 {
      var k: nat := irq - 8;
      Pow2Add(8, k);
      Pow2Below(irq, 32);
      q := Pow2(k);
    }
    assert p == 256 * q && p < 0x1_0000_0000;
    var n := 0x1_0000_0000 - 1 - p;
    DivModUnique(-(p as int) - 1, 0x1_0000_0000, -1, n);
    DivModUnique(n, 256, 0xFF_FFFF - q, 255);
  }

  // ---------------------------------------------------------------------
  // Sample rate
  // ---------------------------------------------------------------------

  /** The normal-mode time constant: `256 - 1000000 / rate` in `unsigned int`,
      cast to `unsigned char`. */
  function NormalTc(rate: nat): byte
    requires rate > 0
  {
    ToUint8(Bits32(256 - 1000000 / rate))
  }

  /** The high-speed time constant: `(65536 - 256000000 / rate) >> 8` in
      `unsigned int`, cast to `unsigned char`. */
  function HighSpeedTc(rate: nat): byte
    requires rate > 0
  {
    ToUint8(Bits32(65536 - 256000000 / rate) / 256)
  }

  /** The byte `sb_set_sample_rate` sends after `SB_TIME_CONSTANT`. */
  function TimeConstantOf(rate: nat): byte
    requires rate > 0
  {
    if rate > HIGHSPEED_LIMIT then HighSpeedTc(rate) else NormalTc(rate)
  }

  /** The normal-mode constant is `256 - 1000000 / rate` reduced modulo 256.
      From 3892 Hz up it needs no reduction (from 3892 to 3906 Hz the quotient
      is 256 and the constant 0), and `256 - tc`, read as 256 for a constant
      of 0, is the requested sample period in microseconds rounded down.
      Below 3892 Hz the subtraction wraps. */
  lemma NormalTcPeriod(rate: nat)
    requires rate > 0
    ensures NormalTc(rate) == (256 - 1000000 / rate) % 256
    ensures 3892 <= rate <= 1000000 ==>
      256 - NormalTc(rate) == 1000000 / rate &&
      (256 - NormalTc(rate)) * rate <= 1000000 < (257 - NormalTc(rate)) * rate
    ensures 3892 <= rate <= 3906 ==> NormalTc(rate) == 0
    ensures rate < 3892 ==> 256 - 1000000 / rate < 0
  {
    var q := 1000000 / rate;
    Uint8OfBits32(256 - q);
    FloorBounds(1000000, rate);
    if 3892 <= rate <= 1000000 {
      if q >= 257 {
        MulLe(257, q, rate);
        assert false;
      }
      if q == 0 {
        assert false;
      }
      DivModUnique(256 - q, 256, 0, 256 - q);
    }
    if 3892 <= rate <= 3906 {
      if q <= 255 {
        MulLe(q + 1, 256, rate);
        assert false;
      }
    }
    if rate < 3892 {
      if q <= 256 {
        MulLe(q + 1, 257, rate);
        assert false;
      }
    }
  }

  /** Truncating the 32-bit pattern to a byte truncates the value. */
  lemma Uint8OfBits32(x: int)
    ensures ToUint8(Bits32(x)) == x % 256
  {
    var u := Bits32(x);
    var k := (x - u) / 0x1_0000_0000;
    DivModUnique(x - u, 0x1_0000_0000, k, 0);
    DivModUnique(x, 256, 0x100_0000 * k + u / 256, u % 256);
  }

  /** `n / d` is the floor of the quotient. */
  lemma FloorBounds(n: nat, d: nat)
    requires d > 0
    ensures (n / d) * d <= n < (n / d + 1) * d
  {
  }

  lemma MulLe(a: int, b: int, c: nat)
    requires a <= b
    ensures a * c <= b * c
  {
  }

  /** In high-speed mode the constant is the high byte of
      `65536 - 256000000 / rate`, and the subtraction never wraps. */
  lemma HighSpeedTcPeriod(rate: nat)
    requires HIGHSPEED_LIMIT < rate <= 256000000
    ensures HighSpeedTc(rate) * 256 <= 65536 - 256000000 / rate < HighSpeedTc(rate) * 256 + 256
  {
    var q := 256000000 / rate;
    assert 1 <= q <= 6918 by {
      MulAtLeast(rate, 6919);
    }
    var x := 65536 - q;
    DivModUnique(x, 0x1_0000_0000, 0, x);
    DivModUnique(x / 256, 256, 0, x / 256);
  }

  /** The constants for the rates the program uses, and the two sides of
      the mode threshold. */
  lemma TimeConstantExamples()
    ensures TimeConstantOf(22050) == 211
    ensures TimeConstantOf(37000) == 229 && TimeConstantOf(37001) == 228
    ensures TimeConstantOf(44100) == 233
  {
    assert 1000000 / 22050 == 45 by { DivModUnique(1000000, 22050, 45, 7750); }
    NormalTcPeriod(22050);
    assert 1000000 / 37000 == 27 by { DivModUnique(1000000, 37000, 27, 1000); }
    NormalTcPeriod(37000);
    assert 256000000 / 37001 == 6918 by { DivModUnique(256000000, 37001, 6918, 27082); }
    HighSpeedTcPeriod(37001);
    assert 256000000 / 44100 == 5804 by { DivModUnique(256000000, 44100, 5804, 43600); }
    HighSpeedTcPeriod(44100);
  }

  /** The two DSP writes of `sb_set_sample_rate`. */
  function RateWrites(base: int, rate: nat): seq<Event>
    requires rate > 0
  {
    [Out(DspWriteData(base), Cmd(TimeConstant)), Out(DspWriteData(base), Data(TimeConstantOf(rate)))]
  }

  // ---------------------------------------------------------------------
  // Buffer placement
  // ---------------------------------------------------------------------

  /** `sb_buf[0]`: `rm_segment * 16 + 0xFFFF` masked with `0xFFFF0000` in
      `unsigned long`. */
  function BufferStart(segment: nat): nat
    requires segment < 0x10000
  {
    BitAnd(segment * 16 + 0xFFFF, 0xFFFF0000)
  }

  /** Both addresses `sb_init_buffers` stores. */
  function BufferAddresses(segment: nat): seq<nat>
    requires segment < 0x10000
  {
    [BufferStart(segment), BufferStart(segment) + WINDOW]
  }

  /** The first buffer starts on a 64 KiB boundary less than 64 KiB past the
      allocation, the second one 64 KiB later, and both windows end inside
      the three-window allocation. It is the round-up SBLASTER.C computes. */
  lemma BufferPlacement(segment: nat)
    requires segment < 0x10000
    ensures BufferStart(segment) % WINDOW == 0
    ensures segment * 16 <= BufferStart(segment) < segment * 16 + WINDOW
    ensures BufferStart(segment) + 2 * WINDOW <= segment * 16 + DOSMEM_PARAGRAPHS * 16
    ensures BufferStart(segment) == Sblaster.AlignUp(segment * 16)
  {
    var lin := segment * 16;
    var x := lin + 0xFFFF;
    assert BufferStart(segment) == x - x % WINDOW by {
      HighHalfMask(x);
    }
    AlignedWindows(lin, BufferStart(segment));
  }

  /** The placement facts of BufferPlacement for the rounded-up address `a`
      of the linear address `lin`. */
  lemma AlignedWindows(lin: nat, a: int)
    requires lin < 0x10_0000
    requires a == (lin + 0xFFFF) - (lin + 0xFFFF) % WINDOW
    ensures a % WINDOW == 0 && lin <= a < lin + WINDOW
    ensures a + 2 * WINDOW <= lin + DOSMEM_PARAGRAPHS * 16
    ensures a == Sblaster.AlignUp(lin)
  {
    var x := lin + 0xFFFF;
    RoundDown(x, a, 0);
    var b := Sblaster.AlignUp(lin);
    assert b % WINDOW == 0 && lin <= b && a >= b by {
      Sblaster.AlignUpBounds(lin);
      Sblaster.AlignUpSmallest(lin, a);
    }
    RoundDown(x, a, b);
  }

  /** No 64 KiB boundary lies between the allocation and the first buffer. */
  lemma BufferStartSmallest(segment: nat, b: int)
    requires segment < 0x10000
    requires b % WINDOW == 0 && b >= segment * 16
    ensures b >= BufferStart(segment)
  {
    var x := segment * 16 + 0xFFFF;
    var a := BufferStart(segment);
    assert a == x - x % WINDOW by {
      HighHalfMask(x);
    }
    RoundDown(x, a, b);
  }

  /** `x` rounded down to a window boundary is the last boundary at or below
      it: any boundary above `x - WINDOW` is at or above it. */
  lemma RoundDown(x: nat, a: int, b: int)
    requires a == x - x % WINDOW
    ensures a % WINDOW == 0 && x - WINDOW < a <= x
    ensures b % WINDOW == 0 && b > x - WINDOW ==> b >= a
  {
    var m := x / WINDOW;
    DivModUnique(a, WINDOW, m, 0);
    if b % WINDOW == 0 && b > x - WINDOW && b < a {
      var k := b / WINDOW;
      DivModUnique(b, WINDOW, k, 0);
      MulLe(k, m - 1, WINDOW);
      assert false;
    }
  }

  // ---------------------------------------------------------------------
  // The bytes sb_play_buffer sends
  // ---------------------------------------------------------------------

  /** The transfer count `sb_buflen[n] - 1` (in `unsigned int`) as it is sent:
      `& 0xFF` first, then `>> 8` cut to `unsigned char`. The two bytes give
      back the count's low 16 bits. */
  function CountBytes(len: nat): (r: (byte, byte))
    requires len >= 1
    ensures r.1 * 256 + r.0 == (len - 1) % 0x10000
  {
    var c := len - 1;
    LowWord(c);
    (ToUint8(c % 256), ToUint8(c / 256))
  }

  lemma LowWord(c: nat)
    ensures ((c / 256) % 256) * 256 + c % 256 == c % 0x10000
  {
    var lo := c % 256;
    var hi := (c / 256) % 256;
    DivModUnique(c / 256, 256, (c / 256) / 256, hi);
    DivModUnique(c, 0x10000, (c / 256) / 256, hi * 256 + lo);
  }

  /** CountBytes is the C expression: masking with 0xFF and shifting by 8. */
  lemma CountBytesAreMasks(len: nat)
    requires len >= 1
    ensures CountBytes(len).0 == BitAnd(len - 1, 0xFF)
    ensures CountBytes(len).1 == ToUint8(Shr(len - 1, 8))
  {
    var c := len - 1;
    assert Pow2(8) == 256 by {
      Pow2Values();
    }
    LowMaskOf(c, 8, 256, 0xFF);
    ShrIsQuotient(c, 8, 256);
    SmallByte(c % 256);
  }

  /** A full chunk is announced as the count 2047: 0xFF, then 0x07. */
  lemma ChunkCountBytes()
    ensures CountBytes(DMA_CHUNK) == (0xFF, 0x07)
  {
  }

  /** The buffer address as it is sent: the page `addr >> 16`, then the low
      and high bytes of `addr & 0xFFFF`. Together they give back the address
      modulo 2^24, and an address on a 64 KiB boundary sends two zero
      offset bytes. */
  function AddressBytes(addr: nat): (r: (byte, byte, byte))
    ensures r.0 * 0x10000 + r.2 * 256 + r.1 == addr % 0x100_0000
    ensures addr % WINDOW == 0 ==> r.1 == 0 && r.2 == 0
  {
    var t := addr % 0x10000;
    OffsetBytes(addr);
    (ToUint8(addr / 0x10000), ToUint8(t % 256), ToUint8(t / 256))
  }

  /** AddressBytes is the C expression: the page is `addr >> 16`, the offset
      `addr & 0xFFFF` is sent as `& 0xFF` and then `>> 8`. */
  lemma AddressBytesAreMasks(addr: nat)
    ensures AddressBytes(addr).0 == ToUint8(Shr(addr, 16))
    ensures AddressBytes(addr).1 == BitAnd(BitAnd(addr, 0xFFFF), 0xFF)
    ensures AddressBytes(addr).2 == ToUint8(Shr(BitAnd(addr, 0xFFFF), 8))
  {
    Pow2Values();
    var t := addr % 0x10000;
    LowMaskOf(addr, 16, 0x10000, 0xFFFF);
    LowMaskOf(t, 8, 256, 0xFF);
    ShrIsQuotient(addr, 16, 0x10000);
    ShrIsQuotient(t, 8, 256);
    SmallByte(t % 256);
    SmallByte(t / 256);
  }

  lemma OffsetBytes(addr: nat)
    ensures (addr % 0x10000) % 256 == addr % 256
    ensures (addr % 0x10000) / 256 == (addr / 256) % 256
    ensures ((addr / 0x10000) % 256) * 0x10000 + ((addr / 256) % 256) * 256 + addr % 256 == addr % 0x100_0000
  {
    var t := addr % 0x10000;
    var q := addr / 0x10000;
    DivModUnique(addr, 256, q * 256 + t / 256, t % 256);
    DivModUnique(addr / 256, 256, q, t / 256);
    Sblaster.AddressBytes(addr);
  }

  /** The DMA-controller and PIC programming of `sb_play_buffer`, between
      `disable()` and the conditional `enable()`. */
  function DmaProgram(prevPic: byte, irq: int, chan: int, addr: nat, len: nat): seq<Event>
    requires len >= 1
  {
    var a := AddressBytes(addr);
    var c := CountBytes(len);
    [In(PicMask), Out(PicMask, Data(ToUint8(SbUnmasked(prevPic, irq)))),
     Out(DmaMaskReg, Data(5)), Out(DmaFlipFlop, Data(0)), Out(DmaModeReg, Data(0x49)),
     Out(DmaPageReg, Data(a.0)), Out(DmaAddress(chan), Data(a.1)), Out(DmaAddress(chan), Data(a.2)),
     Out(DmaCount(chan), Data(c.0)), Out(DmaCount(chan), Data(c.1)),
     Out(DmaMaskReg, Data(ToUint8(chan)))]
  }

  /** The DSP commands of `sb_play_buffer`: the block command, the count's two
      bytes and, in high-speed mode, the start command. */
  function DspStart(base: int, len: nat, highSpeed: bool): seq<Event>
    requires len >= 1
  {
    var c := CountBytes(len);
    [Out(DspWriteData(base), Cmd(if highSpeed then SetBlockSize else Dma8BitDac)),
     Out(DspWriteData(base), Data(c.0)), Out(DspWriteData(base), Data(c.1))]
    + (if highSpeed then [Out(DspWriteData(base), Cmd(HighDma8BitDac))] else [])
  }

  /** Everything `sb_play_buffer` does at the hardware boundary for a buffer
      at `addr` of `len` bytes: nothing for an empty buffer. */
  function PlayTrace(prevPic: byte, s: Settings, addr: nat, len: nat, intsOn: bool, highSpeed: bool): seq<Event>
  {
    if len == 0 then []
    else ArmTrace(prevPic, s, addr, len, intsOn) + DspStart(s.baseIo, len, highSpeed)
  }

  /** The first part of `sb_play_buffer`: interrupts off, the PIC and DMA
      controller programmed, interrupts back on only if they were on. */
  function ArmTrace(prevPic: byte, s: Settings, addr: nat, len: nat, intsOn: bool): seq<Event>
    requires len >= 1
  {
    [Cli] + DmaProgram(prevPic, s.irq, s.dma8, addr, len) + (if intsOn then [Sti] else [])
  }

  /** What a cleanup routine does: interrupts off, free the wrapper if there
      is one, interrupts on. */
  function CleanupTrace(frees: bool, free: Event): seq<Event>
  {
    [Cli] + (if frees then [free] else []) + [Sti]
  }

  /** `sb_getparams` has no M or P fields: whatever the variable holds, it
      leaves the mixer and MPU settings alone. */
  lemma SbGetParamsKeepsMixerAndMpu(s: Settings, toks: seq<string>)
    ensures ApplyTokens(s, toks, SbGetParams).mixerIo == s.mixerIo
    ensures ApplyTokens(s, toks, SbGetParams).mpuIo == s.mpuIo
  {
    UnselectedSettingKept(s, toks, Mixer, SbGetParams);
    UnselectedSettingKept(s, toks, Mpu, SbGetParams);
  }

  // ---------------------------------------------------------------------
  // The driver's state and routines
  // ---------------------------------------------------------------------

  class SbDriver {
    /** `sb_ioaddr`, `sb_irq`, `sb_dmachan`, `sb_dmachan16` (as `baseIo`,
        `irq`, `dma8`, `dma16`); sb.c has no mixer or MPU setting. */
    var params: Settings
    var dmaActive: bool               // sb_dma_active
    var bufnum: int                   // sb_bufnum
    var highSpeed: bool               // HIGHSPEED
    var streamReady: bool             // sb_stream_ready
    const bufAddr: array<nat>         // sb_buf: the buffers' linear addresses
    const buflen: array<nat>          // sb_buflen
    const streamBuf: array<byte>      // sb_stream_buf, the staging block
    const silence: array<byte>        // sb_stream_silence
    /** The conventional memory at `sb_buf[0]` and `sb_buf[1]`. */
    const dma0: array<byte>
    const dma1: array<byte>
    var dosmemSize: int               // dosmem.size
    var rmSegment: int                // dosmem.rm_segment
    var rmSize: int                   // rm_si.size
    var pmSize: int                   // pm_si.size
    var oldRm: IrqFuncs.FarAddr       // oldirq_rm
    var oldPm: IrqFuncs.FarAddr       // oldirq_pm
    /** The real-mode and protected-mode interrupt vector tables. */
    var rmVectors: seq<IrqFuncs.FarAddr>
    var pmVectors: seq<IrqFuncs.FarAddr>
    /** The CPU's interrupt flag. */
    var intsEnabled: bool
    const cs: int                     // _go32_my_cs()
    ghost var trace: seq<Event>

    predicate Valid()
      reads this`bufnum, this`rmVectors, this`pmVectors
    {
      bufAddr.Length == 2 && buflen.Length == 2 &&
      streamBuf.Length == DMA_CHUNK && silence.Length == DMA_CHUNK &&
      dma0.Length == DMA_CHUNK && dma1.Length == DMA_CHUNK &&
      streamBuf != silence && streamBuf != dma0 && streamBuf != dma1 &&
      silence != dma0 && silence != dma1 && dma0 != dma1 &&
      (bufnum == 0 || bufnum == 1) &&
      |rmVectors| == 256 && |pmVectors| == 256
    }

    /** The DMA buffer `sb_buf[n]` points at. */
    function Dma(n: int): array<byte>
    {
      if n == 0 then dma0 else dma1
    }

    /** The program's start: the statics are zero. */
    constructor (cs: int, rmVectors: seq<IrqFuncs.FarAddr>, pmVectors: seq<IrqFuncs.FarAddr>, intsEnabled: bool)
      requires |rmVectors| == 256 && |pmVectors| == 256
      ensures Valid() && fresh(bufAddr) && fresh(buflen) && fresh(streamBuf) && fresh(silence)
      ensures fresh(dma0) && fresh(dma1)
      ensures params == Settings(0, 0, 0, 0, 0, 0) && !dmaActive && bufnum == 0
      ensures !highSpeed && !streamReady && buflen[..] == [0, 0] && bufAddr[..] == [0, 0]
      ensures dosmemSize == 0 && rmSize == 0 && pmSize == 0
      ensures this.rmVectors == rmVectors && this.pmVectors == pmVectors
      ensures this.intsEnabled == intsEnabled && this.cs == cs && trace == []
    {
      this.cs := cs;
      this.rmVectors := rmVectors;
      this.pmVectors := pmVectors;
      this.intsEnabled := intsEnabled;
      params := Settings(0, 0, 0, 0, 0, 0);
      dmaActive := false;
      bufnum := 0;
      highSpeed := false;
      streamReady := false;
      bufAddr := new nat[2](_ => 0);
      buflen := new nat[2](_ => 0);
      streamBuf := new byte[DMA_CHUNK](_ => 0);
      silence := new byte[DMA_CHUNK](_ => 0);
      dma0 := new byte[DMA_CHUNK](_ => 0);
      dma1 := new byte[DMA_CHUNK](_ => 0);
      dosmemSize := 0;
      rmSegment := 0;
      rmSize := 0;
      pmSize := 0;
      oldRm := IrqFuncs.FarAddr(0, 0);
      oldPm := IrqFuncs.FarAddr(0, 0);
      trace := [];
    }

    /** `disable()`: interrupts off; the result says whether they were on. */
    method Disable() returns (wasEnabled: bool)
      modifies this`intsEnabled, this`trace
      ensures wasEnabled == old(intsEnabled) && !intsEnabled
      ensures trace == old(trace) + [Cli]
    {
      wasEnabled := intsEnabled;
      intsEnabled := false;
      trace := trace + [Cli];
    }

    /** `enable()`. */
    method Enable()
      modifies this`intsEnabled, this`trace
      ensures intsEnabled && trace == old(trace) + [Sti]
    {
      intsEnabled := true;
      trace := trace + [Sti];
    }

    /** `sb_writedac(v)` once the DSP reports it is ready. */
    method WriteDac(v: Value)
      modifies this`trace
      ensures trace == old(trace) + [Out(DspWriteData(params.baseIo), v)]
    {
      trace := trace + [Out(DspWriteData(params.baseIo), v)];
    }

    /** `sb_voice(state)`: speaker on or off. */
    method Voice(state: bool)
      modifies this`trace
      ensures trace == old(trace) + [Out(DspWriteData(params.baseIo), Cmd(if state then SpeakerOn else SpeakerOff))]
    {
      WriteDac(Cmd(if state then SpeakerOn else SpeakerOff));
    }

    /** `sb_set_sample_rate(rate)`: choose the mode, then send the DSP its
        time constant. */
    method SetSampleRate(rate: nat)
      requires 0 < rate < 0x1_0000_0000
      modifies this`highSpeed, this`trace
      ensures highSpeed <==> rate > HIGHSPEED_LIMIT
      ensures trace == old(trace) + RateWrites(params.baseIo, rate)
    {
      highSpeed := rate > HIGHSPEED_LIMIT;
      var tc: byte;
      if highSpeed {
        tc := HighSpeedTc(rate);
      } else {
        tc := NormalTc(rate);
      }
      WriteDac(Cmd(TimeConstant));
      WriteDac(Data(tc));
    }

    /** `dosmemput` of a staging array into buffer `n`. */
    method DosMemPut(src: array<byte>, n: int)
      requires Valid() && (n == 0 || n == 1) && (src == streamBuf || src == silence)
      modifies Dma(n), this`trace
      ensures Dma(n)[..] == src[..]
      ensures trace == old(trace) + [Event.DosMemPut(bufAddr[n])]
    {
      var dst := Dma(n);
      forall i | 0 <= i < DMA_CHUNK {
        dst[i] := src[i];
      }
      trace := trace + [Event.DosMemPut(bufAddr[n])];
    }

    /** `sb_fill_buffer(n)`: buffer `n` gets the staged block, which frees the
        slot, or silence; either way it is a full chunk long. */
    method FillBuffer(n: int)
      requires Valid() && (n == 0 || n == 1)
      modifies this`streamReady, this`trace, buflen, Dma(n)
      ensures Valid() && !streamReady
      ensures buflen[n] == DMA_CHUNK && buflen[1 - n] == old(buflen[1 - n])
      ensures Dma(n)[..] == if old(streamReady) then old(streamBuf[..]) else silence[..]
      ensures trace == old(trace) + [Event.DosMemPut(bufAddr[n])]
    {
      if streamReady {
        buflen[n] := DMA_CHUNK;
        DosMemPut(streamBuf, n);
        streamReady := false;
      } else {
        buflen[n] := DMA_CHUNK;
        DosMemPut(silence, n);
      }
    }

    /** `sb_play_buffer(n)`, with `picIn` the byte read from the PIC's mask
        register. An empty buffer only clears `sb_dma_active`. */
    method PlayBuffer(n: int, picIn: byte)
      requires Valid() && (n == 0 || n == 1)
      modifies this`dmaActive, this`bufnum, this`intsEnabled, this`trace
      ensures Valid() && intsEnabled == old(intsEnabled)
      ensures buflen[n] == 0 ==> !dmaActive && bufnum == old(bufnum)
      ensures buflen[n] > 0 ==> dmaActive && bufnum == n
      ensures trace == old(trace) + PlayTrace(picIn, params, bufAddr[n], buflen[n], old(intsEnabled), highSpeed)
    {
      if buflen[n] == 0 {
        dmaActive := false;
        return;
      }
      ArmDma(n, picIn);
      StartDsp(buflen[n]);
      dmaActive := true;
    }

    /** The part of `sb_play_buffer` run with interrupts off. */
    method ArmDma(n: int, picIn: byte)
      requires Valid() && (n == 0 || n == 1) && buflen[n] >= 1
      modifies this`bufnum, this`intsEnabled, this`trace
      ensures Valid() && bufnum == n && intsEnabled == old(intsEnabled)
      ensures trace == old(trace) + ArmTrace(picIn, params, bufAddr[n], buflen[n], old(intsEnabled))
    {
      var interruptState := Disable();
      ProgramDma(n, picIn);
      if interruptState {
        Enable();
      }
    }

    /** The PIC and DMA-controller writes of `sb_play_buffer`, which also
        record `n` as the buffer in flight. */
    method ProgramDma(n: int, picIn: byte)
      requires Valid() && (n == 0 || n == 1) && buflen[n] >= 1
      modifies this`bufnum, this`trace
      ensures bufnum == n
      ensures trace == old(trace) + DmaProgram(picIn, params.irq, params.dma8, bufAddr[n], buflen[n])
    {
      var im := picIn;
      trace := trace + [In(PicMask)];
      var tm := ToUint8(Sblaster.Not32(Sblaster.ShiftOne(params.irq)));
      trace := trace + [Out(PicMask, Data(ToUint8(BitAnd(im, tm))))];
      trace := trace + [Out(DmaMaskReg, Data(5)), Out(DmaFlipFlop, Data(0)), Out(DmaModeReg, Data(0x49))];
      bufnum := n;
      var a := AddressBytes(bufAddr[n]);
      trace := trace + [Out(DmaPageReg, Data(a.0))];
      trace := trace + [Out(DmaAddress(params.dma8), Data(a.1)), Out(DmaAddress(params.dma8), Data(a.2))];
      var c := CountBytes(buflen[n]);
      trace := trace + [Out(DmaCount(params.dma8), Data(c.0)), Out(DmaCount(params.dma8), Data(c.1))];
      trace := trace + [Out(DmaMaskReg, Data(ToUint8(params.dma8)))];
    }

    /** The DSP commands of `sb_play_buffer`. */
    method StartDsp(len: nat)
      requires len >= 1
      modifies this`trace
      ensures trace == old(trace) + DspStart(params.baseIo, len, highSpeed)
    {
      if highSpeed {
        WriteDac(Cmd(SetBlockSize));
      } else {
        WriteDac(Cmd(Dma8BitDac));
      }
      var c := CountBytes(len);
      WriteDac(Data(c.0));
      WriteDac(Data(c.1));
      if highSpeed {
        WriteDac(Cmd(HighDma8BitDac));
      }
    }

    /** `sb_intr_play`: acknowledge the card, start the other buffer, refill
        the one just played, acknowledge the PIC, interrupts on. */
    method IntrPlay(picIn: byte)
      requires Valid()
      modifies this`dmaActive, this`bufnum, this`intsEnabled, this`trace, this`streamReady
      modifies buflen, Dma(bufnum)
      ensures Valid() && intsEnabled && !streamReady
      ensures var n := old(bufnum);
        buflen[n] == DMA_CHUNK && buflen[1 - n] == old(buflen[1 - n]) &&
        Dma(n)[..] == (if old(streamReady) then old(streamBuf[..]) else silence[..]) &&
        (old(buflen[1 - n]) > 0 ==> bufnum == 1 - n && dmaActive) &&
        (old(buflen[1 - n]) == 0 ==> bufnum == n && !dmaActive) &&
        trace == old(trace) + [In(DspDataAvail(params.baseIo))]
                 + PlayTrace(picIn, params, bufAddr[1 - n], old(buflen[1 - n]), old(intsEnabled), highSpeed)
                 + [Event.DosMemPut(bufAddr[n]), Out(PicCommand, Data(0x20)), Sti]
    {
      var n := bufnum;
      trace := trace + [In(DspDataAvail(params.baseIo))];
      PlayBuffer(1 - n, picIn);
      FillBuffer(n);
      trace := trace + [Out(PicCommand, Data(0x20))];
      Enable();
    }

    /** `StreamBuf(&len)`: the staging block and its length when the slot is
        free; null, with `*len` untouched, while a block waits. */
    method StreamBuf(len: nat) returns (p: Option<array<byte>>, len': nat)
      ensures streamReady ==> p.None? && len' == len
      ensures !streamReady ==> p == Some(streamBuf) && len' == DMA_CHUNK
    {
      if streamReady {
        return None, len;
      }
      len' := DMA_CHUNK;
      p := Some(streamBuf);
    }

    /** `StreamReady()`: the staged block is complete. */
    method StreamReady()
      modifies this`streamReady
      ensures streamReady
    {
      streamReady := true;
    }

    /** `sb_install_rm_interrupt`: allocate the real-mode callback (exit(1)
        when that fails), then save the old vector and install the callback. */
    method InstallRmInterrupt(alloc: Allocation) returns (c: Completion)
      requires Valid()
      modifies this`rmSize, this`oldRm, this`rmVectors, this`intsEnabled, this`trace
      ensures Valid()
      ensures alloc.Failed? ==> c == Exited(1) && rmVectors == old(rmVectors) && trace == old(trace)
      ensures alloc.Allocated? ==>
        c == Done && rmSize == alloc.size && intsEnabled &&
        oldRm == old(rmVectors)[SbVector(params.irq)] &&
        rmVectors == old(rmVectors)[SbVector(params.irq) := alloc.entry] &&
        trace == old(trace) + [Cli, Sti]
    {
      if alloc.Failed? {
        return Exited(1);
      }
      rmSize := alloc.size;
      var _ := Disable();
      var v := SbVector(params.irq);
      oldRm := rmVectors[v];
      rmVectors := rmVectors[v := alloc.entry];
      Enable();
      c := Done;
    }

    /** `sb_cleanup_rm_interrupt`: put the old vector back, free the callback
        only if one is recorded, and record that none is. */
    method CleanupRmInterrupt()
      requires Valid()
      modifies this`rmSize, this`rmVectors, this`intsEnabled, this`trace
      ensures Valid() && rmSize == UNALLOCATED && intsEnabled
      ensures rmVectors == old(rmVectors)[SbVector(params.irq) := oldRm]
      ensures trace == old(trace) + CleanupTrace(old(rmSize) != UNALLOCATED, FreeCallback)
    {
      var _ := Disable();
      rmVectors := rmVectors[SbVector(params.irq) := oldRm];
      if rmSize != UNALLOCATED {
        trace := trace + [FreeCallback];
      }
      rmSize := UNALLOCATED;
      Enable();
    }

    /** `sb_install_pm_interrupt`: with interrupts off, allocate the iret
        wrapper (exit(1), interrupts still off, when that fails), then save
        the old vector and install the wrapper in this code segment. */
    method InstallPmInterrupt(alloc: Allocation) returns (c: Completion)
      requires Valid()
      modifies this`pmSize, this`oldPm, this`pmVectors, this`intsEnabled, this`trace
      ensures Valid()
      ensures alloc.Failed? ==>
        c == Exited(1) && pmVectors == old(pmVectors) && !intsEnabled && trace == old(trace) + [Cli]
      ensures alloc.Allocated? ==>
        c == Done && pmSize == alloc.size && intsEnabled &&
        oldPm == old(pmVectors)[SbVector(params.irq)] &&
        pmVectors == old(pmVectors)[SbVector(params.irq) := IrqFuncs.FarAddr(cs, alloc.entry.offset)] &&
        trace == old(trace) + [Cli, Sti]
    {
      var _ := Disable();
      if alloc.Failed? {
        return Exited(1);
      }
      pmSize := alloc.size;
      var v := SbVector(params.irq);
      oldPm := pmVectors[v];
      pmVectors := pmVectors[v := IrqFuncs.FarAddr(cs, alloc.entry.offset)];
      Enable();
      c := Done;
    }

    /** `sb_cleanup_pm_interrupt`: free the wrapper only if one is recorded,
        record that none is, and put the old vector back. */
    method CleanupPmInterrupt()
      requires Valid()
      modifies this`pmSize, this`pmVectors, this`intsEnabled, this`trace
      ensures Valid() && pmSize == UNALLOCATED && intsEnabled
      ensures pmVectors == old(pmVectors)[SbVector(params.irq) := oldPm]
      ensures trace == old(trace) + CleanupTrace(old(pmSize) != UNALLOCATED, FreeWrapper)
    {
      var _ := Disable();
      if pmSize != UNALLOCATED {
        trace := trace + [FreeWrapper];
      }
      pmSize := UNALLOCATED;
      pmVectors := pmVectors[SbVector(params.irq) := oldPm];
      Enable();
    }

    /** `sb_install_interrupts`: real mode first; a failure there exits
        before the protected-mode handler is touched. */
    method InstallInterrupts(rm: Allocation, pm: Allocation) returns (c: Completion)
      requires Valid()
      modifies this`rmSize, this`oldRm, this`rmVectors, this`pmSize, this`oldPm, this`pmVectors
      modifies this`intsEnabled, this`trace
      ensures Valid()
      ensures c == (if rm.Allocated? && pm.Allocated? then Done else Exited(1))
      ensures rm.Failed? ==> pmVectors == old(pmVectors) && pmSize == old(pmSize)
      ensures c == Done ==>
        rmSize == rm.size && pmSize == pm.size && intsEnabled &&
        oldRm == old(rmVectors)[SbVector(params.irq)] && oldPm == old(pmVectors)[SbVector(params.irq)] &&
        rmVectors == old(rmVectors)[SbVector(params.irq) := rm.entry] &&
        pmVectors == old(pmVectors)[SbVector(params.irq) := IrqFuncs.FarAddr(cs, pm.entry.offset)] &&
        trace == old(trace) + [Cli, Sti, Cli, Sti]
    {
      c := InstallRmInterrupt(rm);
      if c.Exited? {
        return;
      }
      c := InstallPmInterrupt(pm);
    }

    /** `sb_cleanup_ints`: real mode, then protected mode. */
    method CleanupInts()
      requires Valid()
      modifies this`rmSize, this`rmVectors, this`pmSize, this`pmVectors, this`intsEnabled, this`trace
      ensures Valid() && rmSize == UNALLOCATED && pmSize == UNALLOCATED && intsEnabled
      ensures rmVectors == old(rmVectors)[SbVector(params.irq) := oldRm]
      ensures pmVectors == old(pmVectors)[SbVector(params.irq) := oldPm]
      ensures trace == old(trace) + CleanupTrace(old(rmSize) != UNALLOCATED, FreeCallback)
                                  + CleanupTrace(old(pmSize) != UNALLOCATED, FreeWrapper)
    {
      CleanupRmInterrupt();
      CleanupPmInterrupt();
    }

    /** Cleaning up twice frees each wrapper at most once: exactly once if
        one was recorded, and the second round frees nothing. */
    method CleanupIntsTwice()
      requires Valid()
      modifies this`rmSize, this`rmVectors, this`pmSize, this`pmVectors, this`intsEnabled, this`trace
      ensures Valid() && rmSize == UNALLOCATED && pmSize == UNALLOCATED
      ensures trace == old(trace) + CleanupTrace(old(rmSize) != UNALLOCATED, FreeCallback)
                                  + CleanupTrace(old(pmSize) != UNALLOCATED, FreeWrapper)
                                  + CleanupTrace(false, FreeCallback) + CleanupTrace(false, FreeWrapper)
      ensures Occurrences(trace[|old(trace)|..], FreeCallback) == if old(rmSize) != UNALLOCATED then 1 else 0
      ensures Occurrences(trace[|old(trace)|..], FreeWrapper) == if old(pmSize) != UNALLOCATED then 1 else 0
    {
      ghost var t0 := trace;
      ghost var rmFrees := rmSize != UNALLOCATED;
      ghost var pmFrees := pmSize != UNALLOCATED;
      CleanupInts();
      CleanupInts();
      ghost var a := CleanupTrace(rmFrees, FreeCallback);
      ghost var b := CleanupTrace(pmFrees, FreeWrapper);
      ghost var c := CleanupTrace(false, FreeCallback);
      ghost var d := CleanupTrace(false, FreeWrapper);
      assert trace == t0 + a + b + c + d;
      assert trace[|t0|..] == a + b + c + d;
      CleanupFrees(a, b, c, d, rmFrees, pmFrees);
    }

    /** `sb_init_buffers`, given the segment DPMI allocates (`None` when the
        allocation fails). */
    method InitBuffers(dos: Option<nat>) returns (r: int)
      requires Valid() && (dos.Some? ==> dos.value < 0x10000)
      modifies this`dosmemSize, this`rmSegment, bufAddr
      ensures Valid()
      ensures dos.None? ==> r == 0 && dosmemSize == UNALLOCATED && bufAddr[..] == old(bufAddr[..])
      ensures dos.None? ==> rmSegment == old(rmSegment)
      ensures dos.Some? ==> r == 1 && dosmemSize == DOSMEM_PARAGRAPHS && rmSegment == dos.value &&
                            bufAddr[..] == BufferAddresses(dos.value)
    {
      dosmemSize := DOSMEM_PARAGRAPHS;
      if dos.None? {
        dosmemSize := UNALLOCATED;
        return 0;
      }
      rmSegment := dos.value;
      var aux0 := rmSegment * 16;
      aux0 := aux0 + 0xFFFF;
      aux0 := BitAnd(aux0, 0xFFFF0000);
      var aux1 := aux0 + 0x10000;
      bufAddr[0], bufAddr[1] := aux0, aux1;
      r := 1;
    }

    /** `sb_getparams`: the BLASTER variable (absent: `None`) read into the
        card parameters, given whether the copy's `malloc` succeeds. */
    method GetParams(env: Option<string>, copyOk: bool) returns (r: int)
      modifies this`params
      ensures (r, params) == ParseEnv(env, copyOk, old(params), SbGetParams)
    {
      if env.None? {
        return RESULT_ERR;
      }
      if !copyOk {
        return RESULT_ERR;
      }
      params := ScanTokens(env.value, SbGetParams, params);
      r := RESULT_OK;
    }

    /** `sb_init`: mark the wrappers as not allocated, read the parameters,
        reset the card and, when an address was found, allocate the buffers.
        The result is the card's address, or 0. */
    method SbInit(env: Option<string>, copyOk: bool, dos: Option<nat>) returns (r: int)
      requires Valid() && (dos.Some? ==> dos.value < 0x10000)
      modifies this`rmSize, this`pmSize, this`dosmemSize, this`rmSegment, this`params, this`trace, bufAddr
      ensures Valid() && rmSize == UNALLOCATED && pmSize == UNALLOCATED
      ensures params == ParseEnv(env, copyOk, old(params), SbGetParams).1
      ensures trace == old(trace) + [DspReset(params.baseIo)]
      ensures params.baseIo == 0 ==> r == 0 && dosmemSize == UNALLOCATED
      ensures params.baseIo != 0 && dos.None? ==> r == 0 && dosmemSize == UNALLOCATED
      ensures params.baseIo != 0 && dos.Some? ==>
        r == params.baseIo && dosmemSize == DOSMEM_PARAGRAPHS && bufAddr[..] == BufferAddresses(dos.value)
      ensures params.baseIo != 0 && dos.Some? ==> rmSegment == dos.value
      ensures params.baseIo == 0 || dos.None? ==> bufAddr[..] == old(bufAddr[..]) && rmSegment == old(rmSegment)
    {
      rmSize := UNALLOCATED;
      pmSize := UNALLOCATED;
      dosmemSize := UNALLOCATED;
      var _ := GetParams(env, copyOk);
      trace := trace + [DspReset(params.baseIo)];
      if params.baseIo != 0 {
        var ok := InitBuffers(dos);
        if ok == 0 {
          return 0;
        }
      }
      r := params.baseIo;
    }

    /** `sb_cleanup`: free the conventional memory unless none is recorded;
        the result is 1 when nothing was freed or the free failed. The size
        is not reset, so a second call frees again. */
    method SbCleanup(freeFails: bool) returns (r: int)
      modifies this`trace
      ensures dosmemSize == UNALLOCATED ==> r == 1 && trace == old(trace)
      ensures dosmemSize != UNALLOCATED ==>
        trace == old(trace) + [FreeDosMemory] && r == (if freeFails then 1 else 0)
    {
      if dosmemSize == UNALLOCATED {
        return 1;
      }
      trace := trace + [FreeDosMemory];
      if freeFails {
        return 1;
      }
      r := 0;
    }

    /** `StreamStart(rate)`: fill the silence block, speaker on, set the rate,
        install the handlers, fill buffer 0 then buffer 1 and start buffer 0.
        Buffer 0 takes any staged block, so buffer 1 always holds silence. */
    method StreamStart(rate: int, picIn: byte, rm: Allocation, pm: Allocation) returns (c: Completion)
      requires Valid() && Bits32(rate) > 0
      modifies this`highSpeed, this`rmSize, this`oldRm, this`rmVectors, this`pmSize, this`oldPm
      modifies this`pmVectors, this`intsEnabled, this`streamReady, this`dmaActive, this`bufnum, this`trace
      modifies silence, buflen, dma0, dma1
      ensures Valid()
      ensures forall i :: 0 <= i < DMA_CHUNK ==> silence[i] == SILENCE
      ensures c == (if rm.Allocated? && pm.Allocated? then Done else Exited(1))
      ensures c == Done ==>
        highSpeed == (Bits32(rate) > HIGHSPEED_LIMIT) && !streamReady && bufnum == 0 && dmaActive &&
        intsEnabled && buflen[0] == DMA_CHUNK && buflen[1] == DMA_CHUNK &&
        dma0[..] == (if old(streamReady) then old(streamBuf[..]) else silence[..]) &&
        dma1[..] == silence[..] &&
        rmVectors == old(rmVectors)[SbVector(params.irq) := rm.entry] &&
        pmVectors == old(pmVectors)[SbVector(params.irq) := IrqFuncs.FarAddr(cs, pm.entry.offset)] &&
        oldRm == old(rmVectors)[SbVector(params.irq)] && oldPm == old(pmVectors)[SbVector(params.irq)] &&
        rmSize == rm.size && pmSize == pm.size &&
        trace == old(trace) + [Out(DspWriteData(params.baseIo), Cmd(SpeakerOn))]
                 + RateWrites(params.baseIo, Bits32(rate)) + [Cli, Sti, Cli, Sti]
                 + [Event.DosMemPut(bufAddr[0]), Event.DosMemPut(bufAddr[1])]
                 + PlayTrace(picIn, params, bufAddr[0], DMA_CHUNK, true, highSpeed)
    {
      FillSilence();
      c := StartHardware(Bits32(rate), rm, pm);
      if c.Exited? {
        return;
      }
      FillAndPlay(picIn);
    }

    /** The middle of `StreamStart`: speaker on, the rate, the handlers. */
    method StartHardware(rate: nat, rm: Allocation, pm: Allocation) returns (c: Completion)
      requires Valid() && 0 < rate < 0x1_0000_0000
      modifies this`highSpeed, this`rmSize, this`oldRm, this`rmVectors, this`pmSize, this`oldPm
      modifies this`pmVectors, this`intsEnabled, this`trace
      ensures Valid()
      ensures c == (if rm.Allocated? && pm.Allocated? then Done else Exited(1))
      ensures c == Done ==>
        highSpeed == (rate > HIGHSPEED_LIMIT) && intsEnabled &&
        rmVectors == old(rmVectors)[SbVector(params.irq) := rm.entry] &&
        pmVectors == old(pmVectors)[SbVector(params.irq) := IrqFuncs.FarAddr(cs, pm.entry.offset)] &&
        oldRm == old(rmVectors)[SbVector(params.irq)] && oldPm == old(pmVectors)[SbVector(params.irq)] &&
        rmSize == rm.size && pmSize == pm.size &&
        trace == old(trace) + [Out(DspWriteData(params.baseIo), Cmd(SpeakerOn))]
                 + RateWrites(params.baseIo, rate) + [Cli, Sti, Cli, Sti]
    {
      Voice(true);
      SetSampleRate(rate);
      c := InstallInterrupts(rm, pm);
    }

    /** The `memset` of the silence block to the unsigned 8-bit midpoint. */
    method FillSilence()
      requires Valid()
      modifies silence
      ensures forall i :: 0 <= i < DMA_CHUNK ==> silence[i] == SILENCE
    {
      for i := 0 to DMA_CHUNK
        invariant forall j :: 0 <= j < i ==> silence[j] == SILENCE
      {
        silence[i] := SILENCE;
      }
    }

    /** The end of `StreamStart`: fill buffer 0, then buffer 1, then play
        buffer 0. */
    method FillAndPlay(picIn: byte)
      requires Valid()
      modifies this`streamReady, this`trace, this`dmaActive, this`bufnum, this`intsEnabled
      modifies buflen, dma0, dma1
      ensures Valid() && !streamReady && bufnum == 0 && dmaActive && intsEnabled == old(intsEnabled)
      ensures buflen[0] == DMA_CHUNK && buflen[1] == DMA_CHUNK
      ensures dma0[..] == (if old(streamReady) then old(streamBuf[..]) else silence[..])
      ensures dma1[..] == silence[..]
      ensures trace == old(trace) + [Event.DosMemPut(bufAddr[0]), Event.DosMemPut(bufAddr[1])]
                       + PlayTrace(picIn, params, bufAddr[0], DMA_CHUNK, old(intsEnabled), highSpeed)
    {
      FillBuffer(0);
      FillBuffer(1);
      PlayBuffer(0, picIn);
    }

    /** `StreamStop()`: halt the transfer (a DSP reset in high-speed mode,
        where the DSP takes no commands), remove the handlers, speaker off. */
    method StreamStop()
      requires Valid()
      modifies this`rmSize, this`rmVectors, this`pmSize, this`pmVectors, this`intsEnabled, this`trace
      ensures Valid() && rmSize == UNALLOCATED && pmSize == UNALLOCATED && intsEnabled
      ensures rmVectors == old(rmVectors)[SbVector(params.irq) := oldRm]
      ensures pmVectors == old(pmVectors)[SbVector(params.irq) := oldPm]
      ensures trace == old(trace)
        + [if highSpeed then DspReset(params.baseIo) else Out(DspWriteData(params.baseIo), Cmd(HaltDma))]
        + CleanupTrace(old(rmSize) != UNALLOCATED, FreeCallback)
        + CleanupTrace(old(pmSize) != UNALLOCATED, FreeWrapper)
        + [Out(DspWriteData(params.baseIo), Cmd(SpeakerOff))]
    {
      if highSpeed {
        trace := trace + [DspReset(params.baseIo)];
      } else {
        WriteDac(Cmd(HaltDma));
      }
      CleanupInts();
      Voice(false);
    }

    /** One producer step and one interrupt: a block staged through
        `StreamBuf`/`StreamReady` is what the interrupt copies into the
        buffer just played, and the slot is free again afterwards. */
    method HandoffThenInterrupt(block: seq<byte>, picIn: byte)
      requires Valid() && !streamReady && |block| == DMA_CHUNK
      modifies this`dmaActive, this`bufnum, this`intsEnabled, this`trace, this`streamReady
      modifies streamBuf, buflen, Dma(bufnum)
      ensures Valid() && !streamReady
      ensures Dma(old(bufnum))[..] == block && buflen[old(bufnum)] == DMA_CHUNK
    {
      var p, len := StreamBuf(0);
      var buf := p.value;
      forall i | 0 <= i < len {
        buf[i] := block[i];
      }
      StreamReady();
      IntrPlay(picIn);
    }

    /** A successful start followed by a stop puts both vector tables back as
        they were and leaves both wrapper sizes at the "not allocated" mark. */
    method StartThenStop(rate: int, picIn: byte, rm: Allocation, pm: Allocation)
      requires Valid() && Bits32(rate) > 0 && rm.Allocated? && pm.Allocated?
      modifies this`highSpeed, this`rmSize, this`oldRm, this`rmVectors, this`pmSize, this`oldPm
      modifies this`pmVectors, this`intsEnabled, this`streamReady, this`dmaActive, this`bufnum, this`trace
      modifies silence, buflen, dma0, dma1
      ensures rmVectors == old(rmVectors) && pmVectors == old(pmVectors)
      ensures rmSize == UNALLOCATED && pmSize == UNALLOCATED
    {
      var c := StreamStart(rate, picIn, rm, pm);
      StreamStop();
      var v := SbVector(params.irq);
      assert rmVectors == old(rmVectors)[v := old(rmVectors)[v]];
      assert pmVectors == old(pmVectors)[v := old(pmVectors)[v]];
    }
  }

  /** The four cleanup rounds of CleanupIntsTwice free each wrapper once at
      most. */
  lemma CleanupFrees(a: seq<Event>, b: seq<Event>, c: seq<Event>, d: seq<Event>, rmFrees: bool, pmFrees: bool)
    requires a == CleanupTrace(rmFrees, FreeCallback) && b == CleanupTrace(pmFrees, FreeWrapper)
    requires c == CleanupTrace(false, FreeCallback) && d == CleanupTrace(false, FreeWrapper)
    ensures Occurrences(a + b + c + d, FreeCallback) == if rmFrees then 1 else 0
    ensures Occurrences(a + b + c + d, FreeWrapper) == if pmFrees then 1 else 0
  {
    forall e | e == FreeCallback || e == FreeWrapper
      ensures Occurrences(a + b + c + d, e) ==
              Occurrences(a, e) + Occurrences(b, e) + Occurrences(c, e) + Occurrences(d, e)
    {
      OccurrencesAppend(a + b + c, d, e);
      OccurrencesAppend(a + b, c, e);
      OccurrencesAppend(a, b, e);
    }
    CleanupTraceFrees(rmFrees, FreeCallback, FreeCallback);
    CleanupTraceFrees(pmFrees, FreeWrapper, FreeCallback);
    CleanupTraceFrees(false, FreeCallback, FreeCallback);
    CleanupTraceFrees(false, FreeWrapper, FreeCallback);
    CleanupTraceFrees(rmFrees, FreeCallback, FreeWrapper);
    CleanupTraceFrees(pmFrees, FreeWrapper, FreeWrapper);
    CleanupTraceFrees(false, FreeCallback, FreeWrapper);
    CleanupTraceFrees(false, FreeWrapper, FreeWrapper);
  }

  /** A cleanup round frees its own wrapper once if it frees at all. */
  lemma CleanupTraceFrees(frees: bool, free: Event, e: Event)
    requires e != Cli && e != Sti
    ensures Occurrences(CleanupTrace(frees, free), e) == if frees && free == e then 1 else 0
  {
    var mid: seq<Event> := if frees then [free] else [];
    OccurrencesAppend([Cli] + mid, [Sti], e);
    OccurrencesAppend([Cli], mid, e);
    OccurrencesSingle(Cli, e);
    OccurrencesSingle(Sti, e);
    if frees {
      OccurrencesSingle(free, e);
    } else {
      assert Occurrences(mid, e) == 0;
    }
  }

  lemma OccurrencesSingle(x: Event, e: Event)
    ensures Occurrences([x], e) == if x == e then 1 else 0
  {
    assert [x][..0] == [];
  }
}
