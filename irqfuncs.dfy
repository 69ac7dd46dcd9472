// The per-line protected-mode interrupt handler table of IRQFUNCS.C: sixteen
// handler slots, the vectors they displaced, eight interrupt stacks and the
// lazy-initialisation flag `bInitIRQ`.

module IrqFuncs {

  const IRQ_LINES: int := 16
  const IRQ_STACKS: int := 8
  const STACK_SIZE: int := 8192

  /** Distance from a stack's base to the initial stack pointer stored for it
      (stacks grow downward). */
  const STACK_TOP_OFFSET: int := STACK_SIZE - 16

  /** A `__dpmi_paddr`: selector and 32-bit offset of a handler. */
  datatype FarAddr = FarAddr(selector: int, offset: int)

  /** An `IRQHandler_t`: NULL, or a function entry point. */
  datatype Handler = NoHandler | HandlerAt(entry: int)

  /** The regions `InitIRQ` asks DPMI to lock, in the order it asks. */
  datatype LockTarget =
    | WrappersTable     // IRQWrappers[]
    | HandlersTable     // IRQHandlers[]
    | OldVectorsTable   // OldIRQVectors[]
    | WrapCode          // IRQWrap .. IRQWrap_End
    | StackMemory(base: int)

  const InitLocks: seq<LockTarget> := [WrappersTable, HandlersTable, OldVectorsTable, WrapCode]

  // ---------------------------------------------------------------------
  // Vector numbers
  // ---------------------------------------------------------------------

  /** The line a vector number of the two PICs belongs to. */
  function LineOfVector(v: int): int
  {
    if v >= 0x70 then v - 0x70 + 8 else v - 8
  }

  /** `nIRQVect` for line `n`: the master PIC's lines sit at vectors 8..15,
      the slave's at 0x70..0x77. */
  function IrqVector(n: int): (v: int)
    requires 0 <= n < IRQ_LINES
    ensures n < 8 <==> 8 <= v < 16
    ensures n >= 8 <==> 0x70 <= v < 0x78
    ensures LineOfVector(v) == n
  {
    if n > 7 then 0x70 + (n - 8) else 0x8 + n
  }

  /** Distinct lines use distinct vectors, so install and uninstall of one line
      never touch another line's vector. */
  lemma IrqVectorInjective(a: int, b: int)
    requires 0 <= a < IRQ_LINES && 0 <= b < IRQ_LINES
    ensures IrqVector(a) == IrqVector(b) <==> a == b
  {
    if IrqVector(a) == IrqVector(b) {
      assert LineOfVector(IrqVector(a)) == LineOfVector(IrqVector(b));
    }
  }

  // ---------------------------------------------------------------------
  // Specification functions
  // ---------------------------------------------------------------------

  /** How many of the four `LOCK_*` calls succeed before the first failure. */
  function Granted(ok: seq<bool>): (k: nat)
    ensures k <= |ok|
    ensures forall i :: 0 <= i < k ==> ok[i]
    ensures k < |ok| ==> !ok[k]
  {
    if ok == [] || !ok[0] then 0 else 1 + Granted(ok[1..])
  }

  predicate AllLocked(ok: seq<bool>)
  {
    forall i :: 0 <= i < |ok| ==> ok[i]
  }

  lemma GrantedAll(ok: seq<bool>)
    ensures Granted(ok) == |ok| <==> AllLocked(ok)
  {
  }

  /** The initial stack pointers stored for the malloc'd stack bases. */
  function StackTops(bases: seq<int>): (r: seq<int>)
    ensures |r| == |bases|
  {
    seq(|bases|, i requires 0 <= i < |bases| => bases[i] + STACK_TOP_OFFSET)
  }

  /** The pointers `ShutDownIRQ` hands to `free` for the stored stack pointers. */
  function StackBases(tops: seq<int>): (r: seq<int>)
    ensures |r| == |tops|
  {
    seq(|tops|, i requires 0 <= i < |tops| => tops[i] - STACK_TOP_OFFSET)
  }

  /** The stack locks `InitIRQ` holds when the `LockData` call on stack `i`
      succeeds exactly when `oks[i]` does, in allocation order. */
  function StackLocks(bases: seq<int>, oks: seq<bool>): (r: seq<LockTarget>)
    requires |oks| == |bases|
    ensures |r| <= |bases|
  {
    if bases == [] then []
    else
      var n := |bases| - 1;
      StackLocks(bases[..n], oks[..n]) + (if oks[n] then [StackMemory(bases[n])] else [])
  }

  /** Only stacks are listed, and only stacks that were allocated. */
  lemma {:induction false} StackLocksAreStacks(bases: seq<int>, oks: seq<bool>)
    requires |oks| == |bases|
    ensures forall t :: t in StackLocks(bases, oks) ==> t.StackMemory? && t.base in bases
  {
    if bases != [] {
      var n := |bases| - 1;
      StackLocksAreStacks(bases[..n], oks[..n]);
      forall t | t in StackLocks(bases[..n], oks[..n])
        ensures t.base in bases
      {
        var j :| 0 <= j < n && bases[..n][j] == t.base;
        assert bases[j] == t.base;
      }
    }
  }

  /** One more stack: its lock is appended when its `LockData` succeeds. */
  lemma StackLocksStep(bases: seq<int>, oks: seq<bool>, i: nat)
    requires |oks| == |bases| && i < |bases|
    ensures StackLocks(bases[..i + 1], oks[..i + 1]) ==
      StackLocks(bases[..i], oks[..i]) + (if oks[i] then [StackMemory(bases[i])] else [])
  {
    assert bases[..i + 1][..i] == bases[..i] && oks[..i + 1][..i] == oks[..i];
  }

  /** When every `LockData` call succeeds, each stack is locked, in order. */
  lemma {:induction false} AllStacksLocked(bases: seq<int>, oks: seq<bool>)
    requires |oks| == |bases| && AllLocked(oks)
    ensures StackLocks(bases, oks) == seq(|bases|, i requires 0 <= i < |bases| => StackMemory(bases[i]))
  {
    if bases != [] {
      var n := |bases| - 1;
      AllStacksLocked(bases[..n], oks[..n]);
      var r := StackLocks(bases, oks);
      assert r == StackLocks(bases[..n], oks[..n]) + [StackMemory(bases[n])];
      assert |r| == |bases|;
      forall i | 0 <= i < |bases|
        ensures r[i] == StackMemory(bases[i])
      {
        if i < n {
          assert bases[..n][i] == bases[i];
        }
      }
    }
  }

  /** When every `LockData` call fails, no stack is locked. */
  lemma {:induction false} NoStackLocked(bases: seq<int>, oks: seq<bool>)
    requires |oks| == |bases| && forall i :: 0 <= i < |oks| ==> !oks[i]
    ensures StackLocks(bases, oks) == []
  {
    if bases != [] {
      var n := |bases| - 1;
      NoStackLocked(bases[..n], oks[..n]);
    }
  }

  /** What `ShutDownIRQ` frees is exactly what `InitIRQ` allocated. */
  lemma StackRoundTrip(bases: seq<int>)
    ensures StackBases(StackTops(bases)) == bases
  {
  }

  predicate AllFree(hs: seq<Handler>)
  {
    forall i :: 0 <= i < |hs| ==> hs[i] == NoHandler
  }

  // ---------------------------------------------------------------------
  // The table
  // ---------------------------------------------------------------------

  class IrqTable {
    var bInitIRQ: int
    const handlers: array<Handler>        // IRQHandlers[16]
    const oldVectors: array<FarAddr>      // OldIRQVectors[16]
    const stacks: array<int>              // IRQStacks[IRQ_STACKS], stored stack pointers
    const wrappers: seq<int>              // IRQWrappers[16], offsets of the assembly wrappers
    const cs: int                         // _my_cs()
    /** The DPMI protected-mode interrupt vector table. */
    var vectors: map<int, FarAddr>
    /** Every region DPMI has locked, in order. */
    ghost var locked: seq<LockTarget>
    /** Every pointer passed to `free`, in order. */
    ghost var freed: seq<int>

    predicate Valid()
      reads this
    {
      handlers.Length == IRQ_LINES && oldVectors.Length == IRQ_LINES &&
      stacks.Length == IRQ_STACKS && |wrappers| == IRQ_LINES &&
      (bInitIRQ == 0 || bInitIRQ == 1) &&
      forall v :: 0 <= v < 256 ==> v in vectors
    }

    /** The program's start: zero-initialised globals, nothing locked or freed. */
    constructor (cs: int, wrappers: seq<int>, vectors: map<int, FarAddr>)
      requires |wrappers| == IRQ_LINES
      requires forall v :: 0 <= v < 256 ==> v in vectors
      ensures Valid() && bInitIRQ == 0
      ensures AllFree(handlers[..])
      ensures this.cs == cs && this.wrappers == wrappers && this.vectors == vectors
      ensures locked == [] && freed == []
      ensures fresh(handlers) && fresh(oldVectors) && fresh(stacks)
    {
      this.cs := cs;
      this.wrappers := wrappers;
      this.vectors := vectors;
      bInitIRQ := 0;
      handlers := new Handler[IRQ_LINES](_ => NoHandler);
      oldVectors := new FarAddr[IRQ_LINES](_ => FarAddr(0, 0));
      stacks := new int[IRQ_STACKS](_ => 0);
      locked := [];
      freed := [];
    }

    /** `InitIRQ`: lock the four shared objects, allocate and lock eight
        stacks, set the flag. `lockOk` gives the outcome of each `LOCK_*`
        call, `mallocs` what each `malloc(STACK_SIZE)` returns (0 for NULL),
        `stackLocks` the outcome of each stack's `LockData`, which the code
        does not look at. */
    method InitIRQ(lockOk: seq<bool>, mallocs: seq<int>, stackLocks: seq<bool>) returns (r: int)
      requires Valid() && |lockOk| == |InitLocks| && |mallocs| == IRQ_STACKS
      requires |stackLocks| == IRQ_STACKS
      modifies this, stacks
      ensures Valid() && vectors == old(vectors) && freed == old(freed)
      ensures r == 0 || r == 1
      ensures r == 1 <==> AllLocked(lockOk)
      ensures r == 0 ==> bInitIRQ == old(bInitIRQ) && stacks[..] == old(stacks[..])
      ensures r == 0 ==> locked == old(locked) + InitLocks[..Granted(lockOk)]
      ensures r == 1 ==> bInitIRQ == 1 && stacks[..] == StackTops(mallocs)
      ensures r == 1 ==> locked == old(locked) + InitLocks + StackLocks(mallocs, stackLocks)
    {
      // A failed lock returns at once; the locks already taken stay taken.
      if !lockOk[0] {
        return 0;
      }
      locked := locked + [WrappersTable];
      if !lockOk[1] {
        return 0;
      }
      locked := locked + [HandlersTable];
      if !lockOk[2] {
        return 0;
      }
      locked := locked + [OldVectorsTable];
      if !lockOk[3] {
        return 0;
      }
      locked := locked + [WrapCode];
      assert locked == old(locked) + InitLocks;
      AllocateStacks(mallocs, stackLocks);
      bInitIRQ := 1;
      return 1;
    }

    /** The stack loop of `InitIRQ`: store each stack's top and lock it. */
    method AllocateStacks(mallocs: seq<int>, stackLocks: seq<bool>)
      requires stacks.Length == IRQ_STACKS && |mallocs| == IRQ_STACKS && |stackLocks| == IRQ_STACKS
      modifies this`locked, stacks
      ensures stacks[..] == StackTops(mallocs)
      ensures locked == old(locked) + StackLocks(mallocs, stackLocks)
    {
      for i := 0 to IRQ_STACKS
        invariant stacks[..i] == StackTops(mallocs[..i])
        invariant locked == old(locked) + StackLocks(mallocs[..i], stackLocks[..i])
      {
        // Neither a NULL from malloc nor a failed LockData is acted on: the
        // stack pointer is stored anyway.
        var base := mallocs[i];
        StackLocksStep(mallocs, stackLocks, i);
        if stackLocks[i] {
          locked := locked + [StackMemory(base)];
        }
        stacks[i] := base + STACK_TOP_OFFSET;
        assert mallocs[..i + 1] == mallocs[..i] + [base];
      }
      assert mallocs[..IRQ_STACKS] == mallocs && stackLocks[..IRQ_STACKS] == stackLocks;
    }

    /** `ShutDownIRQ`: free the eight stacks and clear the flag. Nothing is
        unlocked. */
    method ShutDownIRQ()
      requires Valid()
      modifies this
      ensures Valid() && bInitIRQ == 0
      ensures freed == old(freed) + StackBases(stacks[..])
      ensures locked == old(locked) && vectors == old(vectors)
    {
      for i := 0 to IRQ_STACKS
        invariant freed == old(freed) + StackBases(stacks[..i])
        invariant locked == old(locked) && vectors == old(vectors) && bInitIRQ == old(bInitIRQ)
      {
        var p := stacks[i] - STACK_TOP_OFFSET;
        freed := freed + [p];
        assert stacks[..i + 1] == stacks[..i] + [stacks[i]];
      }
      assert stacks[..IRQ_STACKS] == stacks[..];
      bInitIRQ := 0;
    }

    /** `InstallIRQ(n, h)`: initialise on first use, save the line's vector,
        record the handler and point the vector at the line's wrapper. */
    method InstallIRQ(n: int, h: Handler, lockOk: seq<bool>, mallocs: seq<int>, stackLocks: seq<bool>)
      returns (r: int)
      requires Valid() && 0 <= n < IRQ_LINES
      requires |lockOk| == |InitLocks| && |mallocs| == IRQ_STACKS && |stackLocks| == IRQ_STACKS
      modifies this, handlers, oldVectors, stacks
      ensures Valid() && freed == old(freed)
      ensures r == 0 || r == 1
      ensures r == 0 <==> old(bInitIRQ) == 0 && !AllLocked(lockOk)
      ensures r == 0 ==> bInitIRQ == 0 && vectors == old(vectors)
      ensures r == 0 ==> handlers[..] == old(handlers[..]) && oldVectors[..] == old(oldVectors[..])
      ensures r == 1 ==> bInitIRQ == 1
      ensures r == 1 ==> handlers[..] == old(handlers[..])[n := h]
      ensures r == 1 ==> oldVectors[..] == old(oldVectors[..])[n := old(vectors)[IrqVector(n)]]
      ensures r == 1 ==> vectors == old(vectors)[IrqVector(n) := FarAddr(cs, wrappers[n])]
      ensures old(bInitIRQ) == 1 ==> stacks[..] == old(stacks[..]) && locked == old(locked)
      ensures old(bInitIRQ) == 0 && r == 1 ==> stacks[..] == StackTops(mallocs)
      ensures old(bInitIRQ) == 0 && r == 1 ==>
        locked == old(locked) + InitLocks + StackLocks(mallocs, stackLocks)
      ensures r == 0 ==> locked == old(locked) + InitLocks[..Granted(lockOk)]
      ensures r == 0 ==> stacks[..] == old(stacks[..])
    {
      if bInitIRQ == 0 {
        var ok := InitIRQ(lockOk, mallocs, stackLocks);
        if ok == 0 {
          return 0;
        }
      }
      var v := IrqVector(n);
      var wrapAddr := FarAddr(cs, wrappers[n]);
      oldVectors[n] := vectors[v];
      handlers[n] := h;
      vectors := vectors[v := wrapAddr];
      return 1;
    }

    /** `UninstallIRQ(n)`: restore the line's vector, clear its slot, and shut
        down when no slot is in use any more. */
    method UninstallIRQ(n: int)
      requires Valid() && 0 <= n < IRQ_LINES
      modifies this, handlers
      ensures Valid() && locked == old(locked)
      ensures handlers[..] == old(handlers[..])[n := NoHandler]
      ensures vectors == old(vectors)[IrqVector(n) := oldVectors[n]]
      ensures AllFree(handlers[..]) ==> bInitIRQ == 0 && freed == old(freed) + StackBases(stacks[..])
      ensures !AllFree(handlers[..]) ==> bInitIRQ == old(bInitIRQ) && freed == old(freed)
    {
      var v := IrqVector(n);
      vectors := vectors[v := oldVectors[n]];
      handlers[n] := NoHandler;
      var i := 0;
      while i < IRQ_LINES
        invariant 0 <= i <= IRQ_LINES
        invariant forall j :: 0 <= j < i ==> handlers[j] == NoHandler
      {
        if handlers[i] != NoHandler {
          return;  // a handler remains
        }
        i := i + 1;
      }
      ShutDownIRQ();
    }

    /** Two lines share the stacks: releasing the first keeps them, releasing
        the second frees them. */
    method TwoLinesShareShutdown(a: int, b: int, ha: Handler, hb: Handler,
                                 lockOk: seq<bool>, mallocs: seq<int>, stackLocks: seq<bool>)
      returns (afterFirst: int, afterSecond: int)
      requires Valid() && 0 <= a < IRQ_LINES && 0 <= b < IRQ_LINES && a != b
      requires ha != NoHandler && hb != NoHandler && AllFree(handlers[..])
      requires |lockOk| == |InitLocks| && AllLocked(lockOk) && |mallocs| == IRQ_STACKS
      requires |stackLocks| == IRQ_STACKS
      modifies this, handlers, oldVectors, stacks
      ensures afterFirst == 1 && afterSecond == 0
      ensures freed == old(freed) + StackBases(stacks[..])
    {
      var ra := InstallIRQ(a, ha, lockOk, mallocs, stackLocks);
      var rb := InstallIRQ(b, hb, lockOk, mallocs, stackLocks);
      assert handlers[..][b] == hb;
      UninstallIRQ(a);
      assert handlers[..][b] == hb;
      afterFirst := bInitIRQ;
      UninstallIRQ(b);
      assert forall i :: 0 <= i < IRQ_LINES ==> handlers[i] == NoHandler by {
        forall i | 0 <= i < IRQ_LINES
          ensures handlers[i] == NoHandler
        {
          assert old(handlers[..])[i] == NoHandler;
          assert handlers[..][i] == handlers[i];
        }
      }
      afterSecond := bInitIRQ;
    }

    /** Installing and then uninstalling a line leaves the vector table as it
        was. */
    method InstallThenUninstall(n: int, h: Handler, lockOk: seq<bool>, mallocs: seq<int>,
                                stackLocks: seq<bool>)
      returns (r: int)
      requires Valid() && 0 <= n < IRQ_LINES
      requires |lockOk| == |InitLocks| && |mallocs| == IRQ_STACKS && |stackLocks| == IRQ_STACKS
      modifies this, handlers, oldVectors, stacks
      ensures r == 1 ==> vectors == old(vectors)
      ensures r == 1 ==> handlers[..] == old(handlers[..])[n := NoHandler]
    {
      r := InstallIRQ(n, h, lockOk, mallocs, stackLocks);
      if r == 1 {
        UninstallIRQ(n);
        assert vectors == old(vectors);
      }
    }
  }
}
