/** Software interrupts: `brk` saves the processor's state and enters the handler, `rti` restores it. */
module Breaks {
  import opened Wrappers
  import opened Bits
  import opened ControlBits
  import opened Microcode
  import opened MicrocodeSource
  import opened Machine
  import opened MicrocodeWords
  import opened Instructions
  import opened Calls
  import Alu

  // ---- brk ----

  lemma BrkBlock()
    ensures IsPlain(19, Brk(), 0xFF) && |Brk().lines| == 11
    ensures Brk().lines[0].control == PushWord(CTRL_KO) && Brk().lines[1].control == PushWord(CTRL_IH)
    ensures Brk().lines[2].control == PushWord(CTRL_IL) && Brk().lines[3].control == PushWord(CTRL_AO)
    ensures Brk().lines[4].control == PushWord(CTRL_FO)
    ensures Brk().lines[5].control == ONES_LOW && Brk().lines[6].control == ONES_HIGH &&
            Brk().lines[7].control == BANK_ZERO
    ensures Brk().lines[8].control == VECTOR_HIGH && Brk().lines[9].control == VECTOR_LOW &&
            Brk().lines[10].control == JUMP
  {
  }

  /** The registers on the stack, in the order `brk` pushes them. */
  function AfterSaving(m: State): State
    requires m.s >= 5
  {
    AfterPush(AfterPush(AfterPush(AfterPush(AfterPush(m, CTRL_KO), CTRL_IH), CTRL_IL), CTRL_AO), CTRL_FO)
  }

  lemma SavingRuns(rom: seq<bv8>, m: State, n: nat, time: nat, env: nat -> Lines, masked: bool)
    requires HasMicrocode(rom) && ReadyTo(m, masked) && m.opcode == 0xFF && m.s >= 5 && n >= 5
    ensures RunMasked(rom, m, n, time, env, masked) == RunMasked(rom, AfterSaving(m), n - 5, time + 5, env, masked)
    ensures SameCode(m.memory, AfterSaving(m).memory) && Quiet(AfterSaving(m).memory)
  {
    hide HasMicrocode, IsPlain, Brk, RunMasked, ReadsPort, PushWord, Pushed, WriteMemory, Code;
    BrkBlock();
    var m1 := AfterPush(m, CTRL_KO);
    PushClock(rom, m, 19, Brk(), CTRL_KO, n, time, env, masked);
    var m2 := AfterPush(m1, CTRL_IH);
    PushClock(rom, m1, 19, Brk(), CTRL_IH, n - 1, time + 1, env, masked);
    var m3 := AfterPush(m2, CTRL_IL);
    PushClock(rom, m2, 19, Brk(), CTRL_IL, n - 2, time + 2, env, masked);
    var m4 := AfterPush(m3, CTRL_AO);
    PushClock(rom, m3, 19, Brk(), CTRL_AO, n - 3, time + 3, env, masked);
    PushClock(rom, m4, 19, Brk(), CTRL_FO, n - 4, time + 4, env, masked);
  }

  /** The handler's address: the word at $FFFC of bank 0. */
  function Handler(m: Memory): Word {
    Code(m.(bank := 0), 0xFFFC) + 256 * Code(m.(bank := 0), 0xFFFD)
  }

  /** At the handler, in bank 0. */
  function AtHandler(m: State): State {
    var h := Handler(m.memory);
    m.(k := 0, memory := m.memory.(bank := 0), t := h, i := h, opcode := Code(m.memory.(bank := 0), h), step := 0)
  }

  /** Three clocks that put the address $FFFF on the transfer pointer and select bank 0. */
  lemma TopOfBankZero(rom: seq<bv8>, m: State, n: nat, time: nat, env: nat -> Lines, masked: bool)
    requires HasMicrocode(rom) && (masked ==> !m.f.i)
    requires m.step == 5 && !m.reset && Quiet(m.memory) && m.f.high == 0 && m.opcode == 0xFF &&
             n >= 3
    ensures RunMasked(rom, m, n, time, env, masked) ==
            RunMasked(rom, m.(t := 0xFFFF, i := 0xFFFE, k := 0, memory := m.memory.(bank := 0), step := 8), n - 3,
                      time + 3, env, masked)
  {
    hide HasMicrocode, IsPlain, Brk, Execute, Stored, RunMasked, ReadsPort, ONES_LOW, ONES_HIGH, BANK_ZERO;
    BrkBlock();
    PlainClock(rom, m, 19, Brk(), n, time, env, masked);
    ExecuteOnesLow(m, env(time));
    var m1 := Execute(m, Stored(ONES_LOW), env(time));
    PlainClock(rom, m1, 19, Brk(), n - 1, time + 1, env, masked);
    ExecuteOnesHigh(m1, env(time + 1));
    var m2 := Execute(m1, Stored(ONES_HIGH), env(time + 1));
    assert m2 == m.(t := 0xFFFF, step := 7);
    PlainClock(rom, m2, 19, Brk(), n - 2, time + 2, env, masked);
    ExecuteBankZero(m2, env(time + 2));
  }

  /** The second half of `brk`, from its fifth step on. */
  lemma VectorRuns(rom: seq<bv8>, m: State, time: nat, env: nat -> Lines, masked: bool)
    requires HasMicrocode(rom) && (masked ==> !m.f.i)
    requires m.step == 5 && !m.reset && Quiet(m.memory) && m.f.high == 0 && m.opcode == 0xFF
    requires InFlash(Handler(m.memory))
    ensures RunMasked(rom, m, 6, time, env, masked) == Some(AtHandler(m))
  {
    hide HasMicrocode, IsPlain, Brk, Execute, Stored, ReadMemory, RunMasked, ReadsPort, Code, VECTOR_HIGH, VECTOR_LOW,
         JUMP;
    BrkBlock();
    TopOfBankZero(rom, m, 6, time, env, masked);
    var m3 := m.(t := 0xFFFF, i := 0xFFFE, k := 0, memory := m.memory.(bank := 0), step := 8);
    PlainClock(rom, m3, 19, Brk(), 3, time + 3, env, masked);
    ExecuteVectorHigh(m3, env(time + 3));
    ReadsCode(m3.memory, env(time + 3), 0xFFFD);
    var m4 := Execute(m3, Stored(VECTOR_HIGH), env(time + 3));
    PlainClock(rom, m4, 19, Brk(), 2, time + 4, env, masked);
    ExecuteVectorLow(m4, env(time + 4));
    ReadsCode(m3.memory, env(time + 4), 0xFFFC);
    var m5 := Execute(m4, Stored(VECTOR_LOW), env(time + 4));
    assert m5 == m3.(t := Handler(m.memory), i := 0xFFFD, step := 10);
    PlainClock(rom, m5, 19, Brk(), 1, time + 5, env, masked);
    ExecuteJump(m5, env(time + 5));
    ReadsCode(m5.memory, env(time + 5), m5.t);
    Unrequested(m5.memory);
    NoClock(rom, Execute(m5, Stored(JUMP), env(time + 5)), time + 6, env, masked);
  }

  /** `brk` pushes K, I, A and F and goes to the handler in bank 0. */
  lemma BrkRuns(rom: seq<bv8>, m: State, time: nat, env: nat -> Lines, masked: bool)
    requires HasMicrocode(rom) && ReadyTo(m, masked) && m.opcode == 0xFF && m.s >= 5 && InFlash(Handler(m.memory))
    ensures RunMasked(rom, m, 11, time, env, masked) == Some(AtHandler(AfterSaving(m)))
    ensures SameCode(m.memory, AfterSaving(m).memory) && Quiet(AfterSaving(m).memory)
  {
    hide HasMicrocode, RunMasked, ReadsPort, Code, WriteMemory;
    SavingRuns(rom, m, 11, time, env, masked);
    assert Handler(AfterSaving(m).memory) == Handler(m.memory) by {
      SameHandler(m.memory, AfterSaving(m).memory);
    }
    VectorRuns(rom, AfterSaving(m), time + 5, env, masked);
  }

  lemma SameHandler(m: Memory, n: Memory)
    requires SameCode(m, n)
    ensures Handler(n) == Handler(m)
  {
  }

  // ---- rti ----

  lemma RtiBlock()
    ensures IsPlain(18, Rti(), 0xFE) && |Rti().lines| == 7
    ensures Rti().lines[0].control == TOP_FLAGS && Rti().lines[1].control == PopWord(CTRL_AI)
    ensures Rti().lines[2].control == PopWord(CTRL_TL) && Rti().lines[3].control == PopWord(CTRL_TH)
    ensures Rti().lines[4].control == PopWord(CTRL_KI) && Rti().lines[5].control == DROP &&
            Rti().lines[6].control == JUMP_AFTER
  {
  }

  /** The address that `rti` returns behind. */
  function SavedAddress(m: State): Word {
    Ram(m.memory, m.s + 2) + 256 * Ram(m.memory, m.s + 3)
  }

  /** The five bytes `rti` takes are on the stack in RAM, and the saved flags have no upper half. */
  predicate CanRestore(m: State) {
    InRam(m.s) && InRam(m.s + 4) && Ram(m.memory, m.s) < 16 && InFlash(SavedAddress(m) + 1)
  }

  function Restored(m: State): State
    requires CanRestore(m)
  {
    var memory, ret := m.memory.(bank := Ram(m.memory, m.s + 4)), SavedAddress(m) + 1;
    m.(f := Alu.ByteFlags(Ram(m.memory, m.s)), a := BitOr(m.a, Ram(m.memory, m.s + 1)) % 256, t := SavedAddress(m),
       k := Ram(m.memory, m.s + 4), memory := memory, s := m.s + 5, i := ret, opcode := Code(memory, ret), step := 0)
  }

  function HalfRestored(m: State): State
    requires CanRestore(m)
  {
    m.(f := Alu.ByteFlags(Ram(m.memory, m.s)), a := BitOr(m.a, Ram(m.memory, m.s + 1)) % 256, t := SavedAddress(m),
       s := m.s + 3, step := 4)
  }

  /** The first half of `rti`: the flags, the accumulator (or-ed) and the return address. */
  lemma RestoringRuns(rom: seq<bv8>, m: State, time: nat, env: nat -> Lines, masked: bool)
    requires HasMicrocode(rom) && ReadyTo(m, masked) && m.opcode == 0xFE && CanRestore(m)
    requires masked ==> !Restored(m).f.i
    ensures RunMasked(rom, m, 7, time, env, masked) == RunMasked(rom, HalfRestored(m), 3, time + 4, env, masked)
  {
    hide HasMicrocode, IsPlain, Rti, Execute, Stored, ReadMemory, RunMasked, ReadsPort, Code, Ram, TOP_FLAGS, PopWord,
         BitOr;
    RtiBlock();
    PlainClock(rom, m, 18, Rti(), 7, time, env, masked);
    ExecuteTopFlags(m, env(time));
    ReadsRam(m.memory, env(time), m.s);
    var m1 := Execute(m, Stored(TOP_FLAGS), env(time));
    PlainClock(rom, m1, 18, Rti(), 6, time + 1, env, masked);
    ExecutePopAK(m1, env(time + 1));
    ReadsRam(m.memory, env(time + 1), m.s + 1);
    var m2 := Execute(m1, Stored(PopWord(CTRL_AI)), env(time + 1));
    PlainClock(rom, m2, 18, Rti(), 5, time + 2, env, masked);
    ExecutePopLow(m2, env(time + 2));
    ReadsRam(m.memory, env(time + 2), m.s + 2);
    var m3 := Execute(m2, Stored(PopWord(CTRL_TL)), env(time + 2));
    PlainClock(rom, m3, 18, Rti(), 4, time + 3, env, masked);
    ExecutePopHigh(m3, env(time + 3));
    ReadsRam(m.memory, env(time + 3), m.s + 3);
  }

  lemma RtiRuns(rom: seq<bv8>, m: State, time: nat, env: nat -> Lines, masked: bool)
    requires HasMicrocode(rom) && ReadyTo(m, masked) && m.opcode == 0xFE && CanRestore(m)
    requires masked ==> !Restored(m).f.i
    ensures RunMasked(rom, m, 7, time, env, masked) == Some(Restored(m))
  {
    hide HasMicrocode, IsPlain, Rti, Execute, Stored, ReadMemory, RunMasked, ReadsPort, Code, Ram, PopWord, DROP,
         JUMP_AFTER, BitOr;
    RtiBlock();
    RestoringRuns(rom, m, time, env, masked);
    var m4 := HalfRestored(m);
    PlainClock(rom, m4, 18, Rti(), 3, time + 4, env, masked);
    ExecutePopAK(m4, env(time + 4));
    ReadsRam(m.memory, env(time + 4), m.s + 4);
    var m5 := Execute(m4, Stored(PopWord(CTRL_KI)), env(time + 4));
    PlainClock(rom, m5, 18, Rti(), 2, time + 5, env, masked);
    ExecuteDrop(m5, env(time + 5));
    var m6 := m5.(s := m.s + 5, step := 6);
    PlainClock(rom, m6, 18, Rti(), 1, time + 6, env, masked);
    ExecuteJump(m6, env(time + 6));
    ReadsCode(m6.memory, env(time + 6), m6.t + 1);
    Unrequested(m6.memory);
    NoClock(rom, Execute(m6, Stored(JUMP_AFTER), env(time + 6)), time + 7, env, masked);
  }

  /** `rti` gives the accumulator back exactly when the handler has left no bit in it that was not saved. */
  lemma RtiRestoresA(m: State)
    requires CanRestore(m)
    ensures Restored(m).a == Ram(m.memory, m.s + 1) <==>
            forall i :: 0 <= i < 8 && ToBits(m.a, 8)[i] ==> ToBits(Ram(m.memory, m.s + 1), 8)[i]
  {
    hide ToBits, BitOr, Ram, Code;
    Alu.OrAbsorbed(m.a, Ram(m.memory, m.s + 1));
    Alu.AndOrByte(m.a, Ram(m.memory, m.s + 1));
  }

  /** A handler that returns with 1 in the accumulator where 0 was saved: the stack at $8000 holds zeros, and the
      return address $C000. */
  function Dirty(): State {
    var ram := seq(RAM_SIZE, i requires 0 <= i < RAM_SIZE => if i == 3 then 0xC0 else 0);
    var flash := seq(FLASH_SIZE, i requires 0 <= i < FLASH_SIZE => 0xFE);
    State(0, false, 1, 0, 0, 0xFE, 0, 0, 0x8000, 0xC000, 0, Alu.Flags(false, false, false, false, 0),
          Memory([], ram, flash, 0, Interrupts(false, false, false, false, false, false), false, true, true))
  }

  predicate Ended(run: Option<State>, a: Byte) {
    run.Some? && run.value.a == a
  }

  /** So `rti` does not always give the accumulator back. */
  lemma RtiKeepsABit(rom: seq<bv8>, time: nat, env: nat -> Lines, masked: bool)
    requires HasMicrocode(rom)
    ensures var m := Dirty();
            Ready(m) && m.opcode == 0xFE && CanRestore(m) && Ram(m.memory, m.s + 1) == 0 &&
            Ended(RunMasked(rom, m, 7, time, env, masked), 1)
  {
    hide HasMicrocode, RunMasked, ReadsPort, BitOr;
    RtiRuns(rom, Dirty(), time, env, masked);
    Alu.OrZero(1);
  }

  // ---- There and back ----

  /** The state a break can be taken in: room for five bytes on the stack, and a handler that returns at once. */
  predicate CanBreak(m: State) {
    Ready(m) && m.opcode == 0xFF && m.k == m.memory.bank && InRam(m.s - 5) && InRam(m.s - 1) && InFlash(m.i + 1) &&
    InFlash(Handler(m.memory)) && Code(m.memory.(bank := 0), Handler(m.memory)) == 0xFE
  }

  /** The five bytes as they are on the stack. */
  lemma SavedBytes(m: State)
    requires Ready(m) && InRam(m.s - 5) && InRam(m.s - 1)
    ensures var n := AfterSaving(m).memory;
            Ram(n, m.s - 1) == m.k && Ram(n, m.s - 2) == m.i / 256 && Ram(n, m.s - 3) == m.i % 256 &&
            Ram(n, m.s - 4) == m.a &&
            Ram(n, m.s - 5) == Alu.FlagByte(m.f) % 256 && KeptOutside(m.memory, n, m.s - 5, m.s)
  {
    hide WriteMemory, Ram, Code, Alu.FlagByte;
    var m1 := AfterPush(m, CTRL_KO);
    RamWritten(m.memory, m.k, m.s - 1);
    var m2 := AfterPush(m1, CTRL_IH);
    RamWritten(m1.memory, m.i / 256, m.s - 2);
    var m3 := AfterPush(m2, CTRL_IL);
    RamWritten(m2.memory, m.i % 256, m.s - 3);
    var m4 := AfterPush(m3, CTRL_AO);
    RamWritten(m3.memory, m.a, m.s - 4);
    RamWritten(m4.memory, Alu.FlagByte(m.f) % 256, m.s - 5);
  }

  lemma FlagsSmall(f: Alu.Flags)
    requires f.high == 0
    ensures Alu.FlagByte(f) < 16
  {
  }

  lemma FlagsComeBack(f: Alu.Flags)
    requires f.high == 0
    ensures Alu.FlagByte(f) < 16 && Alu.ByteFlags(Alu.FlagByte(f) % 256) == f
  {
    hide Alu.FlagByte, Alu.ByteFlags;
    FlagsSmall(f);
    Alu.FlagRoundTrip(f, 0);
  }

  lemma SavingFields(m: State)
    requires Ready(m) && m.s >= 5
    ensures AfterSaving(m) == m.(s := m.s - 5, memory := AfterSaving(m).memory, step := 5)
  {
    hide WriteMemory, Pushed;
  }

  lemma BankIsNotRam(m: Memory, bank: Byte)
    ensures forall a: nat :: Ram(m.(bank := bank), a) == Ram(m, a)
  {
  }

  /** Bank 0 shows the same code whatever bank is selected. */
  lemma SameBankZero(m: Memory, n: Memory, i: nat)
    requires SameCode(m, n)
    ensures Code(n.(bank := 0), i) == Code(m.(bank := 0), i)
  {
  }

  /** At the handler everything is there that `rti` restores. */
  lemma HandlerCanRestore(m: State)
    requires CanBreak(m)
    ensures m.s >= 5
    ensures var h := AtHandler(AfterSaving(m));
            Ready(h) && h.f.i == m.f.i && h.opcode == 0xFE && CanRestore(h) && SavedAddress(h) == m.i
  {
    hide Code, Ram, AfterSaving, Alu.FlagByte, KeptOutside;
    SavingFields(m);
    SavedBytes(m);
    var saved := AfterSaving(m);
    assert SameCode(m.memory, saved.memory) by { OutsideIsCode(m.memory, saved.memory, m.s - 5, m.s); }
    BankIsNotRam(saved.memory, 0);
    FlagsSmall(m.f);
    SameHandler(m.memory, saved.memory);
    SameBankZero(m.memory, saved.memory, Handler(m.memory));
  }

  lemma OutsideIsCode(m: Memory, n: Memory, lo: int, hi: int)
    requires KeptOutside(m, n, lo, hi)
    ensures SameCode(m, n)
  {
  }

  /** What is restored is what was saved. */
  lemma RestoresSaved(m: State)
    requires CanBreak(m)
    ensures m.s >= 5 && CanRestore(AtHandler(AfterSaving(m)))
    ensures var n := Restored(AtHandler(AfterSaving(m)));
            n.a == m.a && n.f == m.f && n.k == m.k && n.s == m.s && n.i == m.i + 1 && n.x == m.x && n.p == m.p &&
            n.b == m.b &&
            Ready(n) && KeptOutside(m.memory, n.memory, m.s - 5, m.s)
  {
    hide Code, Ram, AfterSaving, Alu.FlagByte, Alu.ByteFlags, BitOr, KeptOutside;
    HandlerCanRestore(m);
    SavingFields(m);
    SavedBytes(m);
    var saved := AfterSaving(m);
    var n := Restored(AtHandler(saved));
    BankIsNotRam(saved.memory, 0);
    FlagsComeBack(m.f);
    Alu.OrZero(m.a);
    BankBack(m.memory, saved.memory, m.s - 5, m.s);
    assert n.memory == saved.memory.(bank := 0).(bank := m.k);
    SameCodeReads(m.memory, n.memory, m.i + 1);
  }

  lemma BankBack(m: Memory, n: Memory, lo: int, hi: int)
    requires KeptOutside(m, n, lo, hi)
    ensures KeptOutside(m, n.(bank := 0).(bank := m.bank), lo, hi) && SameCode(m, n.(bank := 0).(bank := m.bank))
  {
  }

  /** After a break: every register but the transfer pointer as before, at the byte behind the `brk`, and RAM outside
      the five stack bytes unchanged. */
  ghost predicate Resumed(m: State, n: State) {
    n.a == m.a && n.f == m.f && n.k == m.k && n.s == m.s && n.i == m.i + 1 && n.x == m.x && n.p == m.p && n.b == m.b &&
    Ready(n) && KeptOutside(m.memory, n.memory, m.s - 5, m.s)
  }

  /** A break into a handler that is a single `rti` comes back after 18 clocks. */
  lemma BreakComesBack(rom: seq<bv8>, m: State, time: nat, env: nat -> Lines, masked: bool)
    requires HasMicrocode(rom) && CanBreak(m) && (masked ==> !m.f.i)
    ensures var run := RunMasked(rom, m, 18, time, env, masked); run.Some? && Resumed(m, run.value)
  {
    hide HasMicrocode, RunMasked, ReadsPort, Code, Ram, AfterSaving, AtHandler, Restored, CanRestore, Handler,
         KeptOutside;
    HandlerCanRestore(m);
    RestoresSaved(m);
    BrkRuns(rom, m, time, env, masked);
    MaskedSplit(rom, m, 11, 7, time, env, masked);
    RtiRuns(rom, AtHandler(AfterSaving(m)), time + 11, env, masked);
  }
}
