/** Whole instructions: from one opcode fetch to the next, for every state of the machine. */
module Instructions {
  import opened Wrappers
  import opened Bits
  import opened ControlBits
  import opened Microcode
  import opened Program
  import opened MicrocodeSource
  import opened Machine
  import opened MicrocodeWords
  import Alu

  /** The byte that an address in the flash window shows. */
  function Code(m: Memory, i: nat): Byte {
    At(m.flash, BANK_SIZE * m.bank + i % 16384)
  }

  predicate InFlash(i: nat) {
    BANK_START <= i < 65536
  }

  /** At the start of an instruction in flash, with its opcode fetched and no interrupt around. */
  predicate Ready(m: State) {
    m.step == 0 && !m.reset && Quiet(m.memory) && m.f.high == 0 && InFlash(m.i) && m.opcode == Code(m.memory, m.i) &&
    |m.memory.flash| == FLASH_SIZE && |m.memory.ram| == RAM_SIZE && m.memory.bank < 16
  }

  /** ... and, for a masked run, with the I flag clear. */
  predicate ReadyTo(m: State, masked: bool) {
    Ready(m) && (masked ==> !m.f.i)
  }

  lemma ReadsCode(m: Memory, lines: Lines, i: Word)
    requires InFlash(i)
    ensures ReadMemory(m, lines, i) == Code(m, i)
  {
  }

  lemma Unrequested(m: Memory)
    requires Quiet(m)
    ensures ReadInterrupts(m) == m
  {
  }

  lemma OneClock(rom: seq<bv8>, m: State, w: Control, n: nat, time: nat, env: nat -> Lines, masked: bool)
    requires n > 0 && ControlWord(rom, m) == w && (masked ==> m.reset || !m.f.i)
    ensures RunMasked(rom, m, n, time, env, masked) ==
            if masked && ReadsPort(m, w) then None
            else RunMasked(rom, Execute(m, w, env(time)), n - 1, time + 1, env, masked)
  {
    hide Execute, ControlWord, ReadsPort;
  }

  /** Block `k` of the file is the plain block `b` for opcode `o`. */
  ghost predicate IsPlain(k: nat, b: Block, o: Byte) {
    k < |Source()| && Source()[k] == b && b.sel == OnOpcode(o) && Plain(b.lines) && |b.lines| <= 16
  }

  lemma NoClock(rom: seq<bv8>, m: State, time: nat, env: nat -> Lines, masked: bool)
    ensures RunMasked(rom, m, 0, time, env, masked) == Some(m)
  {
  }

  /** One clock of a plain block. */
  lemma PlainClock(rom: seq<bv8>, m: State, k: nat, b: Block, n: nat, time: nat, env: nat -> Lines, masked: bool)
    requires HasMicrocode(rom) && IsPlain(k, b, m.opcode) && m.step < |b.lines| && n > 0
    requires !m.reset && Quiet(m.memory) && m.f.high == 0 && (masked ==> !m.f.i)
    ensures var w := Stored(b.lines[m.step].control);
            RunMasked(rom, m, n, time, env, masked) ==
            if masked && ReadsPort(m, w) then None
            else RunMasked(rom, Execute(m, w, env(time)), n - 1, time + 1, env, masked)
  {
    hide Execute, ControlWord, HasMicrocode, Source, Stored, ReadsPort;
    OpcodeWord(rom, m, k);
  }

  /** The last clock of most instructions. */
  lemma FetchClock(rom: seq<bv8>, m: State, k: nat, b: Block, time: nat, env: nat -> Lines, masked: bool)
    requires HasMicrocode(rom) && IsPlain(k, b, m.opcode) && m.step < |b.lines| && b.lines[m.step].control == FETCH
    requires !m.reset && Quiet(m.memory) && m.f.high == 0 && InFlash(m.i + 1) && (masked ==> !m.f.i)
    ensures RunMasked(rom, m, 1, time, env, masked) ==
            Some(m.(i := m.i + 1, opcode := Code(m.memory, m.i + 1), step := 0))
  {
    hide HasMicrocode, IsPlain, Execute, Stored, ReadMemory, Code, RunMasked, ReadsPort, FETCH;
    PlainClock(rom, m, k, b, 1, time, env, masked);
    ExecuteFetch(m, env(time));
    ReadsCode(m.memory, env(time), m.i + 1);
    Unrequested(m.memory);
    NoClock(rom, Execute(m, Stored(FETCH), env(time)), time + 1, env, masked);
  }

  // ---- Loads, stores and sums ----

  lemma LodBlock()
    ensures IsPlain(0, Lod(), 0x00) && |Lod().lines| == 2
    ensures Lod().lines[0].control == LOAD_A && Lod().lines[1].control == FETCH
  {
  }

  function AfterLod(m: State): State
    requires InFlash(m.i + 2)
  {
    var d := Code(m.memory, m.i + 1);
    m.(a := d, f := m.f.(n := d >= 128, z := d == 0), i := m.i + 2, opcode := Code(m.memory, m.i + 2))
  }

  /** `lod #imm` loads the byte after it and sets Z and N for it. */
  lemma LodRuns(rom: seq<bv8>, m: State, time: nat, env: nat -> Lines, masked: bool)
    requires HasMicrocode(rom) && ReadyTo(m, masked) && m.opcode == 0x00 && InFlash(m.i + 2)
    ensures RunMasked(rom, m, 2, time, env, masked) == Some(AfterLod(m))
  {
    hide HasMicrocode, IsPlain, Lod, Execute, Stored, ReadMemory, Code, RunMasked, ReadsPort, LOAD_A, FETCH;
    LodBlock();
    PlainClock(rom, m, 0, Lod(), 2, time, env, masked);
    ExecuteLoadA(m, env(time));
    ReadsCode(m.memory, env(time), m.i + 1);
    FetchClock(rom, Execute(m, Stored(LOAD_A), env(time)), 0, Lod(), time + 1, env, masked);
  }

  lemma NopBlock()
    ensures IsPlain(9, Nop(), 0x50) && |Nop().lines| == 1 && Nop().lines[0].control == FETCH
  {
  }

  lemma NopRuns(rom: seq<bv8>, m: State, time: nat, env: nat -> Lines, masked: bool)
    requires HasMicrocode(rom) && ReadyTo(m, masked) && m.opcode == 0x50 && InFlash(m.i + 1)
    ensures RunMasked(rom, m, 1, time, env, masked) == Some(m.(i := m.i + 1, opcode := Code(m.memory, m.i + 1)))
  {
    hide HasMicrocode, IsPlain, Nop, RunMasked, ReadsPort, FETCH, Code;
    NopBlock();
    FetchClock(rom, m, 9, Nop(), time, env, masked);
  }

  lemma StoBlock()
    ensures IsPlain(6, Sto(), 0x19) && |Sto().lines| == 4
    ensures Sto().lines[0].control == LOAD_LOW && Sto().lines[1].control == LOAD_HIGH &&
            Sto().lines[2].control == STORE_A && Sto().lines[3].control == FETCH
  {
  }

  /** The operand after the opcode, low byte first. */
  function Operand(m: State): Word {
    Code(m.memory, m.i + 1) + 256 * Code(m.memory, m.i + 2)
  }

  /** The two clocks that read a 16-bit operand. */
  lemma OperandRuns(rom: seq<bv8>, m: State, k: nat, b: Block, n: nat, time: nat, env: nat -> Lines, masked: bool)
    requires HasMicrocode(rom) && ReadyTo(m, masked) && IsPlain(k, b, m.opcode) && InFlash(m.i + 2) && n > 1
    requires |b.lines| > 2 && b.lines[0].control == LOAD_LOW && b.lines[1].control == LOAD_HIGH
    ensures RunMasked(rom, m, n, time, env, masked) ==
            RunMasked(rom, m.(i := m.i + 2, t := Operand(m), step := 2), n - 2, time + 2, env, masked)
  {
    hide HasMicrocode, IsPlain, Execute, Stored, ReadMemory, Code, RunMasked, ReadsPort, LOAD_LOW, LOAD_HIGH;
    PlainClock(rom, m, k, b, n, time, env, masked);
    ExecuteLoadLow(m, env(time));
    ReadsCode(m.memory, env(time), m.i + 1);
    var m1 := Execute(m, Stored(LOAD_LOW), env(time));
    PlainClock(rom, m1, k, b, n - 1, time + 1, env, masked);
    ExecuteLoadHigh(m1, env(time + 1));
    ReadsCode(m1.memory, env(time + 1), m1.i + 1);
  }

  /** Code still in place, and still no interrupt. */
  predicate SameCode(m: Memory, w: Memory) {
    w.flash == m.flash && w.bank == m.bank && |w.ram| == |m.ram| && (Quiet(m) ==> Quiet(w))
  }

  lemma WriteKeeps(m: Memory, data: Byte, address: Word)
    ensures SameCode(m, WriteMemory(m, data, address))
  {
  }

  function AfterSto(m: State): State
    requires InFlash(m.i + 3)
  {
    m.(t := Operand(m), memory := WriteMemory(m.memory, m.a, Operand(m)), i := m.i + 3,
       opcode := Code(m.memory, m.i + 3))
  }

  /** `sto adr` writes the accumulator to the address. */
  lemma StoRuns(rom: seq<bv8>, m: State, time: nat, env: nat -> Lines, masked: bool)
    requires HasMicrocode(rom) && ReadyTo(m, masked) && m.opcode == 0x19 && InFlash(m.i + 3)
    ensures RunMasked(rom, m, 4, time, env, masked) == Some(AfterSto(m))
  {
    hide HasMicrocode, IsPlain, Sto, Execute, Stored, ReadMemory, WriteMemory, Operand, RunMasked, ReadsPort, STORE_A,
         FETCH, LOAD_LOW, LOAD_HIGH;
    StoBlock();
    OperandRuns(rom, m, 6, Sto(), 4, time, env, masked);
    var m2 := m.(i := m.i + 2, t := Operand(m), step := 2);
    PlainClock(rom, m2, 6, Sto(), 2, time + 2, env, masked);
    ExecuteStoreA(m2, env(time + 2));
    WriteKeeps(m.memory, m.a, Operand(m));
    FetchClock(rom, Execute(m2, Stored(STORE_A), env(time + 2)), 6, Sto(), time + 3, env, masked);
  }

  /** The block of `adc #imm`: its first step depends on the carry flag. */
  lemma AdcSelected(a: Address)
    requires IsAddress(a) && a.opcode == 0x78 && a.interrupt == 0 && a.reset == 0 && a.step < 2
    ensures Selected(Rules(Source()), a) ==
            Stored(if a.step == 1 then FETCH else if FlagBit(FlagC, a.flags) then ADD_CARRY else ADD)
  {
    hide Source, LineRules, Selected, Stored, FETCH, ADD, ADD_CARRY, Selects;
    AdcBlock();
    OnlyThisBlock(10, a);
    OneBlockDecides(Source(), 10, a);
    AdcRules();
    AdcDecides(a);
  }

  lemma AdcBlock()
    ensures |Source()| == 22 && Source()[10] == Adc() && Adc().sel == OnOpcode(0x78)
  {
  }

  const NO_CARRY: Rule := Rule(OnOpcode(0x78), 0, When(FlagC, false), ADD)
  const WITH_CARRY: Rule := Rule(OnOpcode(0x78), 0, When(FlagC, true), ADD_CARRY)
  const AFTER_SUM: Rule := Rule(OnOpcode(0x78), 1, Always, FETCH)

  lemma AdcLines()
    ensures Adc().lines == [Line(ADD, [FlagIs(FlagC, false)]), Line(ADD_CARRY, [Tilde, FlagIs(FlagC, true)]),
                            Line(FETCH, [])]
  {
  }

  lemma AdcFlags(w: Control)
    ensures RowRules(OnOpcode(0x78), w, 0, [FlagIs(FlagC, false)], false) ==
            [Rule(OnOpcode(0x78), 0, When(FlagC, false), w)]
    ensures RowRules(OnOpcode(0x78), w, 1, [Tilde, FlagIs(FlagC, true)], false) ==
            [Rule(OnOpcode(0x78), 0, When(FlagC, true), w)]
    ensures EndStep(0, [FlagIs(FlagC, false)]) == 0 && EndStep(1, [Tilde, FlagIs(FlagC, true)]) == 0
  {
    var once, back: seq<Token> := [FlagIs(FlagC, false)], [Tilde, FlagIs(FlagC, true)];
    assert once[0].FlagIs? && back[1].FlagIs?;
    assert once[1..] == [] && back[1..] == [FlagIs(FlagC, true)] && back[1..][1..] == [];
    assert PreviousStep(1) == 0;
  }

  lemma AdcRules()
    ensures LineRules(Adc().lines, Adc().sel, 0, false) == [NO_CARRY, WITH_CARRY, AFTER_SUM]
  {
    hide Adc, FETCH, ADD, ADD_CARRY, RowRules, EndStep;
    AdcBlock();
    AdcLines();
    AdcFlags(ADD);
    AdcFlags(ADD_CARRY);
    PlainRow(OnOpcode(0x78), FETCH, 1, false);
    var lines := Adc().lines;
    assert lines[1..][1..][0] == lines[2] && lines[1..][1..][1..] == [];
    assert LineRules(lines[1..][1..], OnOpcode(0x78), 1, false) == [AFTER_SUM];
    assert LineRules(lines[1..], OnOpcode(0x78), 1, false) == [WITH_CARRY] + [AFTER_SUM];
  }

  lemma AdcDecides(a: Address)
    requires IsAddress(a) && a.opcode == 0x78 && a.interrupt == 0 && a.reset == 0 && a.step < 2
    ensures Selected([NO_CARRY, WITH_CARRY, AFTER_SUM], a) ==
            Stored(if a.step == 1 then FETCH else if FlagBit(FlagC, a.flags) then ADD_CARRY else ADD)
  {
    hide Stored, FETCH, ADD, ADD_CARRY, FlagBit;
    var r := [NO_CARRY, WITH_CARRY, AFTER_SUM];
    var q := r[..2];
    assert q[1] == WITH_CARRY && q[..1] == [NO_CARRY];
    assert Matches(AFTER_SUM, a) == (a.step == 1);
    assert Matches(WITH_CARRY, a) == (a.step == 0 && FlagBit(FlagC, a.flags));
    assert Matches(NO_CARRY, a) == (a.step == 0 && !FlagBit(FlagC, a.flags));
    assert Selected(q, a) == if Matches(q[1], a) then Stored(q[1].control) else Selected(q[..1], a);
  }

  function AfterAdc(m: State): State
    requires InFlash(m.i + 2)
  {
    var sum := Sum(m, Code(m.memory, m.i + 1));
    m.(a := sum % 256, f := m.f.(c := sum >= 256, n := sum % 256 >= 128, z := sum % 256 == 0), i := m.i + 2,
       opcode := Code(m.memory, m.i + 2))
  }

  /** `adc #imm` adds the byte after it and the carry. */
  lemma AdcRuns(rom: seq<bv8>, m: State, time: nat, env: nat -> Lines, masked: bool)
    requires HasMicrocode(rom) && ReadyTo(m, masked) && m.opcode == 0x78 && InFlash(m.i + 2)
    ensures RunMasked(rom, m, 2, time, env, masked) == Some(AfterAdc(m))
  {
    hide HasMicrocode, ControlWord, Execute, Stored, ReadMemory, Code, RunMasked, ReadsPort, Source, Selected, FETCH,
         ADD, ADD_CARRY;
    AdcWord(rom, m);
    var w := if m.f.c then ADD_CARRY else ADD;
    OneClock(rom, m, Stored(w), 2, time, env, masked);
    ExecuteAdd(m, env(time), w);
    ReadsCode(m.memory, env(time), m.i + 1);
    var m1 := Execute(m, Stored(w), env(time));
    AdcWord(rom, m1);
    OneClock(rom, m1, Stored(FETCH), 1, time + 1, env, masked);
    ExecuteFetch(m1, env(time + 1));
    ReadsCode(m1.memory, env(time + 1), m1.i + 1);
    Unrequested(m1.memory);
    NoClock(rom, Execute(m1, Stored(FETCH), env(time + 1)), time + 2, env, masked);
  }

  lemma AdcWord(rom: seq<bv8>, m: State)
    requires HasMicrocode(rom) && m.opcode == 0x78 && m.step < 2 && !m.reset && Quiet(m.memory) && m.f.high == 0
    ensures ControlWord(rom, m) == Stored(if m.step == 1 then FETCH else if m.f.c then ADD_CARRY else ADD)
  {
    hide HasMicrocode, ControlWord, Stored, Source, Selected, FETCH, ADD, ADD_CARRY;
    NormalWord(rom, m);
    AdcSelected(Address(m.step, Alu.FlagByte(m.f), m.opcode, 0, 0));
  }

  // ---- Calls ----

  lemma JsrBlock()
    ensures IsPlain(16, Jsr(), 0xF8) && |Jsr().lines| == 5
    ensures Jsr().lines[0].control == LOAD_LOW && Jsr().lines[1].control == LOAD_HIGH
    ensures Jsr().lines[2].control == PushWord(CTRL_IH) && Jsr().lines[3].control == PushWord(CTRL_IL) &&
            Jsr().lines[4].control == JUMP
  {
  }

  function AfterPush(m: State, out: Control): State
    requires 0 < m.s
  {
    m.(s := m.s - 1, memory := WriteMemory(m.memory, Pushed(m, out), m.s - 1), step := m.step + 1)
  }

  /** A push, in the clock of a plain block. */
  lemma PushClock(rom: seq<bv8>, m: State, k: nat, b: Block, out: Control, n: nat, time: nat, env: nat -> Lines,
                  masked: bool)
    requires HasMicrocode(rom) && IsPlain(k, b, m.opcode) && m.step < |b.lines| && m.step < 15 && n > 0
    requires b.lines[m.step].control == PushWord(out) && Pushes(out) && 0 < m.s
    requires !m.reset && Quiet(m.memory) && m.f.high == 0 && (masked ==> !m.f.i)
    ensures RunMasked(rom, m, n, time, env, masked) == RunMasked(rom, AfterPush(m, out), n - 1, time + 1, env, masked)
    ensures SameCode(m.memory, AfterPush(m, out).memory)
  {
    hide HasMicrocode, IsPlain, Execute, Stored, RunMasked, ReadsPort, PushWord, Pushes, Pushed, WriteMemory;
    PlainClock(rom, m, k, b, n, time, env, masked);
    ExecutePush(m, env(time), out);
    WriteKeeps(m.memory, Pushed(m, out), m.s - 1);
  }

  /** The memory with an address pushed below `s`, high byte first. */
  function PushAddress(m: Memory, s: Word, address: Word): Memory
    requires s >= 2
  {
    WriteMemory(WriteMemory(m, address / 256, s - 1), address % 256, s - 2)
  }

  function AfterJsr(m: State): State
    requires InFlash(m.i + 2) && m.s >= 2
  {
    m.(s := m.s - 2, t := Operand(m), i := Operand(m), opcode := Code(m.memory, Operand(m)),
       memory := PushAddress(m.memory, m.s, m.i + 2))
  }

  /** `jsr adr` pushes the address of its last byte and jumps. */
  lemma JsrRuns(rom: seq<bv8>, m: State, time: nat, env: nat -> Lines, masked: bool)
    requires HasMicrocode(rom) && ReadyTo(m, masked) && m.opcode == 0xF8 && InFlash(m.i + 2) && InFlash(Operand(m)) &&
             m.s >= 2
    ensures RunMasked(rom, m, 5, time, env, masked) == Some(AfterJsr(m))
  {
    hide HasMicrocode, IsPlain, Jsr, Execute, Stored, ReadMemory, WriteMemory, Operand, RunMasked, ReadsPort, PushWord,
         JUMP, LOAD_LOW, LOAD_HIGH;
    JsrBlock();
    OperandRuns(rom, m, 16, Jsr(), 5, time, env, masked);
    var m2 := m.(i := m.i + 2, t := Operand(m), step := 2);
    PushClock(rom, m2, 16, Jsr(), CTRL_IH, 3, time + 2, env, masked);
    var m3 := AfterPush(m2, CTRL_IH);
    PushClock(rom, m3, 16, Jsr(), CTRL_IL, 2, time + 3, env, masked);
    var m4 := AfterPush(m3, CTRL_IL);
    PlainClock(rom, m4, 16, Jsr(), 1, time + 4, env, masked);
    ExecuteJump(m4, env(time + 4));
    ReadsCode(m4.memory, env(time + 4), m4.t);
    Unrequested(m4.memory);
    NoClock(rom, Execute(m4, Stored(JUMP), env(time + 4)), time + 5, env, masked);
  }

  predicate InRam(a: int) {
    RAM_START <= a < IO_START
  }

  function Ram(m: Memory, a: nat): Byte {
    At(m.ram, a % 16384)
  }

  lemma ReadsRam(m: Memory, lines: Lines, a: Word)
    requires InRam(a)
    ensures ReadMemory(m, lines, a) == Ram(m, a)
  {
  }

  lemma RtsBlock()
    ensures IsPlain(17, Rts(), 0xFA) && |Rts().lines| == 4
    ensures Rts().lines[0].control == TOP_LOW && Rts().lines[1].control == PopWord(CTRL_TH) &&
            Rts().lines[2].control == DROP && Rts().lines[3].control == JUMP_AFTER
  {
  }

  /** The address on top of the stack, low byte first. */
  function Top(m: State): Word {
    Ram(m.memory, m.s) + 256 * Ram(m.memory, m.s + 1)
  }

  function AfterRts(m: State): State
    requires InRam(m.s + 1) && InFlash(Top(m) + 1)
  {
    m.(s := m.s + 2, t := Top(m), i := Top(m) + 1, opcode := Code(m.memory, Top(m) + 1))
  }

  /** `rts` goes on at the byte after the address on top of the stack. */
  lemma RtsRuns(rom: seq<bv8>, m: State, time: nat, env: nat -> Lines, masked: bool)
    requires HasMicrocode(rom) && ReadyTo(m, masked) && m.opcode == 0xFA && InRam(m.s) && InRam(m.s + 1) &&
             InFlash(Top(m) + 1)
    ensures RunMasked(rom, m, 4, time, env, masked) == Some(AfterRts(m))
  {
    hide HasMicrocode, IsPlain, Rts, Execute, Stored, ReadMemory, RunMasked, ReadsPort, Ram, Code, TOP_LOW, PopWord,
         DROP, JUMP_AFTER;
    RtsBlock();
    PlainClock(rom, m, 17, Rts(), 4, time, env, masked);
    ExecuteTop(m, env(time));
    ReadsRam(m.memory, env(time), m.s);
    var m1 := Execute(m, Stored(TOP_LOW), env(time));
    PlainClock(rom, m1, 17, Rts(), 3, time + 1, env, masked);
    ExecutePopHigh(m1, env(time + 1));
    ReadsRam(m.memory, env(time + 1), m.s + 1);
    var m2 := Execute(m1, Stored(PopWord(CTRL_TH)), env(time + 1));
    assert m2 == m.(s := m.s + 1, t := Top(m), step := 2);
    PlainClock(rom, m2, 17, Rts(), 2, time + 2, env, masked);
    ExecuteDrop(m2, env(time + 2));
    var m3 := m2.(s := m.s + 2, step := 3);
    PlainClock(rom, m3, 17, Rts(), 1, time + 3, env, masked);
    ExecuteJump(m3, env(time + 3));
    ReadsCode(m3.memory, env(time + 3), m3.t + 1);
    Unrequested(m3.memory);
    NoClock(rom, Execute(m3, Stored(JUMP_AFTER), env(time + 3)), time + 4, env, masked);
  }
}
