/** The word the machine reads in each of its states, and what single words do to the machine. */
module MicrocodeWords {
  import opened Bits
  import opened ControlBits
  import opened Microcode
  import opened Program
  import opened MicrocodeSource
  import MicrocodeText
  import opened Machine
  import opened ControlRom
  import MicrocodeCompiler
  import Alu

  /** No interrupt is requested or latched. */
  predicate Quiet(m: Memory) {
    !m.interrupts.in0 && !m.interrupts.in1 && !m.interrupts.out0 && !m.interrupts.out1
  }

  /** The ROM holds what the rules of the microcode's file say. (Said of all rules equal to the file's, so that the 22
      blocks of the file stay out of proofs that do not look at them.) */
  ghost predicate HasMicrocode(rom: seq<bv8>) {
    forall rules :: rules == Rules(Source()) ==> Programmed(rom, rules)
  }

  /** The compiler, given the text of the microcode, makes such a ROM. */
  lemma CompiledMicrocode(rom: seq<bv8>)
    requires |rom| == MicrocodeCompiler.OUTPUT_SIZE && RulesOf(MicrocodeText.SourceTokens()).Some?
    requires var rules := RulesOf(MicrocodeText.SourceTokens()).value;
             forall a :: IsAddress(a) ==> MicrocodeCompiler.RomWord(rom, a) == Selected(rules, a)
    ensures HasMicrocode(rom)
  {
    hide Source, MicrocodeText.SourceTokens;
    MicrocodeText.SourceCompiles();
  }

  lemma FlagNibble(m: State, reset: bool)
    requires m.f.high == 0 && m.step < 16
    ensures AddressOf(m.step, Alu.FlagByte(m.f) % 256, m.opcode, false, false, reset) ==
            Address(m.step, Alu.FlagByte(m.f), m.opcode, 0, BitVal(reset))
    ensures Alu.FlagByte(m.f) < 16
  {
    hide BitOr;
    OrNothing(m.opcode);
  }

  /** Without reset and interrupts the word is what the program says for the opcode, flags and step. */
  lemma NormalWord(rom: seq<bv8>, m: State)
    requires HasMicrocode(rom) && m.step < 16 && !m.reset && Quiet(m.memory) && m.f.high == 0
    ensures var a := Address(m.step, Alu.FlagByte(m.f), m.opcode, 0, 0);
            IsAddress(a) && ControlWord(rom, m) == Selected(Rules(Source()), a)
  {
    hide Source, ReadControl, Selected, AddressOf;
    FlagNibble(m, m.reset);
    ReadsSelected(rom, Rules(Source()), m.step, Alu.FlagByte(m.f) % 256, m.opcode, false, false, m.reset);
  }

  /** The control word while an opcode with a plain block is executed. */
  lemma OpcodeWord(rom: seq<bv8>, m: State, k: nat)
    requires HasMicrocode(rom) && k < |Source()| && Source()[k].sel == OnOpcode(m.opcode) && Plain(Source()[k].lines)
    requires m.step < |Source()[k].lines| <= 16 && !m.reset && Quiet(m.memory) && m.f.high == 0
    ensures ControlWord(rom, m) == Stored(Source()[k].lines[m.step].control)
  {
    hide Source, LineRules, ControlWord, HasMicrocode, Selected, Stored, Hit;
    NormalWord(rom, m);
    var a := Address(m.step, Alu.FlagByte(m.f), m.opcode, 0, 0);
    OnlyThisBlock(k, a);
    OneBlockDecides(Source(), k, a);
    PlainLines(Source()[k].lines, Source()[k].sel, 0, k == |Source()| - 1, a);
  }

  lemma OnlyThisBlock(k: nat, a: Address)
    requires a.opcode < 256 && k < |Source()| && Source()[k].sel == OnOpcode(a.opcode) && a.interrupt == 0 &&
             a.reset == 0
    ensures forall i :: 0 <= i < |Source()| && i != k ==> !Selects(Source()[i].sel, a)
  {
    hide Source, SelectorAt;
    SourceSelectors();
    forall i | 0 <= i < |Source()| && i != k
      ensures !Selects(Source()[i].sel, a)
    {
      DistinctSelectors(i, k);
    }
  }

  lemma DistinctSelectors(i: nat, k: nat)
    requires i < 22 && k < 22 && i != k
    ensures SelectorAt(i) != SelectorAt(k)
  {
  }

  // ---- Words that read the byte after the instruction pointer ----

  function Next(i: Word): Word {
    (i + 1) % 65536
  }

  function After(m: State, lines: Lines): Byte {
    ReadMemory(m.memory, lines, Next(m.i))
  }

  /** The last word of almost every instruction fetches the next opcode. */
  const FETCH: Control := CTRL_IO | CTRL_XZ | CTRL_XC | CTRL_II | CTRL_MO | CTRL_EO | CTRL_CI

  lemma ExecuteFetch(m: State, lines: Lines)
    ensures Execute(m, Stored(FETCH), lines) ==
            m.(i := Next(m.i), opcode := After(m, lines), reset := false, memory := ReadInterrupts(m.memory), step := 0)
    ensures !IsPort(Next(m.i)) ==> !ReadsPort(m, Stored(FETCH))
  {
  }

  const LOAD_LOW: Control := CTRL_IO | CTRL_XZ | CTRL_XC | CTRL_II | CTRL_MO | CTRL_EO | CTRL_TL
  const LOAD_HIGH: Control := CTRL_IO | CTRL_XZ | CTRL_XC | CTRL_II | CTRL_MO | CTRL_EO | CTRL_TH

  lemma ExecuteLoadLow(m: State, lines: Lines)
    requires m.step < 15
    ensures Execute(m, Stored(LOAD_LOW), lines) ==
            m.(i := Next(m.i), t := m.t / 256 * 256 + After(m, lines), step := m.step + 1)
    ensures !IsPort(Next(m.i)) ==> !ReadsPort(m, Stored(LOAD_LOW))
  {
    hide ReadMemory;
  }

  lemma ExecuteLoadHigh(m: State, lines: Lines)
    requires m.step < 15
    ensures Execute(m, Stored(LOAD_HIGH), lines) ==
            m.(i := Next(m.i), t := After(m, lines) * 256 + m.t % 256, step := m.step + 1)
    ensures !IsPort(Next(m.i)) ==> !ReadsPort(m, Stored(LOAD_HIGH))
  {
    hide ReadMemory;
  }

  const LOAD_X: Control := CTRL_IO | CTRL_XZ | CTRL_XC | CTRL_II | CTRL_MO | CTRL_EO | CTRL_XI

  lemma ExecuteLoadX(m: State, lines: Lines)
    requires m.step < 15
    ensures Execute(m, Stored(LOAD_X), lines) == m.(i := Next(m.i), x := After(m, lines), step := m.step + 1)
    ensures !IsPort(Next(m.i)) ==> !ReadsPort(m, Stored(LOAD_X))
  {
    hide ReadMemory;
  }

  const LOAD_A: Control := CTRL_IO | CTRL_XZ | CTRL_XC | CTRL_II | CTRL_MO | CTRL_EZ | CTRL_EO | CTRL_AI | CTRL_FI

  lemma ExecuteLoadA(m: State, lines: Lines)
    requires m.step < 15
    ensures var d := After(m, lines);
            Execute(m, Stored(LOAD_A), lines) == m.(i := Next(m.i), a := d, f := m.f.(n := d >= 128, z := d == 0),
                                                    step := m.step + 1)
    ensures !IsPort(Next(m.i)) ==> !ReadsPort(m, Stored(LOAD_A))
  {
    hide BitOr, Alu.And, ReadMemory;
    Alu.OrZero(After(m, lines));
  }

  const STORE_A: Control := CTRL_TO | CTRL_XZ | CTRL_NA | CTRL_AO | CTRL_EO | CTRL_MI

  lemma ExecuteStoreA(m: State, lines: Lines)
    requires m.step < 15
    ensures Execute(m, Stored(STORE_A), lines) == m.(memory := WriteMemory(m.memory, m.a, m.t), step := m.step + 1)
    ensures !ReadsPort(m, Stored(STORE_A))
  {
    hide WriteMemory;
  }

  // ---- Words that use the stack pointer or the transfer pointer ----

  predicate Pushes(out: Control) {
    out == CTRL_KO || out == CTRL_IH || out == CTRL_IL || out == CTRL_AO || out == CTRL_FO
  }

  function Pushed(m: State, out: Control): Byte {
    if out == CTRL_KO then m.k
    else if out == CTRL_IH then m.i / 256
    else if out == CTRL_IL then m.i % 256
    else if out == CTRL_AO then m.a
    else Alu.FlagByte(m.f) % 256
  }

  function PushWord(out: Control): Control {
    CTRL_SO | CTRL_XZ | CTRL_XN | CTRL_SI | out | CTRL_EO | CTRL_MI
  }

  /** A push stores below the stack pointer and moves it there. */
  lemma ExecutePush(m: State, lines: Lines, out: Control)
    requires m.step < 15 && Pushes(out) && 0 < m.s
    ensures Execute(m, Stored(PushWord(out)), lines) ==
            m.(s := m.s - 1, memory := WriteMemory(m.memory, Pushed(m, out), m.s - 1), step := m.step + 1)
    ensures !ReadsPort(m, Stored(PushWord(out)))
  {
    hide WriteMemory, Alu.FlagByte;
    if out == CTRL_KO { } else if out == CTRL_IH { } else if out == CTRL_IL { } else if out == CTRL_AO { } else { }
  }

  /** The top of the stack, without moving the pointer, into the low half of the transfer pointer. */
  const TOP_LOW: Control := CTRL_SO | CTRL_XZ | CTRL_NA | CTRL_MO | CTRL_EO | CTRL_TL
  const TOP_FLAGS: Control := CTRL_SO | CTRL_XZ | CTRL_NA | CTRL_MO | CTRL_EO | CTRL_ND | CTRL_FI | CTRL_FD

  lemma ExecuteTop(m: State, lines: Lines)
    requires m.step < 15
    ensures Execute(m, Stored(TOP_LOW), lines) == m.(t := m.t / 256 * 256 + ReadMemory(m.memory, lines, m.s),
                                                     step := m.step + 1)
    ensures !IsPort(m.s) ==> !ReadsPort(m, Stored(TOP_LOW))
  {
    hide ReadMemory;
  }

  lemma ExecuteTopFlags(m: State, lines: Lines)
    requires m.step < 15
    ensures Execute(m, Stored(TOP_FLAGS), lines) == m.(f := Alu.ByteFlags(ReadMemory(m.memory, lines, m.s)),
                                                       step := m.step + 1)
    ensures !IsPort(m.s) ==> !ReadsPort(m, Stored(TOP_FLAGS))
  {
    hide ReadMemory, Alu.ByteFlags;
  }

  /** Moves up to the next byte on the stack and loads it. */
  function PopWord(into: Control): Control {
    CTRL_SO | CTRL_XZ | CTRL_XC | CTRL_SI | CTRL_MO | CTRL_EO | into
  }

  lemma ExecutePopLow(m: State, lines: Lines)
    requires m.step < 15 && m.s < 65535
    ensures Execute(m, Stored(PopWord(CTRL_TL)), lines) ==
            m.(s := m.s + 1, t := m.t / 256 * 256 + ReadMemory(m.memory, lines, m.s + 1), step := m.step + 1)
    ensures !IsPort(m.s + 1) ==> !ReadsPort(m, Stored(PopWord(CTRL_TL)))
  {
    hide ReadMemory;
  }

  lemma ExecutePopHigh(m: State, lines: Lines)
    requires m.step < 15 && m.s < 65535
    ensures Execute(m, Stored(PopWord(CTRL_TH)), lines) ==
            m.(s := m.s + 1, t := ReadMemory(m.memory, lines, m.s + 1) * 256 + m.t % 256, step := m.step + 1)
    ensures !IsPort(m.s + 1) ==> !ReadsPort(m, Stored(PopWord(CTRL_TH)))
  {
    hide ReadMemory;
  }

  /** The accumulator is or-ed with the byte, not loaded. */
  lemma ExecutePopAK(m: State, lines: Lines)
    requires m.step < 15 && m.s < 65535
    ensures var d := ReadMemory(m.memory, lines, m.s + 1);
            Execute(m, Stored(PopWord(CTRL_AI)), lines) == m.(s := m.s + 1, a := BitOr(m.a, d) % 256,
                                                              step := m.step + 1) &&
            Execute(m, Stored(PopWord(CTRL_KI)), lines) == m.(s := m.s + 1, k := d, memory := m.memory.(bank := d),
                                                              step := m.step + 1)
    ensures !IsPort(m.s + 1) ==> !ReadsPort(m, Stored(PopWord(CTRL_AI)))
    ensures !IsPort(m.s + 1) ==> !ReadsPort(m, Stored(PopWord(CTRL_KI)))
  {
    hide ReadMemory, BitOr, Alu.And;
  }

  const DROP: Control := CTRL_SO | CTRL_XZ | CTRL_XC | CTRL_SI | CTRL_ZO | CTRL_EO | CTRL_ND

  lemma ExecuteDrop(m: State, lines: Lines)
    requires m.step < 15 && m.s < 65535
    ensures Execute(m, Stored(DROP), lines) == m.(s := m.s + 1, step := m.step + 1)
    ensures !ReadsPort(m, Stored(DROP))
  {
  }

  /** Jumps to the transfer pointer, or to the byte after it. */
  const JUMP: Control := CTRL_TO | CTRL_XZ | CTRL_II | CTRL_MO | CTRL_EO | CTRL_CI
  const JUMP_AFTER: Control := CTRL_TO | CTRL_XZ | CTRL_XC | CTRL_II | CTRL_MO | CTRL_EO | CTRL_CI

  lemma ExecuteJump(m: State, lines: Lines)
    ensures Execute(m, Stored(JUMP), lines) ==
            m.(i := m.t, opcode := ReadMemory(m.memory, lines, m.t), reset := false,
               memory := ReadInterrupts(m.memory), step := 0)
    ensures var n := Next(m.t);
            Execute(m, Stored(JUMP_AFTER), lines) ==
            m.(i := n, opcode := ReadMemory(m.memory, lines, n), reset := false, memory := ReadInterrupts(m.memory),
               step := 0)
    ensures !IsPort(m.t) ==> !ReadsPort(m, Stored(JUMP))
    ensures !IsPort(Next(m.t)) ==> !ReadsPort(m, Stored(JUMP_AFTER))
  {
    hide ReadMemory;
  }

  // ---- Words of the interrupt and reset sequences ----

  /** All ones into a half of the transfer pointer. */
  const ONES_LOW: Control := CTRL_TO | CTRL_XZ | CTRL_NA | CTRL_HO | CTRL_EO | CTRL_TL
  const ONES_HIGH: Control := CTRL_TO | CTRL_XZ | CTRL_NA | CTRL_HO | CTRL_EO | CTRL_TH

  lemma ExecuteOnesLow(m: State, lines: Lines)
    requires m.step < 15
    ensures Execute(m, Stored(ONES_LOW), lines) == m.(t := m.t / 256 * 256 + 255, step := m.step + 1)
    ensures !ReadsPort(m, Stored(ONES_LOW))
  {
  }

  lemma ExecuteOnesHigh(m: State, lines: Lines)
    requires m.step < 15
    ensures Execute(m, Stored(ONES_HIGH), lines) == m.(t := 255 * 256 + m.t % 256, step := m.step + 1)
    ensures !ReadsPort(m, Stored(ONES_HIGH))
  {
  }

  /** Bank 0, and the instruction pointer to the address before the transfer pointer. */
  const BANK_ZERO: Control := CTRL_TO | CTRL_XZ | CTRL_XN | CTRL_II | CTRL_ZO | CTRL_EO | CTRL_KI

  lemma ExecuteBankZero(m: State, lines: Lines)
    requires m.step < 15 && 0 < m.t
    ensures Execute(m, Stored(BANK_ZERO), lines) == m.(i := m.t - 1, k := 0, memory := m.memory.(bank := 0),
                                                       step := m.step + 1)
    ensures !ReadsPort(m, Stored(BANK_ZERO))
  {
  }

  /** The two bytes of a vector, from the one below the instruction pointer down. */
  const VECTOR_HIGH: Control := CTRL_IO | CTRL_XZ | CTRL_XN | CTRL_II | CTRL_MO | CTRL_EO | CTRL_TH
  const VECTOR_LOW: Control := CTRL_IO | CTRL_XZ | CTRL_XN | CTRL_NA | CTRL_MO | CTRL_EO | CTRL_TL

  lemma ExecuteVectorHigh(m: State, lines: Lines)
    requires m.step < 15 && 0 < m.i
    ensures Execute(m, Stored(VECTOR_HIGH), lines) ==
            m.(i := m.i - 1, t := ReadMemory(m.memory, lines, m.i - 1) * 256 + m.t % 256, step := m.step + 1)
    ensures !IsPort(m.i - 1) ==> !ReadsPort(m, Stored(VECTOR_HIGH))
  {
    hide ReadMemory;
  }

  lemma ExecuteVectorLow(m: State, lines: Lines)
    requires m.step < 15 && 0 < m.i
    ensures Execute(m, Stored(VECTOR_LOW), lines) ==
            m.(t := m.t / 256 * 256 + ReadMemory(m.memory, lines, m.i - 1), step := m.step + 1)
    ensures !IsPort(m.i - 1) ==> !ReadsPort(m, Stored(VECTOR_LOW))
  {
    hide ReadMemory;
  }

  // ---- Sums ----

  function Sum(m: State, d: Byte): nat {
    m.a + d + BitVal(m.f.c)
  }

  const ADD: Control := CTRL_IO | CTRL_XZ | CTRL_XC | CTRL_II | CTRL_MO | CTRL_ES | CTRL_AI | CTRL_FI
  const ADD_CARRY: Control := CTRL_IO | CTRL_XZ | CTRL_XC | CTRL_II | CTRL_MO | CTRL_EC | CTRL_ES | CTRL_AI | CTRL_FI

  lemma ExecuteAdd(m: State, lines: Lines, w: Control)
    requires m.step < 15 && w == if m.f.c then ADD_CARRY else ADD
    ensures var sum := Sum(m, After(m, lines));
            Execute(m, Stored(w), lines) ==
            m.(i := Next(m.i), a := sum % 256, f := m.f.(c := sum >= 256, n := sum % 256 >= 128, z := sum % 256 == 0),
               step := m.step + 1)
    ensures !IsPort(Next(m.i)) ==> !ReadsPort(m, Stored(w))
  {
    hide ReadMemory;
    if m.f.c { } else { }
  }
}
