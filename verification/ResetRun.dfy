/** The reset sequence, from every state the machine can be in. */
module ResetRun {
  import opened Wrappers
  import opened Bits
  import opened ControlBits
  import opened Microcode
  import opened Program
  import opened MicrocodeSource
  import opened Machine
  import opened ControlRom
  import opened MicrocodeWords
  import opened Instructions
  import Alu

  // ---- The words ----

  lemma ResetBlock()
    ensures |Source()| == 22 && Source()[21] == ResetSequence() && ResetSequence().sel == OnReset
    ensures Plain(ResetSequence().lines) && |ResetSequence().lines| == 13
  {
  }

  lemma OnlyReset(a: Address)
    requires a.reset == 1
    ensures forall i :: 0 <= i < |Source()| && i != 21 ==> !Selects(Source()[i].sel, a)
  {
    hide Source, SelectorAt;
    SourceSelectors();
    forall i | 0 <= i < |Source()| && i != 21
      ensures !Selects(Source()[i].sel, a)
    {
      NotReset(i);
    }
  }

  lemma NotReset(i: nat)
    requires i < 21
    ensures !SelectorAt(i).OnReset?
  {
  }

  /** With the reset line high the word depends on nothing but the step. */
  lemma ResetWord(rom: seq<bv8>, m: State)
    requires HasMicrocode(rom) && m.reset && m.step < 13
    ensures |ResetSequence().lines| == 13 && ControlWord(rom, m) == Stored(ResetSequence().lines[m.step].control)
  {
    hide Source, ResetSequence, LineRules, ReadControl, Selected, Stored, Hit, AddressOf, ControlIn, BitOr;
    ResetBlock();
    var flags := Alu.FlagByte(m.f) % 256;
    var ints := m.memory.interrupts;
    ReadsSelected(rom, Rules(Source()), m.step, flags, m.opcode, ints.out0, ints.out1, true);
    ControlInIsIndex(m.step, flags, m.opcode, ints.out0, ints.out1, true);
    var a := AddressOf(m.step, flags, m.opcode, ints.out0, ints.out1, true);
    assert a.step == m.step && a.reset == 1 by { ResetAddress(m.step, flags, m.opcode, ints.out0, ints.out1); }
    OnlyReset(a);
    OneBlockDecides(Source(), 21, a);
    PlainLines(ResetSequence().lines, OnReset, 0, true, a);
  }

  lemma ResetAddress(step: nat, flags: nat, opcode: nat, int0: bool, int1: bool)
    ensures AddressOf(step, flags, opcode, int0, int1, true).step == step &&
            AddressOf(step, flags, opcode, int0, int1, true).reset == 1
  {
    hide BitOr;
  }

  lemma ResetClock(rom: seq<bv8>, m: State, n: nat, time: nat, env: nat -> Lines, masked: bool)
    requires HasMicrocode(rom) && m.reset && m.step < 13 && n > 0
    ensures |ResetSequence().lines| == 13
    ensures var w := Stored(ResetSequence().lines[m.step].control);
            RunMasked(rom, m, n, time, env, masked) ==
            if masked && ReadsPort(m, w) then None
            else RunMasked(rom, Execute(m, w, env(time)), n - 1, time + 1, env, masked)
  {
    hide HasMicrocode, ControlWord, Execute, Stored, ResetSequence;
    ResetWord(rom, m);
  }

  const CLEAR_A: Control := CTRL_TO | CTRL_XZ | CTRL_XN | CTRL_PI | CTRL_ZO | CTRL_EZ | CTRL_EO | CTRL_AI
  const CLEAR_X: Control := CTRL_PO | CTRL_XZ | CTRL_XN | CTRL_PI | CTRL_ZO | CTRL_EO | CTRL_XI | CTRL_FI | CTRL_FD
  const CLEAR_K: Control := CTRL_PO | CTRL_XZ | CTRL_XN | CTRL_PI | CTRL_ZO | CTRL_EO | CTRL_KI | CTRL_FI
  const START_HIGH: Control := CTRL_PO | CTRL_XZ | CTRL_XN | CTRL_PI | CTRL_MO | CTRL_EO | CTRL_TH
  const START_LOW: Control := CTRL_PO | CTRL_XZ | CTRL_XN | CTRL_NA | CTRL_MO | CTRL_EO | CTRL_TL
  const START_AT: Control := CTRL_TO | CTRL_XZ | CTRL_II | CTRL_ZO | CTRL_EO | CTRL_TL
  const CLEAR_HIGH: Control := CTRL_TO | CTRL_XZ | CTRL_NA | CTRL_ZO | CTRL_EO | CTRL_TH
  const CLEAR_P: Control := CTRL_TO | CTRL_XZ | CTRL_PI | CTRL_ZO | CTRL_EO | CTRL_ND
  const CLEAR_B: Control := CTRL_TO | CTRL_XZ | CTRL_BI | CTRL_ZO | CTRL_EO | CTRL_ND
  const CLEAR_S: Control := CTRL_TO | CTRL_XZ | CTRL_SI | CTRL_ZO | CTRL_EO | CTRL_ND
  const START_OPCODE: Control := CTRL_IO | CTRL_XZ | CTRL_NA | CTRL_MO | CTRL_EO | CTRL_CI

  lemma ResetLines()
    ensures |ResetSequence().lines| == 13
    ensures var w := ResetSequence().lines;
            w[0].control == ONES_LOW && w[1].control == ONES_HIGH && w[2].control == CLEAR_A &&
            w[3].control == CLEAR_X &&
            w[4].control == CLEAR_K && w[5].control == START_HIGH && w[6].control == START_LOW &&
            w[7].control == START_AT &&
            w[8].control == CLEAR_HIGH && w[9].control == CLEAR_P && w[10].control == CLEAR_B &&
            w[11].control == CLEAR_S &&
            w[12].control == START_OPCODE
  {
  }

  // ---- What they do ----

  lemma ExecuteClearA(m: State, lines: Lines)
    requires m.step < 15 && 0 < m.t
    ensures Execute(m, Stored(CLEAR_A), lines) == m.(p := m.t - 1, a := 0, step := m.step + 1)
    ensures !ReadsPort(m, Stored(CLEAR_A))
  {
    hide BitOr, Alu.And;
    Alu.OrZero(0);
  }

  lemma ExecuteClearX(m: State, lines: Lines)
    requires m.step < 15 && 0 < m.p
    ensures Execute(m, Stored(CLEAR_X), lines) == m.(p := m.p - 1, x := 0, f := Alu.ByteFlags(0), step := m.step + 1)
    ensures !ReadsPort(m, Stored(CLEAR_X))
  {
    hide BitOr, Alu.And;
  }

  lemma ExecuteClearK(m: State, lines: Lines)
    requires m.step < 15 && 0 < m.p && m.a == 0
    ensures Execute(m, Stored(CLEAR_K), lines) ==
            m.(p := m.p - 1, k := 0, memory := m.memory.(bank := 0), f := m.f.(z := true, n := false),
               step := m.step + 1)
    ensures !ReadsPort(m, Stored(CLEAR_K))
  {
    hide BitOr, Alu.And;
    Alu.OrZero(0);
  }

  lemma ExecuteStart(m: State, lines: Lines)
    requires m.step < 15 && 0 < m.p
    ensures Execute(m, Stored(START_HIGH), lines) ==
            m.(p := m.p - 1, t := ReadMemory(m.memory, lines, m.p - 1) * 256 + m.t % 256, step := m.step + 1)
    ensures Execute(m, Stored(START_LOW), lines) == m.(t := m.t / 256 * 256 + ReadMemory(m.memory, lines, m.p - 1),
                                                       step := m.step + 1)
    ensures !IsPort(m.p - 1) ==> !ReadsPort(m, Stored(START_HIGH))
    ensures !IsPort(m.p - 1) ==> !ReadsPort(m, Stored(START_LOW))
  {
    hide ReadMemory;
  }

  lemma ExecuteStartAt(m: State, lines: Lines)
    requires m.step < 15
    ensures Execute(m, Stored(START_AT), lines) == m.(i := m.t, t := m.t / 256 * 256, step := m.step + 1)
    ensures Execute(m, Stored(CLEAR_HIGH), lines) == m.(t := m.t % 256, step := m.step + 1)
    ensures !ReadsPort(m, Stored(START_AT))
    ensures !ReadsPort(m, Stored(CLEAR_HIGH))
  {
  }

  lemma ExecuteClearP(m: State, lines: Lines)
    requires m.step < 15
    ensures Execute(m, Stored(CLEAR_P), lines) == m.(p := m.t, step := m.step + 1)
    ensures !ReadsPort(m, Stored(CLEAR_P))
  {
  }

  lemma ExecuteClearB(m: State, lines: Lines)
    requires m.step < 15
    ensures Execute(m, Stored(CLEAR_B), lines) == m.(b := m.t, step := m.step + 1)
    ensures !ReadsPort(m, Stored(CLEAR_B))
  {
  }

  lemma ExecuteClearS(m: State, lines: Lines)
    requires m.step < 15
    ensures Execute(m, Stored(CLEAR_S), lines) == m.(s := m.t, step := m.step + 1)
    ensures !ReadsPort(m, Stored(CLEAR_S))
  {
  }

  lemma ExecuteStartOpcode(m: State, lines: Lines)
    ensures Execute(m, Stored(START_OPCODE), lines) ==
            m.(opcode := ReadMemory(m.memory, lines, m.i), reset := false, memory := ReadInterrupts(m.memory),
               step := 0)
    ensures !IsPort(m.i) ==> !ReadsPort(m, Stored(START_OPCODE))
  {
    hide ReadMemory;
  }

  // ---- The whole sequence ----

  function Cleared(m: State): State {
    m.(a := 0, x := 0, k := 0, f := Alu.Flags(true, false, false, false, 0), t := 0xFFFF, p := 0xFFFC,
       memory := m.memory.(bank := 0), step := 5)
  }

  lemma ClearingRuns(rom: seq<bv8>, m: State, n: nat, time: nat, env: nat -> Lines, masked: bool)
    requires HasMicrocode(rom) && m.reset && m.step == 0 && n >= 5
    ensures RunMasked(rom, m, n, time, env, masked) == RunMasked(rom, Cleared(m), n - 5, time + 5, env, masked)
  {
    hide HasMicrocode, ResetSequence, Execute, Stored, RunMasked, ReadsPort, ONES_LOW, ONES_HIGH, CLEAR_A, CLEAR_X,
         CLEAR_K;
    ResetLines();
    ResetClock(rom, m, n, time, env, masked);
    ExecuteOnesLow(m, env(time));
    var m1 := Execute(m, Stored(ONES_LOW), env(time));
    ResetClock(rom, m1, n - 1, time + 1, env, masked);
    ExecuteOnesHigh(m1, env(time + 1));
    var m2 := Execute(m1, Stored(ONES_HIGH), env(time + 1));
    ResetClock(rom, m2, n - 2, time + 2, env, masked);
    ExecuteClearA(m2, env(time + 2));
    var m3 := Execute(m2, Stored(CLEAR_A), env(time + 2));
    ResetClock(rom, m3, n - 3, time + 3, env, masked);
    ExecuteClearX(m3, env(time + 3));
    var m4 := Execute(m3, Stored(CLEAR_X), env(time + 3));
    ResetClock(rom, m4, n - 4, time + 4, env, masked);
    ExecuteClearK(m4, env(time + 4));
  }

  /** The word at $FFFA of bank 0. */
  function Start(m: Memory): Word {
    Code(m.(bank := 0), 0xFFFA) + 256 * Code(m.(bank := 0), 0xFFFB)
  }

  function Started(m: State): State {
    m.(p := 0xFFFB, i := Start(m.memory), t := 0, step := 9)
  }

  lemma StartingRuns(rom: seq<bv8>, m: State, n: nat, time: nat, env: nat -> Lines, masked: bool)
    requires HasMicrocode(rom) && m.reset && m.step == 5 && m.p == 0xFFFC && m.memory.bank == 0 && n >= 4
    ensures RunMasked(rom, m, n, time, env, masked) == RunMasked(rom, Started(m), n - 4, time + 4, env, masked)
  {
    hide HasMicrocode, ResetSequence, Execute, Stored, RunMasked, ReadsPort, ReadMemory, Code, START_HIGH, START_LOW,
         START_AT, CLEAR_HIGH;
    ResetLines();
    assert m.memory.(bank := 0) == m.memory;
    ResetClock(rom, m, n, time, env, masked);
    ExecuteStart(m, env(time));
    ReadsCode(m.memory, env(time), 0xFFFB);
    var m1 := Execute(m, Stored(START_HIGH), env(time));
    ResetClock(rom, m1, n - 1, time + 1, env, masked);
    ExecuteStart(m1, env(time + 1));
    ReadsCode(m.memory, env(time + 1), 0xFFFA);
    var m2 := Execute(m1, Stored(START_LOW), env(time + 1));
    assert m2 == m.(p := 0xFFFB, t := Start(m.memory), step := 7);
    ResetClock(rom, m2, n - 2, time + 2, env, masked);
    ExecuteStartAt(m2, env(time + 2));
    var m3 := Execute(m2, Stored(START_AT), env(time + 2));
    ResetClock(rom, m3, n - 3, time + 3, env, masked);
    ExecuteStartAt(m3, env(time + 3));
  }

  /** The state after a reset: all registers zero, only Z set, at the start address, with its opcode fetched. */
  function AfterReset(m: State, lines: Lines): State {
    var memory := m.memory.(bank := 0);
    State(0, false, 0, 0, 0, ReadMemory(memory, lines, Start(memory)), 0, 0, 0, Start(memory), 0,
          Alu.Flags(true, false, false, false, 0), ReadInterrupts(memory))
  }

  lemma PointersRun(rom: seq<bv8>, m: State, time: nat, env: nat -> Lines, masked: bool)
    requires HasMicrocode(rom) && m.reset && m.step == 9 && m.t == 0 && (masked ==> !IsPort(m.i))
    ensures RunMasked(rom, m, 4, time, env, masked) ==
            Some(m.(p := 0, b := 0, s := 0, opcode := ReadMemory(m.memory, env(time + 3), m.i), reset := false,
                    memory := ReadInterrupts(m.memory), step := 0))
  {
    hide HasMicrocode, ResetSequence, Execute, Stored, RunMasked, ReadsPort, ReadMemory, CLEAR_P, CLEAR_B, CLEAR_S,
         START_OPCODE;
    ResetLines();
    ResetClock(rom, m, 4, time, env, masked);
    ExecuteClearP(m, env(time));
    var m1 := Execute(m, Stored(CLEAR_P), env(time));
    ResetClock(rom, m1, 3, time + 1, env, masked);
    ExecuteClearB(m1, env(time + 1));
    var m2 := Execute(m1, Stored(CLEAR_B), env(time + 1));
    ResetClock(rom, m2, 2, time + 2, env, masked);
    ExecuteClearS(m2, env(time + 2));
    var m3 := Execute(m2, Stored(CLEAR_S), env(time + 2));
    ResetClock(rom, m3, 1, time + 3, env, masked);
    ExecuteStartOpcode(m3, env(time + 3));
    NoClock(rom, Execute(m3, Stored(START_OPCODE), env(time + 3)), time + 4, env, masked);
  }

  /** From every state, with any flags, opcode and interrupts: 13 clocks after a reset the machine is at its start. */
  lemma ResetRuns(rom: seq<bv8>, m: State, time: nat, env: nat -> Lines, masked: bool)
    requires HasMicrocode(rom) && (masked ==> !IsPort(Start(m.memory)))
    ensures RunMasked(rom, Reset(m), 13, time, env, masked) == Some(AfterReset(m, env(time + 12)))
  {
    hide HasMicrocode, RunMasked, ReadsPort, ReadMemory, Code;
    ClearingRuns(rom, Reset(m), 13, time, env, masked);
    var m1 := Cleared(Reset(m));
    StartingRuns(rom, m1, 8, time + 5, env, masked);
    PointersRun(rom, Started(m1), time + 9, env, masked);
    assert m1.memory.(bank := 0) == m1.memory;
  }
}
