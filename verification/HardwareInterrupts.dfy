/** What a requested interrupt does when the program lets it through: the processor's state is saved, but the sequence
    ends with the flag that selects it, before it has entered a handler. */
module HardwareInterrupts {
  import opened Bits
  import opened ControlBits
  import opened Microcode
  import opened Program
  import opened MicrocodeSource
  import opened Machine
  import opened ControlRom
  import opened MicrocodeWords
  import opened Instructions
  import opened Masking
  import B = Branches
  import R = Breaks
  import Alu

  /** An interrupt is latched and the I flag set. */
  predicate Heard(m: State) {
    !m.reset && m.f.i && m.f.high == 0 && (m.memory.interrupts.out0 || m.memory.interrupts.out1)
  }

  // ---- The words of the sequence ----

  /** Lines that all have the same one flag. */
  predicate AllIf(lines: seq<Line>, flag: Flag, value: bool) {
    forall i :: 0 <= i < |lines| ==> lines[i].mods == [FlagIs(flag, value)]
  }

  lemma OneFlag(sel: Selector, c: Control, step: nat, flag: Flag, value: bool, last: bool)
    ensures RowRules(sel, c, step, [FlagIs(flag, value)], last) == [Rule(sel, step, When(flag, value), c)]
    ensures EndStep(step, [FlagIs(flag, value)]) == step
  {
    var mods: seq<Token> := [FlagIs(flag, value)];
    assert mods[0].FlagIs? && mods[1..] == [];
    assert FlagRules(sel, c, step, mods[1..]) == [];
  }

  /** They take one step each, while the flag has its value. */
  lemma {:induction false} LinesIf(lines: seq<Line>, sel: Selector, flag: Flag, value: bool, start: nat, last: bool,
                                   a: Address)
    requires AllIf(lines, flag, value) && Selects(sel, a) && start + |lines| <= 16 && IsAddress(a)
    requires FlagBit(flag, a.flags) == value
    ensures var rules := LineRules(lines, sel, start, last);
            Hit(rules, a) == (start <= a.step < start + |lines|) &&
            (Hit(rules, a) ==> Selected(rules, a) == Stored(lines[a.step - start].control))
    decreases |lines|
  {
    hide RowRules, EndStep, Stored, Selects, Selected, Hit, FlagBit, Matches;
    if lines == [] {
      NothingSelected(a);
    } else {
      var rule := Rule(sel, start, When(flag, value), lines[0].control);
      OneFlag(sel, lines[0].control, start, flag, value, last && |lines| == 1);
      LinesIf(lines[1..], sel, flag, value, start + 1, last, a);
      SelectedConcat([rule], LineRules(lines[1..], sel, start + 1, last), a);
      B.OneRule(rule, a);
      B.FlagMatches(sel, lines[0].control, start, flag, value, a);
    }
  }

  /** A block that says something, with no later one selected, decides. */
  lemma {:induction false} LastBlockDecides(p: seq<Block>, k: nat, a: Address)
    requires k < |p| && Hit(LineRules(p[k].lines, p[k].sel, 0, k == |p| - 1), a)
    requires forall i :: k < i < |p| ==> !Selects(p[i].sel, a)
    ensures Hit(Rules(p), a)
    ensures Selected(Rules(p), a) == Selected(LineRules(p[k].lines, p[k].sel, 0, k == |p| - 1), a)
  {
    hide LineRules, Selects, Selected, Hit;
    SelectedConcat(LineRules(p[0].lines, p[0].sel, 0, |p| == 1), Rules(p[1..]), a);
    if k == 0 {
      ProgramSilent(p[1..], a);
    } else {
      LastBlockDecides(p[1..], k - 1, a);
    }
  }

  lemma SequenceBlock()
    ensures |Source()| == 22 && Source()[20] == InterruptSequence() && InterruptSequence().sel == OnInterrupt
    ensures |InterruptSequence().lines| == 12 && AllIf(InterruptSequence().lines, FlagI, true)
    ensures Source()[21].sel == OnReset
  {
  }

  lemma HeardAddress(m: State)
    requires Heard(m) && m.step < 16
    ensures var i, flags := m.memory.interrupts, Alu.FlagByte(m.f) % 256;
            var a := AddressOf(m.step, flags, m.opcode, i.out0, i.out1, false);
            IsAddress(a) && a.step == m.step && a.reset == 0 && a.interrupt != 0 && FlagBit(FlagI, a.flags)
  {
    hide BitOr;
    var i, flags := m.memory.interrupts, Alu.FlagByte(m.f) % 256;
    FlagILine(m.f);
    OrNothing(m.opcode);
  }

  /** The sequence overrides every instruction while the I flag is set. */
  lemma SequenceWord(rom: seq<bv8>, m: State)
    requires HasMicrocode(rom) && Heard(m) && m.step < 12
    ensures |InterruptSequence().lines| == 12
    ensures ControlWord(rom, m) == Stored(InterruptSequence().lines[m.step].control)
  {
    hide Source, InterruptSequence, LineRules, ReadControl, Selected, Stored, Hit, AddressOf, BitOr, FlagBit, Rules,
         Alu.FlagByte;
    var i, flags := m.memory.interrupts, Alu.FlagByte(m.f) % 256;
    ReadsSelected(rom, Rules(Source()), m.step, flags, m.opcode, i.out0, i.out1, false);
    var a := AddressOf(m.step, flags, m.opcode, i.out0, i.out1, false);
    HeardAddress(m);
    SequenceBlock();
    LinesIf(InterruptSequence().lines, OnInterrupt, FlagI, true, 0, false, a);
    LastBlockDecides(Source(), 20, a);
  }

  // ---- The words after it ----

  /** No rule of the block for an opcode is for step 7 or later, unless the opcode is that of `brk`. */
  predicate Short(rules: seq<Rule>) {
    forall i :: 0 <= i < |rules| ==> rules[i].step < 7
  }

  lemma ShortSilent(rules: seq<Rule>, a: Address)
    requires Short(rules) && 7 <= a.step
    ensures !Hit(rules, a)
  {
    hide Selects, Holds;
  }

  lemma {:induction false} PlainShort(lines: seq<Line>, sel: Selector, start: nat, last: bool)
    requires Plain(lines) && start + |lines| <= 7
    ensures Short(LineRules(lines, sel, start, last))
    decreases |lines|
  {
    hide RowRules, EndStep;
    if lines != [] {
      PlainRow(sel, lines[0].control, start, last && |lines| == 1);
      PlainShort(lines[1..], sel, start + 1, last);
    }
  }

  lemma {:induction false} FlagRulesShort(sel: Selector, c: Control, step: nat, fs: seq<Token>)
    requires B.AllFlags(fs) && step < 7
    ensures Short(FlagRules(sel, c, step, fs))
    decreases |fs|
  {
    if fs != [] {
      FlagRulesShort(sel, c, step, fs[1..]);
    }
  }

  lemma BranchShort(o: Byte)
    requires B.IsForward(o)
    ensures Short(LineRules(B.LinesOf(o), OnOpcode(o), 0, false))
  {
    hide LineRules, FlagRules, B.TwoWays;
    var fs, w, v := B.FlagsOf(o), B.TO_TARGET, B.TO_NEXT;
    var first, second := if o == 0xEE then v else w, if o == 0xEE then w else v;
    B.TwoWaysRules(first, second, fs, OnOpcode(o));
    FlagRulesShort(OnOpcode(o), second[0], 0, fs);
    FlagRulesShort(OnOpcode(o), second[1], 1, fs);
  }

  lemma AdcShort()
    ensures Short(LineRules(Adc().lines, Adc().sel, 0, false))
  {
    hide LineRules;
    AdcRules();
  }

  /** The blocks of the file that are plain and have at most seven lines. */
  predicate ShortPlain(k: nat) {
    k < 10 || 14 <= k < 19
  }

  lemma PlainBlocks(k: nat)
    requires ShortPlain(k)
    ensures |Source()| == 22 && Plain(Source()[k].lines) && |Source()[k].lines| <= 7
  {
    if k < 5 {
      if k == 0 { } else if k == 1 { } else if k == 2 { } else if k == 3 { } else { }
    } else if k < 10 {
      if k == 5 { } else if k == 6 { } else if k == 7 { } else if k == 8 { } else { }
    } else {
      if k == 14 { } else if k == 15 { } else if k == 16 { } else if k == 17 { } else { }
    }
  }

  lemma BlockShort(k: nat)
    requires k < 19
    ensures |Source()| == 22 && Short(LineRules(Source()[k].lines, Source()[k].sel, 0, k == 21))
  {
    hide LineRules, Source, B.LinesOf, B.IsForward;
    SourceSelectors();
    if ShortPlain(k) {
      PlainBlocks(k);
      PlainShort(Source()[k].lines, Source()[k].sel, 0, false);
    } else if k == 10 {
      AdcBlock();
      AdcShort();
    } else {
      var o: Byte := if k == 11 then 0xE0 else if k == 12 then 0xEC else 0xEE;
      assert B.IsForward(o) && B.BlockOf(o) == k by { ForwardPlace(k); }
      B.ForwardBlock(o);
      BranchShort(o);
    }
  }

  lemma ForwardPlace(k: nat)
    requires 11 <= k < 14
    ensures var o: Byte := if k == 11 then 0xE0 else if k == 12 then 0xEC else 0xEE;
            B.IsForward(o) && B.BlockOf(o) == k
  {
  }

  /** No block says anything from step 7 on for another opcode than that of `brk`. */
  lemma BlockSilentLate(k: nat, a: Address)
    requires k < 22 && IsAddress(a) && a.reset == 0 && a.interrupt == 0 && a.opcode != 0xFF && a.step >= 7
    ensures |Source()| == 22 && !Hit(LineRules(Source()[k].lines, Source()[k].sel, 0, k == 21), a)
  {
    hide LineRules, Source, Hit;
    SourceSelectors();
    if k < 19 {
      BlockShort(k);
      ShortSilent(LineRules(Source()[k].lines, Source()[k].sel, 0, k == 21), a);
    } else {
      BlockSilent(Source()[k], k == 21, a);
    }
  }

  lemma {:induction false} AllSilent(p: seq<Block>, a: Address)
    requires forall k :: 0 <= k < |p| ==> !Hit(LineRules(p[k].lines, p[k].sel, 0, k == |p| - 1), a)
    ensures !Hit(Rules(p), a)
  {
    hide LineRules, Hit;
    if p == [] {
      NothingSelected(a);
    } else {
      assert !Hit(LineRules(p[0].lines, p[0].sel, 0, 0 == |p| - 1), a);
      AllSilent(p[1..], a);
      SelectedConcat(LineRules(p[0].lines, p[0].sel, 0, |p| == 1), Rules(p[1..]), a);
    }
  }

  /** From step 7 on, with the I flag clear, the ROM holds no word for the machine, unless it executes `brk`. */
  lemma LateWord(rom: seq<bv8>, m: State)
    requires HasMicrocode(rom) && !m.reset && !m.f.i && m.f.high == 0 && m.opcode != 0xFF && 7 <= m.step < 16
    ensures ControlWord(rom, m) == UNUSED
  {
    hide Source, ControlWord, Selected, Rules, Hit, LineRules, Alu.FlagByte, HasMicrocode;
    SameWord(rom, Calm(m), m);
    NormalWord(rom, Calm(m));
    var a := Address(m.step, Alu.FlagByte(m.f), m.opcode, 0, 0);
    SourceSelectors();
    forall k | 0 <= k < |Source()|
      ensures !Hit(LineRules(Source()[k].lines, Source()[k].sel, 0, k == |Source()| - 1), a)
    {
      BlockSilentLate(k, a);
    }
    AllSilent(Source(), a);
    NoHit(Rules(Source()), a);
  }

  // ---- What the words do ----

  const CLEAR_BANK: Control := CTRL_TO | CTRL_XZ | CTRL_NA | CTRL_ZO | CTRL_EO | CTRL_KI
  const CLEAR_FLAGS: Control := CTRL_TO | CTRL_XZ | CTRL_NA | CTRL_ZO | CTRL_EO | CTRL_ND | CTRL_FI | CTRL_FD

  lemma SequenceLines()
    ensures |InterruptSequence().lines| == 12
    ensures var w := InterruptSequence().lines;
            w[0].control == PushWord(CTRL_KO) && w[1].control == PushWord(CTRL_IH) &&
            w[2].control == PushWord(CTRL_IL) && w[3].control == PushWord(CTRL_AO) &&
            w[4].control == PushWord(CTRL_FO) && w[5].control == CLEAR_BANK && w[6].control == CLEAR_FLAGS
  {
  }

  lemma ExecuteClears(m: State, lines: Lines)
    requires m.step < 15
    ensures Execute(m, Stored(CLEAR_BANK), lines) == m.(k := 0, memory := m.memory.(bank := 0), step := m.step + 1)
    ensures Execute(m, Stored(CLEAR_FLAGS), lines) == m.(f := Alu.ByteFlags(0), step := m.step + 1)
  {
  }

  /** An address of the ROM without a word: the instruction pointer goes back by X. */
  lemma ExecuteUnused(m: State, lines: Lines)
    requires m.step < 16
    ensures Execute(m, UNUSED, lines) ==
            m.(i := Back(m.i, m.x, 1), step := if m.step == 15 then 0 else m.step + 1)
  {
  }

  /** `j` times X back from an address. */
  function Back(i: Word, x: Byte, j: nat): Word {
    (i + 65536 * j - j * x) % 65536
  }

  // ---- The run ----

  lemma StaysHeard(m: State, data: Byte, address: Word)
    requires Heard(m)
    ensures Heard(m.(memory := WriteMemory(m.memory, data, address)))
  {
    hide Put;
  }

  /** A push of the sequence. */
  lemma PushHeard(rom: seq<bv8>, m: State, out: Control, lines: Lines)
    requires HasMicrocode(rom) && Heard(m) && m.step < 5 && 0 < m.s && Pushes(out)
    requires |InterruptSequence().lines| == 12 && InterruptSequence().lines[m.step].control == PushWord(out)
    ensures Clock(rom, m, lines) == AfterPush(m, out) && Heard(AfterPush(m, out))
  {
    hide HasMicrocode, InterruptSequence, ControlWord, Execute, Stored, PushWord, Pushes, WriteMemory, Pushed;
    SequenceWord(rom, m);
    ExecutePush(m, lines, out);
    StaysHeard(m, Pushed(m, out), m.s - 1);
  }

  lemma RunOne(rom: seq<bv8>, m: State, n: nat, time: nat, env: nat -> Lines)
    requires n > 0
    ensures Run(rom, m, n, time, env) == Run(rom, Clock(rom, m, env(time)), n - 1, time + 1, env)
  {
    hide Clock;
  }

  /** The state is saved as by `brk`, and the bank and the flags are cleared. */
  function AfterRequest(m: State): State
    requires m.s >= 5
  {
    var n := R.AfterSaving(m);
    n.(k := 0, memory := n.memory.(bank := 0), f := Alu.ByteFlags(0), step := m.step + 7)
  }

  lemma SavesState(rom: seq<bv8>, m: State, n: nat, time: nat, env: nat -> Lines)
    requires HasMicrocode(rom) && Heard(m) && m.step == 0 && m.s >= 5 && n >= 5
    ensures Run(rom, m, n, time, env) == Run(rom, R.AfterSaving(m), n - 5, time + 5, env) && Heard(R.AfterSaving(m))
  {
    hide HasMicrocode, InterruptSequence, Clock, PushWord, Pushed, WriteMemory, Heard, Run;
    SequenceLines();
    var m1 := AfterPush(m, CTRL_KO);
    PushHeard(rom, m, CTRL_KO, env(time));
    RunOne(rom, m, n, time, env);
    var m2 := AfterPush(m1, CTRL_IH);
    PushHeard(rom, m1, CTRL_IH, env(time + 1));
    RunOne(rom, m1, n - 1, time + 1, env);
    var m3 := AfterPush(m2, CTRL_IL);
    PushHeard(rom, m2, CTRL_IL, env(time + 2));
    RunOne(rom, m2, n - 2, time + 2, env);
    var m4 := AfterPush(m3, CTRL_AO);
    PushHeard(rom, m3, CTRL_AO, env(time + 3));
    RunOne(rom, m3, n - 3, time + 3, env);
    PushHeard(rom, m4, CTRL_FO, env(time + 4));
    RunOne(rom, m4, n - 4, time + 4, env);
  }

  lemma SequenceRuns(rom: seq<bv8>, m: State, n: nat, time: nat, env: nat -> Lines)
    requires HasMicrocode(rom) && Heard(m) && m.step == 0 && m.s >= 5 && n >= 7
    ensures Run(rom, m, n, time, env) == Run(rom, AfterRequest(m), n - 7, time + 7, env)
  {
    hide HasMicrocode, InterruptSequence, ControlWord, Execute, Stored, WriteMemory, Run, CLEAR_BANK, CLEAR_FLAGS;
    SavesState(rom, m, n, time, env);
    SequenceLines();
    var m5 := R.AfterSaving(m);
    SequenceWord(rom, m5);
    ExecuteClears(m5, env(time + 5));
    RunOne(rom, m5, n - 5, time + 5, env);
    var m6 := Clock(rom, m5, env(time + 5));
    SequenceWord(rom, m6);
    ExecuteClears(m6, env(time + 6));
    RunOne(rom, m6, n - 6, time + 6, env);
  }

  /** `j` clocks without a word. */
  lemma {:induction false} UnusedRuns(rom: seq<bv8>, m: State, j: nat, time: nat, env: nat -> Lines)
    requires HasMicrocode(rom) && !m.reset && !m.f.i && m.f.high == 0 && m.opcode != 0xFF && 7 <= m.step < 16
    requires j <= 16 - m.step
    ensures Run(rom, m, j, time, env) ==
            m.(i := Back(m.i, m.x, j), step := if m.step + j == 16 then 0 else m.step + j)
    decreases j
  {
    hide HasMicrocode, ControlWord, Execute, Back;
    BackNone(m.i, m.x);
    if j > 0 {
      LateWord(rom, m);
      ExecuteUnused(m, env(time));
      RunOne(rom, m, j, time, env);
      var n := Clock(rom, m, env(time));
      if m.step < 15 {
        UnusedRuns(rom, n, j - 1, time + 1, env);
        BackAgain(m.i, m.x, j);
      }
    }
  }

  lemma BackNone(i: Word, x: Byte)
    ensures Back(i, x, 0) == i
  {
  }

  lemma BackAgain(i: Word, x: Byte, j: nat)
    requires j > 0
    ensures Back(Back(i, x, 1), x, j - 1) == Back(i, x, j)
  {
    var once := i + 65536 - x;
    var jx := j * x;
    assert (j - 1) * x == jx - x;
    AroundAgain(i + 65536 * j - jx, once / 65536);
  }

  lemma AroundAgain(a: int, q: int)
    ensures (a - 65536 * q) % 65536 == a % 65536
  {
  }

  /** A latched interrupt with the I flag set, at the start of any instruction but `brk`: K, the address, A and F are
      pushed, K and F cleared, and then nothing is fetched. After 16 clocks the machine is at the start of the same
      instruction, in bank 0, with the instruction pointer 9 times X too low; it has not entered a handler. */
  lemma RequestFallsThrough(rom: seq<bv8>, m: State, time: nat, env: nat -> Lines)
    requires HasMicrocode(rom) && Heard(m) && m.step == 0 && m.s >= 5 && m.opcode != 0xFF
    ensures forall n :: 7 <= n < 16 ==>
              Run(rom, m, n, time, env).step == n && Run(rom, m, n, time, env).opcode == m.opcode
    ensures Run(rom, m, 16, time, env) == AfterRequest(m).(i := Back(m.i, m.x, 9), step := 0)
  {
    hide HasMicrocode, Run, R.AfterSaving, Back;
    SavedRegisters(m);
    forall n | 7 <= n <= 16
      ensures n < 16 ==> Run(rom, m, n, time, env).step == n && Run(rom, m, n, time, env).opcode == m.opcode
      ensures n == 16 ==>
                Run(rom, m, n, time, env) == AfterRequest(m).(i := Back(m.i, m.x, 9), step := 0)
    {
      SequenceRuns(rom, m, n, time, env);
      UnusedRuns(rom, AfterRequest(m), n - 7, time + 7, env);
    }
  }

  lemma SavedRegisters(m: State)
    requires m.s >= 5 && m.step == 0
    ensures var n := R.AfterSaving(m);
            n.step == 5 && n.opcode == m.opcode && n.x == m.x && n.i == m.i && n.s == m.s - 5 && n.reset == m.reset
  {
    hide WriteMemory;
  }

  // ---- At brk ----

  lemma BrkWord(rom: seq<bv8>, m: State)
    requires HasMicrocode(rom) && !m.reset && !m.f.i && m.f.high == 0 && m.opcode == 0xFF && m.step < 11
    ensures |Brk().lines| == 11 && ControlWord(rom, m) == Stored(Brk().lines[m.step].control)
  {
    hide Source, ControlWord, Brk, HasMicrocode, Stored;
    SameWord(rom, Calm(m), m);
    R.BrkBlock();
    OpcodeWord(rom, Calm(m), 19);
  }

  /** The address before, around the end of the address space. */
  function Before(a: Word): Word {
    (a + 65535) % 65536
  }

  /** `t` with another low byte. */
  function WithLow(t: Word, low: Byte): Word {
    t / 256 * 256 + low
  }

  lemma ExecuteBack(m: State, lines: Lines)
    requires m.step < 15
    ensures Execute(m, Stored(BANK_ZERO), lines) ==
            m.(i := Before(m.t), k := 0, memory := m.memory.(bank := 0), step := m.step + 1)
    ensures Execute(m, Stored(VECTOR_HIGH), lines) ==
            m.(i := Before(m.i), t := ReadMemory(m.memory, lines, Before(m.i)) * 256 + m.t % 256, step := m.step + 1)
    ensures Execute(m, Stored(VECTOR_LOW), lines) ==
            m.(t := WithLow(m.t, ReadMemory(m.memory, lines, Before(m.i))), step := m.step + 1)
  {
    hide ReadMemory;
  }

  /** The word that ends in the second byte before T, as read from bank 0. */
  function WordBelow(m: Memory, t: Word, high: Lines, low: Lines): Word {
    ReadMemory(m, high, Before(Before(t))) * 256 + ReadMemory(m, low, Before(Before(Before(t))))
  }

  lemma BrkClock(rom: seq<bv8>, m: State, w: Control, lines: Lines)
    requires HasMicrocode(rom) && !m.reset && !m.f.i && m.f.high == 0 && m.opcode == 0xFF && 7 <= m.step < 11
    requires w == if m.step == 7 then BANK_ZERO else if m.step == 8 then VECTOR_HIGH
                  else if m.step == 9 then VECTOR_LOW else JUMP
    ensures Clock(rom, m, lines) == Execute(m, Stored(w), lines)
  {
    hide HasMicrocode, Brk, ControlWord, Execute, Stored, BANK_ZERO, VECTOR_HIGH, VECTOR_LOW, JUMP;
    BrkWord(rom, m);
    R.BrkBlock();
  }

  /** The last four clocks of `brk`: to the byte before the transfer pointer, ... */
  lemma BrkPoints(rom: seq<bv8>, m: State, n: nat, time: nat, env: nat -> Lines)
    requires HasMicrocode(rom) && !m.reset && !m.f.i && m.f.high == 0 && m.opcode == 0xFF && m.step == 7 && n >= 2
    ensures var memory := m.memory.(bank := 0);
            Run(rom, m, n, time, env) ==
            Run(rom, m.(i := Before(Before(m.t)), k := 0, memory := memory,
                        t := ReadMemory(memory, env(time + 1), Before(Before(m.t))) * 256 + m.t % 256, step := 9),
                n - 2, time + 2, env)
  {
    hide HasMicrocode, Run, Clock, Execute, Stored, ReadMemory, BANK_ZERO, VECTOR_HIGH, VECTOR_LOW, JUMP, Before;
    BrkClock(rom, m, BANK_ZERO, env(time));
    ExecuteBack(m, env(time));
    RunOne(rom, m, n, time, env);
    var m8 := m.(i := Before(m.t), k := 0, memory := m.memory.(bank := 0), step := 8);
    BrkClock(rom, m8, VECTOR_HIGH, env(time + 1));
    ExecuteBack(m8, env(time + 1));
    RunOne(rom, m8, n - 1, time + 1, env);
  }

  /** ... and through the word below it. */
  lemma BrkEnds(rom: seq<bv8>, m: State, time: nat, env: nat -> Lines)
    requires HasMicrocode(rom) && !m.reset && !m.f.i && m.f.high == 0 && m.opcode == 0xFF && m.step == 9
    ensures var h := WithLow(m.t, ReadMemory(m.memory, env(time), Before(m.i)));
            Run(rom, m, 2, time, env) ==
            m.(t := h, i := h, opcode := ReadMemory(m.memory, env(time + 1), h), memory := ReadInterrupts(m.memory),
               step := 0)
  {
    hide HasMicrocode, Run, Clock, Execute, Stored, ReadMemory, BANK_ZERO, VECTOR_HIGH, VECTOR_LOW, JUMP, Before;
    BrkClock(rom, m, VECTOR_LOW, env(time));
    ExecuteBack(m, env(time));
    RunOne(rom, m, 2, time, env);
    var m10 := m.(t := WithLow(m.t, ReadMemory(m.memory, env(time), Before(m.i))), step := 10);
    BrkClock(rom, m10, JUMP, env(time + 1));
    ExecuteJump(m10, env(time + 1));
    RunOne(rom, m10, 1, time + 1, env);
    RunNone(rom, Execute(m10, Stored(JUMP), env(time + 1)), time + 2, env);
  }

  /** With the opcode of `brk` fetched, the second half of that instruction goes on from there: to the word that T
      happens to point behind. That is the word at $FFFE, for hardware interrupts, exactly if T is 1. */
  lemma RequestAtBrk(rom: seq<bv8>, m: State, time: nat, env: nat -> Lines)
    requires HasMicrocode(rom) && Heard(m) && m.step == 0 && m.s >= 5 && m.opcode == 0xFF
    ensures var n := AfterRequest(m);
            var h := WordBelow(n.memory, m.t, env(time + 8), env(time + 9));
            Run(rom, m, 11, time, env) ==
            n.(t := h, i := h, opcode := ReadMemory(n.memory, env(time + 10), h), memory := ReadInterrupts(n.memory),
               step := 0)
    ensures Before(Before(Before(m.t))) == 0xFFFE <==> m.t == 1
  {
    hide HasMicrocode, Run, R.AfterSaving, ReadMemory, Before;
    SavedRegisters(m);
    SavedT(m);
    SequenceRuns(rom, m, 11, time, env);
    var n := AfterRequest(m);
    BrkPoints(rom, n, 4, time + 7, env);
    var i := Before(Before(m.t));
    var m9 := n.(i := i, t := ReadMemory(n.memory, env(time + 8), i) * 256 + m.t % 256, step := 9);
    BrkEnds(rom, m9, time + 9, env);
    ThreeBefore(m.t);
  }

  lemma SavedT(m: State)
    requires m.s >= 5
    ensures AfterRequest(m).t == m.t
  {
    hide WriteMemory;
  }

  lemma RunNone(rom: seq<bv8>, m: State, time: nat, env: nat -> Lines)
    ensures Run(rom, m, 0, time, env) == m
  {
  }

  lemma ThreeBefore(t: Word)
    ensures Before(Before(Before(t))) == 0xFFFE <==> t == 1
  {
  }
}
