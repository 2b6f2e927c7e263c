/** With the I flag clear the interrupt lines do not matter: whatever is requested and whenever, the machine does the
    same, but for the record of the requests. */
module Masking {
  import opened Bits
  import opened ControlBits
  import opened Microcode
  import opened Program
  import opened MicrocodeSource
  import opened ControlRom
  import opened Machine
  import opened MicrocodeWords
  import Alu

  /** The machine with no interrupt requested, latched or let through. */
  function Calm(m: State): State {
    m.(memory := m.memory.(interrupts := Interrupts(false, false, false, false, false, false)))
  }

  // ---- The word does not depend on the lines ----

  /** Every rule for interrupts asks for the I flag. */
  predicate Guarded(rules: seq<Rule>) {
    forall i :: 0 <= i < |rules| && rules[i].sel.OnInterrupt? ==> rules[i].cond == When(FlagI, true)
  }

  lemma {:induction false} SelectedUnheard(rules: seq<Rule>, a: Address, b: Address)
    requires Guarded(rules) && b == a.(interrupt := b.interrupt) && (a.reset == 1 || !FlagBit(FlagI, a.flags))
    ensures Selected(rules, a) == Selected(rules, b)
  {
    hide Stored, FlagBit;
    if rules != [] {
      SelectedUnheard(rules[..|rules| - 1], a, b);
    }
  }

  lemma RowGuarded(c: Control, step: nat, mods: seq<Token>, atEnd: bool)
    requires mods == [FlagIs(FlagI, true)]
    ensures RowRules(OnInterrupt, c, step, mods, atEnd) == [Rule(OnInterrupt, step, When(FlagI, true), c)]
  {
    assert mods[0].FlagIs? && mods[1..] == [];
    assert FlagRules(OnInterrupt, c, step, mods[1..]) == [];
  }

  lemma {:induction false} LinesGuarded(lines: seq<Line>, step: nat, last: bool)
    requires forall i :: 0 <= i < |lines| ==> lines[i].mods == [FlagIs(FlagI, true)]
    ensures Guarded(LineRules(lines, OnInterrupt, step, last))
  {
    hide EndStep, NextStep, RowRules;
    if lines != [] {
      LinesGuarded(lines[1..], NextStep(EndStep(step, lines[0].mods)), last);
      RowGuarded(lines[0].control, step, lines[0].mods, last && |lines| == 1);
    }
  }

  lemma OthersGuarded(b: Block, last: bool)
    requires !b.sel.OnInterrupt?
    ensures Guarded(LineRules(b.lines, b.sel, 0, last))
  {
    hide LineRules;
    LinesAreFor(b.lines, b.sel, 0, last);
  }

  lemma {:induction false} RulesGuarded(p: seq<Block>)
    requires forall i :: 0 <= i < |p| && p[i].sel.OnInterrupt? ==>
               forall j :: 0 <= j < |p[i].lines| ==> p[i].lines[j].mods == [FlagIs(FlagI, true)]
    ensures Guarded(Rules(p))
  {
    hide LineRules;
    if p != [] {
      if p[0].sel.OnInterrupt? {
        LinesGuarded(p[0].lines, 0, |p| == 1);
      } else {
        OthersGuarded(p[0], |p| == 1);
      }
      RulesGuarded(p[1..]);
    }
  }

  lemma InterruptLines()
    ensures forall j :: 0 <= j < |InterruptSequence().lines| ==>
            InterruptSequence().lines[j].mods == [FlagIs(FlagI, true)]
  {
  }

  lemma SourceGuarded()
    ensures Guarded(Rules(Source()))
  {
    hide Source, SelectorAt, InterruptSequence;
    SourceSelectors();
    InterruptLines();
    forall i | 0 <= i < |Source()| && Source()[i].sel.OnInterrupt?
      ensures Source()[i] == InterruptSequence()
    {
      InterruptAt(i);
    }
    RulesGuarded(Source());
  }

  lemma InterruptAt(i: nat)
    requires i < 22 && SelectorAt(i).OnInterrupt?
    ensures |Source()| == 22 && Source()[i] == InterruptSequence()
  {
  }

  lemma FlagILine(f: Alu.Flags)
    ensures FlagBit(FlagI, Alu.FlagByte(f) % 256 % 16) == f.i
  {
  }

  /** The same word is read whatever the interrupt lines say. */
  lemma SameWord(rom: seq<bv8>, m: State, n: State)
    requires HasMicrocode(rom) && m.step < 16 && Calm(n) == Calm(m) && (m.reset || !m.f.i)
    ensures ControlWord(rom, n) == ControlWord(rom, m)
  {
    hide Source, ReadControl, Selected, Rules, Guarded, BitOr, Alu.FlagByte, ControlIn, FlagBit;
    var flags, i, j := Alu.FlagByte(m.f) % 256, m.memory.interrupts, n.memory.interrupts;
    ReadsSelected(rom, Rules(Source()), m.step, flags, m.opcode, i.out0, i.out1, m.reset);
    ReadsSelected(rom, Rules(Source()), m.step, flags, m.opcode, j.out0, j.out1, m.reset);
    SourceGuarded();
    FlagILine(m.f);
    SelectedUnheard(Rules(Source()), AddressOf(m.step, flags, m.opcode, i.out0, i.out1, m.reset),
                    AddressOf(m.step, flags, m.opcode, j.out0, j.out1, m.reset));
  }

  // ---- Nor does what the word does ----

  lemma SameBuses(m: State, n: State, w: Control, lines: Lines)
    requires Calm(n) == Calm(m) && !ReadsPort(m, w)
    ensures AddressOut(n, w) == AddressOut(m, w) && DataBus(n, w, lines) == DataBus(m, w, lines)
  {
    hide Alu.FlagByte;
  }

  lemma SameWrite(m: Memory, n: Memory, data: Byte, address: Word, calm: Interrupts)
    requires m.(interrupts := calm) == n.(interrupts := calm)
    ensures WriteMemory(m, data, address).(interrupts := calm) == WriteMemory(n, data, address).(interrupts := calm)
  {
  }

  lemma SameLoad(m: State, n: State, w: Control, data: Byte, alu: Byte, address: Word)
    requires Calm(n) == Calm(m)
    ensures Calm(LoadData(n, w, data, alu, address)) == Calm(LoadData(m, w, data, alu, address))
  {
    hide WriteMemory;
    SameWrite(m.memory, n.memory, data, address, Interrupts(false, false, false, false, false, false));
  }

  /** Machines that differ only in their interrupts do the same with a word that does not read the port. */
  lemma SameExecute(m: State, n: State, w: Control, lines: Lines)
    requires Calm(n) == Calm(m) && !ReadsPort(m, w)
    ensures Calm(Execute(n, w, lines)) == Calm(Execute(m, w, lines))
  {
    hide AddressOut, DataBus, LoadData, Alu.Output, Alu.CarryOut, Alu.ByteFlags;
    SameBuses(m, n, w, lines);
    var address, data := AddressOut(m, w), DataBus(m, w, lines);
    var alu := Alu.CalcAlu(m.a, data, m.f, w);
    var flags := if w & CTRL_FI == 0 && w & CTRL_FD != 0 then Alu.ByteFlags(data) else alu.flags;
    SameLoad(LoadAddress(m.(f := flags), w, address), LoadAddress(n.(f := flags), w, address), w, data, alu.out,
             address);
  }

  lemma StepStays(m: State, w: Control, lines: Lines)
    requires m.step < 16
    ensures Execute(m, w, lines).step < 16
  {
    hide AddressOut, DataBus, LoadData, Alu.CalcAlu, Alu.ByteFlags;
  }

  /** What holds of a masked run holds of every run with interrupts requested at any time: registers and memory end up
      the same. */
  lemma {:induction false} MaskedHolds(
    rom: seq<bv8>, m: State, n: State, k: nat, time: nat, env: nat -> Lines, asks: nat -> bool)
    requires HasMicrocode(rom) && m.step < 16 && Calm(n) == Calm(m) && RunMasked(rom, m, k, time, env, true).Some?
    ensures Calm(RunAsked(rom, n, k, time, env, asks)) == Calm(RunMasked(rom, m, k, time, env, true).value)
    decreases k
  {
    hide HasMicrocode, ControlWord, Execute, ReadsPort;
    if k > 0 {
      SameWord(rom, m, n);
      var w := ControlWord(rom, m);
      SameExecute(m, n, w, env(time));
      StepStays(m, w, env(time));
      var m1, n1 := Clock(rom, m, env(time)), Asked(Clock(rom, n, env(time)), asks(time));
      MaskedHolds(rom, m1, n1, k - 1, time + 1, env, asks);
    }
  }
}
