/** Branches to names: where they come out. The assembler's distances and the microcode differ by one. */
module Branches {
  import opened Wrappers
  import opened Bits
  import opened ControlBits
  import opened Microcode
  import opened Program
  import opened MicrocodeSource
  import opened Machine
  import opened MicrocodeWords
  import opened Instructions
  import Alu
  import A = Assembler
  import L = Linker

  // ---- Words ----

  const LOAD_X_STAY: Control := CTRL_IO | CTRL_XZ | CTRL_XC | CTRL_NA | CTRL_MO | CTRL_EO | CTRL_XI
  const SKIP: Control := CTRL_IO | CTRL_XZ | CTRL_XC | CTRL_II | CTRL_MO | CTRL_EO | CTRL_ND
  const TAKE: Control := CTRL_IO | CTRL_XC | CTRL_II | CTRL_MO | CTRL_EO | CTRL_CI
  const TAKE_BACK: Control := CTRL_IO | CTRL_XN | CTRL_II | CTRL_MO | CTRL_EO | CTRL_CI

  lemma ExecuteLoadXStay(m: State, lines: Lines)
    requires m.step < 15
    ensures Execute(m, Stored(LOAD_X_STAY), lines) == m.(x := After(m, lines), step := m.step + 1)
    ensures !IsPort(Next(m.i)) ==> !ReadsPort(m, Stored(LOAD_X_STAY))
  {
    hide ReadMemory;
  }

  lemma ExecuteSkip(m: State, lines: Lines)
    requires m.step < 15
    ensures Execute(m, Stored(SKIP), lines) == m.(i := Next(m.i), step := m.step + 1)
    ensures !IsPort(Next(m.i)) ==> !ReadsPort(m, Stored(SKIP))
  {
    hide ReadMemory;
  }

  /** To the instruction pointer plus X plus one. */
  lemma ExecuteTake(m: State, lines: Lines)
    ensures var n := (m.i + m.x + 1) % 65536;
            Execute(m, Stored(TAKE), lines) ==
            m.(i := n, opcode := ReadMemory(m.memory, lines, n), reset := false, memory := ReadInterrupts(m.memory),
               step := 0)
    ensures !IsPort((m.i + m.x + 1) % 65536) ==> !ReadsPort(m, Stored(TAKE))
  {
    hide ReadMemory;
  }

  /** To the instruction pointer minus X minus one. */
  lemma ExecuteTakeBack(m: State, lines: Lines)
    ensures var n := (m.i + (65535 - m.x)) % 65536;
            Execute(m, Stored(TAKE_BACK), lines) ==
            m.(i := n, opcode := ReadMemory(m.memory, lines, n), reset := false, memory := ReadInterrupts(m.memory),
               step := 0)
    ensures !IsPort((m.i + (65535 - m.x)) % 65536) ==> !ReadsPort(m, Stored(TAKE_BACK))
  {
    hide ReadMemory;
  }

  // ---- Blocks whose last two lines are for some flags ----

  predicate AllFlags(fs: seq<Token>) {
    forall i :: 0 <= i < |fs| ==> fs[i].FlagIs?
  }

  /** One of the flags has its value. */
  predicate Meets(fs: seq<Token>, flags: nat)
    requires AllFlags(fs)
  {
    exists i :: 0 <= i < |fs| && FlagBit(fs[i].flag, flags) == fs[i].value
  }

  lemma MeetsFirst(fs: seq<Token>, flags: nat)
    requires AllFlags(fs) && fs != []
    ensures AllFlags(fs[1..])
    ensures Meets(fs, flags) == (FlagBit(fs[0].flag, flags) == fs[0].value || Meets(fs[1..], flags))
  {
    hide FlagBit;
    if Meets(fs[1..], flags) {
      var i :| 0 <= i < |fs| - 1 && FlagBit(fs[1..][i].flag, flags) == fs[1..][i].value;
      assert fs[i + 1] == fs[1..][i];
    }
  }

  lemma MeetsNone(flags: nat)
    ensures !Meets([], flags)
  {
  }

  lemma FlagMatches(sel: Selector, c: Control, step: nat, flag: Flag, value: bool, a: Address)
    requires Selects(sel, a) && step < 16
    ensures Matches(Rule(sel, step, When(flag, value), c), a) == (step == a.step && FlagBit(flag, a.flags) == value)
  {
    hide FlagBit, Selects;
  }

  /** The rules of a line with flags: they match when one flag has its value. */
  lemma {:induction false} FlagsDecide(sel: Selector, c: Control, step: nat, fs: seq<Token>, a: Address)
    requires AllFlags(fs) && Selects(sel, a) && step < 16
    ensures var r := FlagRules(sel, c, step, fs);
            Hit(r, a) == (step == a.step && Meets(fs, a.flags)) && (Hit(r, a) ==> Selected(r, a) == Stored(c))
    decreases |fs|
  {
    hide FlagBit, Stored, Selects, Meets, Hit, Selected, Matches;
    if fs == [] {
      MeetsNone(a.flags);
      NothingSelected(a);
    } else {
      var one := Rule(sel, step, When(fs[0].flag, fs[0].value), c);
      MeetsFirst(fs, a.flags);
      FlagsDecide(sel, c, step, fs[1..], a);
      SelectedConcat([one], FlagRules(sel, c, step, fs[1..]), a);
      OneRule(one, a);
      FlagMatches(sel, c, step, fs[0].flag, fs[0].value, a);
    }
  }

  lemma OneRule(r: Rule, a: Address)
    ensures Hit([r], a) == Matches(r, a) && (Matches(r, a) ==> Selected([r], a) == Stored(r.control))
  {
    hide Matches, Stored;
    assert [r][0] == r;
  }

  lemma {:induction false} FlagsStay(step: nat, fs: seq<Token>)
    requires AllFlags(fs)
    ensures EndStep(step, fs) == step
    decreases |fs|
  {
    if fs != [] {
      FlagsStay(step, fs[1..]);
    }
  }

  /** Two steps without condition, and the same two again for some flags. */
  function TwoWays(w: seq<Control>, v: seq<Control>, fs: seq<Token>): seq<Line>
    requires |w| == |v| == 2
  {
    [Line(w[0], []), Line(w[1], []), Line(v[0], [Star] + fs), Line(v[1], fs)]
  }

  lemma TwoWaysRules(w: seq<Control>, v: seq<Control>, fs: seq<Token>, sel: Selector)
    requires |w| == |v| == 2 && AllFlags(fs) && fs != []
    ensures LineRules(TwoWays(w, v, fs), sel, 0, false) ==
            [Rule(sel, 0, Always, w[0]), Rule(sel, 1, Always, w[1])] +
            FlagRules(sel, v[0], 0, fs) + FlagRules(sel, v[1], 1, fs)
  {
    hide FlagRules, RowRules;
    var lines := TwoWays(w, v, fs);
    var l1, l2 := lines[1..], lines[2..];
    assert l1[1..] == l2 && l2[1..] == [lines[3]] && l2[0] == lines[2];
    PlainRow(sel, w[0], 0, false);
    PlainRow(sel, w[1], 1, false);
    FlagsStay(0, fs);
    StarRow(sel, v[0], fs);
    FlagRow(sel, v[1], fs);
    assert LineRules(l2[1..], sel, 1, false) == RowRules(sel, v[1], 1, fs, false) + [];
    assert LineRules(l2, sel, 2, false) ==
           RowRules(sel, v[0], 2, [Star] + fs, false) + LineRules(l2[1..], sel, 1, false);
    assert LineRules(l1, sel, 1, false) == [Rule(sel, 1, Always, w[1])] + LineRules(l2, sel, 2, false);
  }

  lemma StarRow(sel: Selector, c: Control, fs: seq<Token>)
    requires AllFlags(fs) && fs != []
    ensures RowRules(sel, c, 2, [Star] + fs, false) == FlagRules(sel, c, 0, fs) &&
            EndStep(2, [Star] + fs) == EndStep(0, fs)
  {
    assert ([Star] + fs)[1..] == fs && ([Star] + fs)[1] == fs[0];
    assert HasFlag([Star] + fs);
  }

  lemma FlagRow(sel: Selector, c: Control, fs: seq<Token>)
    requires AllFlags(fs) && fs != []
    ensures RowRules(sel, c, 1, fs, false) == FlagRules(sel, c, 1, fs)
  {
    assert fs[0].FlagIs?;
  }

  /** The flags choose between the two ways. */
  lemma TwoWaysDecide(w: seq<Control>, v: seq<Control>, fs: seq<Token>, sel: Selector, a: Address)
    requires |w| == |v| == 2 && AllFlags(fs) && fs != [] && Selects(sel, a) && a.step < 2
    ensures Selected(LineRules(TwoWays(w, v, fs), sel, 0, false), a) ==
            Stored(if Meets(fs, a.flags) then v[a.step] else w[a.step])
  {
    hide TwoWays, LineRules, FlagRules, Selected, Stored, Meets, Hit, Selects;
    TwoWaysRules(w, v, fs, sel);
    var base := [Rule(sel, 0, Always, w[0]), Rule(sel, 1, Always, w[1])];
    var first, second := FlagRules(sel, v[0], 0, fs), FlagRules(sel, v[1], 1, fs);
    FlagsDecide(sel, v[0], 0, fs, a);
    FlagsDecide(sel, v[1], 1, fs, a);
    SelectedConcat(base + first, second, a);
    SelectedConcat(base, first, a);
    BaseDecides(w, sel, a);
  }

  lemma BaseDecides(w: seq<Control>, sel: Selector, a: Address)
    requires |w| == 2 && Selects(sel, a) && a.step < 2
    ensures Selected([Rule(sel, 0, Always, w[0]), Rule(sel, 1, Always, w[1])], a) == Stored(w[a.step])
  {
    hide Stored, Selects;
    var r := [Rule(sel, 0, Always, w[0]), Rule(sel, 1, Always, w[1])];
    assert r[..1] == [r[0]];
    assert Matches(r[1], a) == (a.step == 1) && Matches(r[0], a) == (a.step == 0);
    assert Selected([r[0]], a) == if Matches(r[0], a) then Stored(w[0]) else Selected([], a);
  }

  // ---- The branches forwards ----

  predicate IsForward(o: Byte) {
    o == 0xE0 || o == 0xEC || o == 0xEE
  }

  /** `brz` on zero, `brg` on greater, `bng` on not greater. */
  predicate Taken(o: Byte, f: Alu.Flags) {
    if o == 0xE0 then f.z else if o == 0xEC then !f.z && !f.n else f.z || f.n
  }

  const TO_TARGET: seq<Control> := [LOAD_X, TAKE]
  const TO_NEXT: seq<Control> := [SKIP, FETCH]

  /** The place of the block in the file, and its flags. */
  function BlockOf(o: Byte): nat {
    if o == 0xE0 then 11 else if o == 0xEC then 12 else 13
  }

  function FlagsOf(o: Byte): seq<Token> {
    if o == 0xE0 then [FlagIs(FlagZ, false)] else [FlagIs(FlagZ, true), FlagIs(FlagN, true)]
  }

  function LinesOf(o: Byte): seq<Line> {
    if o == 0xEE then TwoWays(TO_NEXT, TO_TARGET, FlagsOf(o)) else TwoWays(TO_TARGET, TO_NEXT, FlagsOf(o))
  }

  lemma ForwardBlock(o: Byte)
    requires IsForward(o)
    ensures |Source()| == 22 && Source()[BlockOf(o)].sel == OnOpcode(o) && Source()[BlockOf(o)].lines == LinesOf(o)
  {
    if o == 0xE0 {
      BrzLines();
    } else if o == 0xEC {
      BrgLines();
    } else {
      BngLines();
    }
  }

  lemma BrzLines()
    ensures Brz().sel == OnOpcode(0xE0) && Brz().lines == LinesOf(0xE0)
  {
    assert [Star] + FlagsOf(0xE0) == [Star, FlagIs(FlagZ, false)];
  }

  lemma BrgLines()
    ensures Brg().sel == OnOpcode(0xEC) && Brg().lines == LinesOf(0xEC)
  {
    assert [Star] + FlagsOf(0xEC) == [Star, FlagIs(FlagZ, true), FlagIs(FlagN, true)];
  }

  lemma BngLines()
    ensures Bng().sel == OnOpcode(0xEE) && Bng().lines == LinesOf(0xEE)
  {
    assert [Star] + FlagsOf(0xEE) == [Star, FlagIs(FlagZ, true), FlagIs(FlagN, true)];
  }

  lemma FlagLines(f: Alu.Flags)
    requires f.high == 0
    ensures FlagBit(FlagZ, Alu.FlagByte(f)) == f.z && FlagBit(FlagN, Alu.FlagByte(f)) == f.n
  {
  }

  lemma MeetsTaken(o: Byte, f: Alu.Flags)
    requires IsForward(o) && f.high == 0
    ensures AllFlags(FlagsOf(o))
    ensures Meets(FlagsOf(o), Alu.FlagByte(f)) == if o == 0xEE then Taken(o, f) else !Taken(o, f)
  {
    hide Alu.FlagByte, FlagBit;
    FlagLines(f);
    var fs := FlagsOf(o);
    MeetsFirst(fs, Alu.FlagByte(f));
    if o != 0xE0 {
      assert fs[1..] == [FlagIs(FlagN, true)];
      MeetsFirst(fs[1..], Alu.FlagByte(f));
    }
  }

  lemma ForwardWord(rom: seq<bv8>, m: State)
    requires HasMicrocode(rom) && IsForward(m.opcode) && m.step < 2 && !m.reset && Quiet(m.memory) && m.f.high == 0
    ensures ControlWord(rom, m) == Stored(if Taken(m.opcode, m.f) then TO_TARGET[m.step] else TO_NEXT[m.step])
  {
    hide HasMicrocode, ControlWord, Source, Selected, Stored, LineRules, TwoWays, Meets, Taken, FlagsOf, TO_TARGET,
         TO_NEXT, Selects;
    NormalWord(rom, m);
    var a := Address(m.step, Alu.FlagByte(m.f), m.opcode, 0, 0);
    ForwardBlock(m.opcode);
    MeetsTaken(m.opcode, m.f);
    OnlyThisBlock(BlockOf(m.opcode), a);
    OneBlockDecides(Source(), BlockOf(m.opcode), a);
    assert FlagsOf(m.opcode) != [] by { FlagsThere(m.opcode); }
    assert |TO_TARGET| == |TO_NEXT| == 2 by { TwoWords(); }
    assert Selects(OnOpcode(m.opcode), a) by { OwnOpcode(a); }
    if m.opcode == 0xEE {
      TwoWaysDecide(TO_NEXT, TO_TARGET, FlagsOf(m.opcode), OnOpcode(m.opcode), a);
    } else {
      TwoWaysDecide(TO_TARGET, TO_NEXT, FlagsOf(m.opcode), OnOpcode(m.opcode), a);
    }
  }

  lemma FlagsThere(o: Byte)
    ensures FlagsOf(o) != []
  {
  }

  lemma TwoWords()
    ensures |TO_TARGET| == |TO_NEXT| == 2
  {
  }

  lemma OwnOpcode(a: Address)
    requires a.reset == 0 && a.opcode < 256
    ensures Selects(OnOpcode(a.opcode), a)
  {
  }

  /** A branch that is taken leaves its operand in X and goes on that far behind itself. */
  function AfterForward(m: State): State
    requires InFlash(m.i + 2)
  {
    var d := Code(m.memory, m.i + 1);
    if Taken(m.opcode, m.f) then
      var n: Word := (m.i + 2 + d) % 65536;
      m.(x := d, i := n, opcode := Code(m.memory, n))
    else m.(i := m.i + 2, opcode := Code(m.memory, m.i + 2))
  }

  lemma ForwardRuns(rom: seq<bv8>, m: State, time: nat, env: nat -> Lines, masked: bool)
    requires HasMicrocode(rom) && ReadyTo(m, masked) && IsForward(m.opcode) && InFlash(m.i + 2)
    requires Taken(m.opcode, m.f) ==> InFlash(m.i + 2 + Code(m.memory, m.i + 1))
    ensures RunMasked(rom, m, 2, time, env, masked) == Some(AfterForward(m))
  {
    hide HasMicrocode, ControlWord, Execute, Stored, ReadMemory, Code, RunMasked, ReadsPort, Taken, LOAD_X, SKIP, TAKE,
         FETCH;
    var taken := Taken(m.opcode, m.f);
    ForwardWord(rom, m);
    OneClock(rom, m, Stored(if taken then LOAD_X else SKIP), 2, time, env, masked);
    ReadsCode(m.memory, env(time), m.i + 1);
    ExecuteLoadX(m, env(time));
    ExecuteSkip(m, env(time));
    var m1 := Execute(m, Stored(if taken then LOAD_X else SKIP), env(time));
    ForwardWord(rom, m1);
    OneClock(rom, m1, Stored(if taken then TAKE else FETCH), 1, time + 1, env, masked);
    ExecuteTake(m1, env(time + 1));
    ExecuteFetch(m1, env(time + 1));
    ReadsCode(m1.memory, env(time + 1), AfterForward(m).i);
    Unrequested(m1.memory);
    NoClock(rom, Execute(m1, Stored(if taken then TAKE else FETCH), env(time + 1)), time + 2, env, masked);
  }

  // ---- The branch backwards ----

  lemma BraBlock()
    ensures IsPlain(14, Bra(), 0xF1) && |Bra().lines| == 2
    ensures Bra().lines[0].control == LOAD_X_STAY && Bra().lines[1].control == TAKE_BACK
  {
  }

  function AfterBra(m: State): State
    requires InFlash(m.i + 1) && InFlash(m.i - Code(m.memory, m.i + 1) - 1)
  {
    var d := Code(m.memory, m.i + 1);
    m.(x := d, i := m.i - d - 1, opcode := Code(m.memory, m.i - d - 1))
  }

  lemma BraRuns(rom: seq<bv8>, m: State, time: nat, env: nat -> Lines, masked: bool)
    requires HasMicrocode(rom) && ReadyTo(m, masked) && m.opcode == 0xF1 && InFlash(m.i + 1)
    requires InFlash(m.i - Code(m.memory, m.i + 1) - 1)
    ensures RunMasked(rom, m, 2, time, env, masked) == Some(AfterBra(m))
  {
    hide HasMicrocode, IsPlain, Bra, Execute, Stored, ReadMemory, Code, RunMasked, ReadsPort, LOAD_X_STAY, TAKE_BACK;
    BraBlock();
    PlainClock(rom, m, 14, Bra(), 2, time, env, masked);
    ExecuteLoadXStay(m, env(time));
    ReadsCode(m.memory, env(time), m.i + 1);
    var m1 := Execute(m, Stored(LOAD_X_STAY), env(time));
    PlainClock(rom, m1, 14, Bra(), 1, time + 1, env, masked);
    ExecuteTakeBack(m1, env(time + 1));
    ReadsCode(m1.memory, env(time + 1), AfterBra(m).i);
    Unrequested(m1.memory);
    NoClock(rom, Execute(m1, Stored(TAKE_BACK), env(time + 1)), time + 2, env, masked);
  }

  // ---- What the assembler emits ----

  /** The operand of a branch to a later label: the distance is counted from two bytes behind its field. */
  lemma ForwardOperand(a: nat, name: string, symbols: seq<A.Symbol>, v: nat)
    requires A.Lookup(symbols, name) == Some(v) && a + 258 < 0x1_0000_0000 && v < 0x1_0000_0000
    ensures A.Filling(A.Reference(A.RefRelative, a + 1, name, 1), symbols) ==
            if a + 3 <= v <= a + 258 then Some([v - a - 3]) else None
  {
    hide A.Lookup;
    if a + 3 <= v <= a + 258 {
      assert A.Wrap(v - (a + 1) - 2) == v - a - 3;
      assert A.LittleEndian(v - a - 3, 1) == [v - a - 3];
    }
  }

  /** The operand of a branch to an earlier label: the distance to the opcode. */
  lemma BackwardOperand(s: A.Assembly, name: string, v: nat)
    requires s.segments != [] && A.Lookup(s.symbols, name) == Some(v) && 1 <= s.at < 0x1_0000_0000 && v < s.at
    ensures A.PutBranch(s, name) ==
            if s.at - 1 - v <= 255 then A.Emit(s, s.at - 1 - v, 1) else s.(errors := s.errors + 1)
  {
    hide A.Lookup, A.Emit;
    assert A.Wrap(s.at - v - 1) == s.at - v - 1;
  }

  // ---- Where the branches come out ----

  /** In one bank, window addresses are as far apart as flash addresses. */
  lemma SameBankApart(a: nat, v: nat)
    requires a / 0x4000 == v / 0x4000
    ensures A.NormalizeWord(v) - A.NormalizeWord(a) == v - a
  {
    L.LongParts(a);
    L.LongParts(v);
  }

  /** A taken branch to a later label: with the assembler's operand it comes out one byte before the label, and at the
      label exactly if the operand is one more. */
  lemma ForwardComesOut(
    rom: seq<bv8>, m: State, a: nat, v: nat, time: nat, env: nat -> Lines, masked: bool)
    requires HasMicrocode(rom) && ReadyTo(m, masked) && IsForward(m.opcode) && Taken(m.opcode, m.f)
    requires m.i == A.NormalizeWord(a) && a / 0x4000 == v / 0x4000 && a + 3 <= v && InFlash(m.i + 2)
    requires InFlash(m.i + 2 + Code(m.memory, m.i + 1))
    ensures var run := RunMasked(rom, m, 2, time, env, masked);
            run.Some? &&
            (Code(m.memory, m.i + 1) == v - a - 3 ==> run.value.i == A.NormalizeWord(v) - 1) &&
            (run.value.i == A.NormalizeWord(v) <==> Code(m.memory, m.i + 1) == v - a - 2)
  {
    hide HasMicrocode, RunMasked, Code, Taken, A.NormalizeWord;
    ForwardRuns(rom, m, time, env, masked);
    SameBankApart(a, v);
  }

  /** A branch to an earlier label: the same. */
  lemma BackwardComesOut(
    rom: seq<bv8>, m: State, a: nat, v: nat, time: nat, env: nat -> Lines, masked: bool)
    requires HasMicrocode(rom) && ReadyTo(m, masked) && m.opcode == 0xF1
    requires m.i == A.NormalizeWord(a) && a / 0x4000 == v / 0x4000 && v <= a && InFlash(m.i + 1)
    requires InFlash(m.i - Code(m.memory, m.i + 1) - 1)
    ensures var run := RunMasked(rom, m, 2, time, env, masked);
            run.Some? &&
            (Code(m.memory, m.i + 1) == a - v ==> run.value.i == A.NormalizeWord(v) - 1) &&
            (run.value.i == A.NormalizeWord(v) <==> Code(m.memory, m.i + 1) == a - v - 1)
  {
    hide HasMicrocode, RunMasked, Code, A.NormalizeWord;
    BraRuns(rom, m, time, env, masked);
    SameBankApart(a, v);
  }
}
