/** The instructions that use the pointers: loads and stores relative to them, moves between them, and jumps. */
module Pointers {
  import opened Wrappers
  import opened Bits
  import opened ControlBits
  import opened Microcode
  import opened Program
  import opened MicrocodeSource
  import opened Machine
  import opened MicrocodeWords
  import opened Instructions
  import Alu
  import MemoryMap

  // ---- Words ----

  const LOAD_BASE: Control := CTRL_BO | CTRL_NA | CTRL_MO | CTRL_EZ | CTRL_EO | CTRL_AI | CTRL_FI

  /** Loads A from base pointer plus X. */
  lemma ExecuteLoadBase(m: State, lines: Lines)
    requires m.step < 15
    ensures var d := ReadMemory(m.memory, lines, (m.b + m.x) % 65536);
            Execute(m, Stored(LOAD_BASE), lines) ==
            m.(a := d, f := m.f.(n := d >= 128, z := d == 0), step := m.step + 1)
    ensures !IsPort((m.b + m.x) % 65536) ==> !ReadsPort(m, Stored(LOAD_BASE))
  {
    hide BitOr, Alu.And, ReadMemory;
    Alu.OrZero(ReadMemory(m.memory, lines, (m.b + m.x) % 65536));
  }

  const STORE_POINTER: Control := CTRL_PO | CTRL_NA | CTRL_AO | CTRL_EO | CTRL_MI

  lemma ExecuteStorePointer(m: State, lines: Lines)
    requires m.step < 15
    ensures Execute(m, Stored(STORE_POINTER), lines) ==
            m.(memory := WriteMemory(m.memory, m.a, (m.p + m.x) % 65536), step := m.step + 1)
    ensures !ReadsPort(m, Stored(STORE_POINTER))
  {
    hide WriteMemory;
  }

  const POINT_BASE: Control := CTRL_BO | CTRL_PI | CTRL_ZO | CTRL_EO | CTRL_ND
  const POINT_ON: Control := CTRL_PO | CTRL_PI | CTRL_ZO | CTRL_EO | CTRL_ND
  const POINT_TO: Control := CTRL_TO | CTRL_XZ | CTRL_PI | CTRL_ZO | CTRL_EO | CTRL_ND

  lemma ExecutePoint(m: State, lines: Lines)
    requires m.step < 15
    ensures Execute(m, Stored(POINT_BASE), lines) == m.(p := (m.b + m.x) % 65536, step := m.step + 1)
    ensures Execute(m, Stored(POINT_ON), lines) == m.(p := (m.p + m.x) % 65536, step := m.step + 1)
    ensures Execute(m, Stored(POINT_TO), lines) == m.(p := m.t, step := m.step + 1)
    ensures !ReadsPort(m, Stored(POINT_BASE)) && !ReadsPort(m, Stored(POINT_ON)) && !ReadsPort(m, Stored(POINT_TO))
  {
  }

  const MOVE_BASE: Control := CTRL_PO | CTRL_XZ | CTRL_BI | CTRL_ZO | CTRL_EO | CTRL_ND
  const MOVE_STACK: Control := CTRL_PO | CTRL_XZ | CTRL_SI | CTRL_ZO | CTRL_EO | CTRL_ND

  lemma ExecuteMove(m: State, lines: Lines)
    requires m.step < 15
    ensures Execute(m, Stored(MOVE_BASE), lines) == m.(b := m.p, step := m.step + 1)
    ensures Execute(m, Stored(MOVE_STACK), lines) == m.(s := m.p, step := m.step + 1)
    ensures !ReadsPort(m, Stored(MOVE_BASE)) && !ReadsPort(m, Stored(MOVE_STACK))
  {
  }

  // ---- Relative to a pointer ----

  /** The byte behind the opcode. */
  function Immediate(m: State): Byte {
    Code(m.memory, m.i + 1)
  }

  /** The clock that reads it into X. */
  lemma IndexClock(rom: seq<bv8>, m: State, k: nat, b: Block, n: nat, time: nat, env: nat -> Lines, masked: bool)
    requires HasMicrocode(rom) && ReadyTo(m, masked) && IsPlain(k, b, m.opcode) && InFlash(m.i + 2) && n > 0
    requires |b.lines| == 3 && b.lines[0].control == LOAD_X
    ensures RunMasked(rom, m, n, time, env, masked) ==
            RunMasked(rom, m.(i := m.i + 1, x := Immediate(m), step := 1), n - 1, time + 1, env, masked)
  {
    hide HasMicrocode, IsPlain, Execute, Stored, ReadMemory, Code, RunMasked, ReadsPort, LOAD_X;
    PlainClock(rom, m, k, b, n, time, env, masked);
    ExecuteLoadX(m, env(time));
    ReadsCode(m.memory, env(time), m.i + 1);
  }

  lemma LodBaseBlock()
    ensures IsPlain(1, LodBase(), 0x02) && |LodBase().lines| == 3
    ensures LodBase().lines[0].control == LOAD_X && LodBase().lines[1].control == LOAD_BASE &&
            LodBase().lines[2].control == FETCH
  {
  }

  /** `lod B+#imm` loads A from the address B + imm, and sets Z and N for it. X is left at imm. */
  lemma LodBaseRuns(rom: seq<bv8>, m: State, time: nat, env: nat -> Lines, masked: bool)
    requires HasMicrocode(rom) && ReadyTo(m, masked) && m.opcode == 0x02 && InFlash(m.i + 2)
    requires masked ==> !IsPort((m.b + Immediate(m)) % 65536)
    ensures var d := ReadMemory(m.memory, env(time + 1), (m.b + Immediate(m)) % 65536);
            RunMasked(rom, m, 3, time, env, masked) ==
            Some(m.(a := d, x := Immediate(m), f := m.f.(n := d >= 128, z := d == 0), i := m.i + 2,
                    opcode := Code(m.memory, m.i + 2)))
  {
    hide HasMicrocode, IsPlain, LodBase, Execute, Stored, ReadMemory, Code, RunMasked, ReadsPort, LOAD_X, LOAD_BASE,
         FETCH;
    LodBaseBlock();
    IndexClock(rom, m, 1, LodBase(), 3, time, env, masked);
    var m1 := m.(i := m.i + 1, x := Immediate(m), step := 1);
    PlainClock(rom, m1, 1, LodBase(), 2, time + 1, env, masked);
    ExecuteLoadBase(m1, env(time + 1));
    FetchClock(rom, Execute(m1, Stored(LOAD_BASE), env(time + 1)), 1, LodBase(), time + 2, env, masked);
  }

  lemma StoPointerBlock()
    ensures IsPlain(2, StoPointer(), 0x1C) && |StoPointer().lines| == 3
    ensures StoPointer().lines[0].control == LOAD_X && StoPointer().lines[1].control == STORE_POINTER &&
            StoPointer().lines[2].control == FETCH
  {
  }

  /** `sto P+#imm` writes A at the address P + imm. */
  lemma StoPointerRuns(rom: seq<bv8>, m: State, time: nat, env: nat -> Lines, masked: bool)
    requires HasMicrocode(rom) && ReadyTo(m, masked) && m.opcode == 0x1C && InFlash(m.i + 2)
    ensures RunMasked(rom, m, 3, time, env, masked) ==
            Some(m.(x := Immediate(m), memory := WriteMemory(m.memory, m.a, (m.p + Immediate(m)) % 65536), i := m.i + 2,
                    opcode := Code(m.memory, m.i + 2)))
  {
    hide HasMicrocode, IsPlain, StoPointer, Execute, Stored, ReadMemory, WriteMemory, RunMasked, ReadsPort, LOAD_X,
         STORE_POINTER, FETCH;
    StoPointerBlock();
    IndexClock(rom, m, 2, StoPointer(), 3, time, env, masked);
    var m1 := m.(i := m.i + 1, x := Immediate(m), step := 1);
    PlainClock(rom, m1, 2, StoPointer(), 2, time + 1, env, masked);
    ExecuteStorePointer(m1, env(time + 1));
    WriteKeeps(m.memory, m.a, (m.p + Immediate(m)) % 65536);
    FetchClock(rom, Execute(m1, Stored(STORE_POINTER), env(time + 1)), 2, StoPointer(), time + 2, env, masked);
  }

  lemma LeaBlocks()
    ensures IsPlain(3, LeaBase(), 0x12) && |LeaBase().lines| == 3
    ensures LeaBase().lines[0].control == LOAD_X && LeaBase().lines[1].control == POINT_BASE &&
            LeaBase().lines[2].control == FETCH
    ensures IsPlain(4, LeaPointer(), 0x14) && |LeaPointer().lines| == 3
    ensures LeaPointer().lines[0].control == LOAD_X && LeaPointer().lines[1].control == POINT_ON &&
            LeaPointer().lines[2].control == FETCH
    ensures IsPlain(5, Lea(), 0x11) && |Lea().lines| == 4
    ensures Lea().lines[0].control == LOAD_LOW && Lea().lines[1].control == LOAD_HIGH &&
            Lea().lines[2].control == POINT_TO && Lea().lines[3].control == FETCH
  {
  }

  /** `lea B+#imm` points P at B + imm. */
  lemma LeaBaseRuns(rom: seq<bv8>, m: State, time: nat, env: nat -> Lines, masked: bool)
    requires HasMicrocode(rom) && ReadyTo(m, masked) && m.opcode == 0x12 && InFlash(m.i + 2)
    ensures RunMasked(rom, m, 3, time, env, masked) ==
            Some(m.(x := Immediate(m), p := (m.b + Immediate(m)) % 65536, i := m.i + 2,
                    opcode := Code(m.memory, m.i + 2)))
  {
    hide HasMicrocode, IsPlain, LeaBase, LeaPointer, Lea, Execute, Stored, ReadMemory, Code, RunMasked, ReadsPort,
         LOAD_X, POINT_BASE, FETCH;
    LeaBlocks();
    IndexClock(rom, m, 3, LeaBase(), 3, time, env, masked);
    var m1 := m.(i := m.i + 1, x := Immediate(m), step := 1);
    PlainClock(rom, m1, 3, LeaBase(), 2, time + 1, env, masked);
    ExecutePoint(m1, env(time + 1));
    FetchClock(rom, Execute(m1, Stored(POINT_BASE), env(time + 1)), 3, LeaBase(), time + 2, env, masked);
  }

  /** `lea P+#imm` moves P on by imm. */
  lemma LeaPointerRuns(rom: seq<bv8>, m: State, time: nat, env: nat -> Lines, masked: bool)
    requires HasMicrocode(rom) && ReadyTo(m, masked) && m.opcode == 0x14 && InFlash(m.i + 2)
    ensures RunMasked(rom, m, 3, time, env, masked) ==
            Some(m.(x := Immediate(m), p := (m.p + Immediate(m)) % 65536, i := m.i + 2,
                    opcode := Code(m.memory, m.i + 2)))
  {
    hide HasMicrocode, IsPlain, LeaBase, LeaPointer, Lea, Execute, Stored, ReadMemory, Code, RunMasked, ReadsPort,
         LOAD_X, POINT_ON, FETCH;
    LeaBlocks();
    IndexClock(rom, m, 4, LeaPointer(), 3, time, env, masked);
    var m1 := m.(i := m.i + 1, x := Immediate(m), step := 1);
    PlainClock(rom, m1, 4, LeaPointer(), 2, time + 1, env, masked);
    ExecutePoint(m1, env(time + 1));
    FetchClock(rom, Execute(m1, Stored(POINT_ON), env(time + 1)), 4, LeaPointer(), time + 2, env, masked);
  }

  /** `lea adr` points P at the address behind the opcode; T is left there too. */
  lemma LeaRuns(rom: seq<bv8>, m: State, time: nat, env: nat -> Lines, masked: bool)
    requires HasMicrocode(rom) && ReadyTo(m, masked) && m.opcode == 0x11 && InFlash(m.i + 3)
    ensures RunMasked(rom, m, 4, time, env, masked) ==
            Some(m.(t := Operand(m), p := Operand(m), i := m.i + 3, opcode := Code(m.memory, m.i + 3)))
  {
    hide HasMicrocode, IsPlain, LeaBase, LeaPointer, Lea, Execute, Stored, ReadMemory, Code, Operand, RunMasked,
         ReadsPort, LOAD_LOW, LOAD_HIGH, POINT_TO, FETCH;
    LeaBlocks();
    OperandRuns(rom, m, 5, Lea(), 4, time, env, masked);
    var m2 := m.(i := m.i + 2, t := Operand(m), step := 2);
    PlainClock(rom, m2, 5, Lea(), 2, time + 2, env, masked);
    ExecutePoint(m2, env(time + 2));
    FetchClock(rom, Execute(m2, Stored(POINT_TO), env(time + 2)), 5, Lea(), time + 3, env, masked);
  }

  // ---- Moves and jumps ----

  lemma MoveBlocks()
    ensures IsPlain(7, MovPB(), 0x22) && |MovPB().lines| == 2
    ensures MovPB().lines[0].control == MOVE_BASE && MovPB().lines[1].control == FETCH
    ensures IsPlain(8, MovPS(), 0x23) && |MovPS().lines| == 2
    ensures MovPS().lines[0].control == MOVE_STACK && MovPS().lines[1].control == FETCH
  {
  }

  /** `mov P B` copies P to the base pointer. */
  lemma MovPBRuns(rom: seq<bv8>, m: State, time: nat, env: nat -> Lines, masked: bool)
    requires HasMicrocode(rom) && ReadyTo(m, masked) && m.opcode == 0x22 && InFlash(m.i + 1)
    ensures RunMasked(rom, m, 2, time, env, masked) ==
            Some(m.(b := m.p, i := m.i + 1, opcode := Code(m.memory, m.i + 1)))
  {
    hide HasMicrocode, IsPlain, MovPB, MovPS, Execute, Stored, ReadMemory, Code, RunMasked, ReadsPort, MOVE_BASE, FETCH;
    MoveBlocks();
    PlainClock(rom, m, 7, MovPB(), 2, time, env, masked);
    ExecuteMove(m, env(time));
    FetchClock(rom, Execute(m, Stored(MOVE_BASE), env(time)), 7, MovPB(), time + 1, env, masked);
  }

  /** `mov P S` copies P to the stack pointer. */
  lemma MovPSRuns(rom: seq<bv8>, m: State, time: nat, env: nat -> Lines, masked: bool)
    requires HasMicrocode(rom) && ReadyTo(m, masked) && m.opcode == 0x23 && InFlash(m.i + 1)
    ensures RunMasked(rom, m, 2, time, env, masked) ==
            Some(m.(s := m.p, i := m.i + 1, opcode := Code(m.memory, m.i + 1)))
  {
    hide HasMicrocode, IsPlain, MovPB, MovPS, Execute, Stored, ReadMemory, Code, RunMasked, ReadsPort, MOVE_STACK,
         FETCH;
    MoveBlocks();
    PlainClock(rom, m, 8, MovPS(), 2, time, env, masked);
    ExecuteMove(m, env(time));
    FetchClock(rom, Execute(m, Stored(MOVE_STACK), env(time)), 8, MovPS(), time + 1, env, masked);
  }

  lemma JmpBlock()
    ensures IsPlain(15, Jmp(), 0xF4) && |Jmp().lines| == 3
    ensures Jmp().lines[0].control == LOAD_LOW && Jmp().lines[1].control == LOAD_HIGH && Jmp().lines[2].control == JUMP
  {
  }

  /** `jmp adr` goes on at the address, whatever memory that is in. */
  lemma JmpRuns(rom: seq<bv8>, m: State, time: nat, env: nat -> Lines, masked: bool)
    requires HasMicrocode(rom) && ReadyTo(m, masked) && m.opcode == 0xF4 && InFlash(m.i + 2)
    requires masked ==> !IsPort(Operand(m))
    ensures RunMasked(rom, m, 3, time, env, masked) ==
            Some(m.(t := Operand(m), i := Operand(m), opcode := ReadMemory(m.memory, env(time + 2), Operand(m))))
  {
    hide HasMicrocode, IsPlain, Jmp, Execute, Stored, ReadMemory, Code, Operand, RunMasked, ReadsPort, LOAD_LOW,
         LOAD_HIGH, JUMP;
    JmpBlock();
    OperandRuns(rom, m, 15, Jmp(), 3, time, env, masked);
    var m2 := m.(i := m.i + 2, t := Operand(m), step := 2);
    PlainClock(rom, m2, 15, Jmp(), 1, time + 2, env, masked);
    ExecuteJump(m2, env(time + 2));
    Unrequested(m2.memory);
    NoClock(rom, Execute(m2, Stored(JUMP), env(time + 2)), time + 3, env, masked);
  }

  // ---- Together ----

  /** The three instructions `sto P+#imm`, `mov P B` and `lod B+#imm` with the same operand. */
  predicate StoresAndLoads(m: State) {
    m.opcode == 0x1C && InFlash(m.i + 5) && Code(m.memory, m.i + 2) == 0x22 && Code(m.memory, m.i + 3) == 0x02 &&
    Code(m.memory, m.i + 4) == Immediate(m)
  }

  lemma StoreReady(m: State, address: Word, x: Byte, masked: bool)
    requires ReadyTo(m, masked) && InFlash(m.i + 2)
    ensures var n := m.(x := x, memory := WriteMemory(m.memory, m.a, address), i := m.i + 2,
                        opcode := Code(m.memory, m.i + 2));
            ReadyTo(n, masked) && forall j :: 0 <= j < 65536 ==> Code(n.memory, j) == Code(m.memory, j)
  {
    hide WriteMemory;
    WriteKeeps(m.memory, m.a, address);
  }

  /** What was stored is loaded again, wherever P points in video memory or RAM; A is as before, and B is P. */
  lemma StoreComesBack(rom: seq<bv8>, m: State, time: nat, env: nat -> Lines, masked: bool)
    requires HasMicrocode(rom) && ReadyTo(m, masked) && StoresAndLoads(m) && MemoryMap.Sized(m.memory)
    requires (m.p + Immediate(m)) % 65536 < 0xBF00
    ensures var memory := WriteMemory(m.memory, m.a, (m.p + Immediate(m)) % 65536);
            RunMasked(rom, m, 8, time, env, masked) ==
            Some(m.(b := m.p, x := Immediate(m), f := m.f.(n := m.a >= 128, z := m.a == 0), memory := memory,
                    i := m.i + 5, opcode := Code(m.memory, m.i + 5)))
  {
    hide HasMicrocode, Execute, ReadMemory, WriteMemory, Code, RunMasked;
    var address := (m.p + Immediate(m)) % 65536;
    StoPointerRuns(rom, m, time, env, masked);
    MaskedSplit(rom, m, 3, 5, time, env, masked);
    StoreReady(m, address, Immediate(m), masked);
    var m1 := m.(x := Immediate(m), memory := WriteMemory(m.memory, m.a, address), i := m.i + 2,
                 opcode := Code(m.memory, m.i + 2));
    MovPBRuns(rom, m1, time + 3, env, masked);
    MaskedSplit(rom, m1, 2, 3, time + 3, env, masked);
    var m2 := m1.(b := m1.p, i := m1.i + 1, opcode := Code(m1.memory, m1.i + 1));
    LodBaseRuns(rom, m2, time + 5, env, masked);
    MemoryMap.WriteReadsBack(m.memory, env(time + 6), m.a, address);
  }
}
