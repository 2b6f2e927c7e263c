/** The theorems about programs with interrupts requested at any time: with the I flag clear, they change nothing. */
module Uninterrupted {
  import opened Bits
  import opened Wrappers
  import opened Machine
  import opened MicrocodeWords
  import opened Instructions
  import opened Addition
  import opened Calls
  import opened Breaks
  import opened ResetRun
  import opened SumProgram
  import opened Masking
  import A = Assembler
  import L = Linker

  /** At the start of an instruction, with the I flag clear; any interrupts may be requested or latched. */
  predicate ReadyMasked(m: State) {
    Ready(Calm(m)) && !m.f.i
  }

  /** What a masked run reaches from the machine without interrupts is reached with any. */
  lemma Reaches(rom: seq<bv8>, m: State, k: nat, time: nat, env: nat -> Lines, asks: nat -> bool)
    requires HasMicrocode(rom) && m.step < 16 && RunMasked(rom, Calm(m), k, time, env, true).Some?
    ensures Calm(RunAsked(rom, m, k, time, env, asks)) == Calm(RunMasked(rom, Calm(m), k, time, env, true).value)
  {
    hide HasMicrocode, RunMasked, RunAsked;
    MaskedHolds(rom, Calm(m), m, k, time, env, asks);
  }

  lemma CalmCode(m: State)
    ensures SameCode(m.memory, Calm(m).memory) && Quiet(Calm(m).memory)
  {
  }

  lemma {:induction false} CalmStored(m: State, ts: seq<Triple>)
    ensures Stored(Calm(m).memory, ts) == Stored(m.memory, ts)
  {
    if ts != [] {
      CalmStored(m, ts[1..]);
    }
  }

  lemma CalmAdded(m: State, n: State, o: State, ts: seq<Triple>)
    requires Added(m, n, ts) && Calm(o) == Calm(n)
    ensures Added(m, Calm(o), ts)
  {
    hide Value, Stored, Pow256, Left, Right;
    CalmStored(n, ts);
  }

  /** Sums of any length, with interrupts requested at any time. */
  lemma AdditionUninterrupted(
    rom: seq<bv8>, m: State, ts: seq<Triple>, time: nat, env: nat -> Lines, asks: nat -> bool)
    requires HasMicrocode(rom) && ReadyMasked(m) && ProgramAt(m.memory, m.i, ts) && Targets(ts)
    ensures Added(Calm(m), Calm(RunAsked(rom, m, 8 * |ts|, time, env, asks)), ts)
  {
    hide HasMicrocode, RunMasked, RunAsked, Ready, ProgramAt, SameCode, Added;
    assert SameCode(m.memory, Calm(m).memory) by { CalmCode(m); }
    assert m.step < 16 by { ReadyStep(Calm(m)); }
    ProgramKept(m.memory, Calm(m).memory, m.i, ts);
    AdditionRuns(rom, Calm(m), ts, time, env, true);
    Reaches(rom, m, 8 * |ts|, time, env, asks);
    CalmAdded(Calm(m), RunMasked(rom, Calm(m), 8 * |ts|, time, env, true).value,
              RunAsked(rom, m, 8 * |ts|, time, env, asks), ts);
  }

  lemma ReadyStep(m: State)
    requires Ready(m)
    ensures m.step == 0
  {
  }

  lemma CalmCameBack(m: State, n: State, o: State, callee: Routine)
    requires CameBack(m, n, callee) && Calm(o) == Calm(n) && Quiet(m.memory)
    ensures CameBack(m, Calm(o), callee)
  {
    hide Effect, Depth;
    forall a: nat
      ensures Ram(Calm(o).memory, a) == Ram(n.memory, a)
    {
      assert Calm(o).memory.ram == n.memory.ram;
    }
  }

  /** Balanced calls of any depth, with interrupts requested at any time. */
  lemma CallUninterrupted(
    rom: seq<bv8>, m: State, callee: Routine, time: nat, env: nat -> Lines, asks: nat -> bool)
    requires HasMicrocode(rom) && CanCall(Calm(m), callee) && !m.f.i
    ensures CameBack(Calm(m), Calm(RunAsked(rom, m, 5 + Clocks(callee), time, env, asks)), callee)
  {
    hide HasMicrocode, RunMasked, RunAsked, Ready, LaidOut, Operand, CameBack, Clocks, Depth;
    assert m.step < 16 by { ReadyStep(Calm(m)); }
    BalancedCall(rom, Calm(m), callee, time, env, true);
    Reaches(rom, m, 5 + Clocks(callee), time, env, asks);
    CalmCameBack(Calm(m), RunMasked(rom, Calm(m), 5 + Clocks(callee), time, env, true).value,
                 RunAsked(rom, m, 5 + Clocks(callee), time, env, asks), callee);
  }

  lemma CalmResumed(m: State, n: State, o: State)
    requires Resumed(m, n) && Calm(o) == Calm(n) && Quiet(m.memory)
    ensures Resumed(m, Calm(o))
  {
    forall a: nat
      ensures Ram(Calm(o).memory, a) == Ram(n.memory, a)
    {
      assert Calm(o).memory.ram == n.memory.ram;
    }
  }

  /** A software interrupt and back, with interrupts requested at any time. */
  lemma BreakUninterrupted(rom: seq<bv8>, m: State, time: nat, env: nat -> Lines, asks: nat -> bool)
    requires HasMicrocode(rom) && CanBreak(Calm(m)) && !m.f.i
    ensures Resumed(Calm(m), Calm(RunAsked(rom, m, 18, time, env, asks)))
  {
    hide HasMicrocode, RunMasked, RunAsked, Ready, Resumed, Handler, Code;
    assert m.step < 16 by { ReadyStep(Calm(m)); }
    BreakComesBack(rom, Calm(m), time, env, true);
    Reaches(rom, m, 18, time, env, asks);
    CalmResumed(Calm(m), RunMasked(rom, Calm(m), 18, time, env, true).value, RunAsked(rom, m, 18, time, env, asks));
  }

  /** Reset, with any interrupts before and meanwhile, unless the first opcode is fetched from the port that shows
      them. */
  lemma ResetUninterrupted(rom: seq<bv8>, m: State, time: nat, env: nat -> Lines, asks: nat -> bool)
    requires HasMicrocode(rom) && !IsPort(Start(m.memory))
    ensures Calm(RunAsked(rom, Reset(m), 13, time, env, asks)) == Calm(AfterReset(Calm(m), env(time + 12)))
  {
    hide HasMicrocode, RunMasked, RunAsked, AfterReset, Start;
    assert Start(Calm(m).memory) == Start(m.memory) by { CalmStart(m); }
    ResetRuns(rom, Calm(m), time, env, true);
    assert Calm(Reset(m)) == Reset(Calm(m));
    Reaches(rom, Reset(m), 13, time, env, asks);
  }

  lemma CalmStart(m: State)
    ensures Start(Calm(m).memory) == Start(m.memory)
  {
  }

  /** The assembled and linked sum, with any interrupts before and meanwhile. */
  lemma SumUninterrupted(
    rom: seq<bv8>, m: State, out: seq<Byte>, at: nat, ts: seq<Triple>, segments: seq<A.Segment>, time: nat,
    env: nat -> Lines, asks: nat -> bool)
    requires HasMicrocode(rom) && |m.memory.ram| == RAM_SIZE && |m.memory.flash| == FLASH_SIZE
    requires Targets(ts) && at < VECTOR && at + 7 * |ts| <= VECTOR
    requires A.Opens(SumFile(at, ts)) && A.OnePass(SumFile(at, ts)) == Some(segments)
    requires |out| == L.OUTPUT_SIZE && L.Fits(segments, |out|) && m.memory.flash == L.Image(out, segments)
    ensures HoldsSum(RunAsked(rom, Reset(m), 13 + 8 * |ts|, time, env, asks), ts)
  {
    hide HasMicrocode, RunMasked, RunAsked, SumFile, A.OnePass, L.Image, HoldsSum;
    AssembledSumRuns(rom, Calm(m), out, at, ts, segments, time, env);
    assert Calm(Reset(m)) == Reset(Calm(m));
    Reaches(rom, Reset(m), 13 + 8 * |ts|, time, env, asks);
    CalmSum(RunMasked(rom, Reset(Calm(m)), 13 + 8 * |ts|, time, env, true).value,
            RunAsked(rom, Reset(m), 13 + 8 * |ts|, time, env, asks), ts);
  }

  lemma CalmSum(n: State, o: State, ts: seq<Triple>)
    requires HoldsSum(n, ts) && Calm(o) == Calm(n)
    ensures HoldsSum(o, ts)
  {
    hide Value, Pow256, Stored, Left, Right;
    CalmStored(n, ts);
    CalmStored(o, ts);
  }
}
