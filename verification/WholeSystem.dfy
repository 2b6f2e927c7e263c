/** The parts put together: the compiled microcode in the emulator, a linked program in its flash, and what it does. */
module WholeSystem {
  import opened Bits
  import opened Addition
  import opened MicrocodeWords
  import opened ResetRun
  import opened SumProgram
  import opened Masking
  import U = Uninterrupted
  import M = Machine
  import C = MicrocodeCompiler
  import E = Emulator
  import L = Linker
  import Alu
  import Microcode
  import MicrocodeSource
  import MicrocodeText

  /** `resetCPU` and the 13 clocks of the reset sequence, from whatever state the computer is in, with interrupts
      requested at any time. (Only a start address in the port that shows the requests would let them be seen.) */
  method Restart(computer: E.Computer, time: nat, env: nat -> M.Lines, asks: nat -> bool)
    requires computer.Valid() && HasMicrocode(computer.microcode)
    requires !M.IsPort(Start(computer.Memory())) || forall t :: time <= t < time + 13 ==> !asks(t)
    modifies computer, computer.vram, computer.ram
    modifies computer.interruptIn, computer.interruptOut, computer.interruptReset
    ensures computer.Valid()
    ensures (forall t :: time <= t < time + 13 ==> !asks(t)) ==>
              computer.Now() == AfterReset(old(computer.Now()), env(time + 12))
    ensures computer.accumulator == 0 && computer.index == 0 && computer.bank == 0 && computer.bankStart == 0
    ensures computer.pointer == 0 && computer.basePointer == 0 && computer.stackPointer == 0
    ensures computer.transferPointer == 0 && computer.instructionPointer == Start(old(computer.Memory()))
    ensures computer.step == 0 && !computer.reset && computer.flags == Alu.Flags(true, false, false, false, 0)
  {
    hide HasMicrocode, M.Run, M.RunAsked, M.RunMasked, Start, M.ReadMemory;
    ghost var m := computer.Now();
    computer.ResetCPU();
    computer.Clocks(13, time, env, asks);
    StartBank(m.memory);
    if forall t :: time <= t < time + 13 ==> !asks(t) {
      M.RunUnasked(computer.microcode, M.Reset(m), 13, time, env, asks);
      ResetRuns(computer.microcode, m, time, env, false);
      M.MaskedIsRun(computer.microcode, M.Reset(m), 13, time, env, false);
    } else {
      U.ResetUninterrupted(computer.microcode, m, time, env, asks);
      U.CalmStart(m);
      StartBank(Calm(m).memory);
    }
  }

  lemma StartBank(m: M.Memory)
    ensures Start(m.(bank := 0)) == Start(m)
  {
  }

  /** Compiles the microcode, for the computer to run. */
  method CompileMicrocode(tokens: seq<Microcode.Token>) returns (rom: seq<bv8>)
    requires tokens == MicrocodeText.SourceTokens()
    ensures HasMicrocode(rom)
  {
    hide MicrocodeText.SourceTokens, MicrocodeSource.Source, HasMicrocode, Microcode.RulesOf, Microcode.Selected;
    MicrocodeText.SourceCompiles();
    var compiler := new C.Compiler(tokens);
    var ok := compiler.ParseTokens();
    rom := compiler.output[..];
    CompiledMicrocode(rom);
  }

  /** Assembles and links the program that adds the digits of `ts`. */
  method LinkSum(at: nat, ts: seq<Triple>, output: array<Byte>)
    requires at < VECTOR && at + 7 * |ts| <= VECTOR && output.Length == L.OUTPUT_SIZE
    modifies output
    ensures L.Fits(SumSegments(at, ts), L.OUTPUT_SIZE) && output[..] == L.Image(old(output[..]), SumSegments(at, ts))
  {
    hide SumFile, SumSegments, L.Image;
    SumFileAssembles(at, ts);
    var segments := L.Assemble(SumFile(at, ts));
    L.BuildImage(segments.value, output);
  }

  /** The microcode compiled, the program assembled and linked into flash, and a new computer started with both: after
      13 clocks and 8 for each pair of digits its RAM holds the sum and its carry flag the top, whatever the keyboard
      and the display do meanwhile. */
  method BuildAndRun(
    tokens: seq<Microcode.Token>, at: nat, ts: seq<Triple>, output: array<Byte>, env: nat -> M.Lines, asks: nat -> bool)
    returns (computer: E.Computer)
    requires tokens == MicrocodeText.SourceTokens() && output.Length == L.OUTPUT_SIZE
    requires Targets(ts) && at < VECTOR && at + 7 * |ts| <= VECTOR
    modifies output
    ensures computer.Valid()
    ensures Value(Stored(computer.Memory(), ts)) + Pow256(|ts|) * BitVal(computer.flags.c) ==
            Value(Left(ts)) + Value(Right(ts))
  {
    hide HasMicrocode, M.RunAsked, Value, Stored, Pow256, SumSegments, SumFile, L.Image, MicrocodeText.SourceTokens;
    ghost var out := output[..];
    var rom := CompileMicrocode(tokens);
    LinkSum(at, ts, output);
    computer := new E.Computer(output[..], rom);
    ghost var m := computer.Now();
    computer.ResetCPU();
    computer.Clocks(13 + 8 * |ts|, 0, env, asks);
    SumFileAssembles(at, ts);
    U.SumUninterrupted(rom, m, out, at, ts, SumSegments(at, ts), 0, env, asks);
  }
}
