/** Nested calls: a subroutine made of loads, sums and further calls runs as its tree says, and gives the stack back. */
module Calls {
  import opened Wrappers
  import opened Bits
  import opened Machine
  import opened MicrocodeWords
  import opened Instructions
  import opened Alu

  /** The code from some place on up to the `rts`; a call carries the subroutine it enters. */
  datatype Routine =
    | Return
    | NoOp(rest: Routine)
    | Load(value: Byte, rest: Routine)
    | Add(value: Byte, rest: Routine)
    | Call(entry: Word, callee: Routine, rest: Routine)

  predicate LaidOut(m: Memory, at: nat, r: Routine)
    decreases r
  {
    InFlash(at) &&
    match r
    case Return => Code(m, at) == 0xFA
    case NoOp(rest) => Code(m, at) == 0x50 && LaidOut(m, at + 1, rest)
    case Load(v, rest) => Code(m, at) == 0x00 && Code(m, at + 1) == v && LaidOut(m, at + 2, rest)
    case Add(v, rest) => Code(m, at) == 0x78 && Code(m, at + 1) == v && LaidOut(m, at + 2, rest)
    case Call(entry, callee, rest) =>
      Code(m, at) == 0xF8 && Code(m, at + 1) == entry % 256 && Code(m, at + 2) == entry / 256 &&
      LaidOut(m, entry, callee) && LaidOut(m, at + 3, rest)
  }

  /** How many return addresses the calls in a routine have on the stack at once. */
  function Depth(r: Routine): nat {
    match r
    case Return => 0
    case Call(_, callee, rest) => if 1 + Depth(callee) > Depth(rest) then 1 + Depth(callee) else Depth(rest)
    case NoOp(rest) => Depth(rest)
    case Load(_, rest) => Depth(rest)
    case Add(_, rest) => Depth(rest)
  }

  function Clocks(r: Routine): nat {
    match r
    case Return => 4
    case NoOp(rest) => 1 + Clocks(rest)
    case Load(_, rest) => 2 + Clocks(rest)
    case Add(_, rest) => 2 + Clocks(rest)
    case Call(_, callee, rest) => 5 + (Clocks(callee) + Clocks(rest))
  }

  datatype Result = Result(a: Byte, f: Flags)

  /** What a routine computes, read off its tree. */
  function Effect(r: Routine, a: Byte, f: Flags): Result {
    match r
    case Return => Result(a, f)
    case NoOp(rest) => Effect(rest, a, f)
    case Load(v, rest) => Effect(rest, v, f.(n := v >= 128, z := v == 0))
    case Add(v, rest) =>
      var sum := a + v + BitVal(f.c);
      Effect(rest, sum % 256, f.(c := sum >= 256, n := sum % 256 >= 128, z := sum % 256 == 0))
    case Call(_, callee, rest) => var inner := Effect(callee, a, f); Effect(rest, inner.a, inner.f)
  }

  /** Memory that is as before except for RAM from `lo` up to `hi`. */
  ghost predicate KeptOutside(m: Memory, n: Memory, lo: int, hi: int) {
    SameCode(m, n) && n.vram == m.vram && forall o :: InRam(o) && !(lo <= o < hi) ==> Ram(n, o) == Ram(m, o)
  }

  lemma KeptNothing(m: Memory, lo: int, hi: int)
    ensures KeptOutside(m, m, lo, hi)
  {
  }

  lemma KeptThen(m: Memory, n: Memory, o: Memory, lo: int, lo1: int, lo2: int, hi: int, hi1: int, hi2: int)
    requires KeptOutside(m, n, lo1, hi1) && KeptOutside(n, o, lo2, hi2)
    requires lo <= lo1 && lo <= lo2 && hi1 <= hi && hi2 <= hi
    ensures KeptOutside(m, o, lo, hi)
  {
    hide Ram;
  }

  lemma {:induction false} LaidOutKept(m: Memory, n: Memory, at: nat, r: Routine)
    requires SameCode(m, n) && LaidOut(m, at, r)
    ensures LaidOut(n, at, r)
    decreases r
  {
    hide Code, SameCode;
    forall i: nat
      ensures Code(n, i) == Code(m, i)
    {
      SameCodeReads(m, n, i);
    }
    match r
    case Return =>
    case NoOp(rest) => LaidOutKept(m, n, at + 1, rest);
    case Load(v, rest) => LaidOutKept(m, n, at + 2, rest);
    case Add(v, rest) => LaidOutKept(m, n, at + 2, rest);
    case Call(entry, callee, rest) =>
      LaidOutKept(m, n, entry, callee);
      LaidOutKept(m, n, at + 3, rest);
  }

  lemma SameCodeReads(m: Memory, n: Memory, i: nat)
    requires SameCode(m, n)
    ensures Code(n, i) == Code(m, i)
  {
  }

  /** A pushed address is on top of the stack. */
  lemma PushedAddress(m: Memory, s: Word, address: Word)
    requires |m.ram| == RAM_SIZE && InRam(s - 2) && InRam(s - 1)
    ensures var n := PushAddress(m, s, address);
            Ram(n, s - 2) == address % 256 && Ram(n, s - 1) == address / 256 && KeptOutside(m, n, s - 2, s)
  {
    hide WriteMemory, Ram;
    var n1 := WriteMemory(m, address / 256, s - 1);
    RamWritten(m, address / 256, s - 1);
    RamWritten(n1, address % 256, s - 2);
  }

  lemma RamWritten(m: Memory, data: Byte, a: Word)
    requires |m.ram| == RAM_SIZE && InRam(a)
    ensures Ram(WriteMemory(m, data, a), a) == data && KeptOutside(m, WriteMemory(m, data, a), a, a + 1)
  {
  }

  /** The stack pointer leaves room in RAM for `depth` more return addresses, and one is there already. */
  predicate Room(s: Word, depth: nat) {
    RAM_START + 2 * depth <= s && s + 1 < IO_START
  }

  /** Where a routine that started in state `m` gets to. */
  ghost predicate Returned(m: State, n: State, r: Routine) {
    n.i == Top(m) + 1 && n.s == m.s + 2 && Result(n.a, n.f) == Effect(r, m.a, m.f) &&
    n.p == m.p && n.b == m.b && n.x == m.x && n.k == m.k && n.f.i == m.f.i && Ready(n) &&
    KeptOutside(m.memory, n.memory, m.s - 2 * Depth(r), m.s)
  }

  /** The run gets there. */
  ghost predicate Comes(m: State, run: Option<State>, r: Routine) {
    run.Some? && Returned(m, run.value, r)
  }

  lemma ReturnRuns(rom: seq<bv8>, m: State, time: nat, env: nat -> Lines, masked: bool)
    requires HasMicrocode(rom) && ReadyTo(m, masked) && LaidOut(m.memory, m.i, Return) && Room(m.s, 0) &&
             InFlash(Top(m) + 1)
    ensures Comes(m, RunMasked(rom, m, Clocks(Return), time, env, masked), Return)
  {
    hide HasMicrocode, RunMasked, ReadsPort, Code, Ram;
    RtsRuns(rom, m, time, env, masked);
    KeptNothing(m.memory, m.s, m.s);
  }

  /** An instruction before the rest of a routine. */
  lemma StepReturned(m: State, m1: State, n: State, r: Routine, rest: Routine)
    requires m1.s == m.s && m1.memory == m.memory && m1.p == m.p && m1.b == m.b && m1.x == m.x && m1.k == m.k &&
             m1.f.i == m.f.i
    requires Returned(m1, n, rest) && Depth(r) == Depth(rest) && Effect(r, m.a, m.f) == Effect(rest, m1.a, m1.f)
    requires m.s < 65535
    ensures Returned(m, n, r)
  {
    hide Ready, Effect, Depth, KeptOutside, Ram;
  }

  /** A call in flash whose subroutine is laid out and has room on the stack. */
  predicate CanCall(m: State, callee: Routine) {
    Ready(m) && m.opcode == 0xF8 && InFlash(m.i + 3) && LaidOut(m.memory, Operand(m), callee) &&
    RAM_START + 2 * (1 + Depth(callee)) <= m.s < IO_START
  }

  /** The routine entered by a call comes back to the byte after the call, with the stack as it was. */
  lemma CallReturned(m: State, n: State, callee: Routine)
    requires CanCall(m, callee) && Returned(AfterJsr(m), n, callee)
    ensures n.i == m.i + 3 && n.s == m.s && KeptOutside(m.memory, n.memory, m.s - 2 * (1 + Depth(callee)), m.s)
  {
    hide Effect, Depth, Ram, PushAddress, Operand, Code;
    var m1 := AfterJsr(m);
    PushedAddress(m.memory, m.s, m.i + 2);
    KeptThen(m.memory, m1.memory, n.memory, m.s - 2 * (1 + Depth(callee)), m.s - 2, m1.s - 2 * Depth(callee), m.s, m.s,
             m1.s);
  }

  lemma DepthOfCall(entry: Word, callee: Routine, rest: Routine)
    ensures Depth(Call(entry, callee, rest)) >= 1 + Depth(callee) && Depth(Call(entry, callee, rest)) >= Depth(rest)
  {
  }

  lemma CallThenRest(m: State, n1: State, n: State, entry: Word, callee: Routine, rest: Routine)
    requires CanCall(m, callee) && Returned(AfterJsr(m), n1, callee) && Returned(n1, n, rest) && InRam(m.s + 1)
    ensures Returned(m, n, Call(entry, callee, rest))
  {
    hide Ready, Ram, PushAddress, Operand, Code, Effect, Depth, LaidOut;
    CallReturned(m, n1, callee);
    SameTop(m, n1, m.s - 2 * (1 + Depth(callee)));
    DepthOfCall(entry, callee, rest);
    EffectOfCall(entry, callee, rest, m.a, m.f);
    KeptThen(m.memory, n1.memory, n.memory, m.s - 2 * Depth(Call(entry, callee, rest)), m.s - 2 * (1 + Depth(callee)),
             m.s - 2 * Depth(rest), m.s, m.s, m.s);
  }

  lemma EffectOfCall(entry: Word, callee: Routine, rest: Routine, a: Byte, f: Flags)
    ensures var inner := Effect(callee, a, f); Effect(Call(entry, callee, rest), a, f) == Effect(rest, inner.a, inner.f)
  {
  }

  lemma SameTop(m: State, n1: State, lo: int)
    requires InRam(m.s) && InRam(m.s + 1) && n1.s == m.s && KeptOutside(m.memory, n1.memory, lo, m.s)
    ensures Top(n1) == Top(m)
  {
    hide Ram;
  }

  /** Every routine, however deep its calls, does what its tree says and returns; the stack pointer has dropped
      the return address, and RAM outside the part of the stack it may use is untouched. */
  lemma {:induction false} RoutineRuns(rom: seq<bv8>, m: State, r: Routine, time: nat, env: nat -> Lines, masked: bool)
    requires HasMicrocode(rom) && ReadyTo(m, masked) && LaidOut(m.memory, m.i, r) && Room(m.s, Depth(r)) &&
             InFlash(Top(m) + 1)
    ensures Comes(m, RunMasked(rom, m, Clocks(r), time, env, masked), r)
    decreases r, 1
  {
    hide HasMicrocode, RunMasked, ReadsPort, Code, Ram, Returned, KeptOutside;
    match r
    case Return =>
      ReturnRuns(rom, m, time, env, masked);
    case NoOp(rest) =>
      NopRuns(rom, m, time, env, masked);
      StepRuns(rom, m, m.(i := m.i + 1, opcode := Code(m.memory, m.i + 1)), r, rest, 1, time, env, masked);
    case Load(v, rest) =>
      LodRuns(rom, m, time, env, masked);
      StepRuns(rom, m, AfterLod(m), r, rest, 2, time, env, masked);
    case Add(v, rest) =>
      AdcRuns(rom, m, time, env, masked);
      StepRuns(rom, m, AfterAdc(m), r, rest, 2, time, env, masked);
    case Call(entry, callee, rest) =>
      CallRuns(rom, m, entry, callee, rest, time, env, masked);
  }

  /** An instruction of `k` clocks without effect on memory and stack, and then the rest. */
  lemma StepRuns(rom: seq<bv8>, m: State, m1: State, r: Routine, rest: Routine, k: nat, time: nat, env: nat -> Lines,
                 masked: bool)
    requires HasMicrocode(rom) && rest < r && ReadyTo(m1, masked) && LaidOut(m.memory, m1.i, rest) &&
             Room(m.s, Depth(r)) &&
             InFlash(Top(m) + 1)
    requires Clocks(r) == k + Clocks(rest) && Depth(r) == Depth(rest) && Effect(r, m.a, m.f) == Effect(rest, m1.a, m1.f)
    requires RunMasked(rom, m, k, time, env, masked) == Some(m1)
    requires m1.s == m.s && m1.memory == m.memory && m1.p == m.p && m1.b == m.b && m1.x == m.x && m1.k == m.k &&
             m1.f.i == m.f.i
    ensures Comes(m, RunMasked(rom, m, Clocks(r), time, env, masked), r)
    decreases r, 0
  {
    hide HasMicrocode, RunMasked, ReadsPort, Code, Ram, Returned, Clocks, Depth, Effect, Ready, LaidOut;
    MaskedSplit(rom, m, k, Clocks(rest), time, env, masked);
    RoutineRuns(rom, m1, rest, time + k, env, masked);
    StepReturned(m, m1, RunMasked(rom, m1, Clocks(rest), time + k, env, masked).value, r, rest);
  }

  lemma CallRuns(rom: seq<bv8>, m: State, entry: Word, callee: Routine, rest: Routine, time: nat, env: nat -> Lines,
                 masked: bool)
    requires HasMicrocode(rom) && ReadyTo(m, masked) && LaidOut(m.memory, m.i, Call(entry, callee, rest)) &&
             Room(m.s, Depth(Call(entry, callee, rest)))
    requires InFlash(Top(m) + 1)
    ensures var r := Call(entry, callee, rest);
            Comes(m, RunMasked(rom, m, Clocks(r), time, env, masked), r)
    decreases Call(entry, callee, rest), 0
  {
    hide HasMicrocode, RunMasked, ReadsPort, Code, Ram, Returned, Depth, Effect, Ready, KeptOutside, AfterJsr, Top,
         CanCall;
    CallIsPossible(m, entry, callee, rest);
    CallComesBack(rom, m, callee, time, env, masked);
    var n1 := RunMasked(rom, m, 5 + Clocks(callee), time, env, masked).value;
    MaskedSplit(rom, m, 5 + Clocks(callee), Clocks(rest), time, env, masked);
    GoesOn(m, n1, entry, callee, rest);
    RoutineRuns(rom, n1, rest, time + 5 + Clocks(callee), env, masked);
    CallThenRest(m, n1, RunMasked(rom, n1, Clocks(rest), time + 5 + Clocks(callee), env, masked).value, entry, callee,
                 rest);
  }

  lemma CallIsPossible(m: State, entry: Word, callee: Routine, rest: Routine)
    requires Ready(m) && LaidOut(m.memory, m.i, Call(entry, callee, rest)) &&
             Room(m.s, Depth(Call(entry, callee, rest)))
    ensures CanCall(m, callee) && InRam(m.s + 1)
  {
    hide Depth, Code;
    DepthOfCall(entry, callee, rest);
    assert Operand(m) == entry;
    LaidOutAt(m.memory, m.i + 3, rest);
  }

  lemma LaidOutAt(m: Memory, at: nat, r: Routine)
    requires LaidOut(m, at, r)
    ensures InFlash(at)
  {
  }

  /** What `jsr` leaves is right for the subroutine. */
  lemma JsrEnters(m: State, callee: Routine)
    requires CanCall(m, callee)
    ensures InFlash(Operand(m)) && m.s >= 2
    ensures var m1 := AfterJsr(m);
            Ready(m1) && LaidOut(m1.memory, m1.i, callee) && Room(m1.s, Depth(callee)) && InFlash(Top(m1) + 1)
  {
    hide Depth, Code, PushAddress, Ram, LaidOut, Operand;
    LaidOutAt(m.memory, Operand(m), callee);
    PushedAddress(m.memory, m.s, m.i + 2);
    var m1 := AfterJsr(m);
    LaidOutKept(m.memory, m1.memory, Operand(m), callee);
    SameCodeReads(m.memory, m1.memory, Operand(m));
  }

  /** After the subroutine the rest of the calling routine is in place. */
  lemma GoesOn(m: State, n1: State, entry: Word, callee: Routine, rest: Routine)
    requires Ready(m) && LaidOut(m.memory, m.i, Call(entry, callee, rest)) &&
             Room(m.s, Depth(Call(entry, callee, rest)))
    requires CanCall(m, callee) && Returned(AfterJsr(m), n1, callee)
    ensures Ready(n1) && n1.f.i == m.f.i && LaidOut(n1.memory, n1.i, rest) && Room(n1.s, Depth(rest)) &&
            Top(n1) == Top(m)
  {
    hide Depth, Code, Ram, Effect;
    CallReturned(m, n1, callee);
    DepthOfCall(entry, callee, rest);
    LaidOutKept(m.memory, n1.memory, m.i + 3, rest);
    SameTop(m, n1, m.s - 2 * (1 + Depth(callee)));
  }

  /** A call and everything its subroutine does. */
  lemma CallComesBack(rom: seq<bv8>, m: State, callee: Routine, time: nat, env: nat -> Lines, masked: bool)
    requires HasMicrocode(rom) && CanCall(m, callee) && (masked ==> !m.f.i)
    ensures m.s >= 2 && InFlash(Operand(m))
    ensures Comes(AfterJsr(m), RunMasked(rom, m, 5 + Clocks(callee), time, env, masked), callee)
    decreases callee, 2
  {
    hide HasMicrocode, RunMasked, ReadsPort, Code, Ram, Returned, Depth, Effect, KeptOutside, Top, LaidOut;
    JsrEnters(m, callee);
    JsrRuns(rom, m, time, env, masked);
    MaskedSplit(rom, m, 5, Clocks(callee), time, env, masked);
    RoutineRuns(rom, AfterJsr(m), callee, time + 5, env, masked);
  }

  /** After a call: at the byte behind it, with the stack pointer restored, and RAM below the part of the stack it uses
      and from the stack pointer up unchanged. */
  ghost predicate CameBack(m: State, n: State, callee: Routine) {
    n.i == m.i + 3 && n.s == m.s && Result(n.a, n.f) == Effect(callee, m.a, m.f) && Ready(n) && n.f.i == m.f.i &&
    n.p == m.p && n.b == m.b && n.x == m.x && n.k == m.k &&
    KeptOutside(m.memory, n.memory, m.s - 2 * (1 + Depth(callee)), m.s)
  }

  /** Balanced calls: whatever is nested inside, a call comes back. */
  lemma BalancedCall(rom: seq<bv8>, m: State, callee: Routine, time: nat, env: nat -> Lines, masked: bool)
    requires HasMicrocode(rom) && CanCall(m, callee) && (masked ==> !m.f.i)
    ensures var run := RunMasked(rom, m, 5 + Clocks(callee), time, env, masked);
            run.Some? && CameBack(m, run.value, callee)
  {
    hide HasMicrocode, RunMasked, ReadsPort, Code, Ram, Depth, Effect, Ready, KeptOutside, Top, CanCall;
    CallComesBack(rom, m, callee, time, env, masked);
    CallReturned(m, RunMasked(rom, m, 5 + Clocks(callee), time, env, masked).value, callee);
  }
}
