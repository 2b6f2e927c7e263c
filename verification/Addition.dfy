/** Adding numbers of any length with `lod`, `adc` and `sto`, byte by byte. */
module Addition {
  import opened Wrappers
  import opened Bits
  import opened Machine
  import opened MicrocodeWords
  import opened Instructions

  /** `lod #a; adc #b; sto target` */
  datatype Triple = Triple(a: Byte, b: Byte, target: Word)

  predicate TripleAt(m: Memory, at: nat, t: Triple) {
    InFlash(at) && InFlash(at + 7) &&
    Code(m, at) == 0x00 && Code(m, at + 1) == t.a && Code(m, at + 2) == 0x78 && Code(m, at + 3) == t.b &&
    Code(m, at + 4) == 0x19 && Code(m, at + 5) == t.target % 256 && Code(m, at + 6) == t.target / 256
  }

  predicate ProgramAt(m: Memory, at: nat, ts: seq<Triple>)
    decreases |ts|
  {
    ts == [] || (TripleAt(m, at, ts[0]) && ProgramAt(m, at + 7, ts[1..]))
  }

  /** The number with these bytes, lowest first. */
  function Value(ds: seq<Byte>): nat {
    if ds == [] then 0 else ds[0] + 256 * Value(ds[1..])
  }

  function Pow256(n: nat): nat {
    if n == 0 then 1 else 256 * Pow256(n - 1)
  }

  function Left(ts: seq<Triple>): (ds: seq<Byte>)
    ensures |ds| == |ts|
  {
    if ts == [] then [] else [ts[0].a] + Left(ts[1..])
  }

  function Right(ts: seq<Triple>): (ds: seq<Byte>)
    ensures |ds| == |ts|
  {
    if ts == [] then [] else [ts[0].b] + Right(ts[1..])
  }

  /** What the memory holds at the targets. */
  function Stored(m: Memory, ts: seq<Triple>): (ds: seq<Byte>)
    ensures |ds| == |ts|
  {
    if ts == [] then [] else [Ram(m, ts[0].target)] + Stored(m, ts[1..])
  }

  predicate Targets(ts: seq<Triple>) {
    (forall i :: 0 <= i < |ts| ==> InRam(ts[i].target)) &&
    forall i, j :: 0 <= i < j < |ts| ==> ts[i].target != ts[j].target
  }

  /** A write in RAM is seen there and nowhere else. */
  lemma RamWrite(m: Memory, data: Byte, a: Word)
    requires |m.ram| == RAM_SIZE && InRam(a)
    ensures var w := WriteMemory(m, data, a);
            SameCode(m, w) && w.vram == m.vram && Ram(w, a) == data &&
            forall o :: InRam(o) && o != a ==> Ram(w, o) == Ram(m, o)
  {
  }

  function AfterTriple(m: State, t: Triple): State
    requires InFlash(m.i) && InFlash(m.i + 7)
  {
    var sum := t.a + t.b + BitVal(m.f.c);
    m.(a := sum % 256, f := m.f.(c := sum >= 256, n := sum % 256 >= 128, z := sum % 256 == 0), t := t.target,
       i := m.i + 7,
       memory := WriteMemory(m.memory, sum % 256, t.target), opcode := Code(m.memory, m.i + 7))
  }

  /** One triple adds one pair of bytes and the carry. */
  lemma TripleRuns(rom: seq<bv8>, m: State, t: Triple, time: nat, env: nat -> Lines, masked: bool)
    requires HasMicrocode(rom) && ReadyTo(m, masked) && TripleAt(m.memory, m.i, t) && InRam(t.target)
    ensures RunMasked(rom, m, 8, time, env, masked) == Some(AfterTriple(m, t)) && ReadyTo(AfterTriple(m, t), masked)
  {
    hide HasMicrocode, RunMasked, ReadsPort, WriteMemory, Code;
    MaskedSplit(rom, m, 2, 6, time, env, masked);
    LodRuns(rom, m, time, env, masked);
    var m1 := AfterLod(m);
    MaskedSplit(rom, m1, 2, 4, time + 2, env, masked);
    AdcRuns(rom, m1, time + 2, env, masked);
    var m2 := AfterAdc(m1);
    StoRuns(rom, m2, time + 4, env, masked);
    assert Operand(m2) == t.target;
    WriteKeeps(m2.memory, m2.a, t.target);
    assert AfterSto(m2) == AfterTriple(m, t);
    CodeKept(m2.memory, AfterSto(m2).memory, m.i + 7);
  }

  lemma CodeKept(m: Memory, w: Memory, i: nat)
    requires SameCode(m, w)
    ensures Code(w, i) == Code(m, i)
  {
  }

  lemma {:induction false} ProgramKept(m: Memory, w: Memory, at: nat, ts: seq<Triple>)
    requires SameCode(m, w) && ProgramAt(m, at, ts)
    ensures ProgramAt(w, at, ts)
    decreases |ts|
  {
    hide Code, SameCode;
    if ts != [] {
      forall i: nat
        ensures Code(w, i) == Code(m, i)
      {
        CodeKept(m, w, i);
      }
      ProgramKept(m, w, at + 7, ts[1..]);
    }
  }

  /** Only the flags, the accumulator, the transfer pointer, the position and the targets differ. */
  ghost predicate OnlyTargets(m: State, n: State, ts: seq<Triple>) {
    n.p == m.p && n.b == m.b && n.s == m.s && n.x == m.x && n.k == m.k && n.memory.vram == m.memory.vram &&
    n.memory.flash == m.memory.flash &&
    forall o :: InRam(o) && (forall i :: 0 <= i < |ts| ==> ts[i].target != o) ==> Ram(n.memory, o) == Ram(m.memory, o)
  }

  lemma OneMoreTarget(m: State, t: Triple, n: State, ts: seq<Triple>)
    requires Ready(m) && InFlash(m.i + 7) && ts != [] && ts[0] == t && Targets(ts) &&
             OnlyTargets(AfterTriple(m, t), n, ts[1..])
    ensures OnlyTargets(m, n, ts) && Ram(n.memory, t.target) == Ram(AfterTriple(m, t).memory, t.target)
  {
    hide WriteMemory, Code, Ram;
    RamWrite(m.memory, (t.a + t.b + BitVal(m.f.c)) % 256, t.target);
    forall o | InRam(o) && (forall i :: 0 <= i < |ts| ==> ts[i].target != o)
      ensures Ram(n.memory, o) == Ram(m.memory, o)
    {
      assert ts[0].target != o && forall i :: 0 <= i < |ts| - 1 ==> ts[1..][i].target != o;
    }
  }

  /** The first triple of a program leaves the rest of it to run. */
  lemma FirstTripleRuns(rom: seq<bv8>, m: State, ts: seq<Triple>, time: nat, env: nat -> Lines, masked: bool)
    requires HasMicrocode(rom) && ReadyTo(m, masked) && ts != [] && ProgramAt(m.memory, m.i, ts) && InRam(ts[0].target)
    ensures InFlash(m.i + 7)
    ensures var m1 := AfterTriple(m, ts[0]);
            RunMasked(rom, m, 8 * |ts|, time, env, masked) ==
            RunMasked(rom, m1, 8 * |ts[1..]|, time + 8, env, masked) &&
            ReadyTo(m1, masked) &&
            ProgramAt(m1.memory, m1.i, ts[1..])
  {
    hide HasMicrocode, RunMasked, ReadsPort, WriteMemory, Code, Ready, ProgramAt, SameCode;
    FirstTriple(m.memory, m.i, ts);
    MaskedSplit(rom, m, 8, 8 * |ts[1..]|, time, env, masked);
    TripleRuns(rom, m, ts[0], time, env, masked);
    var m1 := AfterTriple(m, ts[0]);
    WriteKeeps(m.memory, m1.a, ts[0].target);
    ProgramKept(m.memory, m1.memory, m1.i, ts[1..]);
  }

  lemma ValueStep(d: Byte, ds: seq<Byte>)
    ensures Value([d] + ds) == d + 256 * Value(ds)
  {
    assert ([d] + ds)[1..] == ds;
  }

  lemma PowerStep(p: nat, c: bool)
    ensures 256 * p * BitVal(c) == 256 * (p * BitVal(c))
  {
  }

  /** One more digit below a sum. */
  lemma DigitBelow(memory: Memory, ts: seq<Triple>, top: bool, carry: bool, before: bool)
    requires ts != [] && Ram(memory, ts[0].target) + 256 * BitVal(carry) == ts[0].a + ts[0].b + BitVal(before)
    requires var rest := ts[1..];
             Value(Stored(memory, rest)) + Pow256(|rest|) * BitVal(top) ==
               Value(Left(rest)) + Value(Right(rest)) + BitVal(carry)
    ensures Value(Stored(memory, ts)) + Pow256(|ts|) * BitVal(top) ==
            Value(Left(ts)) + Value(Right(ts)) + BitVal(before)
  {
    hide Value, Ram, BitVal;
    var rest := ts[1..];
    ValueStep(Ram(memory, ts[0].target), Stored(memory, rest));
    ValueStep(ts[0].a, Left(rest));
    ValueStep(ts[0].b, Right(rest));
    PowerStep(Pow256(|rest|), top);
  }

  lemma TripleDigit(m: State, t: Triple)
    requires Ready(m) && InFlash(m.i + 7) && InRam(t.target)
    ensures var m1 := AfterTriple(m, t);
            Ram(m1.memory, t.target) + 256 * BitVal(m1.f.c) == t.a + t.b + BitVal(m.f.c)
  {
    hide WriteMemory, Code, Ram, SameCode;
    RamWrite(m.memory, AfterTriple(m, t).a, t.target);
  }

  /** The targets hold the digits of the sum, the carry flag its top, and the program is over. */
  ghost predicate Added(m: State, n: State, ts: seq<Triple>) {
    Value(Stored(n.memory, ts)) + Pow256(|ts|) * BitVal(n.f.c) == Value(Left(ts)) + Value(Right(ts)) + BitVal(m.f.c) &&
    n.i == m.i + 7 * |ts| && n.f.i == m.f.i && Ready(n) && OnlyTargets(m, n, ts)
  }

  /** For every number of triples the targets hold the digits of the sum, and the carry flag its top. */
  lemma {:induction false} AdditionRuns(rom: seq<bv8>, m: State, ts: seq<Triple>, time: nat, env: nat -> Lines,
                                        masked: bool)
    requires HasMicrocode(rom) && ReadyTo(m, masked) && ProgramAt(m.memory, m.i, ts) && Targets(ts)
    ensures var r := RunMasked(rom, m, 8 * |ts|, time, env, masked); r.Some? && Added(m, r.value, ts)
    decreases |ts|
  {
    hide HasMicrocode, RunMasked, ReadsPort, Code, Ready, ProgramAt, OnlyTargets;
    if ts == [] {
      NoClock(rom, m, time, env, masked);
      NothingChanged(m);
    } else {
      FirstTripleRuns(rom, m, ts, time, env, masked);
      assert InFlash(m.i) by { ReadyFlash(m); }
      var m1, rest := AfterTriple(m, ts[0]), ts[1..];
      assert m1.i == m.i + 7;
      hide AfterTriple, Stored, Value, Left, Right, Pow256;
      AdditionRuns(rom, m1, rest, time + 8, env, masked);
      var n := RunMasked(rom, m1, 8 * |rest|, time + 8, env, masked).value;
      OneMoreTarget(m, ts[0], n, ts);
      TripleDigit(m, ts[0]);
      DigitBelow(n.memory, ts, n.f.c, m1.f.c, m.f.c);
    }
  }

  lemma ReadyFlash(m: State)
    requires Ready(m)
    ensures InFlash(m.i)
  {
  }

  lemma NothingChanged(m: State)
    ensures OnlyTargets(m, m, [])
  {
  }

  lemma FirstTriple(m: Memory, at: nat, ts: seq<Triple>)
    requires ts != [] && ProgramAt(m, at, ts)
    ensures TripleAt(m, at, ts[0]) && ProgramAt(m, at + 7, ts[1..])
  {
    hide TripleAt;
  }
}
