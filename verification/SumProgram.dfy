/** From source to sum: a program of `lod`, `adc` and `sto` lines, assembled, linked into flash, and run from reset. */
module SumProgram {
  import opened Wrappers
  import opened Bits
  import opened Machine
  import opened MicrocodeWords
  import opened Instructions
  import opened Addition
  import opened ResetRun
  import A = Assembler
  import B = Backpatching
  import L = Linker
  import O = AssemblerObject

  // ---- The source and its bytes ----

  function SumLines(ts: seq<Triple>): (lines: seq<A.Pattern>)
    ensures forall i :: 0 <= i < |lines| ==> lines[i].Instruction?
  {
    if ts == [] then []
    else [A.Instruction(0x00, ts[0].a, 1), A.Instruction(0x78, ts[0].b, 1), A.Instruction(0x19, ts[0].target, 2)] +
         SumLines(ts[1..])
  }

  function TripleBytes(t: Triple): (b: seq<Byte>)
    ensures |b| == 7
  {
    [0x00, t.a, 0x78, t.b, 0x19, t.target % 256, t.target / 256]
  }

  function SumBytes(ts: seq<Triple>): (b: seq<Byte>)
    ensures |b| == 7 * |ts|
  {
    if ts == [] then [] else TripleBytes(ts[0]) + SumBytes(ts[1..])
  }

  /** Where the flash holds the word that a reset starts at. */
  const VECTOR: nat := 0x3FFA

  /** The program at flash address `at` of bank 0, and the word that a reset finds it with. */
  function SumFile(at: nat, ts: seq<Triple>): seq<A.Pattern> {
    [A.Origin(at)] + SumLines(ts) + [A.Origin(VECTOR), A.Data(2, [A.Number(BANK_START + at)])]
  }

  function SumSegments(at: nat, ts: seq<Triple>): seq<A.Segment> {
    [A.Segment(at, SumBytes(ts)), A.Segment(VECTOR, A.LittleEndian(BANK_START + at, 2))]
  }

  function Lengthened(s: A.Assembly, bytes: seq<Byte>): (r: A.Assembly)
    requires s.segments != []
    ensures r.segments != []
  {
    s.(segments := A.Append(s.segments, bytes), at := s.at + |bytes|)
  }

  lemma LengthenedTwice(s: A.Assembly, a: seq<Byte>, b: seq<Byte>)
    requires s.segments != []
    ensures Lengthened(Lengthened(s, a), b) == Lengthened(s, a + b) && Lengthened(s, []) == s
  {
    hide A.Append;
    O.AppendMore(s.segments, a, b);
  }

  lemma OneByte(v: Byte)
    ensures A.LittleEndian(v, 1) == [v]
  {
  }

  lemma TwoBytes(v: Word)
    ensures A.LittleEndian(v, 2) == [v % 256, v / 256]
  {
    hide A.LittleEndian;
    OneByte(v / 256);
    NextByte(v, 1);
  }

  lemma NextByte(v: nat, size: nat)
    ensures A.LittleEndian(v, size + 1) == [v % 256] + A.LittleEndian(v / 256, size)
  {
  }

  lemma InstructionStep(s: A.Assembly, opcode: Byte, v: nat, size: nat)
    requires s.segments != []
    ensures A.Step(s, A.Instruction(opcode, v, size)) == Lengthened(s, [opcode] + A.LittleEndian(v, size))
  {
    hide A.Append, A.LittleEndian;
    OneByte(opcode);
    LengthenedTwice(s, [opcode], A.LittleEndian(v, size));
  }

  lemma TripleStep(s: A.Assembly, t: Triple)
    requires s.segments != []
    ensures A.Step(A.Step(A.Step(s, A.Instruction(0x00, t.a, 1)), A.Instruction(0x78, t.b, 1)),
                   A.Instruction(0x19, t.target, 2)) ==
            Lengthened(s, TripleBytes(t))
  {
    hide A.Step, A.LittleEndian, Lengthened;
    var x: seq<Byte>, y: seq<Byte> := [0x00] + [t.a], [0x78] + [t.b];
    var z: seq<Byte> := [0x19] + [t.target % 256, t.target / 256];
    OneByte(t.a);
    OneByte(t.b);
    TwoBytes(t.target);
    InstructionStep(s, 0x00, t.a, 1);
    InstructionStep(Lengthened(s, x), 0x78, t.b, 1);
    LengthenedTwice(s, x, y);
    InstructionStep(Lengthened(s, x + y), 0x19, t.target, 2);
    LengthenedTwice(s, x + y, z);
    assert x + y + z == TripleBytes(t);
  }

  /** The lines emit the bytes, whatever comes before and after them. */
  lemma {:induction false} LinesEmit(s: A.Assembly, ts: seq<Triple>, rest: seq<A.Pattern>)
    requires s.segments != []
    ensures A.Pass(s, SumLines(ts) + rest) == A.Pass(Lengthened(s, SumBytes(ts)), rest)
    decreases |ts|
  {
    hide A.Step, Lengthened, TripleBytes;
    if ts == [] {
      LengthenedTwice(s, [], []);
      assert SumLines(ts) + rest == rest;
    } else {
      var t := ts[0];
      var p, more := SumLines(ts) + rest, SumLines(ts[1..]) + rest;
      assert p[0] == A.Instruction(0x00, t.a, 1) && p[1..][0] == A.Instruction(0x78, t.b, 1);
      assert p[1..][1..][0] == A.Instruction(0x19, t.target, 2) && p[1..][1..][1..] == more;
      TripleStep(s, t);
      FourPasses(s, p);
      LinesEmit(Lengthened(s, TripleBytes(t)), ts[1..], rest);
      LengthenedTwice(s, TripleBytes(t), SumBytes(ts[1..]));
    }
  }

  lemma FourPasses(s: A.Assembly, p: seq<A.Pattern>)
    requires s.segments != [] && |p| >= 3
    ensures A.Pass(s, p) == A.Pass(A.Step(A.Step(A.Step(s, p[0]), p[1..][0]), p[1..][1..][0]), p[1..][1..][1..])
  {
    hide A.Step;
    var s1 := A.Step(s, p[0]);
    assert A.Pass(s1, p[1..]) == A.Pass(A.Step(s1, p[1..][0]), p[1..][1..]);
  }

  lemma VectorStep(s: A.Assembly, start: nat)
    requires s.segments != []
    ensures A.Pass(s, [A.Origin(VECTOR), A.Data(2, [A.Number(start)])]) ==
            s.(segments := s.segments + [A.Segment(VECTOR, A.LittleEndian(start, 2))], at := VECTOR + 2)
  {
    hide A.LittleEndian;
    var p := [A.Origin(VECTOR), A.Data(2, [A.Number(start)])];
    var s1 := A.Step(s, p[0]);
    assert p[1..] == [p[1]];
    assert A.PutItems(s1, [A.Number(start)], 2) == A.PutItems(A.PutItem(s1, A.Number(start), 2), [], 2);
    var s2 := A.Step(s1, p[1]);
    var bytes := A.LittleEndian(start, 2);
    assert [] + bytes == bytes;
    assert A.Append(s.segments + [A.Segment(VECTOR, [])], bytes) == s.segments + [A.Segment(VECTOR, bytes)];
    assert s2.segments == s.segments + [A.Segment(VECTOR, A.LittleEndian(start, 2))];
    assert A.Pass(s1, [p[1]]) == A.Pass(s2, []);
  }

  /** The file assembles without error to the two segments. */
  lemma SumFileAssembles(at: nat, ts: seq<Triple>)
    requires at < VECTOR && at + 7 * |ts| <= VECTOR
    ensures A.Opens(SumFile(at, ts)) && B.RealData(SumFile(at, ts))
    ensures A.OnePass(SumFile(at, ts)) == Some(SumSegments(at, ts)) && L.Fits(SumSegments(at, ts), L.OUTPUT_SIZE)
  {
    hide A.Step, A.LittleEndian, SumLines, SumBytes;
    var p := SumFile(at, ts);
    var vector := [A.Origin(VECTOR), A.Data(2, [A.Number(BANK_START + at)])];
    assert p[1..] == SumLines(ts) + vector;
    var s := A.Assembly([A.Segment(at, [])], [], [], at, 0);
    assert A.Step(A.EMPTY, p[0]) == s by { FirstOrigin(at); }
    LinesEmit(s, ts, vector);
    VectorStep(Lengthened(s, SumBytes(ts)), BANK_START + at);
    assert [] + SumBytes(ts) == SumBytes(ts);
    assert A.Pass(A.EMPTY, p).segments == SumSegments(at, ts);
    assert !A.Intersecting(SumSegments(at, ts)[0], SumSegments(at, ts)[1]);
  }

  lemma FirstOrigin(at: nat)
    ensures A.Step(A.EMPTY, A.Origin(at)) == A.Assembly([A.Segment(at, [])], [], [], at, 0)
  {
  }

  // ---- In flash ----

  /** Bank 0 shows the flash from its start. */
  lemma CodeIsFlash(m: Memory, k: nat)
    requires m.bank == 0 && k < BANK_SIZE && |m.flash| == FLASH_SIZE
    ensures Code(m, BANK_START + k) == m.flash[k]
  {
  }

  lemma {:induction false} BytesAreProgram(m: Memory, i: nat, ts: seq<Triple>)
    requires InFlash(i) && i + 7 * |ts| < 65536
    requires forall k :: 0 <= k < 7 * |ts| ==> Code(m, i + k) == SumBytes(ts)[k]
    ensures ProgramAt(m, i, ts)
    decreases |ts|
  {
    hide Code;
    if ts != [] {
      var bytes := TripleBytes(ts[0]);
      forall k | 0 <= k < 7
        ensures Code(m, i + k) == bytes[k]
      {
        assert Code(m, i + k) == SumBytes(ts)[k];
      }
      assert Code(m, i + 0) == bytes[0] && Code(m, i + 1) == bytes[1];
      assert Code(m, i + 2) == bytes[2] && Code(m, i + 3) == bytes[3];
      assert Code(m, i + 4) == bytes[4] && Code(m, i + 5) == bytes[5] && Code(m, i + 6) == bytes[6];
      forall k | 0 <= k < 7 * |ts[1..]|
        ensures Code(m, i + 7 + k) == SumBytes(ts[1..])[k]
      {
        assert Code(m, i + (7 + k)) == SumBytes(ts)[7 + k];
      }
      BytesAreProgram(m, i + 7, ts[1..]);
    }
  }

  /** With the linked image in flash, the program is at `at` of the bank window, and a reset starts it. */
  lemma LinkedProgram(m: Memory, out: seq<Byte>, at: nat, ts: seq<Triple>)
    requires at < VECTOR && at + 7 * |ts| <= VECTOR && |out| == L.OUTPUT_SIZE && m.bank == 0
    requires L.Fits(SumSegments(at, ts), |out|) && m.flash == L.Image(out, SumSegments(at, ts))
    ensures ProgramAt(m, BANK_START + at, ts) && Start(m) == BANK_START + at
  {
    hide A.LittleEndian, SumBytes, L.Image, Code;
    var segments := SumSegments(at, ts);
    assert A.Disjoint(segments);
    forall k | 0 <= k < 7 * |ts|
      ensures Code(m, BANK_START + at + k) == SumBytes(ts)[k]
    {
      L.ImageInside(out, segments, 0, at + k);
      CodeIsFlash(m, at + k);
    }
    BytesAreProgram(m, BANK_START + at, ts);
    TwoBytes(BANK_START + at);
    L.ImageInside(out, segments, 1, VECTOR);
    L.ImageInside(out, segments, 1, VECTOR + 1);
    CodeIsFlash(m, VECTOR);
    CodeIsFlash(m, VECTOR + 1);
    assert m.(bank := 0) == m;
  }

  /** No interrupt is requested and the memories have their sizes. */
  predicate Fresh(m: State) {
    !m.memory.interrupts.in0 && !m.memory.interrupts.in1 && |m.memory.ram| == RAM_SIZE && |m.memory.flash| == FLASH_SIZE
  }

  lemma ResetIsReady(m: State, lines: Lines)
    requires Fresh(m) && InFlash(Start(m.memory.(bank := 0)))
    ensures var n := AfterReset(m, lines); Ready(n) && n.i == Start(m.memory.(bank := 0)) && !n.f.c && !n.f.i &&
                                           SameCode(m.memory.(bank := 0), n.memory)
  {
    hide Code, ReadMemory;
    var memory := m.memory.(bank := 0);
    assert Start(memory) == Start(memory.(bank := 0));
    ReadsCode(memory, lines, Start(memory));
    SameFlash(memory, ReadInterrupts(memory), Start(memory));
  }

  lemma SameFlash(m: Memory, n: Memory, i: nat)
    requires m.flash == n.flash && m.bank == n.bank
    ensures Code(m, i) == Code(n, i)
  {
  }

  /** The digits of the sum in RAM, and its top in the carry flag. */
  ghost predicate HoldsSum(n: State, ts: seq<Triple>) {
    Value(Stored(n.memory, ts)) + Pow256(|ts|) * BitVal(n.f.c) == Value(Left(ts)) + Value(Right(ts))
  }

  /** Assembled, linked into flash and started by a reset, the program leaves after 13 clocks and 8 more for each line
      of digits the sum, whatever interrupts are requested. */
  lemma AssembledSumRuns(
    rom: seq<bv8>, m: State, out: seq<Byte>, at: nat, ts: seq<Triple>, segments: seq<A.Segment>, time: nat,
    env: nat -> Lines)
    requires HasMicrocode(rom) && Fresh(m) && Targets(ts) && at < VECTOR && at + 7 * |ts| <= VECTOR
    requires A.Opens(SumFile(at, ts)) && A.OnePass(SumFile(at, ts)) == Some(segments)
    requires |out| == L.OUTPUT_SIZE && L.Fits(segments, |out|) && m.memory.flash == L.Image(out, segments)
    ensures var run := RunMasked(rom, Reset(m), 13 + 8 * |ts|, time, env, true); run.Some? && HoldsSum(run.value, ts)
  {
    hide HasMicrocode, RunMasked, ReadsPort, Code, Ready, ProgramAt, SameCode, AfterReset, Start, L.Image, A.OnePass,
         Value, Stored, Left, Right, Pow256;
    SumFileAssembles(at, ts);
    var memory := m.memory.(bank := 0);
    LinkedProgram(memory, out, at, ts);
    SameStart(m.memory);
    MaskedSplit(rom, Reset(m), 13, 8 * |ts|, time, env, true);
    ResetRuns(rom, m, time, env, true);
    ResetIsReady(m, env(time + 12));
    var n := AfterReset(m, env(time + 12));
    ProgramKept(memory, n.memory, BANK_START + at, ts);
    AdditionRuns(rom, n, ts, time + 13, env, true);
  }

  lemma SameStart(m: Memory)
    ensures Start(m.(bank := 0)) == Start(m)
  {
  }
}
