/** The gate-level arithmetic unit over whole runs: its outputs settle to `calcALU`, and the accumulator
    register then follows a fold of `calcALU` over the clock edges. */
module Accumulator {
  import opened Bits
  import opened Schedule
  import opened Chips
  import opened Simulation
  import opened Settling
  import opened Clocked
  import opened AluCircuit
  import opened Alu
  import opened ControlBits
  import opened GateLevelAlu

  ghost predicate AluTrace(tr: seq<State>) {
    && Trace(TheAlu(), tr) && |tr| > 0 && Initial(TheAlu(), tr[0])
    && forall u :: 0 <= u < |tr| ==> !tr[u].nets[GND].val
  }

  /** The inputs of the unit have the same values in states `from .. to` of the run. */
  ghost predicate Steady(tr: seq<State>, from: nat, to: nat, lowest: nat)
    requires AluTrace(tr) && from < to <= |tr|
  {
    forall n, u :: n in Inputs() && n >= lowest && from <= u < to ==> tr[u].nets[n].val == tr[from].nets[n].val
  }

  lemma AluLengths(tr: seq<State>)
    requires AluTrace(tr)
    ensures forall u :: 0 <= u < |tr| ==> |tr[u].nets| == TOTAL
  {
  }

  lemma GroundEnables(tr: seq<State>)
    requires AluTrace(tr)
    ensures ConeEnabled(TheAlu(), tr, Times(), Cone(), Inputs())
  {
    hide Next, SlotTarget;
    var c := TheAlu();
    forall n, i: nat, k: nat, u | n in Cone() && n !in Inputs() && Computed(c, Times(), Cone(), n, i, k) &&
        0 <= u < |tr|
      ensures Enabled(c.chips[i], tr[u].nets)
    {
      AluChipFits(i);
      MuxesGrounded(i, tr[u].nets);
    }
  }

  lemma MuxesGrounded(i: nat, nets: seq<Net>)
    requires i < 18 && Wired(AluChip(i), |nets|) && |nets| == TOTAL && !nets[GND].val
    ensures Enabled(AluChip(i), nets)
  {
  }

  /** The values that all nets of the unit settle to, given their values when the inputs became steady. */
  lemma SettledValues(tr: seq<State>, from: nat) returns (e: seq<bool>)
    requires AluTrace(tr) && from < |tr| && Steady(tr, from, |tr|, 0)
    ensures |e| == TOTAL && Settled(e)
    ensures forall n :: 0 <= n < TOTAL && IsInput(n) ==> e[n] == tr[from].nets[n].val
    ensures forall n, u :: 0 <= n < 80 && from + SettleTime(n) <= u < |tr| ==> tr[u].nets[n].val == e[n]
  {
    hide Next, Acyclic, Consistent, ConeEnabled, NetValue, Valuation, SettleTime, Trace;
    var c := TheAlu();
    AluAcyclic();
    var given := Levels(tr[from]);
    ValuationConsistent(c, Times(), Cone(), Inputs(), given);
    e := Valuation(c, Times(), Cone(), Inputs(), given);
    GroundEnables(tr);
    forall n | 0 <= n < TOTAL && n in Inputs()
      ensures e[n] == tr[from].nets[n].val
    {
      assert n in Cone();
    }
    assert InputsHeld(c, tr, from, Cone(), Inputs(), e);
    forall n, u | 0 <= n < 80 && from + SettleTime(n) <= u < |tr|
      ensures tr[u].nets[n].val == e[n]
    {
      SettleAfter(c, tr, from, Times(), Cone(), Inputs(), e, n, u);
    }
  }

  /** Whatever was pending, once the inputs are steady the carry settles within 64 ns, the result within
      68 ns and the zero flag within 87 ns to what `calcALU` returns for them; for a right shift with the
      shift-in line high the result differs from it by the top bit, and in no other case. */
  lemma AluSettles(tr: seq<State>, from: nat, u: nat, flags: Flags, control: Control)
    requires AluTrace(tr) && from <= u < |tr| && Steady(tr, from, |tr|, 0)
    requires Steers(Levels(tr[from]), flags, control)
    ensures Word(Levels(tr[from]), DAT) < 256
    ensures var v, w := Levels(tr[from]), Levels(tr[u]);
            var r := CalcAlu(Word(v, ACC), Word(v, DAT), flags, control);
            && (u >= from + 64 ==> w[C] == r.flags.c)
            && (u >= from + 68 ==> Word(w, OUT) == r.out + (if ShiftsIn(v) then 128 else 0))
            && (u >= from + 68 ==> (Word(w, OUT) == r.out <==> !ShiftsIn(v)))
            && (u >= from + 87 ==> w[Z] == if ShiftsIn(v) then false else r.flags.z)
  {
    hide AluTrace, Steady, Settled, CalcAlu, Word, SettleTime;
    AluLengths(tr);
    var v, w := Levels(tr[from]), Levels(tr[u]);
    var e := SettledValues(tr, from);
    SameWord(e, v, ACC);
    SameWord(e, v, DAT);
    assert Op(e) == Op(v) && Steers(e, flags, control);
    AluWord(e, flags, control);
    OutTimes();
    if u >= from + 68 {
      SameWord(e, w, OUT);
    }
  }

  lemma SameWord(e: seq<bool>, w: seq<bool>, lo: nat)
    requires lo + 8 <= |e| && lo + 8 <= |w| && forall j :: lo <= j < lo + 8 ==> e[j] == w[j]
    ensures Word(e, lo) == Word(w, lo)
  {
    assert e[lo..lo + 8] == w[lo..lo + 8];
  }

  lemma OutTimes()
    ensures SettleTime(C) == 64 && SettleTime(Z) == 87
    ensures forall j :: OUT <= j < OUT + 8 ==> SettleTime(j) <= 68
  {
  }

  // ---- The accumulator over many clock edges ----

  lemma AccRegister(j: nat)
    requires j < 8
    ensures RegisterBit(TheAlu(), 17, j, ACC + j)
  {
    hide SoleDriver;
    SoleOf(ACC + j, 17, 9 + j);
    SoleOf(NETS + j, 17, j);
    SoleOf(NETS + 8, 17, 8);
  }

  /** The accumulator register is clocked at time `u`, and was enabled when it mattered. */
  ghost predicate Clocks(tr: seq<State>, u: nat)
    requires AluTrace(tr) && 5 <= u < |tr|
  {
    RisingClock(AluChip(17), tr[u].nets) && !tr[u - 2].nets[EACC].val
  }

  /** The accumulator 13 ns after time `u`: what the unit output 5 ns before a clock edge, else no change. */
  lemma AccNext(tr: seq<State>, u: nat, j: nat)
    requires AluTrace(tr) && 5 <= u && u + 13 < |tr| && j < 8
    ensures tr[u + 13].nets[ACC + j].val ==
              if Clocks(tr, u) then tr[u - 5].nets[OUT + j].val else tr[u + 12].nets[ACC + j].val
  {
    hide Trace, RegisterBit;
    AccRegister(j);
    RegisterPins(j);
    RegisterLaw(TheAlu(), tr, 17, j, ACC + j, u);
  }

  lemma RegisterPins(j: nat)
    requires j < 8
    ensures AluChip(17).inp[j] == OUT + j && AluChip(17).inp[8] == EACC && |AluChip(17).inp| == 10
  {
  }

  /** `e1` is the next clock edge after `e0`, at least 86 ns later; between them the accumulator is not
      clocked and, from 13 ns after the first to 5 ns before the second, the other inputs stand still. */
  ghost predicate Cycle(tr: seq<State>, e0: nat, e1: nat)
    requires AluTrace(tr)
  {
    && 5 <= e0 && e0 + 86 <= e1 && e1 + 13 < |tr|
    && Clocks(tr, e1) && (forall u :: e0 < u < e1 ==> !Clocks(tr, u))
    && Steady(tr, e0 + 13, e1 - 4, 8)
  }

  lemma {:induction false} AccHolds(tr: seq<State>, e0: nat, e1: nat, j: nat, u: nat)
    requires AluTrace(tr) && Cycle(tr, e0, e1) && j < 8 && e0 + 13 <= u <= e1 + 12
    ensures tr[u].nets[ACC + j].val == tr[e0 + 13].nets[ACC + j].val
  {
    hide Clocks, Steady, AluTrace;
    AluLengths(tr);
    if u > e0 + 13 {
      AccHolds(tr, e0, e1, j, u - 1);
      AccNext(tr, u - 13, j);
    }
  }

  function AccWord(s: State): nat
    requires |s.nets| == TOTAL
  {
    Word(Levels(s), ACC)
  }

  lemma PrefixTrace(tr: seq<State>, n: nat)
    requires AluTrace(tr) && 0 < n <= |tr|
    ensures AluTrace(tr[..n])
  {
    hide Next, Initial;
    var pre := tr[..n];
    forall k | 0 <= k < |pre| - 1
      ensures Next(TheAlu(), pre[k], pre[k + 1])
    {
      TraceStep(TheAlu(), tr, k + 1);
    }
  }

  lemma CycleSteady(tr: seq<State>, e0: nat, e1: nat)
    requires AluTrace(tr) && Cycle(tr, e0, e1)
    ensures AluTrace(tr[..e1 - 4]) && Steady(tr[..e1 - 4], e0 + 13, |tr[..e1 - 4]|, 0)
  {
    hide AluTrace, Clocks;
    AluLengths(tr);
    PrefixTrace(tr, e1 - 4);
    var pre := tr[..e1 - 4];
    forall n, u | n in Inputs() && n >= 0 && e0 + 13 <= u < |pre|
      ensures pre[u].nets[n].val == pre[e0 + 13].nets[n].val
    {
      if n < 8 {
        AccHolds(tr, e0, e1, n, u);
      }
    }
  }

  /** One clock cycle of the gate-level machine is one call of `calcALU`. */
  lemma AccCycle(tr: seq<State>, e0: nat, e1: nat, flags: Flags, control: Control)
    requires AluTrace(tr) && Cycle(tr, e0, e1)
    requires |tr[e0 + 13].nets| == |tr[e1 + 13].nets| == TOTAL
    requires Steers(Levels(tr[e0 + 13]), flags, control) && !ShiftsIn(Levels(tr[e0 + 13]))
    ensures Word(Levels(tr[e0 + 13]), DAT) < 256
    ensures AccWord(tr[e1 + 13]) ==
              CalcAlu(AccWord(tr[e0 + 13]), Word(Levels(tr[e0 + 13]), DAT), flags, control).out
  {
    hide AluTrace, Steady, CalcAlu, Uns;
    AluLengths(tr);
    CycleSteady(tr, e0, e1);
    var pre := tr[..e1 - 4];
    AluSettles(pre, e0 + 13, e1 - 5, flags, control);
    var out, acc := Levels(tr[e1 - 5]), Levels(tr[e1 + 13]);
    var w, o := acc[ACC..ACC + 8], out[OUT..OUT + 8];
    forall j | 0 <= j < 8
      ensures w[j] == o[j]
    {
      AccNext(tr, e1, j);
    }
    assert w == o;
  }

  /** What one clock edge adds to the accumulator: the data byte, the flags and the control word. */
  datatype Operation = Operation(dat: Byte, flags: Flags, control: Control)

  function Fold(acc: nat, ops: seq<Operation>): nat {
    if ops == [] then acc
    else CalcAlu(Fold(acc, ops[..|ops| - 1]), ops[|ops| - 1].dat, ops[|ops| - 1].flags, ops[|ops| - 1].control).out
  }

  /** The clock edges at `edges` are cycles, and `ops[k]` is set up on the circuit for edge `k + 1`. */
  ghost predicate SetUp(tr: seq<State>, edges: seq<nat>, ops: seq<Operation>)
    requires AluTrace(tr)
  {
    && |edges| == |ops| + 1 && edges[0] + 13 < |tr|
    && (forall k :: 0 <= k < |ops| ==> Cycle(tr, edges[k], edges[k + 1]))
    && (forall k :: 0 <= k < |ops| ==> IsSetUp(tr, edges[k] + 13, ops[k]))
  }

  ghost predicate IsSetUp(tr: seq<State>, u: nat, op: Operation) {
    && u < |tr| && |tr[u].nets| == TOTAL
    && Steers(Levels(tr[u]), op.flags, op.control) && !ShiftsIn(Levels(tr[u])) && Word(Levels(tr[u]), DAT) == op.dat
  }

  /** Over any number of clock edges the accumulator follows the fold of `calcALU`. */
  lemma {:induction false} AccFollows(tr: seq<State>, edges: seq<nat>, ops: seq<Operation>, k: nat)
    requires AluTrace(tr) && SetUp(tr, edges, ops) && k <= |ops|
    ensures edges[k] + 13 < |tr| && |tr[edges[k] + 13].nets| == |tr[edges[0] + 13].nets| == TOTAL
    ensures AccWord(tr[edges[k] + 13]) == Fold(AccWord(tr[edges[0] + 13]), ops[..k])
  {
    hide AluTrace, CalcAlu, Clocks, Steady, Steers, ShiftsIn;
    AluLengths(tr);
    if k > 0 {
      AccFollows(tr, edges, ops, k - 1);
      var e0, e1, op := edges[k - 1], edges[k], ops[k - 1];
      assert Cycle(tr, edges[k - 1], edges[k - 1 + 1]);
      AccCycle(tr, e0, e1, op.flags, op.control);
      assert ops[..k][..k - 1] == ops[..k - 1];
    }
  }
}
