/** The gate-level arithmetic unit of the computer, run by the simulator. */
module AluCircuit {
  import opened Wrappers
  import opened Bits
  import opened Chips
  import opened Simulation
  import opened Settling

  // Net numbers in the order of the circuit definition: the buses, then the single nets.
  const ACC: nat := 0
  const DAT: nat := 8
  const ACCZ: nat := 16
  const DATN: nat := 24
  const SUM: nat := 32
  const AND: nat := 40
  const OR: nat := 48
  const OUT: nat := 56
  const ES: nat := 64
  const ZINT: nat := 66
  const GND: nat := 70
  const EZ: nat := 72      // ~EZ
  const EN: nat := 73
  const EC: nat := 74
  const CF: nat := 75
  const C: nat := 76
  const Z: nat := 77
  const CINT: nat := 78
  const COUT: nat := 79
  const EACC: nat := 80    // ~EACC
  const CLK: nat := 81
  const NETS: nat := 82
  const TOTAL: nat := 91   // with the nine local nets of the register

  function Out4(n: nat): seq<Option<nat>> {
    [Some(n), Some(n + 1), Some(n + 2), Some(n + 3)]
  }

  /** Four gates combining nets `a ..` with nets `b ..`. */
  function Gates(kind: Kind, a: nat, b: nat, out: nat): Chip {
    Chip(kind, [a, b, a + 1, b + 1, a + 2, b + 2, a + 3, b + 3], Out4(out), 0)
  }

  /** Four gates combining nets `a ..` with the one net `b`. */
  function Mask(kind: Kind, a: nat, b: nat, out: nat): Chip {
    Chip(kind, [a, b, a + 1, b, a + 2, b, a + 3, b], Out4(out), 0)
  }

  function Adder(a: nat, b: nat, carry: nat, sum: nat, out: nat): Chip {
    Chip(HC283, [a, a + 1, a + 2, a + 3, b, b + 1, b + 2, b + 3, carry], Out4(sum) + [Some(out)], 0)
  }

  /** Bits `j` and `j + 1` of the result; `next` is what is shifted into bit `j + 1`. */
  function Select(j: nat, next: nat): Chip {
    Chip(AC153, [OR + j, OR + j + 1, AND + j, AND + j + 1, DATN + j + 1, next, SUM + j, SUM + j + 1,
                 ES, ES + 1, GND, GND],
         [Some(OUT + j), Some(OUT + j + 1)], 0)
  }

  function AluChip(i: nat): Chip
    requires i < 18
  {
    if i == 0 then Mask(HC08, ACC, EZ, ACCZ)
    else if i == 1 then Mask(HC08, ACC + 4, EZ, ACCZ + 4)
    else if i == 2 then Mask(HC86, DAT, EN, DATN)
    else if i == 3 then Mask(HC86, DAT + 4, EN, DATN + 4)
    else if i == 4 then Adder(ACCZ, DATN, EC, SUM, CINT)
    else if i == 5 then Adder(ACCZ + 4, DATN + 4, CINT, SUM + 4, COUT)
    else if i == 6 then Gates(HC08, ACCZ, DATN, AND)
    else if i == 7 then Gates(HC08, ACCZ + 4, DATN + 4, AND + 4)
    else if i == 8 then Gates(HC32, ACCZ, DATN, OR)
    else if i == 9 then Gates(HC32, ACCZ + 4, DATN + 4, OR + 4)
    else if i == 10 then Select(0, DATN + 2)
    else if i == 11 then Select(2, DATN + 4)
    else if i == 12 then Select(4, DATN + 6)
    else if i == 13 then Select(6, EC)
    else if i == 14 then
      Chip(AC153, [CF, GND, CF, GND, DATN, GND, COUT, GND, ES, ES + 1, GND, GND], [Some(C), None], 0)
    else if i == 15 then
      Chip(HC02, [OUT, OUT + 1, OUT + 2, OUT + 3, OUT + 4, OUT + 5, OUT + 6, OUT + 7], Out4(ZINT), 0)
    else if i == 16 then
      Chip(HC21, [ZINT, ZINT + 1, ZINT + 2, ZINT + 3, GND, GND, GND, GND], [Some(Z), None], 0)
    else
      Chip(HC377, [OUT, OUT + 1, OUT + 2, OUT + 3, OUT + 4, OUT + 5, OUT + 6, OUT + 7, EACC, CLK],
           Out4(ACC) + Out4(ACC + 4), NETS)
  }

  lemma GatesFit(kind: Kind, a: nat, b: nat, out: nat)
    requires Quad(kind) && a + 4 <= NETS && b + 4 <= NETS && out + 4 <= NETS
    ensures ChipFits(Circuit([], NETS, TOTAL), Gates(kind, a, b, out))
    ensures ChipFits(Circuit([], NETS, TOTAL), Mask(kind, a, b, out))
  {
  }

  lemma AdderFits(a: nat, b: nat, carry: nat, sum: nat, out: nat)
    requires a + 4 <= NETS && b + 4 <= NETS && carry < NETS && sum + 4 <= NETS && out < NETS
    ensures ChipFits(Circuit([], NETS, TOTAL), Adder(a, b, carry, sum, out))
  {
  }

  lemma SelectFits(j: nat, next: nat)
    requires j <= 6 && next < NETS
    ensures ChipFits(Circuit([], NETS, TOTAL), Select(j, next))
  {
  }

  lemma OtherFits(i: nat)
    requires 15 <= i < 17
    ensures ChipFits(Circuit([], NETS, TOTAL), AluChip(i))
  {
  }

  lemma CarryFits()
    ensures ChipFits(Circuit([], NETS, TOTAL), AluChip(14))
  {
  }

  lemma RegisterFits()
    ensures ChipFits(Circuit([], NETS, TOTAL), AluChip(17))
  {
  }

  lemma AluChipFits(i: nat)
    requires i < 18
    ensures ChipFits(Circuit([], NETS, TOTAL), AluChip(i))
  {
    hide ChipFits, Gates, Mask, Adder, Select;
    if i < 2 {
      GatesFit(HC08, ACC + 4 * i, EZ, ACCZ + 4 * i);
    } else if i < 4 {
      GatesFit(HC86, DAT + 4 * (i - 2), EN, DATN + 4 * (i - 2));
    } else if i == 4 {
      AdderFits(ACCZ, DATN, EC, SUM, CINT);
    } else if i == 5 {
      AdderFits(ACCZ + 4, DATN + 4, CINT, SUM + 4, COUT);
    } else if i < 8 {
      GatesFit(HC08, ACCZ + 4 * (i - 6), DATN + 4 * (i - 6), AND + 4 * (i - 6));
    } else if i < 10 {
      GatesFit(HC32, ACCZ + 4 * (i - 8), DATN + 4 * (i - 8), OR + 4 * (i - 8));
    } else if i < 14 {
      SelectFits(2 * (i - 10), if i < 13 then DATN + 2 * (i - 10) + 2 else EC);
    } else if i < 17 {
      if i == 14 {
        CarryFits();
      } else {
        OtherFits(i);
      }
    } else {
      RegisterFits();
    }
  }

  function TheAlu(): (c: Circuit)
    ensures WellFormed(c) && c.netLen == NETS && c.total == TOTAL && |c.chips| == 18
    ensures forall i :: 0 <= i < 18 ==> c.chips[i] == AluChip(i)
  {
    var c := Circuit(seq(18, i requires 0 <= i < 18 => AluChip(i)), NETS, TOTAL);
    assert WellFormed(c) by {
      forall i | 0 <= i < 18
        ensures ChipFits(c, c.chips[i])
      {
        AluChipFits(i);
      }
    }
    c
  }

  // ---- Drivers and settling times ----

  /** Which slot drives each net: chip and slot number. */
  function Driver(n: nat): (nat, nat) {
    if n < 8 then (17, 9 + n)
    else if n < 16 then (18, 0)
    else if n < 20 then (0, n - 16)
    else if n < 24 then (1, n - 20)
    else if n < 28 then (2, n - 24)
    else if n < 32 then (3, n - 28)
    else if n < 36 then (4, n - 32)
    else if n < 40 then (5, n - 36)
    else if n < 44 then (6, n - 40)
    else if n < 48 then (7, n - 44)
    else if n < 52 then (8, n - 48)
    else if n < 56 then (9, n - 52)
    else if n < 58 then (10, n - 56)
    else if n < 60 then (11, n - 58)
    else if n < 62 then (12, n - 60)
    else if n < 64 then (13, n - 62)
    else if n < 66 then (18, 0)
    else if n < 70 then (15, n - 66)
    else if n == C then (14, 0)
    else if n == Z then (16, 0)
    else if n == CINT then (4, 4)
    else if n == COUT then (5, 4)
    else if n < NETS then (18, 0)
    else (17, n - NETS)
  }

  lemma DriverOfMasks(i: nat, k: nat)
    requires 0 <= i < 6 && k < SlotCount(AluChip(i).kind)
    ensures SlotTarget(AluChip(i), k).Some? ==>
              SlotTarget(AluChip(i), k).value < TOTAL && Driver(SlotTarget(AluChip(i), k).value) == (i, k)
  {
  }

  lemma DriverOfGates(i: nat, k: nat)
    requires 6 <= i < 10 && k < SlotCount(AluChip(i).kind)
    ensures SlotTarget(AluChip(i), k).Some? ==>
              SlotTarget(AluChip(i), k).value < TOTAL && Driver(SlotTarget(AluChip(i), k).value) == (i, k)
  {
  }

  lemma DriverOfSelects(i: nat, k: nat)
    requires 10 <= i < 14 && k < SlotCount(AluChip(i).kind)
    ensures SlotTarget(AluChip(i), k).Some? ==>
              SlotTarget(AluChip(i), k).value < TOTAL && Driver(SlotTarget(AluChip(i), k).value) == (i, k)
  {
  }

  lemma DriverOfOthers(i: nat, k: nat)
    requires 14 <= i < 18 && k < SlotCount(AluChip(i).kind)
    ensures SlotTarget(AluChip(i), k).Some? ==>
              SlotTarget(AluChip(i), k).value < TOTAL && Driver(SlotTarget(AluChip(i), k).value) == (i, k)
  {
  }

  lemma DriverOf(i: nat, k: nat)
    requires i < 18 && k < SlotCount(AluChip(i).kind)
    ensures SlotTarget(AluChip(i), k).Some? ==>
              SlotTarget(AluChip(i), k).value < TOTAL && Driver(SlotTarget(AluChip(i), k).value) == (i, k)
  {
    hide SlotTarget, SlotCount, AluChip, Driver;
    if i < 6 {
      DriverOfMasks(i, k);
    } else if i < 10 {
      DriverOfGates(i, k);
    } else if i < 14 {
      DriverOfSelects(i, k);
    } else {
      DriverOfOthers(i, k);
    }
  }

  /** When each net has settled after its inputs. */
  function SettleTime(n: nat): nat {
    if n < 16 then 0
    else if n < 24 then 7                       // ACCZ
    else if n < 32 then 11                      // DATN
    else if n < 40 then [36, 36, 36, 38, 59, 59, 59, 61][n - 32]   // SUM
    else if n < 56 then 18                      // AND, OR
    else if n < 64 then [43, 43, 45, 45, 66, 66, 68, 68][n - 56]   // OUT
    else if n < 66 then 0
    else if n < 70 then [50, 52, 73, 75][n - 66]                   // ZINT
    else if n == C then 64
    else if n == Z then 87
    else if n == CINT then 34
    else if n == COUT then 57
    else 0
  }

  function Times(): (time: seq<nat>)
    ensures |time| == TOTAL && forall n :: 0 <= n < TOTAL ==> time[n] == SettleTime(n)
  {
    seq(TOTAL, n requires 0 <= n < TOTAL => SettleTime(n))
  }

  predicate IsInput(n: nat) {
    n < 16 || n == ES || n == ES + 1 || n == GND || n == EZ || n == EN || n == EC || n == CF
  }

  function Cone(): (r: set<nat>)
    ensures forall n: nat :: n in r <==> n < 80
  {
    UpTo(80)
  }

  /** Everything the unit computes from; the unused supply net counts as an input. */
  function Inputs(): (r: set<nat>)
    ensures forall n: nat :: n in r <==> IsInput(n) || n == 71
  {
    UpTo(16) + {ES, ES + 1, GND, 71, EZ, EN, EC, CF}
  }

  lemma SoleOf(n: nat, i: nat, k: nat)
    requires i < 18 && k < SlotCount(AluChip(i).kind) && SlotTarget(AluChip(i), k) == Some(n)
    ensures SoleDriver(TheAlu(), n, i, k)
  {
    hide SlotTarget, AluChip, Driver;
    var c := TheAlu();
    assert Drives(c, i, k, n);
    DriverOf(i, k);
    forall i': int, k': int | Drives(c, i', k', n)
      ensures i' == i && k' == k
    {
      DriverOf(i', k');
    }
  }

  /** Slot `k` of chip `i` drives net `n` after the nets it reads. */
  predicate Later(i: nat, k: nat, n: nat)
    requires i < 17
  {
    && Combinational(AluChip(i).kind, k)
    && forall p :: 0 <= p < |AluChip(i).inp| && ReadsPin(AluChip(i).kind, k, p) ==>
         AluChip(i).inp[p] < 80 && SettleTime(AluChip(i).inp[p]) + MaxDelay(AluChip(i).kind, k) <= SettleTime(n)
  }

  lemma LaterMasks(i: nat, k: nat, n: nat)
    requires 0 <= i < 2 && k < SlotCount(AluChip(i).kind) && SlotTarget(AluChip(i), k) == Some(n)
    ensures Later(i, k, n)
  {
  }

  lemma LaterInverters(i: nat, k: nat, n: nat)
    requires 2 <= i < 4 && k < SlotCount(AluChip(i).kind) && SlotTarget(AluChip(i), k) == Some(n)
    ensures Later(i, k, n)
  {
  }

  lemma LaterLowAdder(i: nat, k: nat, n: nat)
    requires i == 4 && k < SlotCount(AluChip(i).kind) && SlotTarget(AluChip(i), k) == Some(n)
    ensures Later(i, k, n)
  {
  }

  lemma LaterHighAdder(i: nat, k: nat, n: nat)
    requires i == 5 && k < SlotCount(AluChip(i).kind) && SlotTarget(AluChip(i), k) == Some(n)
    ensures Later(i, k, n)
  {
  }

  lemma LaterGates(i: nat, k: nat, n: nat)
    requires 6 <= i < 10 && k < SlotCount(AluChip(i).kind) && SlotTarget(AluChip(i), k) == Some(n)
    ensures Later(i, k, n)
  {
  }

  lemma LaterSelect0(i: nat, k: nat, n: nat)
    requires i == 10 && k < SlotCount(AluChip(i).kind) && SlotTarget(AluChip(i), k) == Some(n)
    ensures Later(i, k, n)
  {
  }

  lemma LaterSelect1(i: nat, k: nat, n: nat)
    requires i == 11 && k < SlotCount(AluChip(i).kind) && SlotTarget(AluChip(i), k) == Some(n)
    ensures Later(i, k, n)
  {
  }

  lemma LaterSelect2(i: nat, k: nat, n: nat)
    requires i == 12 && k < SlotCount(AluChip(i).kind) && SlotTarget(AluChip(i), k) == Some(n)
    ensures Later(i, k, n)
  {
  }

  lemma LaterSelect3(i: nat, k: nat, n: nat)
    requires i == 13 && k < SlotCount(AluChip(i).kind) && SlotTarget(AluChip(i), k) == Some(n)
    ensures Later(i, k, n)
  {
  }

  lemma LaterOthers(i: nat, k: nat, n: nat)
    requires 15 <= i < 17 && k < SlotCount(AluChip(i).kind) && SlotTarget(AluChip(i), k) == Some(n)
    ensures Later(i, k, n)
  {
  }

  lemma LaterCarry(i: nat, k: nat, n: nat)
    requires i == 14 && k < SlotCount(AluChip(i).kind) && SlotTarget(AluChip(i), k) == Some(n)
    ensures Later(i, k, n)
  {
  }

  lemma PinsEarlier(i: nat, k: nat, n: nat)
    requires i < 17 && k < SlotCount(AluChip(i).kind) && SlotTarget(AluChip(i), k) == Some(n)
    ensures Later(i, k, n)
  {
    hide Later, SlotTarget, SlotCount, AluChip;
    if i < 2 {
      LaterMasks(i, k, n);
    } else if i < 4 {
      LaterInverters(i, k, n);
    } else if i < 5 {
      LaterLowAdder(i, k, n);
    } else if i < 6 {
      LaterHighAdder(i, k, n);
    } else if i < 10 {
      LaterGates(i, k, n);
    } else if i < 11 {
      LaterSelect0(i, k, n);
    } else if i < 12 {
      LaterSelect1(i, k, n);
    } else if i < 13 {
      LaterSelect2(i, k, n);
    } else if i < 14 {
      LaterSelect3(i, k, n);
    } else if i < 15 {
      LaterCarry(i, k, n);
    } else {
      LaterOthers(i, k, n);
    }
  }

  lemma IsComputed(i: nat, k: nat, n: nat)
    requires i < 17 && k < SlotCount(AluChip(i).kind) && SlotTarget(AluChip(i), k) == Some(n)
    ensures Computed(TheAlu(), Times(), Cone(), n, i, k)
  {
    hide SlotTarget, SlotCount, AluChip, Driver, SoleDriver, SettleTime, MaxDelay, ReadsPin, Combinational;
    SoleOf(n, i, k);
    DriverOf(i, k);
    PinsEarlier(i, k, n);
  }

  /** The driver of net `n` is a slot of a gate that has it as its target. */
  predicate DriverIsRight(n: nat) {
    Driver(n).0 < 17 && Driver(n).1 < SlotCount(AluChip(Driver(n).0).kind) &&
    SlotTarget(AluChip(Driver(n).0), Driver(n).1) == Some(n)
  }

  lemma DriverDrivesLow(n: nat)
    requires 16 <= n < 40
    ensures DriverIsRight(n)
  {
  }

  lemma DriverDrivesGates(n: nat)
    requires 40 <= n < 56
    ensures DriverIsRight(n)
  {
  }

  lemma DriverDrivesOut(n: nat)
    requires 56 <= n < 64
    ensures DriverIsRight(n)
  {
  }

  lemma DriverDrivesHigh(n: nat)
    requires 66 <= n < 80 && !IsInput(n) && n != 71
    ensures DriverIsRight(n)
  {
    if n < 70 {
      DriverDrivesZero(n);
    }
  }

  lemma DriverDrivesZero(n: nat)
    requires 66 <= n < 70
    ensures DriverIsRight(n)
  {
  }

  lemma DriverDrives(n: nat)
    requires n < 80 && !IsInput(n) && n != 71
    ensures DriverIsRight(n)
  {
    hide DriverIsRight;
    if n < 40 {
      DriverDrivesLow(n);
    } else if n < 56 {
      DriverDrivesGates(n);
    } else if n < 64 {
      DriverDrivesOut(n);
    } else {
      DriverDrivesHigh(n);
    }
  }

  lemma AluAcyclic()
    ensures Acyclic(TheAlu(), Times(), Cone(), Inputs())
  {
    hide SlotTarget, SlotCount, AluChip, Driver, Computed;
    forall n: nat | n in Cone() && n !in Inputs()
      ensures exists i: nat, k: nat :: Computed(TheAlu(), Times(), Cone(), n, i, k)
    {
      DriverDrives(n);
      IsComputed(Driver(n).0, Driver(n).1, n);
    }
  }

  // ---- What a consistent valuation says, word by word ----

  ghost predicate Settled(e: seq<bool>)
    requires |e| == TOTAL
  {
    Consistent(TheAlu(), Times(), Cone(), Inputs(), e)
  }

  lemma At(e: seq<bool>, i: nat, k: nat, n: nat)
    requires |e| == TOTAL && Settled(e) && i < 17 && k < SlotCount(AluChip(i).kind) &&
             SlotTarget(AluChip(i), k) == Some(n)
    requires n < 80 && !IsInput(n) && n != 71
    ensures Wired(AluChip(i), TOTAL) && Combinational(AluChip(i).kind, k)
    ensures e[n] == SlotEval(AluChip(i), Frozen(e), k)
  {
    hide SlotTarget, SlotCount, AluChip, Computed, SlotEval, ChipFits;
    IsComputed(i, k, n);
    PinsEarlier(i, k, n);
    AluChipFits(i);
    FitsWired(i);
  }

  lemma FitsWired(i: nat)
    requires i < 18 && ChipFits(Circuit([], NETS, TOTAL), AluChip(i))
    ensures Wired(AluChip(i), TOTAL)
  {
  }

  lemma ZeroedBits(e: seq<bool>, j: nat)
    requires |e| == TOTAL && Settled(e) && j < 8
    ensures e[ACCZ + j] == (e[ACC + j] && e[EZ])
  {
    hide Settled, Consistent;
    At(e, if j < 4 then 0 else 1, j % 4, ACCZ + j);
  }

  lemma InvertedBits(e: seq<bool>, j: nat)
    requires |e| == TOTAL && Settled(e) && j < 8
    ensures e[DATN + j] == (e[DAT + j] != e[EN])
  {
    hide Settled, Consistent;
    At(e, if j < 4 then 2 else 3, j % 4, DATN + j);
  }

  lemma GateBits(e: seq<bool>, j: nat)
    requires |e| == TOTAL && Settled(e) && j < 8
    ensures e[AND + j] == (e[ACCZ + j] && e[DATN + j])
    ensures e[OR + j] == (e[ACCZ + j] || e[DATN + j])
  {
    hide Settled;
    AndBit(e, j);
    OrBit(e, j);
  }

  lemma AndBit(e: seq<bool>, j: nat)
    requires |e| == TOTAL && Settled(e) && j < 8
    ensures e[AND + j] == (e[ACCZ + j] && e[DATN + j])
  {
    hide Settled, Consistent;
    At(e, if j < 4 then 6 else 7, j % 4, AND + j);
  }

  lemma OrBit(e: seq<bool>, j: nat)
    requires |e| == TOTAL && Settled(e) && j < 8
    ensures e[OR + j] == (e[ACCZ + j] || e[DATN + j])
  {
    hide Settled, Consistent;
    At(e, if j < 4 then 8 else 9, j % 4, OR + j);
  }

  function Op(e: seq<bool>): nat
    requires |e| == TOTAL
  {
    BitVal(e[ES]) + 2 * BitVal(e[ES + 1])
  }

  lemma SelectEval(e: seq<bool>, j: nat, next: nat, k: nat)
    requires |e| == TOTAL && j <= 6 && next < TOTAL && k < 2 && Wired(Select(j, next), TOTAL)
    ensures SlotEval(Select(j, next), Frozen(e), k) ==
              match Op(e)
              case 0 => e[OR + j + k]
              case 1 => e[AND + j + k]
              case 2 => if k == 0 then e[DATN + j + 1] else e[next]
              case _ => e[SUM + j + k]
  {
    assert MuxPin(Select(j, next), Frozen(e), k) == k + 2 * Op(e);
  }

  lemma SelectIs(h: nat, k: nat)
    requires h < 4 && k < 2
    ensures AluChip(10 + h) == Select(2 * h, if h < 3 then DATN + 2 * h + 2 else EC)
    ensures SlotTarget(AluChip(10 + h), k) == Some(OUT + 2 * h + k)
  {
  }

  lemma OutBits(e: seq<bool>, j: nat)
    requires |e| == TOTAL && Settled(e) && j < 8
    ensures e[OUT + j] ==
              match Op(e)
              case 0 => e[OR + j]
              case 1 => e[AND + j]
              case 2 => if j < 7 then e[DATN + j + 1] else e[EC]
              case _ => e[SUM + j]
  {
    hide Settled, Consistent, AluChip, SlotTarget, SlotEval, Select, Op;
    var h, k := j / 2, j % 2;
    SelectIs(h, k);
    SelectKind(2 * h, if h < 3 then DATN + 2 * h + 2 else EC);
    At(e, 10 + h, k, OUT + j);
    SelectEval(e, 2 * h, if h < 3 then DATN + 2 * h + 2 else EC, k);
  }

  lemma SelectKind(j: nat, next: nat)
    ensures Select(j, next).kind.AC153?
  {
  }

  lemma CarryBit(e: seq<bool>)
    requires |e| == TOTAL && Settled(e)
    ensures e[C] == match Op(e) case 0 => e[CF] case 1 => e[CF] case 2 => e[DATN] case _ => e[COUT]
  {
    hide Settled, Consistent;
    At(e, 14, 0, C);
  }

  lemma ZeroBit(e: seq<bool>)
    requires |e| == TOTAL && Settled(e)
    ensures e[Z] <==> forall n :: OUT <= n < OUT + 8 ==> !e[n]
  {
    hide Settled, Consistent;
    At(e, 16, 0, Z);
    FourPins(AluChip(16), Frozen(e), 0);
    NorBits(e, 0);
    NorBits(e, 1);
    NorBits(e, 2);
    NorBits(e, 3);
  }

  lemma NorBits(e: seq<bool>, j: nat)
    requires |e| == TOTAL && Settled(e) && j < 4
    ensures e[ZINT + j] == !(e[OUT + 2 * j] || e[OUT + 2 * j + 1])
  {
    hide Settled, Consistent;
    At(e, 15, j, ZINT + j);
  }
}
