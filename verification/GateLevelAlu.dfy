/** The gate-level arithmetic unit computes what the emulator's `calcALU` computes in one call. */
module GateLevelAlu {
  import opened Bits
  import opened Chips
  import opened Settling
  import opened AluCircuit
  import opened Alu
  import opened ControlBits

  /** The byte on the eight nets from `lo` on. */
  function Word(e: seq<bool>, lo: nat): nat
    requires lo + 8 <= |e|
  {
    Uns(e[lo..lo + 8])
  }

  lemma WordBound(e: seq<bool>, lo: nat)
    requires lo + 8 <= |e|
    ensures Word(e, lo) < 256
  {
    UnsBound(e[lo..lo + 8]);
    PowByte();
  }

  /** The control lines of the circuit say what the control word says; the two operation select lines
      carry the complement of the operation field, and the flags are loaded from the unit. */
  predicate Steers(e: seq<bool>, flags: Flags, control: Control)
    requires |e| == TOTAL
  {
    && (control & CTRL_EZ != 0 <==> e[EZ])
    && (control & CTRL_EN != 0 <==> e[EN])
    && (control & CTRL_EC != 0 <==> e[EC])
    && control & CTRL_EO == (match Op(e) case 0 => CTRL_EO case 1 => CTRL_EA case 2 => CTRL_ER case _ => CTRL_ES)
    && control & CTRL_FI == 0 && control & CTRL_FD == 0
    && (flags.c <==> e[CF])
  }

  lemma {:induction false} AllLow(bits: seq<bool>)
    requires forall i :: 0 <= i < |bits| ==> !bits[i]
    ensures Uns(bits) == 0
  {
    UnsZero(bits);
  }

  lemma Operands(e: seq<bool>)
    requires |e| == TOTAL && Settled(e)
    ensures Word(e, ACCZ) == if e[EZ] then Word(e, ACC) else 0
    ensures Word(e, DATN) == if e[EN] then 255 - Word(e, DAT) else Word(e, DAT)
  {
    hide Settled, Uns;
    var a, b := e[ACCZ..ACCZ + 8], e[DATN..DATN + 8];
    forall j | 0 <= j < 8
      ensures a[j] == (e[ACC..ACC + 8][j] && e[EZ]) && b[j] == (e[DAT..DAT + 8][j] != e[EN])
    {
      ZeroedBits(e, j);
      InvertedBits(e, j);
    }
    if e[EZ] {
      assert a == e[ACC..ACC + 8];
    } else {
      AllLow(a);
    }
    if e[EN] {
      assert b == NotBits(e[DAT..DAT + 8]);
      UnsNot(e[DAT..DAT + 8]);
      PowByte();
    } else {
      assert b == e[DAT..DAT + 8];
    }
  }

  lemma AndOrWords(e: seq<bool>)
    requires |e| == TOTAL && Settled(e)
    ensures Word(e, AND) == And(Word(e, ACCZ), Word(e, DATN))
    ensures Word(e, OR) == BitOr(Word(e, ACCZ), Word(e, DATN))
  {
    hide Settled, Uns, BitOr;
    var a, b := e[ACCZ..ACCZ + 8], e[DATN..DATN + 8];
    ToBitsUns(a);
    ToBitsUns(b);
    forall j | 0 <= j < 8
      ensures e[AND..AND + 8][j] == (a[j] && b[j]) && e[OR..OR + 8][j] == (a[j] || b[j])
    {
      GateBits(e, j);
    }
    assert e[AND..AND + 8] == AndBits(a, b);
    assert e[OR..OR + 8] == OrBits(a, b);
    WordBound(e, ACCZ);
    WordBound(e, DATN);
    AndOrByte(Uns(a), Uns(b));
    PowByte();
    UnsToBits(BitOr(Uns(a), Uns(b)), 8);
  }

  lemma AdderWord(e: seq<bool>, i: nat, a: nat, b: nat, carry: nat, sum: nat, out: nat)
    requires |e| == TOTAL && Settled(e) && 4 <= i < 6 && AluChip(i) == Adder(a, b, carry, sum, out)
    requires a + 4 <= 80 && b + 4 <= 80 && carry < 80 && SUM <= sum <= SUM + 4 && CINT <= out <= COUT
    ensures Uns(e[sum..sum + 4]) + 16 * BitVal(e[out]) == Uns(e[a..a + 4]) + Uns(e[b..b + 4]) + BitVal(e[carry])
  {
    hide Settled, Uns, AluChip, ToBits;
    AluChipFits(i);
    FitsWired(i);
    var total := AdderSum(AluChip(i), Frozen(e));
    AdderReads(e, a, b, carry, sum, out);
    forall k: nat | k < 5
      ensures ToBits(total, 5)[k] == if k < 4 then e[sum..sum + 4][k] else e[out]
    {
      At(e, i, k, if k < 4 then sum + k else out);
    }
    FiveBits(total, e[sum..sum + 4], e[out]);
  }

  lemma AdderReads(e: seq<bool>, a: nat, b: nat, carry: nat, sum: nat, out: nat)
    requires |e| == TOTAL && a + 4 <= 80 && b + 4 <= 80 && carry < 80
    requires Wired(Adder(a, b, carry, sum, out), TOTAL)
    ensures AdderSum(Adder(a, b, carry, sum, out), Frozen(e)) ==
            Uns(e[a..a + 4]) + Uns(e[b..b + 4]) + BitVal(e[carry]) < 32
  {
    hide Uns;
    assert e[a..a + 4] == [e[a], e[a + 1], e[a + 2], e[a + 3]];
    assert e[b..b + 4] == [e[b], e[b + 1], e[b + 2], e[b + 3]];
    UnsBound(e[a..a + 4]);
    UnsBound(e[b..b + 4]);
    PowByte();
  }

  lemma SplitWord(e: seq<bool>, lo: nat)
    requires lo + 8 <= |e|
    ensures Word(e, lo) == Uns(e[lo..lo + 4]) + 16 * Uns(e[lo + 4..lo + 8])
  {
    assert e[lo..lo + 8] == e[lo..lo + 4] + e[lo + 4..lo + 8];
    UnsConcat(e[lo..lo + 4], e[lo + 4..lo + 8]);
    PowByte();
  }

  lemma SumWord(e: seq<bool>)
    requires |e| == TOTAL && Settled(e)
    ensures Word(e, SUM) + 256 * BitVal(e[COUT]) == Word(e, ACCZ) + Word(e, DATN) + BitVal(e[EC])
  {
    hide Settled, Uns, Word;
    AdderWord(e, 4, ACCZ, DATN, EC, SUM, CINT);
    AdderWord(e, 5, ACCZ + 4, DATN + 4, CINT, SUM + 4, COUT);
    SplitWord(e, SUM);
    SplitWord(e, ACCZ);
    SplitWord(e, DATN);
  }

  lemma OutWord(e: seq<bool>)
    requires |e| == TOTAL && Settled(e)
    ensures Word(e, OUT) ==
              match Op(e)
              case 0 => BitOr(Word(e, ACCZ), Word(e, DATN))
              case 1 => And(Word(e, ACCZ), Word(e, DATN))
              case 2 => Word(e, DATN) / 2 + 128 * BitVal(e[EC])
              case _ => Word(e, SUM)
  {
    hide Settled, Uns;
    AndOrWords(e);
    var out := e[OUT..OUT + 8];
    forall j | 0 <= j < 8
      ensures out[j] == match Op(e)
                        case 0 => e[OR + j]
                        case 1 => e[AND + j]
                        case 2 => if j < 7 then e[DATN + j + 1] else e[EC]
                        case _ => e[SUM + j]
    {
      OutBits(e, j);
    }
    match Op(e)
    case 0 => assert out == e[OR..OR + 8];
    case 1 => assert out == e[AND..AND + 8];
    case 2 => ShiftWord(e, out);
    case _ => assert out == e[SUM..SUM + 8];
  }

  lemma ShiftWord(e: seq<bool>, out: seq<bool>)
    requires |e| == TOTAL && |out| == 8
    requires forall j :: 0 <= j < 8 ==> out[j] == if j < 7 then e[DATN + j + 1] else e[EC]
    ensures Uns(out) == Word(e, DATN) / 2 + 128 * BitVal(e[EC])
  {
    var b := e[DATN..DATN + 8];
    assert out == b[1..] + [e[EC]];
    UnsConcat(b[1..], [e[EC]]);
    PowByte();
    assert Pow2(7) == 128;
    assert Uns(b) == BitVal(b[0]) + 2 * Uns(b[1..]);
    UnsOne(e[EC]);
  }

  /** A right shift with the shift-in line high: the one case in which circuit and emulator differ. */
  predicate ShiftsIn(e: seq<bool>)
    requires |e| == TOTAL
  {
    Op(e) == 2 && e[EC]
  }

  /** A settled circuit has the result, carry and zero flag of `calcALU`; with the shift-in line high a
      right shift also sets the top bit, which the emulator leaves clear. */
  lemma AluWord(e: seq<bool>, flags: Flags, control: Control)
    requires |e| == TOTAL && Settled(e) && Steers(e, flags, control)
    ensures Word(e, DAT) < 256
    ensures var r := CalcAlu(Word(e, ACC), Word(e, DAT), flags, control);
            && Word(e, OUT) == r.out + (if ShiftsIn(e) then 128 else 0)
            && e[C] == r.flags.c
            && (e[Z] <==> Word(e, OUT) == 0)
            && (Word(e, OUT) == r.out <==> !ShiftsIn(e))
            && (!ShiftsIn(e) ==> e[Z] == r.flags.z)
  {
    hide Settled, Uns, Word, Output, CarryOut;
    Operands(e);
    OutputWord(e, flags, control);
    ZeroWord(e);
    WordBound(e, DAT);
  }

  /** A right shift with the shift-in line high: ES selects 2, EC and ~EZ are high, everything else is low. */
  function ShiftLines(): (given: seq<bool>)
    ensures |given| == TOTAL && forall n :: 0 <= n < TOTAL ==> given[n] == (n == ES + 1 || n == EC || n == EZ)
  {
    seq(TOTAL, n requires 0 <= n < TOTAL => n == ES + 1 || n == EC || n == EZ)
  }

  /** So the two do not always agree: the gates give 128 where the emulator gives 0. */
  lemma ShiftInDiffers(flags: Flags) returns (e: seq<bool>, control: Control)
    requires !flags.c
    ensures |e| == TOTAL && Settled(e) && Steers(e, flags, control) && ShiftsIn(e)
    ensures control == CTRL_ER | CTRL_EC | CTRL_EZ && Word(e, ACC) == 0 && Word(e, DAT) == 0
    ensures Word(e, OUT) == 128 && CalcAlu(0, 0, flags, control).out == 0
  {
    hide Acyclic, Consistent, Valuation, NetValue, CalcAlu, Word, Steers, ShiftsIn, UpTo, Cone, Inputs, SettleTime,
         AluChip;
    AluAcyclic();
    ValuationConsistent(TheAlu(), Times(), Cone(), Inputs(), ShiftLines());
    e := Valuation(TheAlu(), Times(), Cone(), Inputs(), ShiftLines());
    control := CTRL_ER | CTRL_EC | CTRL_EZ;
    assert forall n :: 0 <= n < TOTAL && IsInput(n) ==> n in Inputs() && n in Cone();
    LowWord(e, ACC);
    LowWord(e, DAT);
    ShiftSteers(e, flags);
    AluWord(e, flags, control);
    ShiftOfZero(flags);
  }

  lemma ShiftSteers(e: seq<bool>, flags: Flags)
    requires |e| == TOTAL && e[EZ] && !e[EN] && e[EC] && !e[CF] && !e[ES] && e[ES + 1] && !flags.c
    ensures Steers(e, flags, CTRL_ER | CTRL_EC | CTRL_EZ) && ShiftsIn(e)
  {
  }

  lemma LowWord(e: seq<bool>, lo: nat)
    requires lo + 8 <= |e| && forall n :: lo <= n < lo + 8 ==> !e[n]
    ensures Word(e, lo) == 0
  {
    AllLow(e[lo..lo + 8]);
  }

  lemma ShiftOfZero(flags: Flags)
    ensures CalcAlu(0, 0, flags, CTRL_ER | CTRL_EC | CTRL_EZ).out == 0
  {
    hide And, BitOr;
  }

  lemma SumOperation(a: nat, b: nat, s: nat, top: bool, shiftIn: bool, flagC: bool, control: Control)
    requires s < 256 && s + 256 * BitVal(top) == a + b + BitVal(shiftIn)
    requires control & CTRL_EO == CTRL_ES && (control & CTRL_EC != 0 <==> shiftIn)
    ensures Output(a, b, control) % 256 == s && CarryOut(a, b, flagC, control) == top
  {
    hide And, BitOr;
  }

  lemma OrOperation(a: nat, b: nat, flagC: bool, control: Control)
    requires a < 256 && b < 256 && control & CTRL_EO == CTRL_EO
    ensures Output(a, b, control) % 256 == BitOr(a, b) && CarryOut(a, b, flagC, control) == flagC
  {
    hide And, BitOr;
    AndOrByte(a, b);
  }

  lemma AndOperation(a: nat, b: nat, flagC: bool, control: Control)
    requires a < 256 && b < 256 && control & CTRL_EO == CTRL_EA
    ensures Output(a, b, control) % 256 == And(a, b) && CarryOut(a, b, flagC, control) == flagC
  {
    hide And, BitOr;
    AndOrByte(a, b);
  }

  lemma ShiftOperation(a: nat, b: nat, flagC: bool, control: Control)
    requires a < 256 && b < 256 && control & CTRL_EO == CTRL_ER
    ensures Output(a, b, control) % 256 == b / 2 && CarryOut(a, b, flagC, control) == (b % 2 == 1)
  {
    hide And, BitOr;
  }

  /** The four operations, with all words given as numbers. */
  lemma FourOperations(op: nat, a: nat, b: nat, s: nat, top: bool, shiftIn: bool, flagC: bool, control: Control)
    requires op < 4 && a < 256 && b < 256 && s < 256 && s + 256 * BitVal(top) == a + b + BitVal(shiftIn)
    requires control & CTRL_EO == (match op case 0 => CTRL_EO case 1 => CTRL_EA case 2 => CTRL_ER case _ => CTRL_ES)
    requires control & CTRL_EC != 0 <==> shiftIn
    ensures Output(a, b, control) % 256 ==
            match op case 0 => BitOr(a, b) case 1 => And(a, b) case 2 => b / 2 case _ => s
    ensures CarryOut(a, b, flagC, control) ==
            match op case 0 => flagC case 1 => flagC case 2 => b % 2 == 1 case _ => top
  {
    hide And, BitOr, Output, CarryOut;
    if op == 0 {
      OrOperation(a, b, flagC, control);
    } else if op == 1 {
      AndOperation(a, b, flagC, control);
    } else if op == 2 {
      ShiftOperation(a, b, flagC, control);
    } else {
      SumOperation(a, b, s, top, shiftIn, flagC, control);
    }
  }

  /** The same for the operation alone, on the operands as they enter it. */
  lemma OutputWord(e: seq<bool>, flags: Flags, control: Control)
    requires |e| == TOTAL && Settled(e) && Steers(e, flags, control)
    ensures var out := Output(Word(e, ACCZ), Word(e, DATN), control) % 256;
            && Word(e, OUT) == out + (if ShiftsIn(e) then 128 else 0)
            && (ShiftsIn(e) ==> out < 128)
    ensures e[C] == CarryOut(Word(e, ACCZ), Word(e, DATN), flags.c, control)
  {
    hide Settled, Uns, Word, And, BitOr, Output, CarryOut;
    SumWord(e);
    OutWord(e);
    CarryBit(e);
    WordBound(e, ACCZ);
    WordBound(e, DATN);
    WordBound(e, SUM);
    LowBit(e, DATN);
    FourOperations(Op(e), Word(e, ACCZ), Word(e, DATN), Word(e, SUM), e[COUT], e[EC], flags.c, control);
  }

  lemma LowBit(e: seq<bool>, lo: nat)
    requires lo + 8 <= |e|
    ensures Word(e, lo) % 2 == 1 <==> e[lo]
  {
    assert e[lo..lo + 8][0] == e[lo];
  }

  lemma ZeroWord(e: seq<bool>)
    requires |e| == TOTAL && Settled(e)
    ensures e[Z] <==> Word(e, OUT) == 0
  {
    hide Settled, Uns;
    ZeroBit(e);
    UnsZero(e[OUT..OUT + 8]);
    if Word(e, OUT) == 0 {
      forall n | OUT <= n < OUT + 8
        ensures !e[n]
      {
        assert !e[OUT..OUT + 8][n - OUT];
      }
    }
  }
}
