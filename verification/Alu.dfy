/** The emulator's arithmetic unit, and the control bits that steer it. Bytes are numbers below 256. */
module Alu {
  import opened Bits
  import opened ControlBits

  /** The flag register, bit by bit; `high` is its upper half, which only a load from the bus can set. */
  datatype Flags = Flags(z: bool, n: bool, c: bool, i: bool, high: nat)

  function FlagByte(f: Flags): nat {
    BitVal(f.z) + 2 * BitVal(f.n) + 4 * BitVal(f.c) + 8 * BitVal(f.i) + 16 * f.high
  }

  function ByteFlags(b: nat): Flags {
    var b1 := b / 2;
    var b2 := b1 / 2;
    var b3 := b2 / 2;
    Flags(b % 2 == 1, b1 % 2 == 1, b2 % 2 == 1, b3 % 2 == 1, b3 / 2)
  }

  lemma FlagRoundTrip(f: Flags, b: nat)
    ensures ByteFlags(FlagByte(f)) == f && FlagByte(ByteFlags(b)) == b
  {
  }

  function AndBits(a: seq<bool>, b: seq<bool>): (r: seq<bool>)
    requires |a| == |b|
    ensures |r| == |a|
  {
    seq(|a|, i requires 0 <= i < |a| => a[i] && b[i])
  }

  function OrBits(a: seq<bool>, b: seq<bool>): (r: seq<bool>)
    requires |a| == |b|
    ensures |r| == |a|
  {
    seq(|a|, i requires 0 <= i < |a| => a[i] || b[i])
  }

  function NotBits(a: seq<bool>): (r: seq<bool>)
    ensures |r| == |a| && forall i :: 0 <= i < |a| ==> r[i] == !a[i]
  {
    seq(|a|, i requires 0 <= i < |a| => !a[i])
  }

  function And(a: nat, b: nat): nat {
    Uns(AndBits(ToBits(a, 8), ToBits(b, 8)))
  }

  datatype AluResult = AluResult(out: nat, flags: Flags)

  /** The operands as they enter the operation. */
  function OperandA(inA: nat, control: Control): nat {
    if control & CTRL_EZ == 0 then 0 else inA
  }

  function OperandB(inB: nat, control: Control): nat
    requires inB < 256
  {
    if control & CTRL_EN != 0 then 255 - inB else inB
  }

  function CarryIn(control: Control): nat {
    if control & CTRL_EC != 0 then 1 else 0
  }

  /** The 16-bit output of the selected operation. */
  function Output(a: nat, b: nat, control: Control): nat {
    var op := control & CTRL_EO;
    if op == CTRL_ES then a + b + CarryIn(control)
    else if op == CTRL_ER then b / 2
    else if op == CTRL_EA then And(a, b)
    else BitOr(a, b)
  }

  function CarryOut(a: nat, b: nat, c: bool, control: Control): bool {
    var op := control & CTRL_EO;
    if op == CTRL_ES then a + b + CarryIn(control) >= 256
    else if op == CTRL_ER then b % 2 == 1
    else c
  }

  predicate LoadsFlags(control: Control) {
    control & CTRL_FI == 0 && control & CTRL_FD == 0
  }

  /** `calcALU`: the result and the flags as they are afterwards. */
  function CalcAlu(inA: nat, inB: nat, flags: Flags, control: Control): AluResult
    requires inB < 256
  {
    var a, b := OperandA(inA, control), OperandB(inB, control);
    var out := Output(a, b, control) % 256;
    AluResult(out, if LoadsFlags(control)
                   then flags.(c := CarryOut(a, b, flags.c, control), n := out >= 128, z := out == 0)
                   else flags)
  }

  lemma {:induction false} UnsNot(bits: seq<bool>)
    ensures Uns(NotBits(bits)) == Pow2(|bits|) - 1 - Uns(bits)
  {
    if bits != [] {
      UnsNot(bits[1..]);
      assert NotBits(bits)[1..] == NotBits(bits[1..]);
    }
  }

  /** The bitwise operations really are bitwise, and stay within a byte. */
  lemma AndOrByte(a: nat, b: nat)
    requires a < 256 && b < 256
    ensures And(a, b) < 256 && ToBits(And(a, b), 8) == AndBits(ToBits(a, 8), ToBits(b, 8))
    ensures BitOr(a, b) < 256 && ToBits(BitOr(a, b), 8) == OrBits(ToBits(a, 8), ToBits(b, 8))
  {
    PowByte();
    UnsBound(AndBits(ToBits(a, 8), ToBits(b, 8)));
    ToBitsUns(AndBits(ToBits(a, 8), ToBits(b, 8)));
    OrBound(a, b, 8);
    OrDigits(a, b, 8);
  }

  lemma OrZero(a: nat)
    ensures BitOr(0, a) == a && BitOr(a, a) == a && BitOr(a, 0) == a
  {
    OrNothing(a);
    OrSame(a);
  }

  /** Or-ing `a` into `b` leaves `b` as it is exactly when `a` has no bit that `b` has not. */
  lemma OrAbsorbed(a: nat, b: nat)
    requires a < 256 && b < 256
    ensures BitOr(a, b) == b <==> forall i :: 0 <= i < 8 && ToBits(a, 8)[i] ==> ToBits(b, 8)[i]
  {
    PowByte();
    UnsToBits(b, 8);
    AndOrByte(a, b);
    UnsToBits(BitOr(a, b), 8);
    var x, y := ToBits(a, 8), ToBits(b, 8);
    if forall i :: 0 <= i < 8 && x[i] ==> y[i] {
      assert OrBits(x, y) == y;
    }
    if BitOr(a, b) == b {
      forall i | 0 <= i < 8 && x[i]
        ensures y[i]
      {
        assert OrBits(x, y)[i];
      }
    }
  }
}
