/** Unsigned numbers and their bits, least significant bit first. */
module Bits {

  type Byte = x: nat | x < 256

  function BitVal(b: bool): (r: nat)
    ensures r < 2
  {
    if b then 1 else 0
  }

  function Pow2(n: nat): (r: nat)
    ensures r >= 1
  {
    if n == 0 then 1 else 2 * Pow2(n - 1)
  }

  /** The number whose binary digits are `bits`. */
  function Uns(bits: seq<bool>): nat {
    if bits == [] then 0 else BitVal(bits[0]) + 2 * Uns(bits[1..])
  }

  /** The `w` lowest binary digits of `x`. */
  function ToBits(x: nat, w: nat): (bits: seq<bool>)
    ensures |bits| == w
  {
    if w == 0 then [] else [x % 2 == 1] + ToBits(x / 2, w - 1)
  }

  lemma {:induction false} UnsBound(bits: seq<bool>)
    ensures Uns(bits) < Pow2(|bits|)
  {
    if bits != [] {
      UnsBound(bits[1..]);
    }
  }

  lemma {:induction false} UnsToBits(x: nat, w: nat)
    requires x < Pow2(w)
    ensures Uns(ToBits(x, w)) == x
  {
    if w > 0 {
      UnsToBits(x / 2, w - 1);
      assert ToBits(x, w)[1..] == ToBits(x / 2, w - 1);
    }
  }

  lemma {:induction false} ToBitsUns(bits: seq<bool>)
    ensures ToBits(Uns(bits), |bits|) == bits
  {
    if bits != [] {
      ToBitsUns(bits[1..]);
      assert Uns(bits) / 2 == Uns(bits[1..]);
    }
  }

  lemma MulDouble(p: int, u: int)
    ensures (2 * p) * u == 2 * (p * u)
  {
  }

  /** Splitting a number into a low and a high part. */
  lemma {:induction false} UnsConcat(a: seq<bool>, b: seq<bool>)
    ensures Uns(a + b) == Uns(a) + Pow2(|a|) * Uns(b)
  {
    if a == [] {
      assert a + b == b;
    } else {
      UnsConcat(a[1..], b);
      assert (a + b)[1..] == a[1..] + b;
      MulDouble(Pow2(|a| - 1), Uns(b));
    }
  }

  lemma {:induction false} UnsZero(bits: seq<bool>)
    ensures Uns(bits) == 0 <==> forall i :: 0 <= i < |bits| ==> !bits[i]
  {
    if bits != [] {
      UnsZero(bits[1..]);
      assert bits == [bits[0]] + bits[1..];
    }
  }

  lemma PowByte()
    ensures Pow2(4) == 16 && Pow2(8) == 256
  {
    assert Pow2(2) == 4;
    assert Pow2(4) == 16;
    assert Pow2(6) == 64;
  }

  /** Four bits and a carry that are the five binary digits of `sum`. */
  lemma FiveBits(sum: nat, lo: seq<bool>, top: bool)
    requires sum < 32 && |lo| == 4
    requires forall k :: 0 <= k < 5 ==> ToBits(sum, 5)[k] == if k < 4 then lo[k] else top
    ensures Uns(lo) + 16 * BitVal(top) == sum
  {
    hide Uns;
    assert ToBits(sum, 5) == lo + [top];
    PowByte();
    assert Pow2(5) == 2 * Pow2(4);
    UnsToBits(sum, 5);
    UnsConcat(lo, [top]);
    UnsOne(top);
  }

  lemma UnsOne(b: bool)
    ensures Uns([b]) == BitVal(b)
  {
  }

  // ---- Bitwise or ----

  /** Bitwise or of two numbers. */
  function BitOr(x: nat, y: nat): nat
    decreases x + y
  {
    if x == 0 && y == 0 then 0 else BitVal(x % 2 == 1 || y % 2 == 1) + 2 * BitOr(x / 2, y / 2)
  }

  lemma {:induction false} OrNothing(x: nat)
    ensures BitOr(x, 0) == x && BitOr(0, x) == x
  {
    if x > 0 {
      OrNothing(x / 2);
    }
  }

  lemma {:induction false} OrCommutes(x: nat, y: nat)
    ensures BitOr(x, y) == BitOr(y, x)
    decreases x + y
  {
    if x != 0 || y != 0 {
      OrCommutes(x / 2, y / 2);
    }
  }

  lemma Halves(y: nat, n: nat)
    requires n > 0
    ensures y * Pow2(n) == 2 * (y * Pow2(n - 1))
  {
  }

  /** Below a shifted number there is room for `n` bits. */
  lemma {:induction false} OrAbove(x: nat, y: nat, n: nat)
    requires x < Pow2(n)
    ensures BitOr(x, y * Pow2(n)) == x + y * Pow2(n)
    decreases n
  {
    if n == 0 {
      OrNothing(y);
    } else {
      Halves(y, n);
      OrAbove(x / 2, y, n - 1);
      if x == 0 {
        OrNothing(y * Pow2(n));
      }
    }
  }

  /** Low bits stay apart from what is or-ed in above them. */
  lemma {:induction false} OrLow(x: nat, y: nat, z: nat, n: nat)
    requires x < Pow2(n)
    ensures BitOr(x + y * Pow2(n), z * Pow2(n)) == x + BitOr(y, z) * Pow2(n)
    decreases n
  {
    if n > 0 {
      Halves(y, n);
      Halves(z, n);
      Halves(BitOr(y, z), n);
      OrLow(x / 2, y, z, n - 1);
    }
  }

  lemma {:induction false} OrBound(x: nat, y: nat, n: nat)
    requires x < Pow2(n) && y < Pow2(n)
    ensures BitOr(x, y) < Pow2(n)
  {
    if n > 0 {
      OrBound(x / 2, y / 2, n - 1);
    }
  }

  lemma {:induction false} OrSame(x: nat)
    ensures BitOr(x, x) == x
  {
    if x > 0 {
      OrSame(x / 2);
    }
  }

  /** It is the or of the digits. */
  lemma {:induction false} OrDigits(x: nat, y: nat, w: nat)
    ensures forall i :: 0 <= i < w ==> ToBits(BitOr(x, y), w)[i] == (ToBits(x, w)[i] || ToBits(y, w)[i])
    decreases w
  {
    if w > 0 {
      OrDigits(x / 2, y / 2, w - 1);
      if x != 0 || y != 0 {
        OrHalf(x, y);
      }
    }
  }

  lemma OrHalf(x: nat, y: nat)
    ensures BitOr(x, y) / 2 == BitOr(x / 2, y / 2) && (BitOr(x, y) % 2 == 1 <==> x % 2 == 1 || y % 2 == 1)
  {
  }

  // ---- Remainders ----

  lemma SmallMod(x: nat, p: nat)
    requires x < p
    ensures x % p == x
  {
  }

  lemma NextMod(x: nat, p: nat)
    requires p >= 1
    ensures (x + 1) % p == if x % p + 1 == p then 0 else x % p + 1
  {
    var q, r := x / p, x % p;
    assert x == q * p + r;
    if r + 1 == p {
      assert x + 1 == (q + 1) * p + 0;
      DivMod(x + 1, p, q + 1, 0);
    } else {
      DivMod(x + 1, p, q, r + 1);
    }
  }

  lemma DivMod(x: nat, p: nat, q: nat, r: nat)
    requires r < p && x == q * p + r
    ensures x % p == r
  {
    var d: int := x / p - q;
    assert x == (x / p) * p + x % p;
    assert d * p == (x / p) * p - q * p;
    assert d * p == r - x % p;
    MulSign(d, p);
    assert d == 0;
  }

  lemma MulSign(d: int, p: int)
    requires p >= 1
    ensures (d > 0 ==> d * p >= p) && (d < 0 ==> d * p <= -p)
  {
  }
}
