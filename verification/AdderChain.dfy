/** A chain of `n` 74HC283 chips, each taking its carry from the one below, adds numbers of 4n bits. */
module AdderChain {
  import opened Wrappers
  import opened Bits
  import opened Chips
  import opened Simulation
  import opened Transport
  import opened Settling

  // nets: A is 0 .. 4n, B is 4n .. 8n, SUM is 8n .. 12n, carry j is 12n + j

  function Nibble(base: nat): seq<nat> {
    [base, base + 1, base + 2, base + 3]
  }

  function AdderChip(n: nat, j: nat): Chip {
    Chip(HC283,
         Nibble(4 * j) + Nibble(4 * n + 4 * j) + [12 * n + j],
         [Some(8 * n + 4 * j), Some(8 * n + 4 * j + 1), Some(8 * n + 4 * j + 2), Some(8 * n + 4 * j + 3),
          Some(12 * n + j + 1)],
         0)
  }

  function Chain(n: nat): (c: Circuit)
    ensures WellFormed(c) && c.total == c.netLen == 13 * n + 1 && |c.chips| == n
    ensures forall j :: 0 <= j < n ==> c.chips[j] == AdderChip(n, j)
  {
    var c := Circuit(seq(n, j requires 0 <= j < n => AdderChip(n, j)), 13 * n + 1, 13 * n + 1);
    assert forall j :: 0 <= j < n ==> ChipFits(c, AdderChip(n, j));
    c
  }

  /** When each net has settled: carries ripple at 23 ns a chip, sums take up to 27 ns more. */
  function SettleTime(n: nat, m: nat): nat {
    if m < 8 * n then 0
    else if m < 12 * n then 23 * ((m - 8 * n) / 4) + 27
    else if m > 12 * n then 23 * (m - 12 * n)
    else 0
  }

  function Times(n: nat): (time: seq<nat>)
    ensures |time| == 13 * n + 1 && forall m :: 0 <= m < |time| ==> time[m] == SettleTime(n, m)
  {
    seq(13 * n + 1, m requires 0 <= m < 13 * n + 1 => SettleTime(n, m))
  }

  ghost function Cone(n: nat): set<nat> {
    UpTo(13 * n + 1)
  }

  ghost function Inputs(n: nat): set<nat> {
    UpTo(8 * n) + {12 * n}
  }

  lemma SlotTargets(n: nat, j: nat, k: nat)
    requires j < n && k < 5
    ensures SlotTarget(AdderChip(n, j), k) == Some(if k < 4 then 8 * n + 4 * j + k else 12 * n + j + 1)
  {
  }

  lemma SumIsComputed(n: nat, j: nat, k: nat, m: nat)
    requires j < n && k < 5 && m == if k < 4 then 8 * n + 4 * j + k else 12 * n + j + 1
    ensures Computed(Chain(n), Times(n), Cone(n), m, j, k)
  {
    var c, time := Chain(n), Times(n);
    SlotTargets(n, j, k);
    assert Drives(c, j, k, m);
    forall j': int, k': int | Drives(c, j', k', m)
      ensures j' == j && k' == k
    {
      SlotTargets(n, j', k');
    }
    assert Follows(c, m, j, k);
    forall p | 0 <= p < 9
      ensures AdderChip(n, j).inp[p] in Cone(n)
      ensures time[AdderChip(n, j).inp[p]] + MaxDelay(HC283, k) <= time[m]
    {
    }
  }

  lemma ChainAcyclic(n: nat)
    ensures Acyclic(Chain(n), Times(n), Cone(n), Inputs(n))
  {
    forall m: nat | m in Cone(n) && m !in Inputs(n)
      ensures exists i: nat, k: nat :: Computed(Chain(n), Times(n), Cone(n), m, i, k)
    {
      if m < 12 * n {
        SumIsComputed(n, (m - 8 * n) / 4, (m - 8 * n) % 4, m);
      } else {
        SumIsComputed(n, m - 12 * n - 1, 4, m);
      }
    }
  }

  lemma NoSum(n: nat, e: seq<bool>)
    requires |e| == 13 * n + 1
    ensures Uns(e[8 * n..8 * n]) + Pow2(0) * BitVal(e[12 * n])
         == Uns(e[..0]) + Uns(e[4 * n..4 * n]) + BitVal(e[12 * n])
  {
  }

  /** The low `j` chips of a consistent valuation add the low `4j` bits. */
  lemma {:induction false} LowSum(n: nat, e: seq<bool>, j: nat)
    requires j <= n && |e| == 13 * n + 1
    requires Consistent(Chain(n), Times(n), Cone(n), Inputs(n), e)
    ensures Uns(e[8 * n..8 * n + 4 * j]) + Pow2(4 * j) * BitVal(e[12 * n + j])
         == Uns(e[..4 * j]) + Uns(e[4 * n..4 * n + 4 * j]) + BitVal(e[12 * n])
  {
    hide Consistent, Chain, Uns, Pow2, Times;
    if j == 0 {
      NoSum(n, e);
    } else {
      LowSum(n, e, j - 1);
      var i := j - 1;
      NibbleSum(n, e, i);
      TakeNibble(e, 0, i);
      TakeNibble(e, 4 * n, i);
      TakeNibble(e, 8 * n, i);
      PowNibble(i);
      var p := Pow2(4 * i);
      Distribute(p, Uns(e[8 * n + 4 * i..8 * n + 4 * j]), BitVal(e[12 * n + j]),
                 Uns(e[4 * i..4 * j]), Uns(e[4 * n + 4 * i..4 * n + 4 * j]), BitVal(e[12 * n + i]));
    }
  }

  lemma Distribute(p: int, s: int, c': int, a: int, b: int, c: int)
    requires s + 16 * c' == a + b + c
    ensures p * s + (16 * p) * c' == p * a + p * b + p * c
  {
    assert p * (s + 16 * c') == p * (a + b + c);
    assert p * (16 * c') == (16 * p) * c';
  }

  lemma PowNibble(i: nat)
    ensures Pow2(4 * (i + 1)) == 16 * Pow2(4 * i)
  {
    var m := 4 * i;
    assert Pow2(m + 2) == 4 * Pow2(m);
    assert Pow2(m + 4) == 4 * Pow2(m + 2);
  }

  lemma TakeNibble(e: seq<bool>, base: nat, i: nat)
    requires base + 4 * (i + 1) <= |e|
    ensures Uns(e[base..base + 4 * (i + 1)])
         == Uns(e[base..base + 4 * i]) + Pow2(4 * i) * Uns(e[base + 4 * i..base + 4 * (i + 1)])
  {
    var lo, hi := e[base..base + 4 * i], e[base + 4 * i..base + 4 * (i + 1)];
    assert e[base..base + 4 * (i + 1)] == lo + hi;
    UnsConcat(lo, hi);
  }

  /** What a chip of a consistent valuation outputs. */
  lemma ChipBits(n: nat, e: seq<bool>, i: nat, k: nat)
    requires i < n && k < 5 && |e| == 13 * n + 1
    requires Consistent(Chain(n), Times(n), Cone(n), Inputs(n), e)
    ensures ToBits(AdderSum(AdderChip(n, i), Frozen(e)), 5)[k] == e[if k < 4 then 8 * n + 4 * i + k else 12 * n + i + 1]
  {
    hide ToBits, AdderSum, Computed;
    SumIsComputed(n, i, k, if k < 4 then 8 * n + 4 * i + k else 12 * n + i + 1);
  }

  lemma ChipSum(n: nat, e: seq<bool>, i: nat)
    requires i < n && |e| == 13 * n + 1
    ensures AdderSum(AdderChip(n, i), Frozen(e))
         == Uns(e[4 * i..4 * (i + 1)]) + Uns(e[4 * n + 4 * i..4 * n + 4 * (i + 1)]) + BitVal(e[12 * n + i])
    ensures AdderSum(AdderChip(n, i), Frozen(e)) < 32
  {
    hide Uns;
    var b := 4 * n + 4 * i;
    assert e[4 * i..4 * (i + 1)] == [e[4 * i], e[4 * i + 1], e[4 * i + 2], e[4 * i + 3]];
    assert e[b..4 * n + 4 * (i + 1)] == [e[b], e[b + 1], e[b + 2], e[b + 3]];
    UnsBound(e[4 * i..4 * (i + 1)]);
    UnsBound(e[b..4 * n + 4 * (i + 1)]);
    PowByte();
  }

  lemma NibbleSum(n: nat, e: seq<bool>, i: nat)
    requires i < n && |e| == 13 * n + 1
    requires Consistent(Chain(n), Times(n), Cone(n), Inputs(n), e)
    ensures Uns(e[8 * n + 4 * i..8 * n + 4 * (i + 1)]) + 16 * BitVal(e[12 * n + i + 1])
         == Uns(e[4 * i..4 * (i + 1)]) + Uns(e[4 * n + 4 * i..4 * n + 4 * (i + 1)]) + BitVal(e[12 * n + i])
  {
    hide Uns, Consistent, AdderSum, ToBits, Chain;
    var sum := AdderSum(AdderChip(n, i), Frozen(e));
    ChipSum(n, e, i);
    var s := 8 * n + 4 * i;
    forall k: nat | k < 5
      ensures ToBits(sum, 5)[k] == if k < 4 then e[s..s + 4][k] else e[12 * n + i + 1]
    {
      ChipBits(n, e, i, k);
    }
    FiveBits(sum, e[s..s + 4], e[12 * n + i + 1]);
  }

  lemma ChainEnabled(n: nat, tr: seq<State>)
    requires Trace(Chain(n), tr)
    ensures ConeEnabled(Chain(n), tr, Times(n), Cone(n), Inputs(n))
  {
  }

  lemma LastTime(n: nat, m: nat)
    requires n > 0 && m < 13 * n + 1
    ensures SettleTime(n, m) <= 23 * n + 4
  {
  }

  /** SUM and the last carry are the binary sum of A, B and the first carry. */
  predicate Adds(n: nat, v: seq<bool>) {
    && |v| == 13 * n + 1
    && Uns(v[8 * n..12 * n]) + Pow2(4 * n) * BitVal(v[13 * n])
    == Uns(v[..4 * n]) + Uns(v[4 * n..8 * n]) + BitVal(v[12 * n])
  }

  /** In every run, once the operands and the carry-in have not changed since time `from`, the sum and
      the carry-out are those of the binary addition, `23n + 4` ns later and for good. */
  lemma AdderSettles(n: nat, tr: seq<State>, from: nat, u: nat)
    requires n > 0 && Trace(Chain(n), tr) && from + 23 * n + 4 <= u < |tr| && Initial(Chain(n), tr[0])
    requires forall m, j :: m in Inputs(n) && from <= j < |tr| ==> tr[j].nets[m].val == tr[from].nets[m].val
    ensures Adds(n, Levels(tr[u]))
  {
    hide SlotEval, Next, Trace, Consistent, Acyclic, Chain, NetValue, Valuation, CaughtUp, Enabled, Uns, Pow2,
         ConeEnabled, SettleTime;
    var c, time, cone, inputs := Chain(n), Times(n), Cone(n), Inputs(n);
    var given := Levels(tr[from]);
    ChainAcyclic(n);
    ValuationConsistent(c, time, cone, inputs, given);
    var e := Valuation(c, time, cone, inputs, given);
    var v := Levels(tr[u]);
    ChainEnabled(n, tr);
    assert InputsHeld(c, tr, from, cone, inputs, e);
    forall m | 0 <= m < 13 * n + 1
      ensures v[m] == e[m]
    {
      LastTime(n, m);
      SettleAfter(c, tr, from, time, cone, inputs, e, m, u);
    }
    assert v == e;
    LowSum(n, e, n);
    assert 8 * n + 4 * n == 12 * n && 4 * n + 4 * n == 8 * n && 12 * n + n == 13 * n;
  }
}
