/** A chain of `n` 74AC161 counters, each counting when the ripple output of the one below is high. */
module CounterChain {
  import opened Wrappers
  import opened Chips
  import opened Simulation

  const GND: nat := 0
  const VCC: nat := 1
  const CLK: nat := 2

  /** Bit `b` of digit `i`, and the ripple output of chip `i`. */
  function Q(i: nat, b: nat): nat { 3 + 4 * i + b }

  function R(n: nat, i: nat): nat { 3 + 4 * n + i }

  function LocalBase(n: nat, i: nat): nat { 3 + 5 * n + 7 * i }

  function RippleIn(n: nat, i: nat): nat {
    if i == 0 then VCC else R(n, i - 1)
  }

  function CounterChip(n: nat, i: nat): Chip {
    Chip(AC161, [GND, GND, GND, GND, VCC, VCC, RippleIn(n, i), VCC, CLK],
         [Some(Q(i, 0)), Some(Q(i, 1)), Some(Q(i, 2)), Some(Q(i, 3)), Some(R(n, i))],
         LocalBase(n, i))
  }

  lemma CounterFits(n: nat, i: nat)
    requires i < n
    ensures ChipFits(Circuit([], 3 + 5 * n, 3 + 12 * n), CounterChip(n, i))
  {
  }

  function Counter(n: nat): (c: Circuit)
    ensures WellFormed(c) && c.netLen == 3 + 5 * n && c.total == 3 + 12 * n && |c.chips| == n
    ensures forall i :: 0 <= i < n ==> c.chips[i] == CounterChip(n, i)
  {
    var c := Circuit(seq(n, i requires 0 <= i < n => CounterChip(n, i)), 3 + 5 * n, 3 + 12 * n);
    assert WellFormed(c) by {
      forall i | 0 <= i < n
        ensures ChipFits(c, c.chips[i])
      {
        CounterFits(n, i);
      }
    }
    c
  }

  function Target(n: nat, i: nat, k: nat): nat {
    if k < 7 then LocalBase(n, i) + k else if k < 11 then Q(i, k - 7) else R(n, i)
  }

  lemma CounterTargets(n: nat, i: nat, k: nat)
    requires i < n && k < 13
    ensures SlotTarget(CounterChip(n, i), k) == Some(Target(n, i, k))
  {
  }

  lemma TargetsDiffer(n: nat, i: nat, k: nat, i': nat, k': nat)
    requires i < n && i' < n && k < 13 && k' < 13 && Target(n, i, k) == Target(n, i', k')
    ensures i == i' && (k == k' || (k >= 11 && k' >= 11))
  {
  }

  lemma OneSlot(n: nat, i: nat, k: nat)
    requires i < n && k < 11
    ensures SoleDriver(Counter(n), Target(n, i, k), i, k)
  {
    hide Target, CounterChip, SlotTarget;
    var c := Counter(n);
    CounterTargets(n, i, k);
    CounterKind(n, i);
    assert Drives(c, i, k, Target(n, i, k));
    forall i': int, k': int | Drives(c, i', k', Target(n, i, k))
      ensures i' == i && k' == k
    {
      CounterKind(n, i');
      CounterTargets(n, i', k');
      TargetsDiffer(n, i, k, i', k');
    }
  }

  lemma CounterKind(n: nat, i: nat)
    ensures CounterChip(n, i).kind == AC161 && SlotCount(CounterChip(n, i).kind) == 13
    ensures |CounterChip(n, i).out| == OutCount(CounterChip(n, i).kind)
  {
  }

  // ---- Digits ----

  predicate Digits(ds: seq<nat>) {
    forall i :: 0 <= i < |ds| ==> ds[i] < 16
  }

  function Bit(d: nat, b: nat): bool {
    if b == 0 then d % 2 == 1 else if b == 1 then d / 2 % 2 == 1 else if b == 2 then d / 4 % 2 == 1 else d / 8 % 2 == 1
  }

  /** The digits below digit `i` are all 15, so a clock edge counts digit `i`. */
  predicate Carry(ds: seq<nat>, i: nat)
    requires i <= |ds|
  {
    forall j :: 0 <= j < i ==> ds[j] == 15
  }

  function Increment(ds: seq<nat>): (r: seq<nat>)
    ensures |r| == |ds|
  {
    seq(|ds|, i requires 0 <= i < |ds| => if Carry(ds, i) then (ds[i] + 1) % 16 else ds[i])
  }

  function Pow16(n: nat): (r: nat)
    ensures r >= 1
  {
    if n == 0 then 1 else 16 * Pow16(n - 1)
  }

  function Value(ds: seq<nat>): nat {
    if ds == [] then 0 else ds[0] + 16 * Value(ds[1..])
  }

  lemma {:induction false} ValueBound(ds: seq<nat>)
    requires Digits(ds)
    ensures Value(ds) < Pow16(|ds|)
  {
    if ds != [] {
      ValueBound(ds[1..]);
    }
  }

  lemma {:induction false} IncrementTail(ds: seq<nat>)
    requires ds != []
    ensures Increment(ds) == [(ds[0] + 1) % 16] + if ds[0] == 15 then Increment(ds[1..]) else ds[1..]
  {
    var r := [(ds[0] + 1) % 16] + if ds[0] == 15 then Increment(ds[1..]) else ds[1..];
    forall i | 0 <= i < |ds|
      ensures Increment(ds)[i] == r[i]
    {
      if i > 0 {
        if ds[0] == 15 {
          assert Carry(ds, i) <==> Carry(ds[1..], i - 1) by {
            if Carry(ds[1..], i - 1) {
              forall j | 0 <= j < i
                ensures ds[j] == 15
              {
                assert j > 0 ==> ds[j] == ds[1..][j - 1];
              }
            }
          }
        } else {
          assert !Carry(ds, i);
        }
      }
    }
  }

  /** The digits count: one edge adds one, modulo `16^n`. */
  lemma {:induction false} IncrementValue(ds: seq<nat>)
    requires Digits(ds)
    ensures Digits(Increment(ds))
    ensures Value(Increment(ds)) == if Value(ds) + 1 == Pow16(|ds|) then 0 else Value(ds) + 1
  {
    hide Increment;
    if ds == [] {
      assert Increment(ds) == [];
    } else {
      var tail := ds[1..];
      IncrementTail(ds);
      IncrementValue(tail);
      ValueBound(tail);
      assert Increment(ds)[1..] == if ds[0] == 15 then Increment(tail) else tail;
    }
  }

  /** Counting toggles bit `b` iff the bits below it are all set. */
  lemma CountBit(d: nat, b: nat)
    requires d < 16 && b < 4
    ensures Bit((d + 1) % 16, b) == if (forall j :: 0 <= j < b ==> Bit(d, j)) then !Bit(d, b) else Bit(d, b)
  {
    if b == 0 {
    } else if b == 1 {
      assert (forall j :: 0 <= j < b ==> Bit(d, j)) <==> Bit(d, 0);
    } else if b == 2 {
      assert (forall j :: 0 <= j < b ==> Bit(d, j)) <==> Bit(d, 0) && Bit(d, 1);
    } else {
      assert (forall j :: 0 <= j < b ==> Bit(d, j)) <==> Bit(d, 0) && Bit(d, 1) && Bit(d, 2);
    }
  }

  lemma FullBits(d: nat)
    requires d < 16
    ensures (Bit(d, 1) && Bit(d, 2) && Bit(d, 3)) == (d >= 14) && Bit(d, 0) == (d % 2 == 1)
  {
  }
}
