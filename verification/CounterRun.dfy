/** The counter chain over runs of any number of clock edges. */
module CounterRun {
  import opened Bits
  import opened Wrappers
  import opened Schedule
  import opened Chips
  import opened Simulation
  import opened Clocked
  import opened CounterChain

  /** Net `m` has the value `x` and will keep it unless something is posted. */
  ghost predicate Flat(s: State, m: nat, x: bool) {
    m < |s.nets| && s.nets[m].val == x && forall t: nat :: Future(s.sched, m, x, t) == x
  }

  /** The supply nets are not tampered with. */
  predicate Rails(s: State) {
    |s.nets| > 2 && s.nets[VCC] == Net(true, false) && s.nets[GND] == Net(false, false)
  }

  predicate Rising(s: State) {
    |s.nets| > 2 && s.nets[CLK].changed && s.nets[CLK].val
  }

  function LocalLevel(ds: seq<nat>, i: nat, k: nat): bool
    requires i < |ds|
  {
    if k < 4 then false else if k < 6 then true else Carry(ds, i)
  }

  /** Everything has settled with the counter showing `ds`. */
  ghost predicate Ready(n: nat, s: State, ds: seq<nat>) {
    && |ds| == n && Digits(ds) && Ok(Counter(n), s)
    && (forall i, b :: 0 <= i < n && 0 <= b < 4 ==> Flat(s, Q(i, b), Bit(ds[i], b)))
    && (forall i :: 0 <= i < n ==> Flat(s, R(n, i), Carry(ds, i + 1)) && !s.nets[R(n, i)].changed)
    && (forall i, k :: 0 <= i < n && 0 <= k < 7 ==> Flat(s, LocalBase(n, i) + k, LocalLevel(ds, i, k)))
  }

  lemma ReadyDigit(n: nat, s: State, ds: seq<nat>, i: nat)
    requires Ready(n, s, ds) && Rails(s) && i < n
    ensures |s.nets| == 3 + 12 * n && Wired(CounterChip(n, i), |s.nets|)
    ensures forall b :: 0 <= b < 4 ==> Out(CounterChip(n, i), s.nets, b) == Bit(ds[i], b)
    ensures In(CounterChip(n, i), s.nets, 6) == Carry(ds, i) && !InChanged(CounterChip(n, i), s.nets, 6)
    ensures Local(CounterChip(n, i), s.nets, 4) && Local(CounterChip(n, i), s.nets, 5)
    ensures Local(CounterChip(n, i), s.nets, 6) == Carry(ds, i)
  {
    CounterFits(n, i);
    assert Flat(s, Q(i, 0), Bit(ds[i], 0)) && Flat(s, Q(i, 1), Bit(ds[i], 1));
    assert Flat(s, Q(i, 2), Bit(ds[i], 2)) && Flat(s, Q(i, 3), Bit(ds[i], 3));
    assert Flat(s, LocalBase(n, i) + 4, true) by { assert Flat(s, LocalBase(n, i) + 4, LocalLevel(ds, i, 4)); }
    assert Flat(s, LocalBase(n, i) + 5, true) by { assert Flat(s, LocalBase(n, i) + 5, LocalLevel(ds, i, 5)); }
    assert Flat(s, LocalBase(n, i) + 6, Carry(ds, i)) by { assert Flat(s, LocalBase(n, i) + 6, LocalLevel(ds, i, 6)); }
  }

  predicate LowBits(d: nat, b: nat) {
    forall j :: 0 <= j < b ==> Bit(d, j)
  }

  /** What a clock edge makes chip `i` post, when everything was settled. */
  lemma EdgeSlots(n: nat, s: State, ds: seq<nat>, i: nat, k: nat)
    requires Ready(n, s, ds) && Rails(s) && Rising(s) && i < n && k < 13
    requires Wired(CounterChip(n, i), |s.nets|)
    ensures SlotDrive(CounterChip(n, i), s.nets, k) ==
              if 7 <= k < 11 && Carry(ds, i) && LowBits(ds[i], k - 7) then Drive(!Bit(ds[i], k - 7), 5)
              else if k == 11 && Carry(ds, i) && ds[i] >= 14 then Drive(ds[i] == 14, 7)
              else Keep
  {
    hide Ready, Bit, Carry;
    ReadyDigit(n, s, ds, i);
    ReadyRange(n, s, ds, i);
    FullBits(ds[i]);
    var chip, nets := CounterChip(n, i), s.nets;
    assert Counting(chip, nets) == Carry(ds, i);
    if 7 <= k < 11 {
      assert CarryInto(chip, nets, k - 7) == LowBits(ds[i], k - 7);
    }
  }

  lemma ReadyRange(n: nat, s: State, ds: seq<nat>, i: nat)
    requires Ready(n, s, ds) && i < n
    ensures |ds| == n && ds[i] < 16
  {
  }

  /** Without a rising edge only a change of the ripple input makes chip `i` post anything. */
  lemma QuietSlots(n: nat, s: State, i: nat, k: nat)
    requires Rails(s) && !Rising(s) && i < n && k < 13 && |s.nets| == 3 + 12 * n
    requires Wired(CounterChip(n, i), |s.nets|)
    ensures SlotDrive(CounterChip(n, i), s.nets, k) ==
              if k == 6 && s.nets[RippleIn(n, i)].changed then Drive(s.nets[RippleIn(n, i)].val, 2)
              else if k == 12 && s.nets[RippleIn(n, i)].changed
                then Drive(s.nets[RippleIn(n, i)].val && CounterFull(CounterChip(n, i), s.nets), 5)
              else Keep
  {
  }

  // ---- From one rising edge to the next ----

  /** The run starts at a rising edge and has no other before its last state. */
  ghost predicate Segment(n: nat, tr: seq<State>) {
    && Trace(Counter(n), tr) && |tr| >= 2 && (forall u :: 0 <= u < |tr| ==> Rails(tr[u]))
    && Rising(tr[0]) && forall u :: 0 < u < |tr| - 1 ==> !Rising(tr[u])
  }

  lemma SegmentState(n: nat, tr: seq<State>, i: nat, u: nat)
    requires Segment(n, tr) && u < |tr| && i < n
    ensures Ok(Counter(n), tr[u]) && |tr[u].nets| == 3 + 12 * n && Wired(CounterChip(n, i), |tr[u].nets|) &&
            Rails(tr[u])
    ensures u == 0 ==> Rising(tr[u])
    ensures 0 < u < |tr| - 1 ==> !Rising(tr[u])
  {
    CounterFits(n, i);
  }

  lemma FlatFuture(s: State, m: nat, x: bool, t: int)
    requires Flat(s, m, x) && t >= 0
    ensures s.nets[m].val == x && Future(s.sched, m, s.nets[m].val, t) == x
  {
    var t': nat := t;
    assert Future(s.sched, m, x, t') == x;
  }

  function DigitAt(ds: seq<nat>, i: nat, u: int): nat
    requires i < |ds|
  {
    if u >= 5 then Increment(ds)[i] else ds[i]
  }

  lemma NewBit(ds: seq<nat>, i: nat, b: nat)
    requires Digits(ds) && i < |ds| && b < 4
    ensures Bit(Increment(ds)[i], b) == if Carry(ds, i) && LowBits(ds[i], b) then !Bit(ds[i], b) else Bit(ds[i], b)
  {
    hide Bit, Carry;
    CountBit(ds[i], b);
  }

  lemma BitTarget(n: nat, i: nat, b: nat)
    requires i < n && b < 4
    ensures SoleDriver(Counter(n), Q(i, b), i, 7 + b) && Q(i, b) < 3 + 12 * n
    ensures Counter(n).chips[i] == CounterChip(n, i)
  {
    hide SoleDriver;
    OneSlot(n, i, 7 + b);
  }

  /** Bit `b` of digit `i`, seen from `u` steps after the edge and `t` steps ahead. */
  lemma {:induction false} BitWave(n: nat, tr: seq<State>, ds: seq<nat>, i: nat, b: nat, u: nat, t: int)
    requires Segment(n, tr) && Ready(n, tr[0], ds) && i < n && b < 4 && u < |tr| - 1 && t >= 0
    requires Q(i, b) < 3 + 12 * n && Ok(Counter(n), tr[u])
    ensures Ahead(Counter(n), tr[u], Q(i, b), t) == Bit(DigitAt(ds, i, t + u), b)
    decreases u
  {
    hide SlotDrive, Ahead, Bit, Ready, Carry, SoleDriver, Increment, Segment, Rising, Flat, Q;
    SegmentState(n, tr, i, u);
    BitTarget(n, i, b);
    ReadyRange(n, tr[0], ds, i);
    SegmentTrace(n, tr);
    if u == 0 {
      EdgeSlots(n, tr[0], ds, i, 7 + b);
      ReadyBit(n, tr[0], ds, i, b);
      NewBit(ds, i, b);
      FlatFuture(tr[0], Q(i, b), Bit(ds[i], b), t);
      FirstAhead(n, tr[0], Q(i, b), i, 7 + b, t);
    } else {
      SegmentState(n, tr, i, u - 1);
      BitWave(n, tr, ds, i, b, u - 1, t + 1);
      QuietSlots(n, tr[u], i, 7 + b);
      AheadNext(Counter(n), tr, Q(i, b), i, 7 + b, u, t);
    }
  }

  lemma SegmentTrace(n: nat, tr: seq<State>)
    requires Segment(n, tr)
    ensures Trace(Counter(n), tr) && |tr| >= 2
  {
  }

  lemma ReadyBit(n: nat, s: State, ds: seq<nat>, i: nat, b: nat)
    requires Ready(n, s, ds) && i < n && b < 4
    ensures Digits(ds) && |ds| == n && Flat(s, Q(i, b), Bit(ds[i], b))
  {
  }

  lemma FirstAhead(n: nat, s: State, m: nat, i: nat, k: nat, t: int)
    requires Ok(Counter(n), s) && m < 3 + 12 * n && SoleDriver(Counter(n), m, i, k)
    ensures Ahead(Counter(n), s, m, t)
         == DriveWave(SlotDrive(Counter(n).chips[i], s.nets, k), t, Future(s.sched, m, s.nets[m].val, t))
  {
    hide SlotDrive, Posted;
    SolePosted(Counter(n), s, m, i, k, t);
  }

  /** Five steps after the edge the digits show the next number, and not before. */
  lemma BitValue(n: nat, tr: seq<State>, ds: seq<nat>, i: nat, b: nat, u: nat)
    requires Segment(n, tr) && Ready(n, tr[0], ds) && i < n && b < 4 && u < |tr|
    ensures |ds| == n && Q(i, b) < |tr[u].nets| && tr[u].nets[Q(i, b)].val == Bit(DigitAt(ds, i, u), b)
  {
    hide Ahead, Bit, Ready, SoleDriver, Segment, Rising, Flat, DigitAt, Q;
    SegmentState(n, tr, i, u);
    BitTarget(n, i, b);
    SegmentTrace(n, tr);
    ReadyBit(n, tr[0], ds, i, b);
    if u == 0 {
      FlatFuture(tr[0], Q(i, b), Bit(ds[i], b), 0);
      NowDigit(ds, i);
    } else {
      SegmentState(n, tr, i, u - 1);
      AheadNext(Counter(n), tr, Q(i, b), i, 7 + b, u, 0);
      BitWave(n, tr, ds, i, b, u - 1, 1);
    }
  }

  lemma NowDigit(ds: seq<nat>, i: nat)
    requires i < |ds|
    ensures DigitAt(ds, i, 0) == ds[i]
  {
  }

  // ---- Ripple nets: two slots of one chip ----

  lemma RippleTargets(n: nat, i: nat)
    requires i < n
    ensures forall k :: 0 <= k < 13 ==> (SlotTarget(CounterChip(n, i), k) == Some(R(n, i)) <==> k >= 11)
    ensures forall i': int, k': int :: Drives(Counter(n), i', k', R(n, i)) ==> i' == i
    ensures Drives(Counter(n), i, 11, R(n, i))
  {
    hide Target, CounterChip, SlotTarget;
    CounterKind(n, i);
    forall k: nat | k < 13
      ensures SlotTarget(CounterChip(n, i), k) == Some(R(n, i)) <==> k >= 11
    {
      CounterTargets(n, i, k);
      RippleTarget(n, i, i, k);
    }
    forall i': int, k': int | Drives(Counter(n), i', k', R(n, i))
      ensures i' == i
    {
      CounterKind(n, i');
      CounterTargets(n, i', k');
      RippleTarget(n, i, i', k');
    }
  }

  lemma RippleTarget(n: nat, i: nat, i': nat, k: nat)
    requires i < n && i' < n && k < 13
    ensures Target(n, i', k) == R(n, i) <==> i' == i && k >= 11
  {
  }

  lemma RipplePosted(n: nat, s: State, i: nat, t: int)
    requires i < n && Ok(Counter(n), s) && Wired(CounterChip(n, i), |s.nets|)
    ensures R(n, i) < 3 + 12 * n
    ensures Ahead(Counter(n), s, R(n, i), t)
         == DriveWave(SlotDrive(CounterChip(n, i), s.nets, 12), t,
              DriveWave(SlotDrive(CounterChip(n, i), s.nets, 11), t, Future(s.sched, R(n, i), s.nets[R(n, i)].val, t)))
  {
    hide SlotDrive, SlotTarget, Posted;
    RippleTargets(n, i);
    CounterKind(n, i);
    var m := R(n, i);
    OnePosted(Counter(n), s, m, i, t);
    SlotWaveTwo(CounterChip(n, i), s.nets, m, 0, t, Future(s.sched, m, s.nets[m].val, t));
  }

  lemma RippleAhead(n: nat, tr: seq<State>, i: nat, u: nat, t: int)
    requires Trace(Counter(n), tr) && i < n && 0 < u < |tr| && t >= 0
    requires Ok(Counter(n), tr[u]) && Ok(Counter(n), tr[u - 1]) && Wired(CounterChip(n, i), |tr[u].nets|)
    ensures R(n, i) < 3 + 12 * n
    ensures Ahead(Counter(n), tr[u], R(n, i), t)
         == DriveWave(SlotDrive(CounterChip(n, i), tr[u].nets, 12), t,
              DriveWave(SlotDrive(CounterChip(n, i), tr[u].nets, 11), t, Ahead(Counter(n), tr[u - 1], R(n, i), t + 1)))
    ensures tr[u].nets[R(n, i)].val == Ahead(Counter(n), tr[u - 1], R(n, i), 1)
    ensures Future(tr[u].sched, R(n, i), tr[u].nets[R(n, i)].val, t) == Ahead(Counter(n), tr[u - 1], R(n, i), t + 1)
    ensures tr[u].nets[R(n, i)].changed <==> tr[u].nets[R(n, i)].val != tr[u - 1].nets[R(n, i)].val
  {
    hide SlotDrive, SlotTarget, Posted, Simulation.Next, Rising, Rails;
    var m := R(n, i);
    RipplePosted(n, tr[u], i, t);
    RippleTargets(n, i);
    TraceStep(Counter(n), tr, u);
    assert Driven(Counter(n), m);
    NextNet(Counter(n), tr[u - 1], tr[u], m, t);
  }

  lemma RippleNext(n: nat, tr: seq<State>, i: nat, u: nat, t: int)
    requires Segment(n, tr) && i < n && 0 < u < |tr| && t >= 0
    requires Ok(Counter(n), tr[u]) && Ok(Counter(n), tr[u - 1]) && Wired(CounterChip(n, i), |tr[u].nets|)
    ensures R(n, i) < 3 + 12 * n
    ensures Ahead(Counter(n), tr[u], R(n, i), t)
         == DriveWave(SlotDrive(CounterChip(n, i), tr[u].nets, 12), t,
              DriveWave(SlotDrive(CounterChip(n, i), tr[u].nets, 11), t, Ahead(Counter(n), tr[u - 1], R(n, i), t + 1)))
    ensures tr[u].nets[R(n, i)].val == Ahead(Counter(n), tr[u - 1], R(n, i), 1)
    ensures Future(tr[u].sched, R(n, i), tr[u].nets[R(n, i)].val, t) == Ahead(Counter(n), tr[u - 1], R(n, i), t + 1)
    ensures tr[u].nets[R(n, i)].changed <==> tr[u].nets[R(n, i)].val != tr[u - 1].nets[R(n, i)].val
  {
    hide Ahead, SlotDrive, Simulation.Next, Rising, Rails;
    SegmentTrace(n, tr);
    RippleAhead(n, tr, i, u, t);
  }

  // ---- The value that ripple net `i` has to settle to ----

  function NewRipple(ds: seq<nat>, i: nat): bool
    requires i < |ds|
  {
    Carry(Increment(ds), i + 1)
  }

  function Lag(i: nat): nat { 7 + 5 * i }

  /** While chips `0 .. i` all wrap around, ripple net `i` falls exactly seven steps after the edge. */
  lemma {:induction false} RippleFalls(n: nat, tr: seq<State>, ds: seq<nat>, i: nat, u: nat, t: int)
    requires Segment(n, tr) && Ready(n, tr[0], ds) && i < n && Carry(ds, i + 1) && u < |tr| - 1 && t >= 0
    requires R(n, i) < 3 + 12 * n && Ok(Counter(n), tr[u])
    ensures Ahead(Counter(n), tr[u], R(n, i), t) == (t + u < 7)
    decreases i, u
  {
    hide SlotDrive, Ahead, Bit, Ready, SoleDriver, Increment, Segment, Rising, Flat, R, CounterFull, CounterChip,
         RippleIn, Trace;
    SegmentState(n, tr, i, u);
    SegmentTrace(n, tr);
    ReadyRipple(n, tr[0], ds, i);
    if u == 0 {
      EdgeSlots(n, tr[0], ds, i, 11);
      EdgeSlots(n, tr[0], ds, i, 12);
      FlatFuture(tr[0], R(n, i), Carry(ds, i + 1), t);
      RipplePosted(n, tr[0], i, t);
    } else {
      SegmentState(n, tr, i, u - 1);
      RippleFalls(n, tr, ds, i, u - 1, t + 1);
      RippleNext(n, tr, i, u, t);
      QuietSlots(n, tr[u], i, 11);
      QuietSlots(n, tr[u], i, 12);
      if i > 0 {
        RippleBound(n, i - 1);
        RippleInFalls(n, tr, ds, i - 1, u);
      }
      RippleInNet(n, tr[u], i);
    }
  }

  lemma RippleInNet(n: nat, s: State, i: nat)
    requires i < n && Rails(s) && |s.nets| == 3 + 12 * n
    ensures i == 0 ==> s.nets[RippleIn(n, i)] == Net(true, false)
    ensures i > 0 ==> RippleIn(n, i) == R(n, i - 1)
  {
  }

  lemma ReadyRipple(n: nat, s: State, ds: seq<nat>, i: nat)
    requires Ready(n, s, ds) && i < n
    ensures Digits(ds) && |ds| == n && Flat(s, R(n, i), Carry(ds, i + 1))
  {
  }

  lemma RippleInFalls(n: nat, tr: seq<State>, ds: seq<nat>, i: nat, u: nat)
    requires Segment(n, tr) && Ready(n, tr[0], ds) && i + 1 < n && Carry(ds, i + 1) && 0 < u < |tr| - 1
    requires R(n, i) < 3 + 12 * n && Ok(Counter(n), tr[u])
    ensures tr[u].nets[R(n, i)].val == (u < 7)
    ensures tr[u].nets[R(n, i)].changed <==> u == 7
    decreases i, |tr|
  {
    hide SlotDrive, Ahead, Bit, Ready, SoleDriver, Increment, Segment, Rising, Flat, R, Carry;
    SegmentState(n, tr, i, u);
    SegmentState(n, tr, i, u - 1);
    RippleFalls(n, tr, ds, i, u - 1, 1);
    RippleNext(n, tr, i, u, 0);
    if u == 1 {
      ReadyRipple(n, tr[0], ds, i);
      FlatFuture(tr[0], R(n, i), Carry(ds, i + 1), 0);
    } else {
      SegmentState(n, tr, i, u - 2);
      RippleFalls(n, tr, ds, i, u - 2, 1);
      RippleNext(n, tr, i, u - 1, 0);
    }
  }

  lemma RippleBound(n: nat, i: nat)
    requires i < n
    ensures R(n, i) < 3 + 5 * n
  {
  }

  lemma FullDigit(d: nat)
    requires d < 16
    ensures Bit(d, 0) && Bit(d, 1) && Bit(d, 2) && Bit(d, 3) <==> d == 15
  {
  }

  lemma IncrementDigit(ds: seq<nat>, i: nat)
    requires Digits(ds) && i < |ds|
    ensures Increment(ds)[i] < 16 && (!Carry(ds, i) ==> Increment(ds)[i] == ds[i])
    ensures NewRipple(ds, i) <==> (i > 0 ==> NewRipple(ds, i - 1)) && Increment(ds)[i] == 15
  {
    if i > 0 && NewRipple(ds, i - 1) && Increment(ds)[i] == 15 {
      forall j | 0 <= j < i + 1
        ensures Increment(ds)[j] == 15
      {
      }
    }
  }

  /** Whether chip `i` is full, five or more steps after the edge, or at any time if it does not count. */
  lemma FullNow(n: nat, tr: seq<State>, ds: seq<nat>, i: nat, u: nat)
    requires Segment(n, tr) && Ready(n, tr[0], ds) && i < n && u < |tr| && (u >= 5 || !Carry(ds, i))
    requires Wired(CounterChip(n, i), |tr[u].nets|)
    ensures |ds| == n && CounterFull(CounterChip(n, i), tr[u].nets) == (Increment(ds)[i] == 15)
  {
    hide Ready, Segment, Bit, Carry, Increment;
    ReadyBit(n, tr[0], ds, i, 0);
    BitValue(n, tr, ds, i, 0, u);
    BitValue(n, tr, ds, i, 1, u);
    BitValue(n, tr, ds, i, 2, u);
    BitValue(n, tr, ds, i, 3, u);
    IncrementDigit(ds, i);
    FullDigit(DigitAt(ds, i, u));
  }

  /** The pending value of ripple net `i` follows its ripple input (once the wrap-around, if there is one, has
      passed). */
  lemma {:induction false} RippleTracks(n: nat, tr: seq<State>, ds: seq<nat>, i: nat, u: nat, t: int)
    requires Segment(n, tr) && Ready(n, tr[0], ds) && 0 < i < n && u < |tr| - 1 && t >= 5
    requires Carry(ds, i) ==> u >= 7
    requires R(n, i) < 3 + 12 * n && R(n, i - 1) < 3 + 12 * n && Ok(Counter(n), tr[u])
    ensures Ahead(Counter(n), tr[u], R(n, i), t) == (tr[u].nets[R(n, i - 1)].val && Increment(ds)[i] == 15)
    decreases u
  {
    hide SlotDrive, Ahead, Bit, Ready, Increment, Segment, Rising, Flat, R, CounterFull, Carry;
    SegmentState(n, tr, i, u);
    ReadyRipple(n, tr[0], ds, i);
    ReadyRipple(n, tr[0], ds, i - 1);
    RippleInNet(n, tr[u], i);
    if u == 0 {
      EdgeSlots(n, tr[0], ds, i, 11);
      EdgeSlots(n, tr[0], ds, i, 12);
      FlatFuture(tr[0], R(n, i), Carry(ds, i + 1), t);
      FlatFuture(tr[0], R(n, i - 1), Carry(ds, i), 0);
      CarryGrows(ds, i);
      RipplePosted(n, tr[0], i, t);
    } else {
      SegmentState(n, tr, i, u - 1);
      RippleNext(n, tr, i, u, t);
      QuietSlots(n, tr[u], i, 11);
      QuietSlots(n, tr[u], i, 12);
      FullNow(n, tr, ds, i, u);
      if Carry(ds, i) && u == 7 {
        RippleInFalls(n, tr, ds, i - 1, u);
      } else if !tr[u].nets[R(n, i - 1)].changed {
        RippleTracks(n, tr, ds, i, u - 1, t + 1);
        RippleChanged(n, tr, i - 1, u);
      }
    }
  }

  lemma RippleChanged(n: nat, tr: seq<State>, i: nat, u: nat)
    requires Segment(n, tr) && i < n && 0 < u < |tr| && R(n, i) < 3 + 12 * n
    requires |tr[u].nets| == |tr[u - 1].nets| == 3 + 12 * n
    ensures tr[u].nets[R(n, i)].changed <==> tr[u].nets[R(n, i)].val != tr[u - 1].nets[R(n, i)].val
  {
    hide Segment, Ahead, SlotDrive, R;
    SegmentState(n, tr, i, u);
    SegmentState(n, tr, i, u - 1);
    RippleNext(n, tr, i, u, 0);
  }

  lemma CarryGrows(ds: seq<nat>, i: nat)
    requires i < |ds|
    ensures Carry(ds, i + 1) ==> Carry(ds, i)
  {
  }

  /** Ripple net 0 has its new value seven steps after the edge. */
  lemma {:induction false} FirstRipple(n: nat, tr: seq<State>, ds: seq<nat>, u: nat, t: int)
    requires Segment(n, tr) && Ready(n, tr[0], ds) && 0 < n && u < |tr| - 1 && t >= 0
    requires R(n, 0) < 3 + 12 * n && Ok(Counter(n), tr[u])
    ensures Ahead(Counter(n), tr[u], R(n, 0), t) == if t + u >= 7 then NewRipple(ds, 0) else Carry(ds, 1)
    decreases u
  {
    hide SlotDrive, Ahead, Bit, Ready, Segment, Rising, Flat, R;
    SegmentState(n, tr, 0, u);
    ReadyRipple(n, tr[0], ds, 0);
    if u == 0 {
      EdgeSlots(n, tr[0], ds, 0, 11);
      EdgeSlots(n, tr[0], ds, 0, 12);
      FlatFuture(tr[0], R(n, 0), Carry(ds, 1), t);
      RipplePosted(n, tr[0], 0, t);
      assert Carry(ds, 0);
      assert Carry(ds, 1) <==> ds[0] == 15;
      assert NewRipple(ds, 0) <==> Increment(ds)[0] == 15;
    } else {
      SegmentState(n, tr, 0, u - 1);
      FirstRipple(n, tr, ds, u - 1, t + 1);
      RippleNext(n, tr, 0, u, t);
      QuietSlots(n, tr[u], 0, 11);
      QuietSlots(n, tr[u], 0, 12);
      RippleInNet(n, tr[u], 0);
    }
  }

  /** Ripple net `i` heads for its new value, and from `Lag(i)` on has it, whatever glitches came before. */
  lemma {:induction false} RippleShrinks(n: nat, tr: seq<State>, ds: seq<nat>, i: nat, u: nat, t: int)
    requires Segment(n, tr) && Ready(n, tr[0], ds) && 0 < i < n && Lag(i - 1) <= u < |tr| - 1
    requires t >= 1 && t >= 5 - (u - Lag(i - 1))
    requires R(n, i) < 3 + 12 * n && Ok(Counter(n), tr[u])
    ensures Ahead(Counter(n), tr[u], R(n, i), t) == NewRipple(ds, i)
    decreases i, u
  {
    hide SlotDrive, Ahead, Bit, Ready, Increment, Segment, Rising, Flat, R, CounterFull, Carry;
    SegmentState(n, tr, i, u);
    ReadyRipple(n, tr[0], ds, i);
    RippleBound(n, i - 1);
    RippleInNet(n, tr[u], i);
    IncrementDigit(ds, i);
    RippleValue(n, tr, ds, i - 1, u);
    if u == Lag(i - 1) {
      RippleTracks(n, tr, ds, i, u, t);
    } else {
      SegmentState(n, tr, i, u - 1);
      RippleNext(n, tr, i, u, t);
      QuietSlots(n, tr[u], i, 11);
      QuietSlots(n, tr[u], i, 12);
      FullNow(n, tr, ds, i, u);
      RippleShrinks(n, tr, ds, i, u - 1, t + 1);
    }
  }

  /** Each ripple net settles to "this digit and all lower ones are 15". */
  lemma RippleValue(n: nat, tr: seq<State>, ds: seq<nat>, i: nat, u: nat)
    requires Segment(n, tr) && Ready(n, tr[0], ds) && i < n && Lag(i) <= u < |tr|
    ensures |ds| == n && R(n, i) < |tr[u].nets| && tr[u].nets[R(n, i)].val == NewRipple(ds, i)
    decreases i, |tr|
  {
    hide SlotDrive, Ahead, Bit, Ready, Increment, Segment, Rising, Flat, R, Carry, NewRipple;
    SegmentState(n, tr, i, u);
    SegmentState(n, tr, i, u - 1);
    ReadyRipple(n, tr[0], ds, i);
    RippleBound(n, i);
    RippleNext(n, tr, i, u, 0);
    if i == 0 {
      FirstRipple(n, tr, ds, u - 1, 1);
    } else {
      RippleShrinks(n, tr, ds, i, u - 1, 1);
    }
  }

  // ---- Local nets ----

  lemma LocalTarget(n: nat, i: nat, k: nat)
    requires i < n && k < 7
    ensures SoleDriver(Counter(n), LocalBase(n, i) + k, i, k) && LocalBase(n, i) + k < 3 + 12 * n
    ensures Counter(n).chips[i] == CounterChip(n, i)
  {
    hide SoleDriver;
    OneSlot(n, i, k);
  }

  lemma ReadyLocal(n: nat, s: State, ds: seq<nat>, i: nat, k: nat)
    requires Ready(n, s, ds) && i < n && k < 7
    ensures |ds| == n && Digits(ds) && Flat(s, LocalBase(n, i) + k, LocalLevel(ds, i, k))
  {
  }

  /** The local copies of the constant inputs keep their level. */
  lemma {:induction false} ConstantLocal(n: nat, tr: seq<State>, ds: seq<nat>, i: nat, k: nat, u: nat, t: int)
    requires Segment(n, tr) && Ready(n, tr[0], ds) && i < n && k < 6 && u < |tr| - 1 && t >= 0
    requires LocalBase(n, i) + k < 3 + 12 * n && Ok(Counter(n), tr[u])
    ensures Ahead(Counter(n), tr[u], LocalBase(n, i) + k, t) == LocalLevel(ds, i, k)
    decreases u
  {
    hide SlotDrive, Ahead, Ready, SoleDriver, Segment, Rising, Flat, LocalBase;
    SegmentState(n, tr, i, u);
    LocalTarget(n, i, k);
    SegmentTrace(n, tr);
    ReadyLocal(n, tr[0], ds, i, k);
    if u == 0 {
      EdgeSlots(n, tr[0], ds, i, k);
      FlatFuture(tr[0], LocalBase(n, i) + k, LocalLevel(ds, i, k), t);
      FirstAhead(n, tr[0], LocalBase(n, i) + k, i, k, t);
    } else {
      SegmentState(n, tr, i, u - 1);
      ConstantLocal(n, tr, ds, i, k, u - 1, t + 1);
      QuietSlots(n, tr[u], i, k);
      AheadNext(Counter(n), tr, LocalBase(n, i) + k, i, k, u, t);
    }
  }

  /** The level of the ripple input of chip `i`. */
  function RippleLevel(n: nat, s: State, i: nat): bool
    requires |s.nets| == 3 + 12 * n && i < n
  {
    s.nets[RippleIn(n, i)].val
  }

  lemma StartRippleLocal(n: nat, tr: seq<State>, ds: seq<nat>, i: nat, t: int)
    requires Segment(n, tr) && Ready(n, tr[0], ds) && i < n && t >= 2
    requires LocalBase(n, i) + 6 < 3 + 12 * n && Ok(Counter(n), tr[0])
    ensures Ahead(Counter(n), tr[0], LocalBase(n, i) + 6, t) == RippleLevel(n, tr[0], i)
  {
    hide SlotDrive, Ahead, Ready, SoleDriver, Segment, Rising, Flat, LocalBase, Carry, RippleIn;
    SegmentTrace(n, tr);
    SegmentState(n, tr, i, 0);
    LocalTarget(n, i, 6);
    ReadyLocal(n, tr[0], ds, i, 6);
    EdgeSlots(n, tr[0], ds, i, 6);
    FlatFuture(tr[0], LocalBase(n, i) + 6, LocalLevel(ds, i, 6), t);
    FirstAhead(n, tr[0], LocalBase(n, i) + 6, i, 6, t);
    ReadyDigit(n, tr[0], ds, i);
  }

  lemma LevelChanged(n: nat, tr: seq<State>, i: nat, u: nat)
    requires Segment(n, tr) && i < n && 0 < u < |tr| && |tr[u].nets| == |tr[u - 1].nets| == 3 + 12 * n
    ensures !tr[u].nets[RippleIn(n, i)].changed ==> RippleLevel(n, tr[u], i) == RippleLevel(n, tr[u - 1], i)
  {
    hide Segment, R;
    SegmentState(n, tr, i, u);
    SegmentState(n, tr, i, u - 1);
    RippleInNet(n, tr[u], i);
    RippleInNet(n, tr[u - 1], i);
    if i > 0 {
      RippleBound(n, i - 1);
      RippleChanged(n, tr, i - 1, u);
    }
  }

  /** One step of the local copy of the ripple input. */
  lemma LocalStep(n: nat, tr: seq<State>, i: nat, u: nat, t: int)
    requires Segment(n, tr) && i < n && 0 < u < |tr| - 1 && t >= 1
    requires LocalBase(n, i) + 6 < 3 + 12 * n && Ok(Counter(n), tr[u]) && Ok(Counter(n), tr[u - 1])
    ensures Ahead(Counter(n), tr[u], LocalBase(n, i) + 6, t) ==
            if tr[u].nets[RippleIn(n, i)].changed && t >= 2 then RippleLevel(n, tr[u], i)
            else Ahead(Counter(n), tr[u - 1], LocalBase(n, i) + 6, t + 1)
  {
    hide SlotDrive, Ahead, SoleDriver, Segment, Rising, LocalBase, RippleIn, Rails;
    SegmentState(n, tr, i, u);
    SegmentTrace(n, tr);
    LocalTarget(n, i, 6);
    QuietSlots(n, tr[u], i, 6);
    AheadNext(Counter(n), tr, LocalBase(n, i) + 6, i, 6, u, t);
  }

  /** The local copy of the ripple input follows it two steps behind. */
  lemma {:induction false} RippleLocal(n: nat, tr: seq<State>, ds: seq<nat>, i: nat, u: nat, t: int)
    requires Segment(n, tr) && Ready(n, tr[0], ds) && i < n && u < |tr| - 1 && t >= 2
    requires LocalBase(n, i) + 6 < 3 + 12 * n && Ok(Counter(n), tr[u])
    ensures Ahead(Counter(n), tr[u], LocalBase(n, i) + 6, t) == RippleLevel(n, tr[u], i)
    decreases u
  {
    hide SlotDrive, Ahead, Ready, SoleDriver, Segment, Rising, LocalBase, RippleIn, RippleLevel;
    if u == 0 {
      StartRippleLocal(n, tr, ds, i, t);
    } else {
      SegmentState(n, tr, i, u);
      SegmentState(n, tr, i, u - 1);
      RippleLocal(n, tr, ds, i, u - 1, t + 1);
      LocalStep(n, tr, i, u, t);
      LevelChanged(n, tr, i, u);
    }
  }

  lemma SettledLevel(n: nat, tr: seq<State>, ds: seq<nat>, i: nat, u: nat)
    requires Segment(n, tr) && Ready(n, tr[0], ds) && i < n && u < |tr| && (i > 0 ==> Lag(i - 1) <= u)
    ensures |ds| == n && |tr[u].nets| == 3 + 12 * n && RippleLevel(n, tr[u], i) == Carry(Increment(ds), i)
  {
    hide Ready, Segment, R, Increment;
    SegmentState(n, tr, i, u);
    ReadyRipple(n, tr[0], ds, i);
    RippleInNet(n, tr[u], i);
    if i > 0 {
      RippleValue(n, tr, ds, i - 1, u);
    }
  }

  lemma SettledLocal(n: nat, tr: seq<State>, ds: seq<nat>, i: nat, u: nat, t: int)
    requires Segment(n, tr) && Ready(n, tr[0], ds) && i < n && u < |tr| - 1 && t >= 1
    requires i > 0 ==> Lag(i - 1) < u
    requires u > 0 && LocalBase(n, i) + 6 < 3 + 12 * n && Ok(Counter(n), tr[u])
    ensures |ds| == n && Ahead(Counter(n), tr[u], LocalBase(n, i) + 6, t) == Carry(Increment(ds), i)
  {
    hide SlotDrive, Ahead, Ready, SoleDriver, Segment, Rising, Flat, LocalBase, R, Carry, Increment, RippleIn,
         RippleLevel, Lag;
    SegmentState(n, tr, i, u - 1);
    RippleLocal(n, tr, ds, i, u - 1, t + 1);
    SettledLevel(n, tr, ds, i, u - 1);
    SettledLevel(n, tr, ds, i, u);
    LocalStep(n, tr, i, u, t);
  }

  // ---- The state before the next edge ----

  lemma EndBit(n: nat, tr: seq<State>, ds: seq<nat>, i: nat, b: nat)
    requires Segment(n, tr) && Ready(n, tr[0], ds) && i < n && b < 4 && |tr| > 5
    ensures |ds| == n && Flat(tr[|tr| - 1], Q(i, b), Bit(Increment(ds)[i], b))
  {
    hide SlotDrive, Ahead, Bit, Ready, SoleDriver, Segment, Rising, Increment, Q;
    var u := |tr| - 1;
    SegmentState(n, tr, i, u);
    SegmentState(n, tr, i, u - 1);
    SegmentTrace(n, tr);
    BitTarget(n, i, b);
    BitValue(n, tr, ds, i, b, u);
    forall t: nat
      ensures Future(tr[u].sched, Q(i, b), tr[u].nets[Q(i, b)].val, t) == Bit(Increment(ds)[i], b)
    {
      FutureNext(Counter(n), tr, Q(i, b), i, 7 + b, u, t);
      BitWave(n, tr, ds, i, b, u - 1, t + 1);
    }
  }

  lemma EndRipple(n: nat, tr: seq<State>, ds: seq<nat>, i: nat)
    requires Segment(n, tr) && Ready(n, tr[0], ds) && i < n && |tr| - 1 > Lag(i)
    ensures |ds| == n && Flat(tr[|tr| - 1], R(n, i), NewRipple(ds, i)) && !tr[|tr| - 1].nets[R(n, i)].changed
  {
    hide SlotDrive, Ahead, Bit, Ready, SoleDriver, Segment, Rising, Increment, R, NewRipple, Carry;
    var u := |tr| - 1;
    SegmentState(n, tr, i, u);
    SegmentState(n, tr, i, u - 1);
    RippleBound(n, i);
    RippleValue(n, tr, ds, i, u);
    RippleValue(n, tr, ds, i, u - 1);
    RippleChanged(n, tr, i, u);
    forall t: nat
      ensures Future(tr[u].sched, R(n, i), tr[u].nets[R(n, i)].val, t) == NewRipple(ds, i)
    {
      RippleNext(n, tr, i, u, t);
      if i == 0 {
        FirstRipple(n, tr, ds, u - 1, t + 1);
      } else {
        RippleShrinks(n, tr, ds, i, u - 1, t + 1);
      }
    }
  }

  lemma EndConstant(n: nat, tr: seq<State>, ds: seq<nat>, i: nat, k: nat)
    requires Segment(n, tr) && Ready(n, tr[0], ds) && i < n && k < 6 && |tr| > 2
    ensures |ds| == n && Flat(tr[|tr| - 1], LocalBase(n, i) + k, LocalLevel(ds, i, k))
  {
    hide SlotDrive, Ahead, Ready, SoleDriver, Segment, Rising, LocalBase, LocalLevel;
    var u := |tr| - 1;
    SegmentState(n, tr, i, u);
    SegmentState(n, tr, i, u - 1);
    SegmentTrace(n, tr);
    LocalTarget(n, i, k);
    ReadyLocal(n, tr[0], ds, i, k);
    var m := LocalBase(n, i) + k;
    AheadNext(Counter(n), tr, m, i, k, u, 0);
    ConstantLocal(n, tr, ds, i, k, u - 1, 1);
    forall t: nat
      ensures Future(tr[u].sched, m, tr[u].nets[m].val, t) == LocalLevel(ds, i, k)
    {
      FutureNext(Counter(n), tr, m, i, k, u, t);
      ConstantLocal(n, tr, ds, i, k, u - 1, t + 1);
    }
  }

  lemma LagGrows(i: nat)
    ensures i > 0 ==> Lag(i - 1) < Lag(i)
  {
  }

  lemma EndRippleFuture(n: nat, tr: seq<State>, ds: seq<nat>, i: nat, t: nat)
    requires Segment(n, tr) && Ready(n, tr[0], ds) && i < n && |tr| - 2 > Lag(i)
    ensures |ds| == n && LocalBase(n, i) + 6 < |tr[|tr| - 1].nets|
    ensures tr[|tr| - 1].nets[LocalBase(n, i) + 6].val == Carry(Increment(ds), i)
    ensures Future(tr[|tr| - 1].sched, LocalBase(n, i) + 6, tr[|tr| - 1].nets[LocalBase(n, i) + 6].val, t) ==
            Carry(Increment(ds), i)
  {
    hide SlotDrive, Ahead, Ready, SoleDriver, Segment, Rising, LocalBase, Carry, Increment, Trace, Lag, CounterChip;
    LagGrows(i);
    var u := |tr| - 1;
    SegmentState(n, tr, i, u);
    SegmentState(n, tr, i, u - 1);
    SegmentTrace(n, tr);
    LocalTarget(n, i, 6);
    var m := LocalBase(n, i) + 6;
    SettledLocal(n, tr, ds, i, u - 1, 1);
    FutureNext(Counter(n), tr, m, i, 6, u, t);
    SettledLocal(n, tr, ds, i, u - 1, t + 1);
  }

  lemma EndRippleLocal(n: nat, tr: seq<State>, ds: seq<nat>, i: nat)
    requires Segment(n, tr) && Ready(n, tr[0], ds) && i < n && |tr| - 2 > Lag(i)
    ensures |ds| == n && Flat(tr[|tr| - 1], LocalBase(n, i) + 6, Carry(Increment(ds), i))
  {
    hide Ready, Segment, LocalBase, Carry, Increment;
    EndRippleFuture(n, tr, ds, i, 0);
    var s, m, x := tr[|tr| - 1], LocalBase(n, i) + 6, Carry(Increment(ds), i);
    forall t: nat
      ensures Future(s.sched, m, x, t) == x
    {
      EndRippleFuture(n, tr, ds, i, t);
    }
  }

  lemma EndLocal(n: nat, tr: seq<State>, ds: seq<nat>, i: nat, k: nat)
    requires Segment(n, tr) && Ready(n, tr[0], ds) && i < n && k < 7 && |tr| - 2 > Lag(i)
    ensures |ds| == n && Flat(tr[|tr| - 1], LocalBase(n, i) + k, LocalLevel(Increment(ds), i, k))
  {
    hide Ready, Segment, Flat, Increment, LocalBase, Carry;
    if k < 6 {
      EndConstant(n, tr, ds, i, k);
    } else {
      EndRippleLocal(n, tr, ds, i);
    }
  }

  /** `5n + 4` steps after a clock edge everything has settled, the counter having counted one. */
  lemma OneEdge(n: nat, tr: seq<State>, ds: seq<nat>)
    requires Segment(n, tr) && Ready(n, tr[0], ds) && n > 0 && |tr| - 1 >= 5 * n + 4
    ensures |ds| == n && Ready(n, tr[|tr| - 1], Increment(ds))
  {
    hide Segment, Increment, Flat, Bit, Q, R, LocalBase, Carry;
    var s := tr[|tr| - 1];
    SegmentState(n, tr, 0, |tr| - 1);
    ReadyBit(n, tr[0], ds, 0, 0);
    IncrementValue(ds);
    forall i, b | 0 <= i < n && 0 <= b < 4
      ensures Flat(s, Q(i, b), Bit(Increment(ds)[i], b))
    {
      EndBit(n, tr, ds, i, b);
    }
    forall i | 0 <= i < n
      ensures R(n, i) < |s.nets|
    {
      RippleBound(n, i);
    }
    forall i | 0 <= i < n
      ensures Flat(s, R(n, i), Carry(Increment(ds), i + 1)) && !s.nets[R(n, i)].changed
    {
      EndRipple(n, tr, ds, i);
    }
    forall i, k | 0 <= i < n && 0 <= k < 7
      ensures Flat(s, LocalBase(n, i) + k, LocalLevel(Increment(ds), i, k))
    {
      EndLocal(n, tr, ds, i, k);
    }
  }

  // ---- Any number of edges ----

  function CountUp(ds: seq<nat>, k: nat): (r: seq<nat>)
    ensures |r| == |ds|
  {
    if k == 0 then ds else Increment(CountUp(ds, k - 1))
  }

  /** Between `edges[k]` and `edges[k + 1]` there are at least `5n + 4` steps and no other rising edge. */
  ghost predicate EdgesAt(n: nat, tr: seq<State>, edges: seq<nat>) {
    && Trace(Counter(n), tr) && (forall u :: 0 <= u < |tr| ==> Rails(tr[u])) && |edges| > 0
    && (forall k :: 0 <= k < |edges| ==> edges[k] < |tr| && Rising(tr[edges[k]]))
    && forall k :: 0 <= k < |edges| - 1 ==> NextEdge(n, tr, edges[k], edges[k + 1])
  }

  ghost predicate NextEdge(n: nat, tr: seq<State>, e0: nat, e1: nat) {
    e0 + 5 * n + 4 <= e1 < |tr| && forall u :: e0 < u < e1 ==> !Rising(tr[u])
  }

  /** State `u` comes after the edge at `e`, with no other rising edge in between. */
  ghost predicate SinceEdge(tr: seq<State>, e: nat, u: nat) {
    e <= u < |tr| && forall w :: e < w < u ==> !Rising(tr[w])
  }

  lemma SinceSegment(n: nat, tr: seq<State>, e: nat, u: nat)
    requires Trace(Counter(n), tr) && (forall v :: 0 <= v < |tr| ==> Rails(tr[v]))
    requires SinceEdge(tr, e, u) && e < u && Rising(tr[e])
    ensures Segment(n, tr[e..u + 1])
  {
    hide Simulation.Next, Rising, Rails, Ok;
    var seg := tr[e..u + 1];
    forall k | 0 <= k < |seg| - 1
      ensures Simulation.Next(Counter(n), seg[k], seg[k + 1])
    {
      TraceStep(Counter(n), tr, e + k + 1);
    }
    forall v | 0 < v < |seg| - 1
      ensures !Rising(seg[v])
    {
      assert !Rising(tr[e + v]);
    }
  }

  /** Started settled at `ds`, the chain has settled again before every later edge, at the number of
      edges counted on from `ds`. */
  lemma {:induction false} CountsEdges(n: nat, tr: seq<State>, edges: seq<nat>, ds: seq<nat>, k: nat)
    requires n > 0 && EdgesAt(n, tr, edges) && Ready(n, tr[edges[0]], ds) && k < |edges|
    ensures Ready(n, tr[edges[k]], CountUp(ds, k))
  {
    hide Ready, Segment, Rising, Rails, Simulation.Next, Increment, Ok;
    if k > 0 {
      CountsEdges(n, tr, edges, ds, k - 1);
      var j := k - 1;
      assert NextEdge(n, tr, edges[j], edges[j + 1]);
      SinceSegment(n, tr, edges[j], edges[k]);
      OneEdge(n, tr[edges[j]..edges[k] + 1], CountUp(ds, j));
    }
  }

  /** The number `k` counts on from `ds`, modulo the range of the counter. */
  function Counted(ds: seq<nat>, k: nat): nat {
    (Value(ds) + k) % Pow16(|ds|)
  }

  lemma {:induction false} CountUpValue(ds: seq<nat>, k: nat)
    requires Digits(ds)
    ensures Digits(CountUp(ds, k)) && Value(CountUp(ds, k)) == Counted(ds, k)
  {
    hide Increment, Digits;
    var p := Pow16(|ds|);
    if k == 0 {
      ValueBound(ds);
      SmallMod(Value(ds), p);
    } else {
      CountUpValue(ds, k - 1);
      IncrementValue(CountUp(ds, k - 1));
      NextMod(Value(ds) + k - 1, p);
    }
  }

  /** The number that the counter outputs show. */
  function Shown(n: nat, s: State): nat
    requires |s.nets| == 3 + 12 * n
  {
    Value(seq(n, i requires 0 <= i < n => ShownDigit(n, s, i)))
  }

  function ShownDigit(n: nat, s: State, i: nat): nat
    requires |s.nets| == 3 + 12 * n && i < n
  {
    (if s.nets[Q(i, 0)].val then 1 else 0) + (if s.nets[Q(i, 1)].val then 2 else 0)
    + (if s.nets[Q(i, 2)].val then 4 else 0) + (if s.nets[Q(i, 3)].val then 8 else 0)
  }

  lemma DigitOfBits(d: nat)
    requires d < 16
    ensures d == (if Bit(d, 0) then 1 else 0) + (if Bit(d, 1) then 2 else 0)
                 + (if Bit(d, 2) then 4 else 0) + (if Bit(d, 3) then 8 else 0)
  {
  }

  /** From edge `k` to the next, or to the end of the run, the outputs show `(start + k) mod 16^n` for five steps and
      `(start + k + 1) mod 16^n` from then on, and ripple net `i` settles `7 + 5i` steps after the edge
      to whether the digits up to its own are all 15, despite the glitches before. */
  lemma CounterCounts(n: nat, tr: seq<State>, edges: seq<nat>, ds: seq<nat>, k: nat, u: nat)
    requires n > 0 && EdgesAt(n, tr, edges) && Ready(n, tr[edges[0]], ds) && k < |edges| && SinceEdge(tr, edges[k], u)
    ensures |ds| == n && u < |tr| && |tr[u].nets| == 3 + 12 * n
    ensures Shown(n, tr[u]) == Counted(ds, if u >= edges[k] + 5 then k + 1 else k)
    ensures forall i: nat :: i < n && u >= edges[k] + Lag(i) ==>
              R(n, i) < 3 + 12 * n &&
              (tr[u].nets[R(n, i)].val <==> forall j: nat :: j <= i ==> ShownDigit(n, tr[u], j) == 15)
  {
    hide Ready, Segment, Rising, Rails, Simulation.Next, Increment, Ok, Value, Digits, R, CountUp, ShownDigit, Counted,
         Trace, Shown;
    CountsEdges(n, tr, edges, ds, k);
    var now := CountUp(ds, k);
    ReadyBit(n, tr[edges[0]], ds, 0, 0);
    CountUpValue(ds, k);
    CountUpValue(ds, k + 1);
    NextCount(ds, k);
    if u == edges[k] {
      ReadyShows(n, tr[u], now);
    } else {
      SinceSegment(n, tr, edges[k], u);
      var seg, v := tr[edges[k]..u + 1], u - edges[k];
      SegmentState(n, seg, 0, v);
      ShownDigits(n, seg, now, v);
      forall i: nat | i < n && u >= edges[k] + Lag(i)
        ensures R(n, i) < 3 + 12 * n
        ensures tr[u].nets[R(n, i)].val <==> forall j: nat :: j <= i ==> ShownDigit(n, tr[u], j) == 15
      {
        RippleShows(n, seg, now, i, v);
      }
    }
  }

  /** A settled chain shows its digits. */
  lemma ReadyShows(n: nat, s: State, ds: seq<nat>)
    requires Ready(n, s, ds)
    ensures |s.nets| == 3 + 12 * n && Shown(n, s) == Value(ds)
  {
    hide Bit, Q, R, LocalBase, Carry, LocalLevel, Value, Ok;
    ReadyLength(n, s, ds);
    forall i | 0 <= i < n
      ensures Q(i, 3) < |s.nets| && ShownDigit(n, s, i) == ds[i]
    {
      ReadyBit(n, s, ds, i, 0);
      ReadyBit(n, s, ds, i, 1);
      ReadyBit(n, s, ds, i, 2);
      ReadyBit(n, s, ds, i, 3);
      ReadyRange(n, s, ds, i);
      DigitOfBits(ds[i]);
    }
    assert seq(n, i requires 0 <= i < n => ShownDigit(n, s, i)) == ds;
  }

  lemma ReadyLength(n: nat, s: State, ds: seq<nat>)
    requires Ready(n, s, ds)
    ensures |s.nets| == 3 + 12 * n && |ds| == n
  {
  }

  lemma RippleShows(n: nat, tr: seq<State>, ds: seq<nat>, i: nat, u: nat)
    requires Segment(n, tr) && Ready(n, tr[0], ds) && i < n && Lag(i) <= u < |tr| && |tr[u].nets| == 3 + 12 * n
    ensures R(n, i) < 3 + 12 * n
    ensures tr[u].nets[R(n, i)].val <==> forall j: nat :: j <= i ==> ShownDigit(n, tr[u], j) == 15
  {
    hide Ready, Segment, Increment, R, ShownDigit;
    RippleValue(n, tr, ds, i, u);
    RippleBound(n, i);
    ShownDigits(n, tr, ds, u);
    RippleMeaning(n, tr[u], Increment(ds), i);
  }

  lemma NextCount(ds: seq<nat>, k: nat)
    ensures CountUp(ds, k + 1) == Increment(CountUp(ds, k))
  {
  }

  lemma RippleMeaning(n: nat, s: State, shown: seq<nat>, i: nat)
    requires |s.nets| == 3 + 12 * n && |shown| == n && i < n
    requires forall j: nat :: j < n ==> ShownDigit(n, s, j) == shown[j]
    ensures Carry(shown, i + 1) <==> forall j: nat :: j <= i ==> ShownDigit(n, s, j) == 15
  {
    hide ShownDigit;
  }

  lemma ShownDigits(n: nat, tr: seq<State>, ds: seq<nat>, u: nat)
    requires Segment(n, tr) && Ready(n, tr[0], ds) && u < |tr| && |tr[u].nets| == 3 + 12 * n
    ensures |ds| == n
    ensures forall i: nat :: i < n ==> ShownDigit(n, tr[u], i) == if u >= 5 then Increment(ds)[i] else ds[i]
    ensures Shown(n, tr[u]) == if u >= 5 then Value(Increment(ds)) else Value(ds)
  {
    hide Segment, Increment, Bit, Carry;
    forall i: nat | i < n
      ensures ShownDigit(n, tr[u], i) == if u >= 5 then Increment(ds)[i] else ds[i]
    {
      BitValue(n, tr, ds, i, 0, u);
      BitValue(n, tr, ds, i, 1, u);
      BitValue(n, tr, ds, i, 2, u);
      BitValue(n, tr, ds, i, 3, u);
      IncrementDigit(ds, i);
      DigitOfBits(DigitAt(ds, i, u));
    }
    assert seq(n, i requires 0 <= i < n => ShownDigit(n, tr[u], i)) == if u >= 5 then Increment(ds) else ds;
  }
}
