/** The counter chain from the start of the simulator: with no clock edge it settles at its declared digits. */
module CounterStart {
  import opened Schedule
  import opened Chips
  import opened Simulation
  import opened Clocked
  import opened CounterChain
  import opened CounterRun

  /** The supply nets have their levels, and after the first step they are not marked any more. */
  predicate Supplied(s: State, first: bool) {
    |s.nets| > 2 && if first then s.nets[VCC].val && !s.nets[GND].val else Rails(s)
  }

  /** A run from the start of the simulator, with no rising edge before its last state. */
  ghost predicate Idle(n: nat, tr: seq<State>) {
    && Trace(Counter(n), tr) && |tr| > 0 && Initial(Counter(n), tr[0])
    && (forall u :: 0 <= u < |tr| ==> Supplied(tr[u], u == 0))
    && forall u :: 0 <= u < |tr| - 1 ==> !Rising(tr[u])
  }

  lemma IdleState(n: nat, tr: seq<State>, i: nat, u: nat)
    requires Idle(n, tr) && u < |tr| && i < n
    ensures Trace(Counter(n), tr) && Ok(Counter(n), tr[u]) && |tr[u].nets| == 3 + 12 * n
    ensures Wired(CounterChip(n, i), |tr[u].nets|) && tr[u].nets[VCC].val && !tr[u].nets[GND].val
    ensures u > 0 ==> Rails(tr[u])
    ensures u < |tr| - 1 ==> !Rising(tr[u])
    ensures u == 0 ==> Initial(Counter(n), tr[u])
  {
    hide Simulation.Next, Rising;
    CounterFits(n, i);
    assert Supplied(tr[u], u == 0);
  }

  /** The digits the outputs show. */
  function DigitsShown(n: nat, s: State): (ds: seq<nat>)
    requires |s.nets| == 3 + 12 * n
    ensures |ds| == n && forall i :: 0 <= i < n ==> ds[i] == ShownDigit(n, s, i)
  {
    seq(n, i requires 0 <= i < n => ShownDigit(n, s, i))
  }

  lemma ShownBit(n: nat, s: State, i: nat, b: nat)
    requires |s.nets| == 3 + 12 * n && i < n && b < 4
    ensures ShownDigit(n, s, i) < 16 && Q(i, b) < 3 + 4 * n && Bit(ShownDigit(n, s, i), b) == s.nets[Q(i, b)].val
  {
  }

  /** In the first step every input is marked, so the chips copy their inputs and work out their ripple output. */
  lemma StartSlots(n: nat, s: State, i: nat, k: nat)
    requires Initial(Counter(n), s) && s.nets[VCC].val && !s.nets[GND].val && !Rising(s) && i < n && k < 13
    requires Wired(CounterChip(n, i), |s.nets|)
    ensures SlotDrive(CounterChip(n, i), s.nets, k) ==
              if k < 7 then Drive(if k < 4 then false else if k < 6 then true else s.nets[RippleIn(n, i)].val,
                                  if k < 5 then 4 else 2)
              else if k == 12 then Drive(s.nets[RippleIn(n, i)].val && CounterFull(CounterChip(n, i), s.nets), 5)
              else Keep
  {
  }

  // ---- Digits ----

  lemma {:induction false} BitStays(n: nat, tr: seq<State>, i: nat, b: nat, u: nat, t: int)
    requires Idle(n, tr) && i < n && b < 4 && u < |tr| - 1 && t >= 0
    requires Q(i, b) < 3 + 12 * n && Ok(Counter(n), tr[u]) && Ok(Counter(n), tr[0])
    ensures Ahead(Counter(n), tr[u], Q(i, b), t) == tr[0].nets[Q(i, b)].val
    decreases u
  {
    hide SlotDrive, Ahead, SoleDriver, Idle, Rising, Q;
    IdleState(n, tr, i, u);
    BitTarget(n, i, b);
    if u == 0 {
      StartSlots(n, tr[0], i, 7 + b);
      StartAhead(Counter(n), tr, Q(i, b), i, 7 + b, t);
    } else {
      IdleState(n, tr, i, u - 1);
      BitStays(n, tr, i, b, u - 1, t + 1);
      QuietSlots(n, tr[u], i, 7 + b);
      AheadNext(Counter(n), tr, Q(i, b), i, 7 + b, u, t);
    }
  }

  lemma BitKept(n: nat, tr: seq<State>, i: nat, b: nat, u: nat)
    requires Idle(n, tr) && i < n && b < 4 && u < |tr|
    ensures Q(i, b) < |tr[u].nets| && Q(i, b) < |tr[0].nets| && tr[u].nets[Q(i, b)].val == tr[0].nets[Q(i, b)].val
  {
    hide SlotDrive, Ahead, SoleDriver, Idle, Rising, Q;
    IdleState(n, tr, i, u);
    IdleState(n, tr, i, 0);
    BitTarget(n, i, b);
    if u > 0 {
      IdleState(n, tr, i, u - 1);
      AheadNext(Counter(n), tr, Q(i, b), i, 7 + b, u, 0);
      BitStays(n, tr, i, b, u - 1, 1);
    }
  }

  lemma FullStays(n: nat, tr: seq<State>, ds: seq<nat>, i: nat, u: nat)
    requires Idle(n, tr) && i < n && u < |tr| && |tr[0].nets| == 3 + 12 * n && ds == DigitsShown(n, tr[0])
    requires Wired(CounterChip(n, i), |tr[u].nets|)
    ensures CounterFull(CounterChip(n, i), tr[u].nets) == (ds[i] == 15)
  {
    hide Idle, Bit, ShownDigit;
    ShownBit(n, tr[0], i, 0);
    ShownBit(n, tr[0], i, 1);
    ShownBit(n, tr[0], i, 2);
    ShownBit(n, tr[0], i, 3);
    BitKept(n, tr, i, 0, u);
    BitKept(n, tr, i, 1, u);
    BitKept(n, tr, i, 2, u);
    BitKept(n, tr, i, 3, u);
    FullDigit(ds[i]);
  }

  // ---- Ripple nets ----

  lemma RippleInLevel(n: nat, s: State, i: nat)
    requires i < n && |s.nets| == 3 + 12 * n && s.nets[VCC].val
    ensures i == 0 ==> RippleLevel(n, s, i)
    ensures i > 0 ==> R(n, i - 1) < |s.nets| && RippleLevel(n, s, i) == s.nets[R(n, i - 1)].val
  {
  }

  lemma InputKept(n: nat, tr: seq<State>, i: nat, u: nat)
    requires Idle(n, tr) && i < n && 0 < u < |tr| && |tr[u].nets| == |tr[u - 1].nets| == 3 + 12 * n
    ensures !tr[u].nets[RippleIn(n, i)].changed ==> RippleLevel(n, tr[u], i) == RippleLevel(n, tr[u - 1], i)
  {
    hide SlotDrive, Ahead, Idle, Rising, R, CounterChip, RippleIn;
    IdleState(n, tr, i, u);
    IdleState(n, tr, i, u - 1);
    RippleInLevel(n, tr[u], i);
    RippleInLevel(n, tr[u - 1], i);
    if i > 0 {
      RippleBound(n, i - 1);
      RippleInNet(n, tr[u], i);
      IdleState(n, tr, i - 1, u);
      RippleAhead(n, tr, i - 1, u, 0);
    }
  }

  /** The pending value of a ripple net is what the chip makes of its ripple input. */
  lemma {:induction false} StartTracks(n: nat, tr: seq<State>, ds: seq<nat>, i: nat, u: nat, t: int)
    requires Idle(n, tr) && i < n && u < |tr| - 1 && t >= 5 && |tr[0].nets| == 3 + 12 * n && ds == DigitsShown(n, tr[0])
    requires R(n, i) < 3 + 12 * n && Ok(Counter(n), tr[u])
    ensures Ahead(Counter(n), tr[u], R(n, i), t) == (RippleLevel(n, tr[u], i) && ds[i] == 15)
    decreases u
  {
    hide SlotDrive, Ahead, Idle, Rising, R, CounterFull, ShownDigit, RippleIn;
    IdleState(n, tr, i, u);
    FullStays(n, tr, ds, i, u);
    if u == 0 {
      StartSlots(n, tr[0], i, 11);
      StartSlots(n, tr[0], i, 12);
      RipplePosted(n, tr[0], i, t);
    } else {
      IdleState(n, tr, i, u - 1);
      RippleAhead(n, tr, i, u, t);
      QuietSlots(n, tr[u], i, 11);
      QuietSlots(n, tr[u], i, 12);
      InputKept(n, tr, i, u);
      StartTracks(n, tr, ds, i, u - 1, t + 1);
    }
  }

  lemma CarryUp(ds: seq<nat>, i: nat)
    requires i < |ds|
    ensures Carry(ds, i + 1) <==> Carry(ds, i) && ds[i] == 15
  {
  }

  /** It settles five steps after the one below. */
  lemma {:induction false} StartShrinks(n: nat, tr: seq<State>, ds: seq<nat>, i: nat, u: nat, t: int)
    requires Idle(n, tr) && i < n && 5 * i <= u < |tr| - 1 && |tr[0].nets| == 3 + 12 * n && ds == DigitsShown(n, tr[0])
    requires t >= 1 && t >= 5 - (u - 5 * i)
    requires R(n, i) < 3 + 12 * n && Ok(Counter(n), tr[u])
    ensures Ahead(Counter(n), tr[u], R(n, i), t) == Carry(ds, i + 1)
    decreases i, 1, u
  {
    hide SlotDrive, Ahead, Idle, Rising, R, CounterFull, ShownDigit, RippleIn, Carry;
    IdleState(n, tr, i, u);
    StartLevel(n, tr, ds, i, u);
    CarryUp(ds, i);
    if u == 5 * i {
      StartTracks(n, tr, ds, i, u, t);
    } else {
      IdleState(n, tr, i, u - 1);
      FullStays(n, tr, ds, i, u);
      RippleAhead(n, tr, i, u, t);
      QuietSlots(n, tr[u], i, 11);
      QuietSlots(n, tr[u], i, 12);
      StartShrinks(n, tr, ds, i, u - 1, t + 1);
    }
  }

  lemma StartRipple(n: nat, tr: seq<State>, ds: seq<nat>, i: nat, u: nat)
    requires Idle(n, tr) && i < n && 5 * i + 5 <= u < |tr| && |tr[0].nets| == 3 + 12 * n && ds == DigitsShown(n, tr[0])
    ensures R(n, i) < |tr[u].nets| && tr[u].nets[R(n, i)].val == Carry(ds, i + 1)
    decreases i, 2
  {
    hide SlotDrive, Ahead, Idle, Rising, R, ShownDigit, Carry, CounterChip, CounterFull;
    IdleState(n, tr, i, u);
    IdleState(n, tr, i, u - 1);
    RippleBound(n, i);
    RippleAhead(n, tr, i, u, 0);
    StartShrinks(n, tr, ds, i, u - 1, 1);
  }

  lemma CarryNone(ds: seq<nat>)
    ensures Carry(ds, 0)
  {
  }

  /** The ripple input of chip `i` has settled after `5i` steps. */
  lemma StartLevel(n: nat, tr: seq<State>, ds: seq<nat>, i: nat, u: nat)
    requires Idle(n, tr) && i < n && 5 * i <= u < |tr| && |tr[0].nets| == 3 + 12 * n && ds == DigitsShown(n, tr[0])
    ensures |tr[u].nets| == 3 + 12 * n && RippleLevel(n, tr[u], i) == Carry(ds, i)
    decreases i, 0
  {
    hide SlotDrive, Ahead, Idle, Rising, R, ShownDigit, Carry, RippleIn, CounterChip;
    IdleState(n, tr, i, u);
    RippleInLevel(n, tr[u], i);
    if i > 0 {
      StartRipple(n, tr, ds, i - 1, u);
    } else {
      CarryNone(ds);
    }
  }

  // ---- Local nets ----

  lemma FirstConstant(n: nat, tr: seq<State>, ds: seq<nat>, i: nat, k: nat, t: int)
    requires Idle(n, tr) && i < n && k < 6 && 1 < |tr| && t >= 4 && |ds| == n
    requires LocalBase(n, i) + k < 3 + 12 * n && Ok(Counter(n), tr[0])
    ensures Ahead(Counter(n), tr[0], LocalBase(n, i) + k, t) == LocalLevel(ds, i, k)
  {
    hide SlotDrive, Ahead, SoleDriver, Idle, Rising, LocalBase, Carry;
    IdleState(n, tr, i, 0);
    LocalTarget(n, i, k);
    StartSlots(n, tr[0], i, k);
    StartAhead(Counter(n), tr, LocalBase(n, i) + k, i, k, t);
  }

  lemma NextConstant(n: nat, tr: seq<State>, i: nat, k: nat, u: nat, t: int)
    requires Idle(n, tr) && i < n && k < 6 && 0 < u < |tr| - 1 && t >= 0
    requires LocalBase(n, i) + k < 3 + 12 * n && Ok(Counter(n), tr[u]) && Ok(Counter(n), tr[u - 1])
    ensures Ahead(Counter(n), tr[u], LocalBase(n, i) + k, t) == Ahead(Counter(n), tr[u - 1], LocalBase(n, i) + k, t + 1)
  {
    hide SlotDrive, Ahead, SoleDriver, Idle, Rising, LocalBase;
    IdleState(n, tr, i, u);
    LocalTarget(n, i, k);
    QuietSlots(n, tr[u], i, k);
    AheadNext(Counter(n), tr, LocalBase(n, i) + k, i, k, u, t);
  }

  /** The local copies of the constant inputs have their level after four steps. */
  lemma {:induction false} StartConstant(n: nat, tr: seq<State>, ds: seq<nat>, i: nat, k: nat, u: nat, t: int)
    requires Idle(n, tr) && i < n && k < 6 && u < |tr| - 1 && t >= 0 && t + u >= 4 && |ds| == n
    requires LocalBase(n, i) + k < 3 + 12 * n && Ok(Counter(n), tr[u])
    ensures Ahead(Counter(n), tr[u], LocalBase(n, i) + k, t) == LocalLevel(ds, i, k)
    decreases u
  {
    hide Ahead, Idle, LocalBase, LocalLevel, Counter;
    if u == 0 {
      FirstConstant(n, tr, ds, i, k, t);
    } else {
      IdleState(n, tr, i, u - 1);
      StartConstant(n, tr, ds, i, k, u - 1, t + 1);
      NextConstant(n, tr, i, k, u, t);
    }
  }

  /** The local copy of the ripple input follows it two steps behind. */
  lemma {:induction false} StartRippleLocal(n: nat, tr: seq<State>, i: nat, u: nat, t: int)
    requires Idle(n, tr) && i < n && u < |tr| - 1 && t >= 2
    requires LocalBase(n, i) + 6 < 3 + 12 * n && Ok(Counter(n), tr[u])
    ensures |tr[u].nets| == 3 + 12 * n && Ahead(Counter(n), tr[u], LocalBase(n, i) + 6, t) == RippleLevel(n, tr[u], i)
    decreases u
  {
    hide SlotDrive, Ahead, SoleDriver, Idle, Rising, LocalBase, RippleIn;
    IdleState(n, tr, i, u);
    LocalTarget(n, i, 6);
    var m := LocalBase(n, i) + 6;
    if u == 0 {
      StartSlots(n, tr[0], i, 6);
      StartAhead(Counter(n), tr, m, i, 6, t);
    } else {
      IdleState(n, tr, i, u - 1);
      StartRippleLocal(n, tr, i, u - 1, t + 1);
      LocalQuiet(n, tr, i, u, t);
      InputKept(n, tr, i, u);
    }
  }

  /** One step of that copy. */
  lemma LocalQuiet(n: nat, tr: seq<State>, i: nat, u: nat, t: int)
    requires Idle(n, tr) && i < n && 0 < u < |tr| - 1 && t >= 1
    requires LocalBase(n, i) + 6 < 3 + 12 * n && Ok(Counter(n), tr[u]) && Ok(Counter(n), tr[u - 1])
    ensures |tr[u].nets| == 3 + 12 * n
    ensures Ahead(Counter(n), tr[u], LocalBase(n, i) + 6, t) ==
            if tr[u].nets[RippleIn(n, i)].changed && t >= 2 then RippleLevel(n, tr[u], i)
            else Ahead(Counter(n), tr[u - 1], LocalBase(n, i) + 6, t + 1)
  {
    hide SlotDrive, Ahead, SoleDriver, Idle, Rising, LocalBase, RippleIn, CounterChip, Wired;
    IdleState(n, tr, i, u);
    LocalTarget(n, i, 6);
    QuietSlots(n, tr[u], i, 6);
    AheadNext(Counter(n), tr, LocalBase(n, i) + 6, i, 6, u, t);
  }

  lemma StartLocal(n: nat, tr: seq<State>, ds: seq<nat>, i: nat, k: nat, u: nat, t: int)
    requires Idle(n, tr) && i < n && k < 7 && 5 * n <= u < |tr| - 1 && t >= 1
    requires |tr[0].nets| == 3 + 12 * n && ds == DigitsShown(n, tr[0])
    requires LocalBase(n, i) + k < 3 + 12 * n && Ok(Counter(n), tr[u])
    ensures Ahead(Counter(n), tr[u], LocalBase(n, i) + k, t) == LocalLevel(ds, i, k)
  {
    hide SlotDrive, Ahead, SoleDriver, Idle, Rising, LocalBase, RippleIn, RippleLevel, ShownDigit, Carry, CounterChip;
    if k < 6 {
      StartConstant(n, tr, ds, i, k, u, t);
    } else {
      IdleState(n, tr, i, u);
      IdleState(n, tr, i, u - 1);
      StartRippleLocal(n, tr, i, u - 1, t + 1);
      LocalQuiet(n, tr, i, u, t);
      StartLevel(n, tr, ds, i, u - 1);
      StartLevel(n, tr, ds, i, u);
    }
  }

  // ---- Settled ----

  lemma FlatBit(n: nat, tr: seq<State>, ds: seq<nat>, i: nat, b: nat, u: nat)
    requires Idle(n, tr) && i < n && b < 4 && 0 < u < |tr|
    requires |tr[0].nets| == 3 + 12 * n && ds == DigitsShown(n, tr[0])
    ensures Flat(tr[u], Q(i, b), Bit(ds[i], b))
  {
    hide SlotDrive, Ahead, SoleDriver, Idle, Rising, Q, Bit, ShownDigit;
    IdleState(n, tr, i, u);
    IdleState(n, tr, i, u - 1);
    BitTarget(n, i, b);
    ShownBit(n, tr[0], i, b);
    BitKept(n, tr, i, b, u);
    forall t: nat
      ensures Future(tr[u].sched, Q(i, b), tr[u].nets[Q(i, b)].val, t) == Bit(ds[i], b)
    {
      FutureNext(Counter(n), tr, Q(i, b), i, 7 + b, u, t);
      BitStays(n, tr, i, b, u - 1, t + 1);
    }
  }

  lemma FlatRipple(n: nat, tr: seq<State>, ds: seq<nat>, i: nat, u: nat)
    requires Idle(n, tr) && i < n && 5 * n < u < |tr| && |tr[0].nets| == 3 + 12 * n && ds == DigitsShown(n, tr[0])
    ensures Flat(tr[u], R(n, i), Carry(ds, i + 1)) && !tr[u].nets[R(n, i)].changed
  {
    hide SlotDrive, Ahead, Idle, Rising, R, ShownDigit, Carry, CounterChip, CounterFull;
    IdleState(n, tr, i, u);
    RippleBound(n, i);
    forall t: nat
      ensures Future(tr[u].sched, R(n, i), tr[u].nets[R(n, i)].val, t) == Carry(ds, i + 1)
    {
      RippleFuture(n, tr, ds, i, u, t);
    }
    StartRipple(n, tr, ds, i, u);
    StartRipple(n, tr, ds, i, u - 1);
    IdleState(n, tr, i, u - 1);
    RippleAhead(n, tr, i, u, 0);
  }

  lemma RippleLater(n: nat, tr: seq<State>, i: nat, u: nat, t: int)
    requires Idle(n, tr) && i < n && 0 < u < |tr| && t >= 0 && R(n, i) < 3 + 12 * n
    requires Ok(Counter(n), tr[u - 1]) && |tr[u].nets| == 3 + 12 * n
    ensures Future(tr[u].sched, R(n, i), tr[u].nets[R(n, i)].val, t) == Ahead(Counter(n), tr[u - 1], R(n, i), t + 1)
  {
    hide SlotDrive, Ahead, Idle, Rising, R;
    IdleState(n, tr, i, u);
    RippleAhead(n, tr, i, u, t);
  }

  lemma RippleFuture(n: nat, tr: seq<State>, ds: seq<nat>, i: nat, u: nat, t: nat)
    requires Idle(n, tr) && i < n && 5 * n < u < |tr| && |tr[0].nets| == 3 + 12 * n && ds == DigitsShown(n, tr[0])
    ensures R(n, i) < |tr[u].nets| && Future(tr[u].sched, R(n, i), tr[u].nets[R(n, i)].val, t) == Carry(ds, i + 1)
  {
    hide SlotDrive, Ahead, Idle, Rising, R, ShownDigit, DigitsShown, Carry, CounterChip, CounterFull, Future, Wired,
         Ok, Trace;
    IdleState(n, tr, i, u);
    IdleState(n, tr, i, u - 1);
    RippleBound(n, i);
    RippleLater(n, tr, i, u, t);
    assert Ahead(Counter(n), tr[u - 1], R(n, i), t + 1) == Carry(ds, i + 1) by {
      StartShrinks(n, tr, ds, i, u - 1, t + 1);
    }
  }

  lemma FlatLocal(n: nat, tr: seq<State>, ds: seq<nat>, i: nat, k: nat, u: nat)
    requires Idle(n, tr) && i < n && k < 7 && 5 * n < u < |tr| && |tr[0].nets| == 3 + 12 * n &&
             ds == DigitsShown(n, tr[0])
    ensures Flat(tr[u], LocalBase(n, i) + k, LocalLevel(ds, i, k))
  {
    hide SlotDrive, Ahead, SoleDriver, Idle, Rising, LocalBase, LocalLevel, ShownDigit;
    IdleState(n, tr, i, u);
    IdleState(n, tr, i, u - 1);
    LocalTarget(n, i, k);
    var m := LocalBase(n, i) + k;
    forall t: nat
      ensures Future(tr[u].sched, m, tr[u].nets[m].val, t) == LocalLevel(ds, i, k)
      ensures tr[u].nets[m].val == LocalLevel(ds, i, k)
    {
      FutureNext(Counter(n), tr, m, i, k, u, t);
      StartLocal(n, tr, ds, i, k, u - 1, t + 1);
      StartLocal(n, tr, ds, i, k, u - 1, 1);
    }
    assert Future(tr[u].sched, m, tr[u].nets[m].val, 0) == LocalLevel(ds, i, k);
  }

  /** With no clock edge the chain is settled at its declared digits after `5n + 1` steps. */
  lemma StartReady(n: nat, tr: seq<State>, u: nat)
    requires Idle(n, tr) && n > 0 && 5 * n < u < |tr| && |tr[0].nets| == 3 + 12 * n
    ensures Ready(n, tr[u], DigitsShown(n, tr[0]))
  {
    hide Idle, Flat, Bit, Q, R, LocalBase, LocalLevel, Carry, ShownDigit;
    var ds, s := DigitsShown(n, tr[0]), tr[u];
    IdleState(n, tr, 0, u);
    forall i, b | 0 <= i < n && 0 <= b < 4
      ensures ds[i] < 16 && Flat(s, Q(i, b), Bit(ds[i], b))
    {
      ShownBit(n, tr[0], i, b);
      FlatBit(n, tr, ds, i, b, u);
    }
    forall i | 0 <= i < n
      ensures ds[i] < 16
    {
      ShownBit(n, tr[0], i, 0);
    }
    forall i | 0 <= i < n
      ensures R(n, i) < |s.nets|
    {
      RippleBound(n, i);
    }
    forall i | 0 <= i < n
      ensures Flat(s, R(n, i), Carry(ds, i + 1)) && !s.nets[R(n, i)].changed
    {
      FlatRipple(n, tr, ds, i, u);
    }
    forall i, k | 0 <= i < n && 0 <= k < 7
      ensures Flat(s, LocalBase(n, i) + k, LocalLevel(ds, i, k))
    {
      FlatLocal(n, tr, ds, i, k, u);
    }
  }

  /** The digits up to digit `i` are all 15. */
  predicate FullUpTo(n: nat, s: State, i: nat)
    requires |s.nets| == 3 + 12 * n && i < n
  {
    forall j: nat :: j <= i ==> ShownDigit(n, s, j) == 15
  }

  /** From the start of the simulator: with the first clock edge at least `5n + 1` steps away and the others `5n + 4`
      apart, the outputs count on from the declared number, modulo `16^n`, and each ripple net settles to whether the
      digits up to its own are all 15. */
  lemma CountsFromStart(n: nat, tr: seq<State>, first: nat, edges: seq<nat>, k: nat, u: nat)
    requires n > 0 && 5 * n < first < |tr| && Idle(n, tr[..first + 1])
    requires EdgesAt(n, tr[first..], edges) && edges[0] == 0 && k < |edges| && SinceEdge(tr[first..], edges[k], u)
    ensures first + u < |tr| && |tr[first + u].nets| == |tr[0].nets| == 3 + 12 * n
    ensures Shown(n, tr[first + u]) == (Shown(n, tr[0]) + if u >= edges[k] + 5 then k + 1 else k) % Pow16(n)
    ensures forall i: nat :: i < n && u >= edges[k] + Lag(i) ==>
              R(n, i) < 3 + 12 * n && (tr[first + u].nets[R(n, i)].val <==> FullUpTo(n, tr[first + u], i))
  {
    hide Idle, EdgesAt, Ready, R, ShownDigit, Lag, Value, Pow16;
    var head := tr[..first + 1];
    assert head[0] == tr[0] && head[first] == tr[first] && tr[first..][0] == tr[first];
    IdleState(n, head, 0, 0);
    StartReady(n, head, first);
    CounterCounts(n, tr[first..], edges, DigitsShown(n, tr[0]), k, u);
    SameShown(n, tr[0]);
  }

  lemma SameShown(n: nat, s: State)
    requires |s.nets| == 3 + 12 * n
    ensures Shown(n, s) == Value(DigitsShown(n, s))
  {
    assert seq(n, i requires 0 <= i < n => ShownDigit(n, s, i)) == DigitsShown(n, s);
  }
}
