/** The clocked chips over whole runs: the 74HC377 register and the CLK40M oscillator. */
module Clocked {
  import opened Wrappers
  import opened Schedule
  import opened Chips
  import opened Simulation
  import opened Transport

  // ---- Slots whose every update has the same delay ----

  ghost predicate DrivesAfter(c: Circuit, tr: seq<State>, n: nat, i: nat, k: nat, d: nat)
    requires WellFormed(c) && Trace(c, tr) && n < c.total && SoleDriver(c, n, i, k)
  {
    forall u :: 0 <= u < |tr| && SlotDrive(c.chips[i], tr[u].nets, k).Drive? ==>
      SlotDrive(c.chips[i], tr[u].nets, k).delay == d
  }

  /** The value net `n` is going to have `t` steps after state `s`, once the chips have posted. */
  ghost function Ahead(c: Circuit, s: State, n: nat, t: int): bool
    requires WellFormed(c) && Ok(c, s) && n < c.total
  {
    Future(Posted(c, s), n, s.nets[n].val, t)
  }

  lemma AheadNext(c: Circuit, tr: seq<State>, n: nat, i: nat, k: nat, u: nat, t: int)
    requires WellFormed(c) && Trace(c, tr) && n < c.total && SoleDriver(c, n, i, k) && 0 < u < |tr| && t >= 0
    ensures Ahead(c, tr[u], n, t)
         == DriveWave(SlotDrive(c.chips[i], tr[u].nets, k), t, Ahead(c, tr[u - 1], n, t + 1))
    ensures tr[u].nets[n].val == Ahead(c, tr[u - 1], n, 1)
  {
    hide SlotDrive, Posted, Next;
    TraceStep(c, tr, u);
    assert Driven(c, n);
    NextNet(c, tr[u - 1], tr[u], n, t);
    SolePosted(c, tr[u], n, i, k, t);
  }

  lemma FutureNext(c: Circuit, tr: seq<State>, n: nat, i: nat, k: nat, u: nat, t: int)
    requires WellFormed(c) && Trace(c, tr) && n < c.total && SoleDriver(c, n, i, k) && 0 < u < |tr| && t >= 0
    requires Ok(c, tr[u - 1]) && |tr[u].nets| == c.total
    ensures Future(tr[u].sched, n, tr[u].nets[n].val, t) == Ahead(c, tr[u - 1], n, t + 1)
    ensures tr[u].nets[n].val == Ahead(c, tr[u - 1], n, 1)
  {
    hide SlotDrive, Posted, Next;
    TraceStep(c, tr, u);
    assert Driven(c, n);
    NextNet(c, tr[u - 1], tr[u], n, t);
  }

  /** Later posts, all with delay `d`, cannot disturb what lands before they do. */
  lemma {:induction false} Undisturbed(c: Circuit, tr: seq<State>, n: nat, i: nat, k: nat, d: nat, u: nat, p: nat,
                                       j: nat)
    requires WellFormed(c) && Trace(c, tr) && n < c.total && SoleDriver(c, n, i, k) && DrivesAfter(c, tr, n, i, k, d)
    requires j < p <= d && u + j < |tr|
    ensures Ahead(c, tr[u + j], n, p - j) == Ahead(c, tr[u], n, p)
  {
    hide SlotDrive, Ahead, Trace;
    if j > 0 {
      Undisturbed(c, tr, n, i, k, d, u, p, j - 1);
      AheadNext(c, tr, n, i, k, u + j, p - j);
    }
  }

  /** Nothing is pending beyond the delay of the slot. */
  lemma {:induction false} NothingBeyond(c: Circuit, tr: seq<State>, n: nat, i: nat, k: nat, d: nat, u: nat, t: int)
    requires WellFormed(c) && Trace(c, tr) && n < c.total && SoleDriver(c, n, i, k) && DrivesAfter(c, tr, n, i, k, d)
    requires u < |tr| && Initial(c, tr[0]) && t >= d >= 1
    ensures Ahead(c, tr[u], n, t) == Ahead(c, tr[u], n, d)
    ensures SlotDrive(c.chips[i], tr[u].nets, k).Keep? && d >= 2 ==> Ahead(c, tr[u], n, d) == Ahead(c, tr[u], n, d - 1)
    decreases u
  {
    hide SlotDrive, Ahead, Trace;
    if u == 0 {
      StartAhead(c, tr, n, i, k, t);
      StartAhead(c, tr, n, i, k, d);
      StartAhead(c, tr, n, i, k, d - 1);
    } else {
      NothingBeyond(c, tr, n, i, k, d, u - 1, t + 1);
      NothingBeyond(c, tr, n, i, k, d, u - 1, d + 1);
      AheadNext(c, tr, n, i, k, u, t);
      AheadNext(c, tr, n, i, k, u, d);
      AheadNext(c, tr, n, i, k, u, d - 1);
    }
  }

  lemma StartAhead(c: Circuit, tr: seq<State>, n: nat, i: nat, k: nat, t: int)
    requires WellFormed(c) && Trace(c, tr) && |tr| > 0 && n < c.total && SoleDriver(c, n, i, k) && Initial(c, tr[0])
    ensures Ahead(c, tr[0], n, t) == DriveWave(SlotDrive(c.chips[i], tr[0].nets, k), t, tr[0].nets[n].val)
  {
    hide SlotDrive, Posted;
    SolePosted(c, tr[0], n, i, k, t);
  }

  /** A slot that always posts `d` steps ahead: its net changes exactly `d` steps after a post, to the
      posted value, and is unchanged by every step `d` after a step without a post. */
  lemma DelayedBy(c: Circuit, tr: seq<State>, n: nat, i: nat, k: nat, d: nat, u: nat)
    requires WellFormed(c) && Trace(c, tr) && n < c.total && SoleDriver(c, n, i, k) && DrivesAfter(c, tr, n, i, k, d)
    requires d >= 2 && u + d < |tr| && Initial(c, tr[0])
    ensures tr[u + d].nets[n].val ==
              match SlotDrive(c.chips[i], tr[u].nets, k)
              case Drive(v, _) => v
              case Keep => tr[u + d - 1].nets[n].val
  {
    hide SlotDrive, Ahead, Trace;
    Undisturbed(c, tr, n, i, k, d, u, d, d - 1);
    AheadNext(c, tr, n, i, k, u + d, 0);
    Undisturbed(c, tr, n, i, k, d, u, d - 1, d - 2);
    AheadNext(c, tr, n, i, k, u + d - 1, 0);
    NothingBeyond(c, tr, n, i, k, d, u, d);
    if SlotDrive(c.chips[i], tr[u].nets, k).Drive? {
      DriveAhead(c, tr[u], n, i, k, d);
    }
  }

  lemma DriveAhead(c: Circuit, s: State, n: nat, i: nat, k: nat, d: nat)
    requires WellFormed(c) && Ok(c, s) && n < c.total && SoleDriver(c, n, i, k)
    requires SlotDrive(c.chips[i], s.nets, k).Drive? && SlotDrive(c.chips[i], s.nets, k).delay == d
    ensures Ahead(c, s, n, d) == SlotDrive(c.chips[i], s.nets, k).val
  {
    hide SlotDrive, Posted;
    SolePosted(c, s, n, i, k, d);
  }

  // ---- The 74HC377 register ----

  /** Chip `i` is a register whose bit `j` appears on net `q`; nobody else drives `q` or its local nets. */
  ghost predicate RegisterBit(c: Circuit, i: nat, j: nat, q: nat)
    requires WellFormed(c)
  {
    && i < |c.chips| && c.chips[i].kind.HC377? && j < 8 && q < c.total
    && SoleDriver(c, q, i, 9 + j)
    && SoleDriver(c, c.chips[i].local + j, i, j) && SoleDriver(c, c.chips[i].local + 8, i, 8)
  }

  /** The register sees its clock high and freshly changed. */
  predicate RisingClock(chip: Chip, nets: seq<Net>)
    requires Wired(chip, |nets|) && chip.kind.HC377?
  {
    InChanged(chip, nets, 9) && In(chip, nets, 9)
  }

  /** The register over any run and any clock pattern: 13 ns after a rising clock edge at time `u` it
      holds the data seen at `u - 5` if ~Load was low at `u - 2`; otherwise it does not change then. */
  lemma RegisterLaw(c: Circuit, tr: seq<State>, i: nat, j: nat, q: nat, u: nat)
    requires WellFormed(c) && Trace(c, tr) && RegisterBit(c, i, j, q)
    requires 5 <= u && u + 13 < |tr| && Initial(c, tr[0])
    ensures tr[u + 13].nets[q].val ==
              if RisingClock(c.chips[i], tr[u].nets) && !In(c.chips[i], tr[u - 2].nets, 8)
              then In(c.chips[i], tr[u - 5].nets, j)
              else tr[u + 12].nets[q].val
  {
    hide Next, Posted;
    var chip := c.chips[i];
    assert ChipFits(c, chip);
    TransportDelay(c, tr, chip.local + j, i, j, u - 5);
    TransportDelay(c, tr, chip.local + 8, i, 8, u - 2);
    DelayedBy(c, tr, q, i, 9 + j, 13, u);
  }

  // ---- The CLK40M oscillator ----

  /** Where the oscillator is in its period of 25 ns: what is pending and whether it has just switched. */
  ghost predicate Phase(s: State, n: nat, r: nat)
    requires n < |s.nets|
  {
    && s.nets[n].val == (r >= 13)
    && s.nets[n].changed == (r == 0 || r == 13)
    && forall t: int :: t >= 0 ==> Future(s.sched, n, s.nets[n].val, t) == PhaseAhead(r, t)
  }

  predicate PhaseAhead(r: nat, t: int) {
    if r == 0 then false
    else if r < 13 then t >= 13 - r
    else if r == 13 then true
    else t < 25 - r
  }

  lemma PhaseNext(c: Circuit, s: State, s': State, n: nat, i: nat, r: nat, first: bool)
    requires WellFormed(c) && Ok(c, s) && Next(c, s, s') && n < c.netLen && SoleDriver(c, n, i, 0) &&
             c.chips[i].kind.CLK40M?
    requires In(c.chips[i], s.nets, 0) && (first || !InChanged(c.chips[i], s.nets, 0)) && (first ==> r == 0)
    requires r < 25 && Phase(s, n, r)
    ensures Ok(c, s') && Phase(s', n, (r + 1) % 25)
  {
    hide Posted, Next;
    NextOk(c, s, s');
    assert Driven(c, n);
    var d := SlotDrive(c.chips[i], s.nets, 0);
    assert c.chips[i].out[0] == Some(n);
    SolePosted(c, s, n, i, 0, 1);
    NextNet(c, s, s', n, 0);
    forall t: int | t >= 0
      ensures Future(s'.sched, n, s'.nets[n].val, t) == DriveWave(d, t + 1, Future(s.sched, n, s.nets[n].val, t + 1))
    {
      SolePosted(c, s, n, i, 0, t + 1);
      NextNet(c, s, s', n, t);
    }
  }

  /** With its enable high from the start, the oscillator is high at time `u` iff `u mod 25 >= 13`. */
  lemma {:induction false} OscillatorPeriod(c: Circuit, tr: seq<State>, n: nat, i: nat, u: nat)
    requires WellFormed(c) && Trace(c, tr) && u < |tr| && Initial(c, tr[0])
    requires n < c.netLen && SoleDriver(c, n, i, 0) && c.chips[i].kind.CLK40M? && !tr[0].nets[n].val
    requires forall k :: 0 <= k < |tr| ==>
               In(c.chips[i], tr[k].nets, 0) && (k > 0 ==> !InChanged(c.chips[i], tr[k].nets, 0))
    ensures Phase(tr[u], n, u % 25)
    ensures tr[u].nets[n].val <==> u % 25 >= 13
  {
    hide Phase, Next;
    if u == 0 {
      StartPhase(tr[0], n);
    } else {
      OscillatorPeriod(c, tr, n, i, u - 1);
      TraceStep(c, tr, u);
      PhaseNext(c, tr[u - 1], tr[u], n, i, (u - 1) % 25, u == 1);
    }
    PhaseLevel(tr[u], n, u % 25);
  }

  lemma StartPhase(s: State, n: nat)
    requires n < |s.nets| && s.sched == [] && !s.nets[n].val && s.nets[n].changed
    ensures Phase(s, n, 0)
  {
  }

  lemma PhaseLevel(s: State, n: nat, r: nat)
    requires n < |s.nets| && Phase(s, n, r)
    ensures s.nets[n].val == (r >= 13)
  {
  }
}
