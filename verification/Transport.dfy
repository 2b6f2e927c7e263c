/** Event-driven evaluation loses nothing, and a gate with one delay is a pure transport delay. */
module Transport {
  import opened Schedule
  import opened Chips
  import opened Simulation

  /** Net `n` is the combinational slot `k` of chip `i` and of no other. */
  ghost predicate Follows(c: Circuit, n: nat, i: nat, k: nat)
    requires WellFormed(c)
  {
    n < c.total && SoleDriver(c, n, i, k) && Combinational(c.chips[i].kind, k)
  }

  /** From `t` steps ahead on, the waveform of net `n` is `x`. */
  ghost predicate Settles(s: seq<Update>, n: nat, cur: bool, t: int, x: bool) {
    forall u: int :: u >= t ==> Future(s, n, cur, u) == x
  }

  /** Either an input change is still to be handled, or the pending waveform already ends, within the
      delay of the slot, in the function of the current inputs. */
  ghost predicate CaughtUp(c: Circuit, s: State, n: nat, i: nat, k: nat)
    requires WellFormed(c) && Ok(c, s) && Follows(c, n, i, k)
  {
    || SlotDrive(c.chips[i], s.nets, k).Drive?
    || Settles(s.sched, n, s.nets[n].val, MaxDelay(c.chips[i].kind, k), SlotEval(c.chips[i], s.nets, k))
  }

  lemma PostedCaughtUp(c: Circuit, s: State, n: nat, i: nat, k: nat)
    requires WellFormed(c) && Ok(c, s) && Follows(c, n, i, k)
    requires Enabled(c.chips[i], s.nets) && CaughtUp(c, s, n, i, k)
    ensures Settles(Posted(c, s), n, s.nets[n].val, MaxDelay(c.chips[i].kind, k), SlotEval(c.chips[i], s.nets, k))
  {
    var chip := c.chips[i];
    forall u: int | u >= MaxDelay(chip.kind, k)
      ensures Future(Posted(c, s), n, s.nets[n].val, u) == SlotEval(chip, s.nets, k)
    {
      SolePosted(c, s, n, i, k, u);
      if SlotDrive(chip, s.nets, k).Drive? {
        DriveIsEval(chip, s.nets, k);
      }
    }
  }

  /** After a step the waveform ends in the function of the inputs as they were before it. */
  lemma NextSettles(c: Circuit, s: State, s': State, n: nat, i: nat, k: nat)
    requires WellFormed(c) && Ok(c, s) && Next(c, s, s') && Follows(c, n, i, k)
    requires Enabled(c.chips[i], s.nets) && CaughtUp(c, s, n, i, k)
    ensures Settles(s'.sched, n, s'.nets[n].val, MaxDelay(c.chips[i].kind, k) - 1, SlotEval(c.chips[i], s.nets, k))
  {
    PostedCaughtUp(c, s, n, i, k);
    var d := MaxDelay(c.chips[i].kind, k);
    forall u: int | u >= d - 1
      ensures Future(s'.sched, n, s'.nets[n].val, u) == SlotEval(c.chips[i], s.nets, k)
    {
      assert Driven(c, n);
      NextNet(c, s, s', n, u);
    }
  }

  /** Nothing is lost from one state to the next, whatever is done to undriven nets in between. */
  lemma NextCaughtUp(c: Circuit, s: State, s': State, n: nat, i: nat, k: nat)
    requires WellFormed(c) && Ok(c, s) && Next(c, s, s') && Follows(c, n, i, k)
    requires Enabled(c.chips[i], s.nets) && Enabled(c.chips[i], s'.nets) && CaughtUp(c, s, n, i, k)
    ensures Ok(c, s') && CaughtUp(c, s', n, i, k)
  {
    NextOk(c, s, s');
    NextSettles(c, s, s', n, i, k);
    var chip := c.chips[i];
    if SlotDrive(chip, s'.nets, k).Keep? {
      assert ChipFits(c, chip);
      forall p | 0 <= p < |chip.inp| && !InChanged(chip, s'.nets, p)
        ensures In(chip, s'.nets, p) == In(chip, s.nets, p)
      {
        NextExplains(c, s, s', chip.inp[p]);
      }
      KeepIsStable(chip, s.nets, s'.nets, k);
    }
  }

  lemma InitialCaughtUp(c: Circuit, s: State, n: nat, i: nat, k: nat)
    requires WellFormed(c) && Initial(c, s) && Follows(c, n, i, k) && Enabled(c.chips[i], s.nets)
    ensures Ok(c, s) && CaughtUp(c, s, n, i, k)
  {
    var chip := c.chips[i];
    assert ChipFits(c, chip);
    forall p | 0 <= p < |chip.inp|
      ensures InChanged(chip, s.nets, p)
    {
      assert chip.inp[p] < c.netLen;
    }
    AllChangedDrives(chip, s.nets, k);
  }

  lemma AllChangedDrives(chip: Chip, nets: seq<Net>, k: nat)
    requires Wired(chip, |nets|) && Combinational(chip.kind, k) && Enabled(chip, nets)
    requires forall p :: 0 <= p < |chip.inp| ==> InChanged(chip, nets, p)
    ensures SlotDrive(chip, nets, k).Drive?
  {
    if chip.kind.HC21? {
      assert InChanged(chip, nets, 4 * k);
    } else if chip.kind.HC30? {
      assert InChanged(chip, nets, 0);
    }
  }

  /** Every state of a run has caught up, provided the multiplexer (if it is one) stays enabled. */
  lemma {:induction false} TraceCaughtUp(c: Circuit, tr: seq<State>, n: nat, i: nat, k: nat, u: nat)
    requires WellFormed(c) && Trace(c, tr) && u < |tr| && Follows(c, n, i, k)
    requires forall j :: 0 <= j < |tr| ==> Enabled(c.chips[i], tr[j].nets)
    requires CaughtUp(c, tr[0], n, i, k)
    ensures CaughtUp(c, tr[u], n, i, k)
  {
    hide CaughtUp, Next, Enabled;
    if u > 0 {
      TraceCaughtUp(c, tr, n, i, k, u - 1);
      TraceStep(c, tr, u);
      NextCaughtUp(c, tr[u - 1], tr[u], n, i, k);
    }
  }

  /** Reachable states: some input is marked changed, or the value net `n` is heading for is the
      function of the current inputs. */
  lemma NothingLost(c: Circuit, tr: seq<State>, n: nat, i: nat, k: nat, u: nat)
    requires WellFormed(c) && Trace(c, tr) && u < |tr| && Initial(c, tr[0]) && Follows(c, n, i, k)
    requires forall j :: 0 <= j < |tr| ==> Enabled(c.chips[i], tr[j].nets)
    ensures (exists p :: 0 <= p < |c.chips[i].inp| && InChanged(c.chips[i], tr[u].nets, p))
         || Final(tr[u].sched, n, tr[u].nets[n].val) == SlotEval(c.chips[i], tr[u].nets, k)
  {
    InitialCaughtUp(c, tr[0], n, i, k);
    TraceCaughtUp(c, tr, n, i, k, u);
    var s, chip := tr[u], c.chips[i];
    if SlotDrive(chip, s.nets, k).Drive? {
      DriveNeedsChange(chip, s.nets, k);
    } else {
      var t := Horizon(s.sched) + MaxDelay(chip.kind, k);
      FutureFinal(s.sched, n, s.nets[n].val, t);
    }
  }

  lemma DriveNeedsChange(chip: Chip, nets: seq<Net>, k: nat)
    requires Wired(chip, |nets|) && k < SlotCount(chip.kind) && SlotDrive(chip, nets, k).Drive?
    ensures (exists p :: 0 <= p < |chip.inp| && InChanged(chip, nets, p))
         || (chip.kind.CLK40M? && nets[chip.out[0].value].changed)
  {
    if Quad(chip.kind) {
      assert InChanged(chip, nets, 2 * k) || InChanged(chip, nets, 2 * k + 1);
    }
  }

  /** An empty schedule with no changed nets is a fixpoint: nothing will ever happen again ... */
  lemma QuietIsFixpoint(c: Circuit, s: State)
    requires WellFormed(c) && Ok(c, s) && s.sched == []
    requires forall m :: 0 <= m < c.netLen ==> !s.nets[m].changed
    ensures Step(c, s) == s
  {
    QuietChips(c, s.nets, 0);
    assert Clear(s.nets, c.netLen) == s.nets;
  }

  lemma {:induction false} QuietChips(c: Circuit, nets: seq<Net>, i: nat)
    requires WellFormed(c) && |nets| == c.total && i <= |c.chips|
    requires forall m :: 0 <= m < c.netLen ==> !nets[m].changed
    ensures DriveChips(c.chips, nets, [], i) == []
    decreases |c.chips| - i
  {
    if i < |c.chips| {
      var chip := c.chips[i];
      assert ChipFits(c, chip);
      forall k: nat | k < SlotCount(chip.kind)
        ensures SlotDrive(chip, nets, k).Keep?
      {
        if SlotDrive(chip, nets, k).Drive? {
          DriveNeedsChange(chip, nets, k);
        }
      }
      QuietSlots(chip, nets, 0);
      QuietChips(c, nets, i + 1);
    }
  }

  lemma {:induction false} QuietSlots(chip: Chip, nets: seq<Net>, k: nat)
    requires Wired(chip, |nets|) && k <= SlotCount(chip.kind)
    requires forall j: nat :: j < SlotCount(chip.kind) ==> SlotDrive(chip, nets, j).Keep?
    ensures DriveFrom(chip, nets, [], k) == []
    decreases SlotCount(chip.kind) - k
  {
    if k < SlotCount(chip.kind) {
      QuietSlots(chip, nets, k + 1);
    }
  }

  /** ... and in it every combinational net has the value of its function. */
  lemma QuietIsConsistent(c: Circuit, tr: seq<State>, n: nat, i: nat, k: nat, u: nat)
    requires WellFormed(c) && Trace(c, tr) && u < |tr| && Initial(c, tr[0]) && Follows(c, n, i, k)
    requires forall j :: 0 <= j < |tr| ==> Enabled(c.chips[i], tr[j].nets)
    requires tr[u].sched == [] && forall m :: 0 <= m < c.netLen ==> !tr[u].nets[m].changed
    ensures tr[u].nets[n].val == SlotEval(c.chips[i], tr[u].nets, k)
  {
    NothingLost(c, tr, n, i, k, u);
    assert ChipFits(c, c.chips[i]);
  }

  // ---- Transport delay ----

  /** What was posted for `d` steps ahead at state `u` is still in the waveform `j` steps later. */
  lemma {:induction false} InFlight(c: Circuit, tr: seq<State>, n: nat, i: nat, k: nat, u: nat, j: nat)
    requires WellFormed(c) && Trace(c, tr) && Follows(c, n, i, k) && Uniform(c.chips[i].kind, k)
    requires j < MaxDelay(c.chips[i].kind, k) && u + j < |tr| && CaughtUp(c, tr[u], n, i, k)
    ensures Future(Posted(c, tr[u + j]), n, tr[u + j].nets[n].val, MaxDelay(c.chips[i].kind, k) - j)
         == SlotEval(c.chips[i], tr[u].nets, k)
  {
    hide Posted, SlotEval, SlotDrive, Next;
    var d := MaxDelay(c.chips[i].kind, k);
    if j == 0 {
      PostedCaughtUp(c, tr[u], n, i, k);
    } else {
      InFlight(c, tr, n, i, k, u, j - 1);
      assert Driven(c, n);
      TraceStep(c, tr, u + j);
      NextNet(c, tr[u + j - 1], tr[u + j], n, d - j);
      StartPosted(c, tr[u + j], n, i, k, d - j);
    }
  }

  /** The output of a uniform-delay slot is its function of the inputs `d` steps earlier, at every time
      of every run, although the slot is evaluated only when an input is marked changed. */
  lemma TransportDelay(c: Circuit, tr: seq<State>, n: nat, i: nat, k: nat, u: nat)
    requires WellFormed(c) && Trace(c, tr) && |tr| > 0 && Initial(c, tr[0])
    requires Follows(c, n, i, k) && Uniform(c.chips[i].kind, k)
    requires u + MaxDelay(c.chips[i].kind, k) < |tr|
    ensures tr[u + MaxDelay(c.chips[i].kind, k)].nets[n].val == SlotEval(c.chips[i], tr[u].nets, k)
  {
    var d := MaxDelay(c.chips[i].kind, k);
    InitialCaughtUp(c, tr[0], n, i, k);
    TraceCaughtUp(c, tr, n, i, k, u);
    InFlight(c, tr, n, i, k, u, d - 1);
    assert Driven(c, n);
    TraceStep(c, tr, u + d);
    NextNet(c, tr[u + d - 1], tr[u + d], n, 0);
  }

  lemma StartPosted(c: Circuit, s: State, n: nat, i: nat, k: nat, t: int)
    requires WellFormed(c) && Ok(c, s) && Follows(c, n, i, k) && Uniform(c.chips[i].kind, k)
    requires t < MaxDelay(c.chips[i].kind, k)
    ensures Future(Posted(c, s), n, s.nets[n].val, t) == Future(s.sched, n, s.nets[n].val, t)
  {
    SolePosted(c, s, n, i, k, t);
    if SlotDrive(c.chips[i], s.nets, k).Drive? {
      DriveIsEval(c.chips[i], s.nets, k);
    }
  }

  /** Before its delay has passed, the output still has its declared value. */
  lemma {:induction false} TransportStart(c: Circuit, tr: seq<State>, n: nat, i: nat, k: nat, u: nat)
    requires WellFormed(c) && Trace(c, tr) && |tr| > 0 && Initial(c, tr[0])
    requires Follows(c, n, i, k) && Uniform(c.chips[i].kind, k)
    requires u < MaxDelay(c.chips[i].kind, k) && u < |tr|
    ensures forall t: int :: 0 <= t < MaxDelay(c.chips[i].kind, k) - u ==>
              Future(tr[u].sched, n, tr[u].nets[n].val, t) == tr[0].nets[n].val
    ensures tr[u].nets[n].val == tr[0].nets[n].val
  {
    hide Posted, SlotEval, SlotDrive, Next;
    if u > 0 {
      TransportStart(c, tr, n, i, k, u - 1);
      TraceStep(c, tr, u);
      assert Driven(c, n);
      forall t: int | 0 <= t < MaxDelay(c.chips[i].kind, k) - u
        ensures Future(tr[u].sched, n, tr[u].nets[n].val, t) == tr[0].nets[n].val
      {
        NextNet(c, tr[u - 1], tr[u], n, t);
        StartPosted(c, tr[u - 1], n, i, k, t + 1);
      }
      NextNet(c, tr[u - 1], tr[u], n, 0);
      StartPosted(c, tr[u - 1], n, i, k, 1);
    }
  }
}
