/** Which post decides the value of a net: the last one that has landed. For any delays and any number of slots. */
module Landing {
  import opened Wrappers
  import opened Schedule
  import opened Chips
  import opened Simulation
  import opened Clocked

  // ---- The last post that has landed decides ----

  /** Chip `i` drives net `n`, with one slot or more, and no other chip does. */
  ghost predicate OnlyChip(c: Circuit, n: nat, i: nat)
    requires WellFormed(c)
  {
    n < c.total && i < |c.chips| && Driven(c, n) && forall i': int, k': int :: Drives(c, i', k', n) ==> i' == i
  }

  /** What the chip's posts at time `u` make of a value that the net would have at time `y`. */
  function Wave(c: Circuit, tr: seq<State>, n: nat, i: nat, u: nat, y: int, base: bool): bool
    requires i < |c.chips| && u < |tr| && Wired(c.chips[i], |tr[u].nets|)
  {
    SlotWave(c.chips[i], tr[u].nets, n, 0, y - u, base)
  }

  /** They leave it at `v`. */
  predicate Keeps(c: Circuit, tr: seq<State>, n: nat, i: nat, u: nat, y: int, v: bool)
    requires i < |c.chips| && u < |tr| && Wired(c.chips[i], |tr[u].nets|)
  {
    Wave(c, tr, n, i, u, y, v) == v
  }

  /** They make it `v`. */
  predicate Makes(c: Circuit, tr: seq<State>, n: nat, i: nat, u: nat, y: int, v: bool)
    requires i < |c.chips| && u < |tr| && Wired(c.chips[i], |tr[u].nets|)
  {
    Wave(c, tr, n, i, u, y, true) == v && Wave(c, tr, n, i, u, y, false) == v
  }

  /** They do the same to it as to the value at the time before: nothing lands just then. */
  predicate Evens(c: Circuit, tr: seq<State>, n: nat, i: nat, u: nat, y: int)
    requires i < |c.chips| && u < |tr| && Wired(c.chips[i], |tr[u].nets|)
  {
    Wave(c, tr, n, i, u, y, true) == Wave(c, tr, n, i, u, y - 1, true) &&
    Wave(c, tr, n, i, u, y, false) == Wave(c, tr, n, i, u, y - 1, false)
  }

  lemma {:induction false} NothingAtOnce(chip: Chip, nets: seq<Net>, n: nat, k: nat, base: bool)
    requires Wired(chip, |nets|) && k <= SlotCount(chip.kind)
    ensures SlotWave(chip, nets, n, k, 0, base) == base
    decreases SlotCount(chip.kind) - k
  {
    hide SlotDrive, SlotTarget;
    if k < SlotCount(chip.kind) {
      DriveIsPositive(chip, nets, k);
      NothingAtOnce(chip, nets, n, k + 1, base);
    }
  }

  lemma AheadIs(c: Circuit, tr: seq<State>, n: nat, i: nat, u: nat, t: int)
    requires WellFormed(c) && Trace(c, tr) && OnlyChip(c, n, i) && 0 < u < |tr| && t >= 0
    ensures Wired(c.chips[i], |tr[u].nets|)
    ensures Ahead(c, tr[u], n, t) == SlotWave(c.chips[i], tr[u].nets, n, 0, t, Ahead(c, tr[u - 1], n, t + 1))
    ensures tr[u].nets[n].val == Ahead(c, tr[u - 1], n, 1)
  {
    hide SlotDrive, Posted, Next, SlotWave;
    TraceStep(c, tr, u);
    assert ChipFits(c, c.chips[i]);
    NextNet(c, tr[u - 1], tr[u], n, t);
    OnePosted(c, tr[u], n, i, t);
  }

  lemma AheadStarts(c: Circuit, tr: seq<State>, n: nat, i: nat, t: int)
    requires WellFormed(c) && Trace(c, tr) && OnlyChip(c, n, i) && |tr| > 0 && Initial(c, tr[0])
    ensures Wired(c.chips[i], |tr[0].nets|)
    ensures Ahead(c, tr[0], n, t) == SlotWave(c.chips[i], tr[0].nets, n, 0, t, tr[0].nets[n].val)
  {
    hide SlotDrive, Posted, SlotWave;
    assert ChipFits(c, c.chips[i]);
    OnePosted(c, tr[0], n, i, t);
  }

  /** What has been posted is not undone by later posts of the same value. */
  lemma {:induction false} Stays(c: Circuit, tr: seq<State>, n: nat, i: nat, u: nat, w: nat, y: int, v: bool)
    requires WellFormed(c) && Trace(c, tr) && OnlyChip(c, n, i) && u <= w < |tr| && y >= w
    requires forall x :: 0 <= x < |tr| ==> Wired(c.chips[i], |tr[x].nets|)
    requires Ahead(c, tr[u], n, y - u) == v && forall x :: u < x <= w ==> Keeps(c, tr, n, i, x, y, v)
    ensures Ahead(c, tr[w], n, y - w) == v
    decreases w - u
  {
    hide SlotDrive, Ahead, Trace, SlotWave;
    if u < w {
      Stays(c, tr, n, i, u, w - 1, y, v);
      AheadIs(c, tr, n, i, w, y - w);
      assert Keeps(c, tr, n, i, w, y, v);
    }
  }

  /** A value posted in time is there at `y`, if nothing else lands after it. */
  lemma Landed(c: Circuit, tr: seq<State>, n: nat, i: nat, u: nat, y: nat, v: bool)
    requires WellFormed(c) && Trace(c, tr) && |tr| > 0 && Initial(c, tr[0]) && OnlyChip(c, n, i) && u < y < |tr|
    requires forall x :: 0 <= x < |tr| ==> Wired(c.chips[i], |tr[x].nets|)
    requires Makes(c, tr, n, i, u, y, v) && forall x :: u < x < y ==> Keeps(c, tr, n, i, x, y, v)
    ensures tr[y].nets[n].val == v
  {
    hide SlotDrive, Ahead, Trace, SlotWave, Initial;
    if u == 0 {
      AheadStarts(c, tr, n, i, y);
    } else {
      AheadIs(c, tr, n, i, u, y - u);
    }
    Stays(c, tr, n, i, u, y - 1, y, v);
    AheadIs(c, tr, n, i, y, 0);
  }

  lemma {:induction false} FlatAhead(c: Circuit, tr: seq<State>, n: nat, i: nat, u: nat, y: int)
    requires WellFormed(c) && Trace(c, tr) && u < |tr| && Initial(c, tr[0]) && OnlyChip(c, n, i) && y > u
    requires forall x :: 0 <= x < |tr| ==> Wired(c.chips[i], |tr[x].nets|)
    requires forall x :: 0 <= x <= u ==> Evens(c, tr, n, i, x, y)
    ensures Ahead(c, tr[u], n, y - u) == Ahead(c, tr[u], n, y - 1 - u)
  {
    hide SlotDrive, Ahead, Trace, Initial, SlotWave;
    assert Evens(c, tr, n, i, u, y);
    if u == 0 {
      AheadStarts(c, tr, n, i, y);
      AheadStarts(c, tr, n, i, y - 1);
    } else {
      FlatAhead(c, tr, n, i, u - 1, y);
      AheadIs(c, tr, n, i, u, y - u);
      AheadIs(c, tr, n, i, u, y - 1 - u);
    }
  }

  /** The value on the net at `y` is that of the state before, if nothing lands just then. */
  lemma Unmoved(c: Circuit, tr: seq<State>, n: nat, i: nat, y: nat)
    requires WellFormed(c) && Trace(c, tr) && |tr| > 0 && Initial(c, tr[0]) && OnlyChip(c, n, i) && 0 < y < |tr|
    requires forall x :: 0 <= x < |tr| ==> Wired(c.chips[i], |tr[x].nets|)
    requires forall x :: 0 <= x < y ==> Evens(c, tr, n, i, x, y)
    ensures tr[y].nets[n].val == tr[y - 1].nets[n].val
  {
    hide SlotDrive, Ahead, Trace, Initial, SlotWave;
    FlatAhead(c, tr, n, i, y - 1, y);
    AheadIs(c, tr, n, i, y, 0);
    if y == 1 {
      AheadStarts(c, tr, n, i, 0);
      NothingAtOnce(c.chips[i], tr[0].nets, n, 0, tr[0].nets[n].val);
    } else {
      AheadIs(c, tr, n, i, y - 1, 0);
      NothingAtOnce(c.chips[i], tr[y - 1].nets, n, 0, Ahead(c, tr[y - 2], n, 1));
    }
  }

  // ---- Nets with one slot ----

  lemma SoleIsOnly(c: Circuit, n: nat, i: nat, k: nat)
    requires WellFormed(c) && n < c.total && SoleDriver(c, n, i, k)
    ensures OnlyChip(c, n, i) && forall j :: 0 <= j < SlotCount(c.chips[i].kind) ==>
                                (SlotTarget(c.chips[i], j) == Some(n) <==> j == k)
  {
    hide SlotTarget;
    forall j | 0 <= j < SlotCount(c.chips[i].kind)
      ensures SlotTarget(c.chips[i], j) == Some(n) <==> j == k
    {
      assert Drives(c, i, j, n) <==> SlotTarget(c.chips[i], j) == Some(n);
    }
  }

  /** Slot `k` of chip `i` posts at time `u` with delay `d`. */
  predicate PostsAt(c: Circuit, tr: seq<State>, i: nat, k: nat, u: nat, d: int)
    requires i < |c.chips| && k < SlotCount(c.chips[i].kind) && u < |tr| && Wired(c.chips[i], |tr[u].nets|)
  {
    SlotDrive(c.chips[i], tr[u].nets, k).Drive? && SlotDrive(c.chips[i], tr[u].nets, k).delay == d
  }

  /** ... so that it lands at time `y`. */
  predicate LandsAt(c: Circuit, tr: seq<State>, i: nat, k: nat, u: nat, y: int)
    requires i < |c.chips| && k < SlotCount(c.chips[i].kind) && u < |tr| && Wired(c.chips[i], |tr[u].nets|)
  {
    PostsAt(c, tr, i, k, u, y - u)
  }

  /** Net `n` is slot `k` of chip `i` and of no other, in a run from the start. */
  ghost predicate SoleRun(c: Circuit, tr: seq<State>, n: nat, i: nat, k: nat)
    requires WellFormed(c)
  {
    Trace(c, tr) && |tr| > 0 && Initial(c, tr[0]) && n < c.total && SoleDriver(c, n, i, k) &&
    i < |c.chips| && k < SlotCount(c.chips[i].kind) &&
    forall u :: 0 <= u < |tr| ==> |tr[u].nets| == c.total && Wired(c.chips[i], |tr[u].nets|)
  }

  lemma SoleWave(c: Circuit, tr: seq<State>, n: nat, i: nat, k: nat, x: nat, y: int, base: bool)
    requires WellFormed(c) && SoleRun(c, tr, n, i, k) && x < |tr|
    ensures Wave(c, tr, n, i, x, y, base) == DriveWave(SlotDrive(c.chips[i], tr[x].nets, k), y - x, base)
  {
    hide SlotDrive, SlotTarget;
    SoleIsOnly(c, n, i, k);
    SlotWaveSole(c.chips[i], tr[x].nets, n, 0, k, y - x, base);
  }

  /** The post at `u` is the last that has landed by `y`. */
  lemma SoleLanded(c: Circuit, tr: seq<State>, n: nat, i: nat, k: nat, u: nat, y: nat)
    requires WellFormed(c) && SoleRun(c, tr, n, i, k) && u < y < |tr|
    requires SlotDrive(c.chips[i], tr[u].nets, k).Drive? && SlotDrive(c.chips[i], tr[u].nets, k).delay <= y - u
    requires forall x :: u < x < y && SlotDrive(c.chips[i], tr[x].nets, k).Drive? ==>
               SlotDrive(c.chips[i], tr[x].nets, k).delay > y - x
    ensures tr[y].nets[n].val == SlotDrive(c.chips[i], tr[u].nets, k).val
  {
    hide SlotDrive, Trace, Initial, SoleDriver, OnlyChip, Wave;
    SoleIsOnly(c, n, i, k);
    var v := SlotDrive(c.chips[i], tr[u].nets, k).val;
    SoleWave(c, tr, n, i, k, u, y, true);
    SoleWave(c, tr, n, i, k, u, y, false);
    forall x | u < x < y
      ensures Keeps(c, tr, n, i, x, y, v)
    {
      SoleWave(c, tr, n, i, k, x, y, v);
    }
    Landed(c, tr, n, i, u, y, v);
  }

  lemma SoleUnmoved(c: Circuit, tr: seq<State>, n: nat, i: nat, k: nat, y: nat)
    requires WellFormed(c) && SoleRun(c, tr, n, i, k) && 0 < y < |tr|
    requires forall x :: 0 <= x < y ==> !LandsAt(c, tr, i, k, x, y)
    ensures tr[y].nets[n].val == tr[y - 1].nets[n].val
  {
    hide SlotDrive, Trace, Initial, SoleDriver, OnlyChip, Wave;
    SoleIsOnly(c, n, i, k);
    forall x | 0 <= x < y
      ensures Evens(c, tr, n, i, x, y)
    {
      assert !LandsAt(c, tr, i, k, x, y);
      SoleWave(c, tr, n, i, k, x, y, true);
      SoleWave(c, tr, n, i, k, x, y, false);
      SoleWave(c, tr, n, i, k, x, y - 1, true);
      SoleWave(c, tr, n, i, k, x, y - 1, false);
    }
    Unmoved(c, tr, n, i, y);
  }

  /** The last time before `hi` at which the slot posts with delay `d`. */
  lemma {:induction false} LastPost(c: Circuit, tr: seq<State>, i: nat, k: nat, d: int, lo: nat, hi: nat)
    returns (x: nat)
    requires i < |c.chips| && k < SlotCount(c.chips[i].kind) && lo < hi <= |tr|
    requires forall u :: 0 <= u < |tr| ==> Wired(c.chips[i], |tr[u].nets|)
    requires exists u :: lo <= u < hi && PostsAt(c, tr, i, k, u, d)
    ensures lo <= x < hi && PostsAt(c, tr, i, k, x, d)
    ensures forall u :: x < u < hi ==> !PostsAt(c, tr, i, k, u, d)
    decreases hi
  {
    hide PostsAt;
    if PostsAt(c, tr, i, k, hi - 1, d) {
      x := hi - 1;
    } else {
      x := LastPost(c, tr, i, k, d, lo, hi - 1);
    }
  }

  /** A slot that posts with one of two delays: what lands at `y` is the post of the shorter delay, or else that of the
      longer one if no shorter one has overtaken it; and if neither lands, the net stays as it was. */
  lemma TwoDelays(c: Circuit, tr: seq<State>, n: nat, i: nat, k: nat, d1: int, d2: int, y: nat)
    requires WellFormed(c) && SoleRun(c, tr, n, i, k) && 0 < y < |tr| && 0 < d1 < d2
    requires forall x :: 0 <= x < |tr| && SlotDrive(c.chips[i], tr[x].nets, k).Drive? ==>
               PostsAt(c, tr, i, k, x, d1) || PostsAt(c, tr, i, k, x, d2)
    ensures tr[y].nets[n].val ==
            if y >= d1 && PostsAt(c, tr, i, k, y - d1, d1) then SlotDrive(c.chips[i], tr[y - d1].nets, k).val
            else if y >= d2 && PostsAt(c, tr, i, k, y - d2, d2) &&
                    forall x :: y - d2 < x < y - d1 ==> !PostsAt(c, tr, i, k, x, d1)
              then SlotDrive(c.chips[i], tr[y - d2].nets, k).val
            else tr[y - 1].nets[n].val
  {
    hide SlotDrive, Trace, Initial, SoleDriver;
    if y >= d1 && PostsAt(c, tr, i, k, y - d1, d1) {
      SoleLanded(c, tr, n, i, k, y - d1, y);
    } else if y >= d2 && PostsAt(c, tr, i, k, y - d2, d2) {
      if x :| y - d2 < x < y - d1 && PostsAt(c, tr, i, k, x, d1) {
        var z := LastPost(c, tr, i, k, d1, y - d2 + 1, y - d1);
        SoleLanded(c, tr, n, i, k, z, y);
        SoleLanded(c, tr, n, i, k, z, y - 1);
      } else {
        SoleLanded(c, tr, n, i, k, y - d2, y);
      }
    } else {
      forall x | 0 <= x < y
        ensures !LandsAt(c, tr, i, k, x, y)
      {
        assert SlotDrive(c.chips[i], tr[x].nets, k).Drive? ==>
                 PostsAt(c, tr, i, k, x, d1) || PostsAt(c, tr, i, k, x, d2);
      }
      SoleUnmoved(c, tr, n, i, k, y);
    }
  }
}
