/** Gates, selectors and the oscillator over any run, in terms of the nets at their pins now and earlier. */
module DataSheets {
  import opened Wrappers
  import opened Bits
  import opened Schedule
  import opened Chips
  import opened Simulation
  import opened Transport
  import opened Landing

  // ---- Gates ----

  /** Both inputs of gate `k` are at level `v`. */
  predicate Both(chip: Chip, nets: seq<Net>, k: nat, v: bool)
    requires Wired(chip, |nets|) && 2 * k + 1 < |chip.inp|
  {
    In(chip, nets, 2 * k) == v && In(chip, nets, 2 * k + 1) == v
  }

  /** The output of a gate is what it says of the inputs as many steps earlier as its delay is, whatever they did
      meanwhile. */
  lemma GateLaw(c: Circuit, tr: seq<State>, n: nat, i: nat, k: nat, u: nat)
    requires WellFormed(c) && SoleRun(c, tr, n, i, k) && u < |tr|
    ensures var chip, nets, kind := c.chips[i], tr[u].nets, c.chips[i].kind;
            && (kind.HC00? && u + 7 < |tr| ==> tr[u + 7].nets[n].val == !Both(chip, nets, k, true))
            && (kind.HC02? && u + 7 < |tr| ==> tr[u + 7].nets[n].val == Both(chip, nets, k, false))
            && (kind.HC08? && u + 7 < |tr| ==> tr[u + 7].nets[n].val == Both(chip, nets, k, true))
            && (kind.HC32? && u + 7 < |tr| ==> tr[u + 7].nets[n].val == !Both(chip, nets, k, false))
            && (kind.HC86? && u + 11 < |tr| ==>
                  tr[u + 11].nets[n].val == !(Both(chip, nets, k, true) || Both(chip, nets, k, false)))
            && (kind.HC04? && u + 9 < |tr| ==> tr[u + 9].nets[n].val == !In(chip, nets, k))
            && (kind.HC30? && u + 10 < |tr| ==>
                  tr[u + 10].nets[n].val == exists p :: 0 <= p < 8 && !In(chip, nets, p))
            && (kind.HC21? && u + 12 < |tr| ==>
                  tr[u + 12].nets[n].val == forall p :: 4 * k <= p < 4 * k + 4 ==> In(chip, nets, p))
  {
    hide Trace, SoleDriver, Initial, SlotDrive;
    var kind := c.chips[i].kind;
    if Uniform(kind, k) && u + MaxDelay(kind, k) < |tr| {
      TransportDelay(c, tr, n, i, k, u);
    }
  }

  // ---- The 74AC157 selector ----

  /** Net `n` is output `k` of a selector with inputs 0 to 3 and 4 to 7, select 8 and ~Enable 9. */
  ghost predicate Selector2(c: Circuit, tr: seq<State>, n: nat, i: nat, k: nat)
    requires WellFormed(c)
  {
    SoleRun(c, tr, n, i, k) && c.chips[i].kind.AC157?
  }

  predicate Chosen2(c: Circuit, tr: seq<State>, i: nat, k: nat, u: nat)
    requires i < |c.chips| && c.chips[i].kind.AC157? && k < 4 && u < |tr| && Wired(c.chips[i], |tr[u].nets|)
  {
    In(c.chips[i], tr[u].nets, if In(c.chips[i], tr[u].nets, 8) then k + 4 else k)
  }

  /** ~Enable rises. */
  predicate Off2(c: Circuit, tr: seq<State>, i: nat, u: nat)
    requires i < |c.chips| && c.chips[i].kind.AC157? && u < |tr| && Wired(c.chips[i], |tr[u].nets|)
  {
    In(c.chips[i], tr[u].nets, 9) && InChanged(c.chips[i], tr[u].nets, 9)
  }

  /** The select changes while ~Enable is low. */
  predicate Switched2(c: Circuit, tr: seq<State>, i: nat, u: nat)
    requires i < |c.chips| && c.chips[i].kind.AC157? && u < |tr| && Wired(c.chips[i], |tr[u].nets|)
  {
    !In(c.chips[i], tr[u].nets, 9) && InChanged(c.chips[i], tr[u].nets, 8)
  }

  /** Only the chosen input changes. */
  predicate Followed2(c: Circuit, tr: seq<State>, i: nat, k: nat, u: nat)
    requires i < |c.chips| && c.chips[i].kind.AC157? && k < 4 && u < |tr| && Wired(c.chips[i], |tr[u].nets|)
  {
    !In(c.chips[i], tr[u].nets, 9) && !InChanged(c.chips[i], tr[u].nets, 8) &&
    InChanged(c.chips[i], tr[u].nets, if In(c.chips[i], tr[u].nets, 8) then k + 4 else k)
  }

  lemma Posts2(c: Circuit, tr: seq<State>, n: nat, i: nat, k: nat, u: nat)
    requires WellFormed(c) && Selector2(c, tr, n, i, k) && u < |tr|
    ensures SlotDrive(c.chips[i], tr[u].nets, k) ==
            if Off2(c, tr, i, u) then Drive(false, 6)
            else if Switched2(c, tr, i, u) then Drive(Chosen2(c, tr, i, k, u), 6)
            else if Followed2(c, tr, i, k, u) then Drive(Chosen2(c, tr, i, k, u), 4)
            else Keep
  {
    hide Trace, SoleDriver, Initial;
  }

  /** The selector in every run: 4 steps after a change of the chosen input the output is that input, 6 steps after a
      change of the select the then chosen one, and 6 steps after ~Enable has risen low; unless a change of an input
      one step later has overtaken it. Otherwise it is as it was, and so when ~Enable falls. */
  lemma Selector2Law(c: Circuit, tr: seq<State>, n: nat, i: nat, k: nat, y: nat)
    requires WellFormed(c) && Selector2(c, tr, n, i, k) && 0 < y < |tr|
    ensures tr[y].nets[n].val ==
            if y >= 4 && Followed2(c, tr, i, k, y - 4) then Chosen2(c, tr, i, k, y - 4)
            else if y >= 6 && Switched2(c, tr, i, y - 6) && !Followed2(c, tr, i, k, y - 5)
              then Chosen2(c, tr, i, k, y - 6)
            else if y >= 6 && Off2(c, tr, i, y - 6) && !Followed2(c, tr, i, k, y - 5) then false
            else tr[y - 1].nets[n].val
  {
    hide Trace, SoleDriver, Initial, SlotDrive;
    forall x | 0 <= x < |tr| && SlotDrive(c.chips[i], tr[x].nets, k).Drive?
      ensures PostsAt(c, tr, i, k, x, 4) || PostsAt(c, tr, i, k, x, 6)
    {
      Posts2(c, tr, n, i, k, x);
    }
    TwoDelays(c, tr, n, i, k, 4, 6, y);
    if y >= 4 {
      Posts2(c, tr, n, i, k, y - 4);
    }
    if y >= 6 {
      Posts2(c, tr, n, i, k, y - 5);
      Posts2(c, tr, n, i, k, y - 6);
    }
  }

  /** From six steps after ~Enable has risen the output is low, and it stays so, even after ~Enable has fallen, until
      the select or the chosen input changes with ~Enable low. */
  lemma {:induction false} Selector2Off(c: Circuit, tr: seq<State>, n: nat, i: nat, k: nat, u: nat, y: nat)
    requires WellFormed(c) && Selector2(c, tr, n, i, k) && u + 6 <= y < |tr| && Off2(c, tr, i, u)
    requires forall x :: u < x <= y - 4 ==> !Switched2(c, tr, i, x) && !Followed2(c, tr, i, k, x)
    ensures !tr[y].nets[n].val
    decreases y
  {
    hide Trace, SoleDriver, Initial, Switched2, Followed2, Chosen2;
    Selector2Law(c, tr, n, i, k, y);
    if y > u + 6 {
      Selector2Off(c, tr, n, i, k, u, y - 1);
    } else {
      assert !Switched2(c, tr, i, u) by { Off2Alone(c, tr, i, u); }
    }
  }

  lemma Off2Alone(c: Circuit, tr: seq<State>, i: nat, u: nat)
    requires i < |c.chips| && c.chips[i].kind.AC157? && u < |tr| && Wired(c.chips[i], |tr[u].nets|)
    ensures Off2(c, tr, i, u) ==> !Switched2(c, tr, i, u)
  {
  }

  // ---- The 74AC153 selector ----

  /** Net `n` is output `k` of a selector with inputs k, k + 2, k + 4 and k + 6, selects 8 and 9 and ~Enables 10 and
      11. */
  ghost predicate Selector4(c: Circuit, tr: seq<State>, n: nat, i: nat, k: nat)
    requires WellFormed(c)
  {
    SoleRun(c, tr, n, i, k) && c.chips[i].kind.AC153?
  }

  function Chosen4(c: Circuit, tr: seq<State>, i: nat, k: nat, u: nat): (p: nat)
    requires i < |c.chips| && c.chips[i].kind.AC153? && k < 2 && u < |tr| && Wired(c.chips[i], |tr[u].nets|)
    ensures p < 8
  {
    var low, high := In(c.chips[i], tr[u].nets, 8), In(c.chips[i], tr[u].nets, 9);
    if high && low then k + 6 else if high then k + 4 else if low then k + 2 else k
  }

  predicate Level4(c: Circuit, tr: seq<State>, i: nat, k: nat, u: nat)
    requires i < |c.chips| && c.chips[i].kind.AC153? && k < 2 && u < |tr| && Wired(c.chips[i], |tr[u].nets|)
  {
    In(c.chips[i], tr[u].nets, Chosen4(c, tr, i, k, u))
  }

  /** One of the two ~Enables rises. */
  predicate Off4(c: Circuit, tr: seq<State>, i: nat, u: nat)
    requires i < |c.chips| && c.chips[i].kind.AC153? && u < |tr| && Wired(c.chips[i], |tr[u].nets|)
  {
    var chip, nets := c.chips[i], tr[u].nets;
    (In(chip, nets, 10) && InChanged(chip, nets, 10)) || (In(chip, nets, 11) && InChanged(chip, nets, 11))
  }

  predicate Open4(c: Circuit, tr: seq<State>, i: nat, u: nat)
    requires i < |c.chips| && c.chips[i].kind.AC153? && u < |tr| && Wired(c.chips[i], |tr[u].nets|)
  {
    !In(c.chips[i], tr[u].nets, 10) && !In(c.chips[i], tr[u].nets, 11)
  }

  /** A select changes while both ~Enables are low. */
  predicate Switched4(c: Circuit, tr: seq<State>, i: nat, u: nat)
    requires i < |c.chips| && c.chips[i].kind.AC153? && u < |tr| && Wired(c.chips[i], |tr[u].nets|)
  {
    Open4(c, tr, i, u) && (InChanged(c.chips[i], tr[u].nets, 8) || InChanged(c.chips[i], tr[u].nets, 9))
  }

  /** Only the chosen input changes. */
  predicate Followed4(c: Circuit, tr: seq<State>, i: nat, k: nat, u: nat)
    requires i < |c.chips| && c.chips[i].kind.AC153? && k < 2 && u < |tr| && Wired(c.chips[i], |tr[u].nets|)
  {
    Open4(c, tr, i, u) && !Switched4(c, tr, i, u) && InChanged(c.chips[i], tr[u].nets, Chosen4(c, tr, i, k, u))
  }

  lemma Posts4(c: Circuit, tr: seq<State>, n: nat, i: nat, k: nat, u: nat)
    requires WellFormed(c) && Selector4(c, tr, n, i, k) && u < |tr|
    ensures SlotDrive(c.chips[i], tr[u].nets, k) ==
            if Off4(c, tr, i, u) then Drive(false, 6)
            else if Followed4(c, tr, i, k, u) then Drive(Level4(c, tr, i, k, u), 6)
            else if Switched4(c, tr, i, u) then Drive(Level4(c, tr, i, k, u), 7)
            else Keep
    ensures Off4(c, tr, i, u) ==> !Open4(c, tr, i, u)
  {
    hide Trace, SoleDriver, Initial;
  }

  /** The selector in every run: 6 steps after a change of the chosen input, or 7 after one of a select, the output is
      the chosen input of then, and 6 steps after one of the ~Enables has risen low. Otherwise it is as it was. */
  lemma Selector4Law(c: Circuit, tr: seq<State>, n: nat, i: nat, k: nat, y: nat)
    requires WellFormed(c) && Selector4(c, tr, n, i, k) && 0 < y < |tr|
    ensures tr[y].nets[n].val ==
            if y >= 6 && Off4(c, tr, i, y - 6) then false
            else if y >= 6 && Followed4(c, tr, i, k, y - 6) then Level4(c, tr, i, k, y - 6)
            else if y >= 7 && Switched4(c, tr, i, y - 7) then Level4(c, tr, i, k, y - 7)
            else tr[y - 1].nets[n].val
  {
    hide Trace, SoleDriver, Initial, SlotDrive, Off4, Open4, Level4, Chosen4;
    forall x | 0 <= x < |tr| && SlotDrive(c.chips[i], tr[x].nets, k).Drive?
      ensures PostsAt(c, tr, i, k, x, 6) || PostsAt(c, tr, i, k, x, 7)
    {
      Posts4(c, tr, n, i, k, x);
    }
    TwoDelays(c, tr, n, i, k, 6, 7, y);
    if y >= 6 {
      Posts4(c, tr, n, i, k, y - 6);
    }
    if y >= 7 {
      Posts4(c, tr, n, i, k, y - 7);
    }
  }

  /** From six steps after one of the ~Enables has risen the output is low, and it stays so until both are low and a
      select or the chosen input changes. */
  lemma {:induction false} Selector4Off(c: Circuit, tr: seq<State>, n: nat, i: nat, k: nat, u: nat, y: nat)
    requires WellFormed(c) && Selector4(c, tr, n, i, k) && u + 6 <= y < |tr| && Off4(c, tr, i, u)
    requires forall x :: u < x <= y - 6 ==> !Switched4(c, tr, i, x) && !Followed4(c, tr, i, k, x)
    ensures !tr[y].nets[n].val
    decreases y
  {
    hide Trace, SoleDriver, Initial, Switched4, Followed4, Level4, Off4;
    Selector4Law(c, tr, n, i, k, y);
    if y > u + 6 {
      if y == u + 7 {
        assert !Switched4(c, tr, i, u) by { Off4Alone(c, tr, i, u); }
      }
      Selector4Off(c, tr, n, i, k, u, y - 1);
    }
  }

  lemma Off4Alone(c: Circuit, tr: seq<State>, i: nat, u: nat)
    requires i < |c.chips| && c.chips[i].kind.AC153? && u < |tr| && Wired(c.chips[i], |tr[u].nets|)
    ensures Off4(c, tr, i, u) ==> !Switched4(c, tr, i, u)
  {
  }

  // ---- The 74HC283 adder ----

  /** Net `n` is digit `k` of an adder with inputs 0 to 3, 4 to 7 and carry 8. */
  ghost predicate SumDigit(c: Circuit, tr: seq<State>, n: nat, i: nat, k: nat)
    requires WellFormed(c)
  {
    SoleRun(c, tr, n, i, k) && c.chips[i].kind.HC283?
  }

  /** Digit `k` of the sum of the inputs at time `u`. */
  predicate Digit(c: Circuit, tr: seq<State>, i: nat, k: nat, u: nat)
    requires i < |c.chips| && c.chips[i].kind.HC283? && k < 5 && u < |tr| && Wired(c.chips[i], |tr[u].nets|)
  {
    ToBits(AdderSum(c.chips[i], tr[u].nets), 5)[k]
  }

  predicate CarryMoves(c: Circuit, tr: seq<State>, i: nat, u: nat)
    requires i < |c.chips| && c.chips[i].kind.HC283? && u < |tr| && Wired(c.chips[i], |tr[u].nets|)
  {
    InChanged(c.chips[i], tr[u].nets, 8)
  }

  /** An input changes, and the carry does not. */
  predicate InputMoves(c: Circuit, tr: seq<State>, i: nat, u: nat)
    requires i < |c.chips| && c.chips[i].kind.HC283? && u < |tr| && Wired(c.chips[i], |tr[u].nets|)
  {
    !CarryMoves(c, tr, i, u) && exists p :: 0 <= p < 8 && InChanged(c.chips[i], tr[u].nets, p)
  }

  lemma SumPosts(c: Circuit, tr: seq<State>, n: nat, i: nat, k: nat, u: nat)
    requires WellFormed(c) && SumDigit(c, tr, n, i, k) && u < |tr|
    ensures SlotDrive(c.chips[i], tr[u].nets, k) ==
            if CarryMoves(c, tr, i, u)
              then Drive(Digit(c, tr, i, k, u), if k == 0 then 19 else if k == 1 then 21 else if k == 3 then 27 else 23)
            else if InputMoves(c, tr, i, u) then Drive(Digit(c, tr, i, k, u), if k == 4 then 23 else 25)
            else Keep
    ensures InputMoves(c, tr, i, u) ==> !CarryMoves(c, tr, i, u)
  {
    hide Trace, SoleDriver, Initial, ToBits, AdderSum;
  }

  /** The adder in every run: its digits follow a change of the carry after 19, 21, 23 and 27 steps and one of the
      inputs after 25, its carry output both after 23; a change that takes longer is overtaken by a later one that
      takes less. */
  lemma AdderLaw(c: Circuit, tr: seq<State>, n: nat, i: nat, k: nat, y: nat)
    requires WellFormed(c) && SumDigit(c, tr, n, i, k) && 0 < y < |tr|
    ensures k < 3 ==> var d := 19 + 2 * k;
              tr[y].nets[n].val ==
              if y >= d && CarryMoves(c, tr, i, y - d) then Digit(c, tr, i, k, y - d)
              else if y >= 25 && InputMoves(c, tr, i, y - 25) &&
                      forall x :: y - 25 < x < y - d ==> !CarryMoves(c, tr, i, x)
                then Digit(c, tr, i, k, y - 25)
              else tr[y - 1].nets[n].val
    ensures k == 3 ==>
              tr[y].nets[n].val ==
              if y >= 25 && InputMoves(c, tr, i, y - 25) then Digit(c, tr, i, k, y - 25)
              else if y >= 27 && CarryMoves(c, tr, i, y - 27) && !InputMoves(c, tr, i, y - 26)
                then Digit(c, tr, i, k, y - 27)
              else tr[y - 1].nets[n].val
    ensures k == 4 ==>
              tr[y].nets[n].val ==
              if y >= 23 && (CarryMoves(c, tr, i, y - 23) || InputMoves(c, tr, i, y - 23))
                then Digit(c, tr, i, k, y - 23)
              else tr[y - 1].nets[n].val
  {
    hide Trace, SoleDriver, Initial, SlotDrive, Digit, CarryMoves, InputMoves;
    var d1 := if k < 3 then 19 + 2 * k else if k == 3 then 25 else 23;
    var d2 := if k < 3 then 25 else if k == 3 then 27 else 24;
    forall x | 0 <= x < |tr|
      ensures SlotDrive(c.chips[i], tr[x].nets, k).Drive? ==>
                PostsAt(c, tr, i, k, x, d1) || PostsAt(c, tr, i, k, x, d2)
      ensures k < 3 ==> PostsAt(c, tr, i, k, x, d1) == CarryMoves(c, tr, i, x)
      ensures k == 3 ==> PostsAt(c, tr, i, k, x, d1) == InputMoves(c, tr, i, x)
    {
      SumPosts(c, tr, n, i, k, x);
    }
    TwoDelays(c, tr, n, i, k, d1, d2, y);
    if y >= d1 {
      SumPosts(c, tr, n, i, k, y - d1);
    }
    if y >= d2 {
      SumPosts(c, tr, n, i, k, y - d2);
      SumPosts(c, tr, n, i, k, y - d2 + 1);
    }
  }

  // ---- The oscillator ----

  /** The enable is high, and it or the output has just changed. */
  predicate Switches(c: Circuit, tr: seq<State>, n: nat, i: nat, u: nat)
    requires i < |c.chips| && c.chips[i].kind.CLK40M? && u < |tr| && Wired(c.chips[i], |tr[u].nets|)
    requires n < |tr[u].nets|
  {
    In(c.chips[i], tr[u].nets, 0) && (InChanged(c.chips[i], tr[u].nets, 0) || tr[u].nets[n].changed)
  }

  lemma OscillatorPosts(c: Circuit, tr: seq<State>, n: nat, i: nat, u: nat)
    requires WellFormed(c) && SoleRun(c, tr, n, i, 0) && c.chips[i].kind.CLK40M? && u < |tr|
    ensures n < |tr[u].nets|
    ensures SlotDrive(c.chips[i], tr[u].nets, 0) ==
            if Switches(c, tr, n, i, u) then Drive(!tr[u].nets[n].val, if tr[u].nets[n].val then 12 else 13) else Keep
  {
    hide Trace, Initial;
    assert SlotTarget(c.chips[i], 0) == Some(n);
  }

  /** The oscillator in every run: 12 steps after such a time with the output high it is low, 13 steps after one with
      the output low it is high; otherwise it is as it was. */
  lemma OscillatorLaw(c: Circuit, tr: seq<State>, n: nat, i: nat, y: nat)
    requires WellFormed(c) && SoleRun(c, tr, n, i, 0) && c.chips[i].kind.CLK40M? && 0 < y < |tr|
    ensures tr[y].nets[n].val ==
            if y >= 12 && Switches(c, tr, n, i, y - 12) && tr[y - 12].nets[n].val then false
            else if y >= 13 && Switches(c, tr, n, i, y - 13) && !tr[y - 13].nets[n].val then true
            else tr[y - 1].nets[n].val
  {
    hide Trace, SoleDriver, Initial, SlotDrive;
    forall x | 0 <= x < |tr| && SlotDrive(c.chips[i], tr[x].nets, 0).Drive?
      ensures PostsAt(c, tr, i, 0, x, 12) || PostsAt(c, tr, i, 0, x, 13)
    {
      OscillatorPosts(c, tr, n, i, x);
    }
    TwoDelays(c, tr, n, i, 0, 12, 13, y);
    if y >= 12 {
      OscillatorPosts(c, tr, n, i, y - 12);
    }
    if y >= 13 {
      OscillatorPosts(c, tr, n, i, y - 13);
    }
  }

  /** With its enable low the oscillator comes to rest within 12 steps, and holds its value. */
  lemma {:induction false} OscillatorHolds(c: Circuit, tr: seq<State>, n: nat, i: nat, u: nat, y: nat)
    requires WellFormed(c) && SoleRun(c, tr, n, i, 0) && c.chips[i].kind.CLK40M? && u + 12 <= y < |tr|
    requires forall x :: u <= x < y ==> !In(c.chips[i], tr[x].nets, 0)
    ensures tr[y].nets[n].val == tr[u + 12].nets[n].val
    decreases y
  {
    hide Trace, SoleDriver, Initial;
    if y > u + 12 {
      OscillatorHolds(c, tr, n, i, u, y - 1);
      OscillatorLaw(c, tr, n, i, y);
    }
  }
}
