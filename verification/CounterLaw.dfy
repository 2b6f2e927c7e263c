/** The 74AC161 counter over any run: how its outputs depend on the nets at its pins now and earlier. */
module CounterLaw {
  import opened Wrappers
  import opened Chips
  import opened Simulation
  import opened Transport
  import opened Landing

  ghost predicate OwnLocal(c: Circuit, i: nat, p: nat)
    requires WellFormed(c) && i < |c.chips|
  {
    c.chips[i].local + p < c.total && SoleDriver(c, c.chips[i].local + p, i, p)
  }

  /** Chip `i` is a counter, in a run from the start, and the only driver of its delayed copies. */
  ghost predicate IsCounter(c: Circuit, tr: seq<State>, i: nat)
    requires WellFormed(c)
  {
    && Trace(c, tr) && |tr| > 0 && Initial(c, tr[0]) && i < |c.chips| && c.chips[i].kind.AC161?
    && (forall p :: 0 <= p < 7 ==> OwnLocal(c, i, p))
    && forall u :: 0 <= u < |tr| ==> Wired(c.chips[i], |tr[u].nets|)
  }

  /** Net `n` is digit `j` of the counter and nothing else. */
  ghost predicate IsDigit(c: Circuit, i: nat, j: nat, n: nat)
    requires WellFormed(c)
  {
    j < 4 && n < c.total && SoleDriver(c, n, i, 7 + j)
  }

  /** Pin `p` at time `u`: data 0 to 3, ~Load 4, enable 5, ripple in 6, ~Clear 7, clock 8. */
  predicate Pin(c: Circuit, tr: seq<State>, i: nat, p: nat, u: nat)
    requires i < |c.chips| && c.chips[i].kind.AC161? && p < 9 && u < |tr| && Wired(c.chips[i], |tr[u].nets|)
  {
    In(c.chips[i], tr[u].nets, p)
  }

  predicate PinChanged(c: Circuit, tr: seq<State>, i: nat, p: nat, u: nat)
    requires i < |c.chips| && c.chips[i].kind.AC161? && p < 9 && u < |tr| && Wired(c.chips[i], |tr[u].nets|)
  {
    InChanged(c.chips[i], tr[u].nets, p)
  }

  /** What the counter sees of a pin: data and ~Load 4 steps late, the enables 2; low before the start. */
  predicate Seen(c: Circuit, tr: seq<State>, i: nat, p: nat, u: nat)
    requires i < |c.chips| && c.chips[i].kind.AC161? && p < 7 && u < |tr|
    requires forall x :: 0 <= x < |tr| ==> Wired(c.chips[i], |tr[x].nets|)
  {
    var d := if p < 5 then 4 else 2;
    u >= d && Pin(c, tr, i, p, u - d)
  }

  predicate Falls(c: Circuit, tr: seq<State>, i: nat, u: nat)
    requires i < |c.chips| && c.chips[i].kind.AC161? && u < |tr| && Wired(c.chips[i], |tr[u].nets|)
  {
    !Pin(c, tr, i, 7, u) && PinChanged(c, tr, i, 7, u)
  }

  /** A rising clock edge with ~Clear high. */
  predicate Edge(c: Circuit, tr: seq<State>, i: nat, u: nat)
    requires i < |c.chips| && c.chips[i].kind.AC161? && u < |tr| && Wired(c.chips[i], |tr[u].nets|)
  {
    Pin(c, tr, i, 7, u) && PinChanged(c, tr, i, 8, u) && Pin(c, tr, i, 8, u)
  }

  predicate Loads(c: Circuit, tr: seq<State>, i: nat, u: nat)
    requires i < |c.chips| && c.chips[i].kind.AC161? && u < |tr|
    requires forall x :: 0 <= x < |tr| ==> Wired(c.chips[i], |tr[x].nets|)
  {
    Edge(c, tr, i, u) && !Seen(c, tr, i, 4, u)
  }

  predicate Counts(c: Circuit, tr: seq<State>, i: nat, u: nat)
    requires i < |c.chips| && c.chips[i].kind.AC161? && u < |tr|
    requires forall x :: 0 <= x < |tr| ==> Wired(c.chips[i], |tr[x].nets|)
  {
    Edge(c, tr, i, u) && Seen(c, tr, i, 4, u) && Seen(c, tr, i, 5, u) && Seen(c, tr, i, 6, u)
  }

  /** Digit `j` at time `u`. */
  predicate Digit(c: Circuit, tr: seq<State>, i: nat, j: nat, u: nat)
    requires i < |c.chips| && c.chips[i].kind.AC161? && j < 4 && u < |tr| && Wired(c.chips[i], |tr[u].nets|)
  {
    Out(c.chips[i], tr[u].nets, j)
  }

  /** The delayed copies are what the counter sees. */
  lemma SeenLocal(c: Circuit, tr: seq<State>, i: nat, p: nat, u: nat)
    requires WellFormed(c) && IsCounter(c, tr, i) && p < 7 && u < |tr|
    ensures Local(c.chips[i], tr[u].nets, p) == Seen(c, tr, i, p, u)
  {
    hide Trace, SlotDrive;
    var n, d := c.chips[i].local + p, if p < 5 then 4 else 2;
    assert OwnLocal(c, i, p);
    if u >= d {
      TransportDelay(c, tr, n, i, p, u - d);
    } else {
      TransportStart(c, tr, n, i, p, u);
    }
  }

  /** All digits below `j` are high. */
  predicate Below(c: Circuit, tr: seq<State>, i: nat, j: nat, u: nat)
    requires i < |c.chips| && c.chips[i].kind.AC161? && j <= 4 && u < |tr| && Wired(c.chips[i], |tr[u].nets|)
  {
    forall k :: 0 <= k < j ==> Digit(c, tr, i, k, u)
  }

  lemma BelowCarry(c: Circuit, tr: seq<State>, i: nat, j: nat, u: nat)
    requires i < |c.chips| && c.chips[i].kind.AC161? && j <= 4 && u < |tr| && Wired(c.chips[i], |tr[u].nets|)
    ensures CarryInto(c.chips[i], tr[u].nets, j) == Below(c, tr, i, j, u)
  {
    hide Out;
    if Below(c, tr, i, j, u) {
      forall k | 0 <= k < j
        ensures Out(c.chips[i], tr[u].nets, k)
      {
        assert Digit(c, tr, i, k, u);
      }
    }
  }

  /** What the slot of digit `j` posts. */
  lemma DigitPosts(c: Circuit, tr: seq<State>, i: nat, j: nat, u: nat)
    requires WellFormed(c) && IsCounter(c, tr, i) && j < 4 && u < |tr|
    ensures SlotDrive(c.chips[i], tr[u].nets, 7 + j) ==
            if Falls(c, tr, i, u) then Drive(false, 6)
            else if Loads(c, tr, i, u) then Drive(Seen(c, tr, i, j, u), 5)
            else if Counts(c, tr, i, u) && Below(c, tr, i, j, u) then Drive(!Digit(c, tr, i, j, u), 5)
            else Keep
  {
    hide Seen, Below, CarryInto, Trace, Initial, OwnLocal;
    SeenLocal(c, tr, i, 4, u);
    SeenLocal(c, tr, i, 5, u);
    SeenLocal(c, tr, i, 6, u);
    SeenLocal(c, tr, i, j, u);
    BelowCarry(c, tr, i, j, u);
    hide Local;
  }

  /** A digit in every run, step by step: 5 steps after an edge with ~Load low it is the data; 5 steps after an edge
      with ~Load and both enables high it has toggled, if all lower digits were high; 6 steps after ~Clear has fallen
      it is low; otherwise it is as it was one step before. */
  lemma DigitLaw(c: Circuit, tr: seq<State>, i: nat, j: nat, n: nat, y: nat)
    requires WellFormed(c) && IsCounter(c, tr, i) && IsDigit(c, i, j, n) && 0 < y < |tr|
    ensures tr[y].nets[n].val ==
            if y >= 5 && Loads(c, tr, i, y - 5) then Seen(c, tr, i, j, y - 5)
            else if y >= 5 && Counts(c, tr, i, y - 5) && Below(c, tr, i, j, y - 5) then !Digit(c, tr, i, j, y - 5)
            else if y >= 6 && Falls(c, tr, i, y - 6) then false
            else tr[y - 1].nets[n].val
  {
    hide Seen, Below, Trace, Initial, OwnLocal, SlotDrive, Digit, Loads, Counts, Falls, SoleDriver;
    forall x | 0 <= x < |tr| && SlotDrive(c.chips[i], tr[x].nets, 7 + j).Drive?
      ensures PostsAt(c, tr, i, 7 + j, x, 5) || PostsAt(c, tr, i, 7 + j, x, 6)
    {
      DigitPosts(c, tr, i, j, x);
    }
    TwoDelays(c, tr, n, i, 7 + j, 5, 6, y);
    if y >= 5 {
      DigitPosts(c, tr, i, j, y - 5);
      FallsNoEdge(c, tr, i, y - 5);
    }
    if y >= 6 {
      DigitPosts(c, tr, i, j, y - 6);
    }
  }

  lemma FallsNoEdge(c: Circuit, tr: seq<State>, i: nat, u: nat)
    requires WellFormed(c) && IsCounter(c, tr, i) && u < |tr|
    ensures Falls(c, tr, i, u) ==> !Loads(c, tr, i, u) && !Counts(c, tr, i, u)
    ensures Loads(c, tr, i, u) ==> !Counts(c, tr, i, u)
    ensures Loads(c, tr, i, u) || Counts(c, tr, i, u) ==> Edge(c, tr, i, u)
  {
  }

  /** Once cleared the digits stay low until a clock edge acts, even if ~Clear rises at once. */
  lemma {:induction false} ClearHolds(c: Circuit, tr: seq<State>, i: nat, j: nat, n: nat, u: nat, y: nat)
    requires WellFormed(c) && IsCounter(c, tr, i) && IsDigit(c, i, j, n) && u + 6 <= y < |tr| && Falls(c, tr, i, u)
    requires forall x :: u < x <= y - 5 ==> !Edge(c, tr, i, x)
    ensures !tr[y].nets[n].val
    decreases y
  {
    hide Trace, Initial, OwnLocal, Falls, Loads, Counts, Edge, SoleDriver, Digit, Seen, Below;
    DigitLaw(c, tr, i, j, n, y);
    FallsNoEdge(c, tr, i, y - 5);
    if y > u + 6 {
      ClearHolds(c, tr, i, j, n, u, y - 1);
    }
  }

  // ---- The ripple output ----

  /** Net `n` is the ripple output of the counter and nothing else. */
  ghost predicate IsRipple(c: Circuit, i: nat, n: nat)
    requires WellFormed(c) && i < |c.chips| && c.chips[i].kind.AC161? && |c.chips[i].out| == 5
  {
    OnlyChip(c, n, i) && forall k :: 0 <= k < 13 ==> (SlotTarget(c.chips[i], k) == Some(n) <==> k >= 11)
  }

  /** The counter counts with its upper three digits high. */
  predicate Tops(c: Circuit, tr: seq<State>, i: nat, u: nat)
    requires i < |c.chips| && c.chips[i].kind.AC161? && u < |tr|
    requires forall x :: 0 <= x < |tr| ==> Wired(c.chips[i], |tr[x].nets|)
  {
    Counts(c, tr, i, u) && Digit(c, tr, i, 1, u) && Digit(c, tr, i, 2, u) && Digit(c, tr, i, 3, u)
  }

  /** The ripple input has changed while ~Clear is high. */
  predicate Ripples(c: Circuit, tr: seq<State>, i: nat, u: nat)
    requires i < |c.chips| && c.chips[i].kind.AC161? && u < |tr| && Wired(c.chips[i], |tr[u].nets|)
  {
    Pin(c, tr, i, 7, u) && PinChanged(c, tr, i, 6, u)
  }

  predicate Full(c: Circuit, tr: seq<State>, i: nat, u: nat)
    requires i < |c.chips| && c.chips[i].kind.AC161? && u < |tr| && Wired(c.chips[i], |tr[u].nets|)
  {
    Digit(c, tr, i, 0, u) && Digit(c, tr, i, 1, u) && Digit(c, tr, i, 2, u) && Digit(c, tr, i, 3, u)
  }

  /** What the two slots of the ripple output post. */
  lemma RipplePosts(c: Circuit, tr: seq<State>, i: nat, u: nat)
    requires WellFormed(c) && IsCounter(c, tr, i) && u < |tr|
    ensures SlotDrive(c.chips[i], tr[u].nets, 11) ==
            if Falls(c, tr, i, u) then Drive(false, 9)
            else if Tops(c, tr, i, u) then Drive(!Digit(c, tr, i, 0, u), 7) else Keep
    ensures SlotDrive(c.chips[i], tr[u].nets, 12) ==
            if Ripples(c, tr, i, u) then Drive(Pin(c, tr, i, 6, u) && Full(c, tr, i, u), 5) else Keep
    ensures Falls(c, tr, i, u) ==> !Ripples(c, tr, i, u) && !Tops(c, tr, i, u)
  {
    hide Seen, Trace, Initial, OwnLocal;
    SeenLocal(c, tr, i, 4, u);
    SeenLocal(c, tr, i, 5, u);
    SeenLocal(c, tr, i, 6, u);
    hide Local;
  }

  /** What becomes of a value that the ripple output would have at `y`. */
  lemma RippleWave(c: Circuit, tr: seq<State>, i: nat, n: nat, u: nat, y: int, base: bool)
    requires WellFormed(c) && IsCounter(c, tr, i) && IsRipple(c, i, n) && u < |tr|
    ensures Wave(c, tr, n, i, u, y, base) ==
            if Ripples(c, tr, i, u) && y >= u + 5 then Pin(c, tr, i, 6, u) && Full(c, tr, i, u)
            else if Falls(c, tr, i, u) && y >= u + 9 then false
            else if Tops(c, tr, i, u) && y >= u + 7 then !Digit(c, tr, i, 0, u)
            else base
  {
    hide SlotDrive, SlotTarget, Trace, Initial, OwnLocal, Falls, Tops, Digit, Ripples, Full, OnlyChip, SlotWave;
    RipplePosts(c, tr, i, u);
    SlotWaveTwo(c.chips[i], tr[u].nets, n, 0, y - u, base);
  }

  /** Nothing that is posted at `u` has landed on the ripple output by `y`. */
  predicate Silent(c: Circuit, tr: seq<State>, i: nat, u: nat, y: int)
    requires i < |c.chips| && c.chips[i].kind.AC161? && u < |tr|
    requires forall x :: 0 <= x < |tr| ==> Wired(c.chips[i], |tr[x].nets|)
  {
    !(Ripples(c, tr, i, u) && y >= u + 5) && !(Falls(c, tr, i, u) && y >= u + 9) && !(Tops(c, tr, i, u) && y >= u + 7)
  }

  lemma RippleLanded(c: Circuit, tr: seq<State>, i: nat, n: nat, u: nat, y: nat, v: bool)
    requires WellFormed(c) && IsCounter(c, tr, i) && IsRipple(c, i, n) && u < y < |tr|
    requires !Silent(c, tr, i, u, y) && forall x :: u < x < y ==> Silent(c, tr, i, x, y)
    requires v == if Ripples(c, tr, i, u) && y >= u + 5 then Pin(c, tr, i, 6, u) && Full(c, tr, i, u)
                  else if Falls(c, tr, i, u) && y >= u + 9 then false
                  else !Digit(c, tr, i, 0, u)
    ensures tr[y].nets[n].val == v
  {
    hide Trace, Initial, OwnLocal, Falls, Tops, Digit, Ripples, Full, OnlyChip, Pin, Wave, SlotTarget;
    RippleWave(c, tr, i, n, u, y, true);
    RippleWave(c, tr, i, n, u, y, false);
    forall x | u < x < y
      ensures Keeps(c, tr, n, i, x, y, v)
    {
      assert Silent(c, tr, i, x, y);
      RippleWave(c, tr, i, n, x, y, v);
    }
    Landed(c, tr, n, i, u, y, v);
  }

  /** A count is still to be seen on the ripple output after 7 steps: no change of the ripple input has overtaken it. */
  predicate TopsLands(c: Circuit, tr: seq<State>, i: nat, y: nat)
    requires i < |c.chips| && c.chips[i].kind.AC161? && y < |tr|
    requires forall x :: 0 <= x < |tr| ==> Wired(c.chips[i], |tr[x].nets|)
  {
    y >= 7 && Tops(c, tr, i, y - 7) && !Ripples(c, tr, i, y - 7) && !Ripples(c, tr, i, y - 6)
  }

  /** A clear is still to be seen after 9 steps. */
  predicate ClearLands(c: Circuit, tr: seq<State>, i: nat, y: nat)
    requires i < |c.chips| && c.chips[i].kind.AC161? && y < |tr|
    requires forall x :: 0 <= x < |tr| ==> Wired(c.chips[i], |tr[x].nets|)
  {
    y >= 9 && Falls(c, tr, i, y - 9) && !Ripples(c, tr, i, y - 8) && !Ripples(c, tr, i, y - 7) &&
    !Ripples(c, tr, i, y - 6) && !Tops(c, tr, i, y - 8)
  }

  /** A post that is the last to have landed both at `y` and at `z`, the time before, does not move the ripple output.
      */
  lemma RippleTwice(c: Circuit, tr: seq<State>, i: nat, n: nat, u: nat, z: nat, y: nat)
    requires WellFormed(c) && IsCounter(c, tr, i) && IsRipple(c, i, n) && u < z < y < |tr| && y == z + 1
    requires if Ripples(c, tr, i, u) then y >= u + 6 else Tops(c, tr, i, u) && y >= u + 8
    requires forall x :: u < x < y ==> Silent(c, tr, i, x, y)
    requires forall x :: u < x < z ==> Silent(c, tr, i, x, z)
    ensures tr[y].nets[n].val == tr[z].nets[n].val
  {
    hide Trace, Initial, OwnLocal, Falls, Tops, Digit, Ripples, Full, OnlyChip, Pin, Wave, SlotTarget, IsRipple;
    RipplePosts(c, tr, i, u);
    var v := if Ripples(c, tr, i, u) then Pin(c, tr, i, 6, u) && Full(c, tr, i, u) else !Digit(c, tr, i, 0, u);
    RippleLanded(c, tr, i, n, u, y, v);
    RippleLanded(c, tr, i, n, u, z, v);
  }

  /** If nothing lands just at `y`, the ripple output does not move. */
  lemma RippleStill(c: Circuit, tr: seq<State>, i: nat, n: nat, y: nat)
    requires WellFormed(c) && IsCounter(c, tr, i) && IsRipple(c, i, n) && 0 < y < |tr|
    requires y >= 5 ==> !Ripples(c, tr, i, y - 5)
    requires y >= 7 ==> !Tops(c, tr, i, y - 7) || Ripples(c, tr, i, y - 7)
    requires y >= 9 ==> !Falls(c, tr, i, y - 9)
    ensures tr[y].nets[n].val == tr[y - 1].nets[n].val
  {
    hide Trace, Initial, OwnLocal, Falls, Tops, Digit, Ripples, Full, OnlyChip, Pin, Wave, SlotTarget, IsRipple;
    forall x | 0 <= x < y
      ensures Evens(c, tr, n, i, x, y)
    {
      RipplePosts(c, tr, i, x);
      RippleWave(c, tr, i, n, x, y, true);
      RippleWave(c, tr, i, n, x, y, false);
      RippleWave(c, tr, i, n, x, y - 1, true);
      RippleWave(c, tr, i, n, x, y - 1, false);
    }
    RippleOnly(c, i, n);
    Unmoved(c, tr, n, i, y);
  }

  lemma RippleOnly(c: Circuit, i: nat, n: nat)
    requires WellFormed(c) && i < |c.chips| && c.chips[i].kind.AC161? && |c.chips[i].out| == 5 && IsRipple(c, i, n)
    ensures OnlyChip(c, n, i)
  {
  }

  /** Nothing posted from `lo` on has landed by `y`, if no ripple input changed early enough, and no count was. */
  lemma AllSilent(c: Circuit, tr: seq<State>, i: nat, lo: nat, y: nat)
    requires WellFormed(c) && IsCounter(c, tr, i) && lo <= y < |tr| && y <= lo + 8
    requires forall x :: lo <= x <= y - 5 ==> !Ripples(c, tr, i, x)
    requires forall x :: lo <= x <= y - 7 ==> !Tops(c, tr, i, x)
    ensures forall x :: lo <= x < y ==> Silent(c, tr, i, x, y)
  {
    hide Ripples, Tops, Falls;
  }

  /** A post that was overtaken, or none at all, does not move the ripple output. */
  lemma RippleRests(c: Circuit, tr: seq<State>, i: nat, n: nat, y: nat)
    requires WellFormed(c) && IsCounter(c, tr, i) && IsRipple(c, i, n) && 0 < y < |tr|
    requires !(y >= 5 && Ripples(c, tr, i, y - 5)) && !TopsLands(c, tr, i, y) && !ClearLands(c, tr, i, y)
    ensures tr[y].nets[n].val == tr[y - 1].nets[n].val
  {
    hide Falls, Tops, Ripples, IsRipple, Silent, Trace, Initial, OwnLocal;
    if y >= 6 && Ripples(c, tr, i, y - 6) {
      AllSilent(c, tr, i, y - 5, y);
      AllSilent(c, tr, i, y - 5, y - 1);
      RippleTwice(c, tr, i, n, y - 6, y - 1, y);
    } else if y >= 7 && Ripples(c, tr, i, y - 7) {
      AllSilent(c, tr, i, y - 6, y);
      AllSilent(c, tr, i, y - 6, y - 1);
      RippleTwice(c, tr, i, n, y - 7, y - 1, y);
    } else if y >= 8 && Ripples(c, tr, i, y - 8) {
      AllSilent(c, tr, i, y - 7, y);
      AllSilent(c, tr, i, y - 7, y - 1);
      RippleTwice(c, tr, i, n, y - 8, y - 1, y);
    } else if y >= 9 && Falls(c, tr, i, y - 9) {
      AllSilent(c, tr, i, y - 7, y);
      AllSilent(c, tr, i, y - 7, y - 1);
      RippleTwice(c, tr, i, n, y - 8, y - 1, y);
    } else {
      RippleStill(c, tr, i, n, y);
    }
  }

  /** The ripple output in every run, step by step: 5 steps after a change of the ripple input it is that input together
      with all four digits; 7 steps after a count with the upper digits high it is the opposite of the lowest digit; 9
      steps after ~Clear has fallen it is low; unless overtaken. Otherwise, and so after a load, it is as it was. */
  lemma RippleLaw(c: Circuit, tr: seq<State>, i: nat, n: nat, y: nat)
    requires WellFormed(c) && IsCounter(c, tr, i) && IsRipple(c, i, n) && 0 < y < |tr|
    ensures tr[y].nets[n].val ==
            if y >= 5 && Ripples(c, tr, i, y - 5) then Pin(c, tr, i, 6, y - 5) && Full(c, tr, i, y - 5)
            else if TopsLands(c, tr, i, y) then !Digit(c, tr, i, 0, y - 7)
            else if ClearLands(c, tr, i, y) then false
            else tr[y - 1].nets[n].val
  {
    hide Trace, Initial, OwnLocal, Falls, Tops, Digit, Ripples, Full, OnlyChip, Pin, Wave, SlotTarget, IsRipple;
    if y >= 5 && Ripples(c, tr, i, y - 5) {
      RippleLanded(c, tr, i, n, y - 5, y, Pin(c, tr, i, 6, y - 5) && Full(c, tr, i, y - 5));
    } else if TopsLands(c, tr, i, y) {
      RipplePosts(c, tr, i, y - 7);
      RippleLanded(c, tr, i, n, y - 7, y, !Digit(c, tr, i, 0, y - 7));
    } else if ClearLands(c, tr, i, y) {
      RipplePosts(c, tr, i, y - 9);
      RippleLanded(c, tr, i, n, y - 9, y, false);
    } else {
      RippleRests(c, tr, i, n, y);
    }
  }

  lemma NotFull(c: Circuit, tr: seq<State>, i: nat, q: nat, u: nat)
    requires WellFormed(c) && IsCounter(c, tr, i) && IsDigit(c, i, 0, q) && u < |tr| && !tr[u].nets[q].val
    ensures !Full(c, tr, i, u)
  {
  }

  /** With ~Clear held low for six steps the ripple output is low from nine steps after the fall on, until seven steps
      after an edge. `q` is the lowest digit. */
  lemma {:induction false} RippleClears(c: Circuit, tr: seq<State>, i: nat, n: nat, q: nat, u: nat, y: nat)
    requires WellFormed(c) && IsCounter(c, tr, i) && IsRipple(c, i, n) && IsDigit(c, i, 0, q)
    requires u + 9 <= y < |tr| && Falls(c, tr, i, u) && forall x :: u <= x <= u + 5 ==> !Pin(c, tr, i, 7, x)
    requires forall x :: u < x <= y - 7 ==> !Edge(c, tr, i, x)
    ensures !tr[y].nets[n].val
    decreases y
  {
    hide Trace, Initial, OwnLocal, Falls, Digit, Full, OnlyChip, SlotTarget, IsRipple, IsDigit, Loads, Edge;
    RippleLaw(c, tr, i, n, y);
    if Ripples(c, tr, i, y - 5) {
      ClearHolds(c, tr, i, 0, q, u, y - 5);
      NotFull(c, tr, i, q, y - 5);
    }
    FallsNoEdge(c, tr, i, y - 7);
    if y > u + 9 {
      RippleClears(c, tr, i, n, q, u, y - 1);
    }
  }
}
