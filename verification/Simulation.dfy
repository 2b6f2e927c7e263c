/** The simulator step as a function on values, and its meaning net by net as a waveform. */
module Simulation {
  import opened Wrappers
  import opened Schedule
  import opened Chips

  /** Nets below `netLen` are the circuit's nets; the rest are local nets of the chips. */
  datatype Circuit = Circuit(chips: seq<Chip>, netLen: nat, total: nat)

  datatype State = State(nets: seq<Net>, sched: seq<Update>)

  predicate ChipFits(c: Circuit, chip: Chip) {
    && Wired(chip, c.total)
    && (forall p :: 0 <= p < |chip.inp| ==> chip.inp[p] < c.netLen)
    && (forall j :: 0 <= j < |chip.out| && chip.out[j].Some? ==> chip.out[j].value < c.netLen)
    && (LocalCount(chip.kind) > 0 ==> c.netLen <= chip.local)
  }

  predicate WellFormed(c: Circuit) {
    c.netLen <= c.total && forall i :: 0 <= i < |c.chips| ==> ChipFits(c, c.chips[i])
  }

  /** No chip reads a null output in this step. */
  predicate NoNullRead(c: Circuit, nets: seq<Net>)
    requires WellFormed(c) && |nets| == c.total
  {
    forall i :: 0 <= i < |c.chips| ==> ChipFits(c, c.chips[i]) && ReadsConnected(c.chips[i], nets)
  }

  /** With the four digits of every counter wired that is so in every state. */
  lemma WiredReads(c: Circuit, nets: seq<Net>)
    requires WellFormed(c) && |nets| == c.total
    requires forall i, j :: 0 <= i < |c.chips| && c.chips[i].kind.AC161? && 0 <= j < 4 ==> c.chips[i].out[j].Some?
    ensures NoNullRead(c, nets)
  {
    forall i | 0 <= i < |c.chips|
      ensures ChipFits(c, c.chips[i]) && ReadsConnected(c.chips[i], nets)
    {
      assert ChipFits(c, c.chips[i]);
    }
  }

  predicate Ok(c: Circuit, s: State) {
    |s.nets| == c.total && Valid(s.sched, c.total)
  }

  // ---- One step ----

  function PostSlot(chip: Chip, nets: seq<Net>, s: seq<Update>, k: nat): seq<Update>
    requires Wired(chip, |nets|) && k < SlotCount(chip.kind)
  {
    match (SlotDrive(chip, nets, k), SlotTarget(chip, k))
    case (Drive(v, d), Some(n)) => Post(s, n, v, d)
    case (_, _) => s
  }

  /** The schedule after the chip has handled its slots from `k` on. */
  function DriveFrom(chip: Chip, nets: seq<Net>, s: seq<Update>, k: nat): seq<Update>
    requires Wired(chip, |nets|) && k <= SlotCount(chip.kind)
    decreases SlotCount(chip.kind) - k
  {
    if k == SlotCount(chip.kind) then s
    else DriveFrom(chip, nets, PostSlot(chip, nets, s, k), k + 1)
  }

  /** The schedule after the chips from index `i` on have been stepped. */
  function DriveChips(chips: seq<Chip>, nets: seq<Net>, s: seq<Update>, i: nat): seq<Update>
    requires i <= |chips| && forall j :: 0 <= j < |chips| ==> Wired(chips[j], |nets|)
    decreases |chips| - i
  {
    if i == |chips| then s
    else DriveChips(chips, nets, DriveFrom(chips[i], nets, s, 0), i + 1)
  }

  function Clear(nets: seq<Net>, n: nat): (r: seq<Net>)
    requires n <= |nets|
    ensures |r| == |nets|
    ensures forall i :: 0 <= i < |nets| ==> r[i] == Net(nets[i].val, if i < n then false else nets[i].changed)
  {
    seq(|nets|, i requires 0 <= i < |nets| => Net(nets[i].val, if i < n then false else nets[i].changed))
  }

  /** The schedule once all chips have posted and nothing has aged yet. */
  function Posted(c: Circuit, s: State): seq<Update>
    requires WellFormed(c) && |s.nets| == c.total
  {
    DriveChips(c.chips, s.nets, s.sched, 0)
  }

  function Step(c: Circuit, s: State): State
    requires WellFormed(c) && Ok(c, s)
  {
    PostedValid(c, s);
    State(Fire(Clear(s.nets, c.netLen), Posted(c, s)), Age(Posted(c, s)))
  }

  lemma DriveIsPositive(chip: Chip, nets: seq<Net>, k: nat)
    requires Wired(chip, |nets|) && k < SlotCount(chip.kind)
    ensures SlotDrive(chip, nets, k).Drive? ==> 1 <= SlotDrive(chip, nets, k).delay <= 27
  {
  }

  lemma {:induction false} DriveFromValid(chip: Chip, nets: seq<Net>, s: seq<Update>, k: nat)
    requires Wired(chip, |nets|) && k <= SlotCount(chip.kind) && Valid(s, |nets|)
    ensures Valid(DriveFrom(chip, nets, s, k), |nets|)
    decreases SlotCount(chip.kind) - k
  {
    if k < SlotCount(chip.kind) {
      DriveIsPositive(chip, nets, k);
      var d, o := SlotDrive(chip, nets, k), SlotTarget(chip, k);
      if d.Drive? && o.Some? {
        PostValid(s, o.value, d.val, d.delay, |nets|);
      }
      DriveFromValid(chip, nets, PostSlot(chip, nets, s, k), k + 1);
    }
  }

  lemma {:induction false} DriveChipsValid(chips: seq<Chip>, nets: seq<Net>, s: seq<Update>, i: nat)
    requires i <= |chips| && forall j :: 0 <= j < |chips| ==> Wired(chips[j], |nets|)
    requires Valid(s, |nets|)
    ensures Valid(DriveChips(chips, nets, s, i), |nets|)
    decreases |chips| - i
  {
    if i < |chips| {
      DriveFromValid(chips[i], nets, s, 0);
      DriveChipsValid(chips, nets, DriveFrom(chips[i], nets, s, 0), i + 1);
    }
  }

  lemma PostedValid(c: Circuit, s: State)
    requires WellFormed(c) && Ok(c, s)
    ensures Valid(Posted(c, s), c.total)
  {
    DriveChipsValid(c.chips, s.nets, s.sched, 0);
  }

  /** Reachable schedules stay ordered per net and strictly in the future. */
  lemma StepOk(c: Circuit, s: State)
    requires WellFormed(c) && Ok(c, s)
    ensures Ok(c, Step(c, s))
  {
    PostedValid(c, s);
    AgeValid(Posted(c, s), c.total);
  }

  // ---- The same step seen from one net ----

  /** What slots `k` and later do to the value of net `n` at time `t`, if it would be `base`. */
  function SlotWave(chip: Chip, nets: seq<Net>, n: nat, k: nat, t: int, base: bool): bool
    requires Wired(chip, |nets|) && k <= SlotCount(chip.kind)
    decreases SlotCount(chip.kind) - k
  {
    if k == SlotCount(chip.kind) then base
    else
      var d := SlotDrive(chip, nets, k);
      SlotWave(chip, nets, n, k + 1, t,
               if d.Drive? && SlotTarget(chip, k) == Some(n) && t >= d.delay then d.val else base)
  }

  function ChipsWave(chips: seq<Chip>, nets: seq<Net>, n: nat, i: nat, t: int, base: bool): bool
    requires i <= |chips| && forall j :: 0 <= j < |chips| ==> Wired(chips[j], |nets|)
    decreases |chips| - i
  {
    if i == |chips| then base
    else ChipsWave(chips, nets, n, i + 1, t, SlotWave(chips[i], nets, n, 0, t, base))
  }

  lemma {:induction false} DriveFromFuture(chip: Chip, nets: seq<Net>, s: seq<Update>, k: nat, n: nat, cur: bool,
                                           t: int)
    requires Wired(chip, |nets|) && k <= SlotCount(chip.kind)
    ensures Future(DriveFrom(chip, nets, s, k), n, cur, t)
         == SlotWave(chip, nets, n, k, t, Future(s, n, cur, t))
    decreases SlotCount(chip.kind) - k
  {
    if k < SlotCount(chip.kind) {
      var d, o := SlotDrive(chip, nets, k), SlotTarget(chip, k);
      if d.Drive? && o.Some? {
        PostFuture(s, o.value, d.val, d.delay, n, cur, t);
      }
      DriveFromFuture(chip, nets, PostSlot(chip, nets, s, k), k + 1, n, cur, t);
    }
  }

  /** The whole chip phase, as an operation on the waveform of one net. */
  lemma {:induction false} DriveChipsFuture(chips: seq<Chip>, nets: seq<Net>, s: seq<Update>, i: nat, n: nat,
                                            cur: bool, t: int)
    requires i <= |chips| && forall j :: 0 <= j < |chips| ==> Wired(chips[j], |nets|)
    ensures Future(DriveChips(chips, nets, s, i), n, cur, t)
         == ChipsWave(chips, nets, n, i, t, Future(s, n, cur, t))
    decreases |chips| - i
  {
    if i < |chips| {
      DriveFromFuture(chips[i], nets, s, 0, n, cur, t);
      DriveChipsFuture(chips, nets, DriveFrom(chips[i], nets, s, 0), i + 1, n, cur, t);
    }
  }

  /** A step is "post, then shift the waveform by one", and `changed` means what it says. */
  lemma StepNet(c: Circuit, s: State, n: nat)
    requires WellFormed(c) && Ok(c, s) && n < c.total
    ensures Step(c, s).nets[n].val == Future(Posted(c, s), n, s.nets[n].val, 1)
    ensures Step(c, s).nets[n].changed <==>
              (n >= c.netLen && s.nets[n].changed) || Step(c, s).nets[n].val != s.nets[n].val
  {
    PostedValid(c, s);
    FireValue(Clear(s.nets, c.netLen), Posted(c, s), n);
  }

  lemma StepFuture(c: Circuit, s: State, n: nat, t: int)
    requires WellFormed(c) && Ok(c, s) && n < c.total && t >= 0
    ensures Future(Step(c, s).sched, n, Step(c, s).nets[n].val, t) == Future(Posted(c, s), n, s.nets[n].val, t + 1)
  {
    PostedValid(c, s);
    StepNet(c, s, n);
    AgeFuture(Posted(c, s), n, s.nets[n].val, t);
  }

  lemma StepFinal(c: Circuit, s: State, n: nat)
    requires WellFormed(c) && Ok(c, s) && n < c.total
    ensures Final(Step(c, s).sched, n, Step(c, s).nets[n].val) == Final(Posted(c, s), n, s.nets[n].val)
  {
    PostedValid(c, s);
    StepNet(c, s, n);
    AgeFinal(Posted(c, s), n, s.nets[n].val);
  }

  // ---- Drivers ----

  predicate Drives(c: Circuit, i: int, k: int, n: nat)
    requires WellFormed(c)
  {
    0 <= i < |c.chips| && 0 <= k < SlotCount(c.chips[i].kind) && SlotTarget(c.chips[i], k) == Some(n)
  }

  ghost predicate Driven(c: Circuit, n: nat)
    requires WellFormed(c)
  {
    exists i: int, k: int :: Drives(c, i, k, n)
  }

  /** Slot `k` of chip `i` is the one driver of net `n`. */
  ghost predicate SoleDriver(c: Circuit, n: nat, i: nat, k: nat)
    requires WellFormed(c)
  {
    Drives(c, i, k, n) && forall i': int, k': int :: Drives(c, i', k', n) ==> i' == i && k' == k
  }

  predicate Spares(chip: Chip, n: nat)
    requires |chip.out| == OutCount(chip.kind)
  {
    forall k :: 0 <= k < SlotCount(chip.kind) ==> SlotTarget(chip, k) != Some(n)
  }

  lemma {:induction false} SlotWaveIdle(chip: Chip, nets: seq<Net>, n: nat, k: nat, t: int, base: bool)
    requires Wired(chip, |nets|) && k <= SlotCount(chip.kind)
    requires forall k' :: k <= k' < SlotCount(chip.kind) ==> SlotTarget(chip, k') != Some(n)
    ensures SlotWave(chip, nets, n, k, t, base) == base
    decreases SlotCount(chip.kind) - k
  {
    if k < SlotCount(chip.kind) {
      SlotWaveIdle(chip, nets, n, k + 1, t, base);
    }
  }

  function DriveWave(d: Drive, t: int, base: bool): bool {
    if d.Drive? && t >= d.delay then d.val else base
  }

  lemma {:induction false} SlotWaveSole(chip: Chip, nets: seq<Net>, n: nat, k: nat, j: nat, t: int, base: bool)
    requires Wired(chip, |nets|) && k <= j < SlotCount(chip.kind)
    requires forall k' :: k <= k' < SlotCount(chip.kind) ==> (SlotTarget(chip, k') == Some(n) <==> k' == j)
    ensures SlotWave(chip, nets, n, k, t, base) == DriveWave(SlotDrive(chip, nets, j), t, base)
    decreases j - k
  {
    if k < j {
      SlotWaveSole(chip, nets, n, k + 1, j, t, base);
    } else {
      SlotWaveIdle(chip, nets, n, k + 1, t, DriveWave(SlotDrive(chip, nets, j), t, base));
    }
  }

  /** The ripple output of a counter has two slots; the second is posted last. */
  lemma {:induction false} SlotWaveTwo(chip: Chip, nets: seq<Net>, n: nat, k: nat, t: int, base: bool)
    requires Wired(chip, |nets|) && chip.kind.AC161? && k <= 11
    requires forall k' :: 0 <= k' < 13 ==> (SlotTarget(chip, k') == Some(n) <==> k' >= 11)
    ensures SlotWave(chip, nets, n, k, t, base)
         == DriveWave(SlotDrive(chip, nets, 12), t, DriveWave(SlotDrive(chip, nets, 11), t, base))
    decreases 11 - k
  {
    hide SlotDrive, SlotTarget;
    if k < 11 {
      SlotWaveTwo(chip, nets, n, k + 1, t, base);
    } else {
      var b1 := DriveWave(SlotDrive(chip, nets, 11), t, base);
      var b2 := DriveWave(SlotDrive(chip, nets, 12), t, b1);
      assert SlotWave(chip, nets, n, 12, t, b1) == SlotWave(chip, nets, n, 13, t, b2);
    }
  }

  lemma {:induction false} ChipsWaveIdle(chips: seq<Chip>, nets: seq<Net>, n: nat, i: nat, t: int, base: bool)
    requires i <= |chips| && forall j :: 0 <= j < |chips| ==> Wired(chips[j], |nets|)
    requires forall j :: i <= j < |chips| ==> Wired(chips[j], |nets|) && Spares(chips[j], n)
    ensures ChipsWave(chips, nets, n, i, t, base) == base
    decreases |chips| - i
  {
    if i < |chips| {
      SlotWaveIdle(chips[i], nets, n, 0, t, base);
      ChipsWaveIdle(chips, nets, n, i + 1, t, base);
    }
  }

  /** Only chip `j` touches net `n`: the other chips leave its waveform alone. */
  lemma {:induction false} ChipsWaveOne(chips: seq<Chip>, nets: seq<Net>, n: nat, i: nat, j: nat, t: int, base: bool)
    requires i <= j < |chips| && forall j' :: 0 <= j' < |chips| ==> Wired(chips[j'], |nets|)
    requires forall j' :: i <= j' < |chips| && j' != j ==> Wired(chips[j'], |nets|) && Spares(chips[j'], n)
    ensures ChipsWave(chips, nets, n, i, t, base) == SlotWave(chips[j], nets, n, 0, t, base)
    decreases j - i
  {
    if i < j {
      SlotWaveIdle(chips[i], nets, n, 0, t, base);
      ChipsWaveOne(chips, nets, n, i + 1, j, t, base);
    } else {
      ChipsWaveIdle(chips, nets, n, i + 1, t, SlotWave(chips[j], nets, n, 0, t, base));
    }
  }

  lemma SparesUnlessDrives(c: Circuit, j: nat, n: nat)
    requires WellFormed(c) && j < |c.chips| && forall k: int :: !Drives(c, j, k, n)
    ensures Wired(c.chips[j], c.total) && Spares(c.chips[j], n)
  {
    assert ChipFits(c, c.chips[j]);
    forall k | 0 <= k < SlotCount(c.chips[j].kind)
      ensures SlotTarget(c.chips[j], k) != Some(n)
    {
      assert !Drives(c, j, k, n);
    }
  }

  /** If at most chip `i` drives net `n`, the chip phase acts on it as that chip alone. */
  lemma OnePosted(c: Circuit, s: State, n: nat, i: nat, t: int)
    requires WellFormed(c) && |s.nets| == c.total && n < c.total && i < |c.chips|
    requires forall i': int, k': int :: Drives(c, i', k', n) ==> i' == i
    ensures Future(Posted(c, s), n, s.nets[n].val, t)
         == SlotWave(c.chips[i], s.nets, n, 0, t, Future(s.sched, n, s.nets[n].val, t))
  {
    DriveChipsFuture(c.chips, s.nets, s.sched, 0, n, s.nets[n].val, t);
    forall j | 0 <= j < |c.chips| && j != i
      ensures Wired(c.chips[j], |s.nets|) && Spares(c.chips[j], n)
    {
      SparesUnlessDrives(c, j, n);
    }
    ChipsWaveOne(c.chips, s.nets, n, 0, i, t, Future(s.sched, n, s.nets[n].val, t));
  }

  /** The chip phase seen from a net with one driver. */
  lemma SolePosted(c: Circuit, s: State, n: nat, i: nat, k: nat, t: int)
    requires WellFormed(c) && |s.nets| == c.total && n < c.total && SoleDriver(c, n, i, k)
    ensures Future(Posted(c, s), n, s.nets[n].val, t)
         == DriveWave(SlotDrive(c.chips[i], s.nets, k), t, Future(s.sched, n, s.nets[n].val, t))
  {
    OnePosted(c, s, n, i, t);
    forall k' | 0 <= k' < SlotCount(c.chips[i].kind)
      ensures SlotTarget(c.chips[i], k') == Some(n) <==> k' == k
    {
      assert Drives(c, i, k', n) <==> SlotTarget(c.chips[i], k') == Some(n);
    }
    SlotWaveSole(c.chips[i], s.nets, n, 0, k, t, Future(s.sched, n, s.nets[n].val, t));
  }

  /** What a net with one driver is heading for changes in a step exactly to what the driver posts. */
  lemma SoleFinal(c: Circuit, s: State, n: nat, i: nat, k: nat)
    requires WellFormed(c) && Ok(c, s) && n < c.total && SoleDriver(c, n, i, k)
    ensures Final(Step(c, s).sched, n, Step(c, s).nets[n].val) ==
              match SlotDrive(c.chips[i], s.nets, k)
              case Drive(v, _) => v
              case Keep => Final(s.sched, n, s.nets[n].val)
  {
    hide Step, Posted, SlotDrive;
    StepFinal(c, s, n);
    var d := SlotDrive(c.chips[i], s.nets, k);
    var t := Horizon(s.sched) + Horizon(Posted(c, s)) + if d.Drive? && d.delay > 0 then d.delay else 0;
    FutureFinal(Posted(c, s), n, s.nets[n].val, t);
    FutureFinal(s.sched, n, s.nets[n].val, t);
    SolePosted(c, s, n, i, k, t);
  }

  lemma UndrivenPosted(c: Circuit, s: State, n: nat, t: int)
    requires WellFormed(c) && |s.nets| == c.total && n < c.total && !Driven(c, n)
    ensures Future(Posted(c, s), n, s.nets[n].val, t) == Future(s.sched, n, s.nets[n].val, t)
  {
    DriveChipsFuture(c.chips, s.nets, s.sched, 0, n, s.nets[n].val, t);
    forall j | 0 <= j < |c.chips|
      ensures Wired(c.chips[j], c.total) && Spares(c.chips[j], n)
    {
      SparesUnlessDrives(c, j, n);
    }
    ChipsWaveIdle(c.chips, s.nets, n, 0, t, Future(s.sched, n, s.nets[n].val, t));
  }

  // ---- Runs ----

  /** The values of all nets. */
  function Levels(s: State): (v: seq<bool>)
    ensures |v| == |s.nets| && forall m :: 0 <= m < |v| ==> v[m] == s.nets[m].val
  {
    seq(|s.nets|, m requires 0 <= m < |s.nets| => s.nets[m].val)
  }

  /** The interface's `set` command. */
  function SetNet(s: State, n: nat, v: bool): State
    requires n < |s.nets|
  {
    s.(nets := Write(s.nets, n, v))
  }

  function SetNets(s: State, pokes: seq<(nat, bool)>): (r: State)
    requires forall i :: 0 <= i < |pokes| ==> pokes[i].0 < |s.nets|
    ensures |r.nets| == |s.nets| && r.sched == s.sched
    decreases |pokes|
  {
    if pokes == [] then s else SetNets(SetNet(s, pokes[0].0, pokes[0].1), pokes[1..])
  }

  /** `b` is `a` up to `set` commands on nets that no chip drives. */
  ghost predicate Poked(c: Circuit, a: State, b: State)
    requires WellFormed(c)
  {
    && b.sched == a.sched && |b.nets| == |a.nets| == c.total
    && forall n :: 0 <= n < c.total ==>
         b.nets[n] == a.nets[n] || (n < c.netLen && !Driven(c, n) && b.nets[n].changed)
  }

  /** One step, then any number of `set` commands on nets that no chip drives. Says nothing of what comes after a
      state that is not valid; there is none in a run. */
  ghost predicate Next(c: Circuit, s: State, s': State)
    requires WellFormed(c)
  {
    Ok(c, s) ==> Poked(c, Step(c, s), s')
  }

  /** The state in which a run starts: nothing pending, every circuit net marked changed, local nets low. */
  ghost predicate Initial(c: Circuit, s: State)
    requires WellFormed(c)
  {
    && |s.nets| == c.total && s.sched == []
    && forall n :: 0 <= n < c.total ==> if n < c.netLen then s.nets[n].changed else !s.nets[n].val
  }

  /** Each state follows from the one before. */
  ghost predicate Stepwise(c: Circuit, tr: seq<State>)
    requires WellFormed(c)
  {
    forall k :: 0 <= k < |tr| - 1 ==> Next(c, tr[k], tr[k + 1])
  }

  /** A run from any valid state. That all its states are valid is not asked for: it follows. */
  ghost predicate Trace(c: Circuit, tr: seq<State>): (run: bool)
    requires WellFormed(c)
    ensures run ==> forall u :: 0 <= u < |tr| ==> Ok(c, tr[u])
  {
    if (tr != [] ==> Ok(c, tr[0])) && Stepwise(c, tr) then AllOk(c, tr); true else false
  }

  /** Lists of `set` commands on undriven nets are pokes ... */
  lemma {:induction false} SetNetsPoked(c: Circuit, a: State, b: State, pokes: seq<(nat, bool)>)
    requires WellFormed(c) && Poked(c, a, b)
    requires forall i :: 0 <= i < |pokes| ==> pokes[i].0 < c.netLen && !Driven(c, pokes[i].0)
    ensures Poked(c, a, SetNets(b, pokes))
    decreases |pokes|
  {
    if pokes != [] {
      var b' := SetNet(b, pokes[0].0, pokes[0].1);
      assert Poked(c, a, b');
      SetNetsPoked(c, a, b', pokes[1..]);
    }
  }

  lemma {:induction false} SetNetsConcat(s: State, p: seq<(nat, bool)>, q: seq<(nat, bool)>)
    requires forall i :: 0 <= i < |p| ==> p[i].0 < |s.nets|
    requires forall i :: 0 <= i < |q| ==> q[i].0 < |s.nets|
    ensures forall i :: 0 <= i < |p + q| ==> (p + q)[i].0 < |s.nets|
    ensures SetNets(s, p + q) == SetNets(SetNets(s, p), q)
    decreases |p|
  {
    if p == [] {
      assert p + q == q;
    } else {
      SetNetsConcat(SetNet(s, p[0].0, p[0].1), p[1..], q);
      assert (p + q)[1..] == p[1..] + q;
    }
  }

  /** Two commands for one net: away from its value, and to the wanted one. */
  lemma SetTwice(s: State, n: nat, v: bool)
    requires n < |s.nets|
    ensures SetNets(s, [(n, !s.nets[n].val), (n, v)]) == s.(nets := s.nets[n := Net(v, true)])
  {
    var s1 := SetNet(s, n, !s.nets[n].val);
    assert [(n, !s.nets[n].val), (n, v)][1..] == [(n, v)];
    assert SetNets(s1, [(n, v)]) == SetNet(s1, n, v);
    assert SetNet(s1, n, v).nets == s.nets[n := Net(v, true)];
  }

  lemma {:induction false} PokesBelow(c: Circuit, a: State, b: State, n: nat) returns (pokes: seq<(nat, bool)>)
    requires WellFormed(c) && Poked(c, a, b) && n <= c.total
    ensures forall i :: 0 <= i < |pokes| ==> pokes[i].0 < c.netLen && !Driven(c, pokes[i].0)
    ensures SetNets(a, pokes) == State(b.nets[..n] + a.nets[n..], a.sched)
  {
    hide Driven;
    pokes := [];
    if n == 0 {
      assert b.nets[..0] + a.nets[0..] == a.nets;
    } else {
      var m := n - 1;
      pokes := PokesBelow(c, a, b, m);
      var s := SetNets(a, pokes);
      if b.nets[m] == a.nets[m] {
        assert b.nets[..n] + a.nets[n..] == s.nets;
      } else {
        var more := [(m, !s.nets[m].val), (m, b.nets[m].val)];
        SetTwice(s, m, b.nets[m].val);
        SetNetsConcat(a, pokes, more);
        assert b.nets[..n] + a.nets[n..] == s.nets[m := b.nets[m]];
        pokes := pokes + more;
      }
    }
  }

  /** ... and every poke is some list of `set` commands. */
  lemma PokedAreSets(c: Circuit, a: State, b: State) returns (pokes: seq<(nat, bool)>)
    requires WellFormed(c) && Poked(c, a, b)
    ensures forall i :: 0 <= i < |pokes| ==> pokes[i].0 < c.netLen && !Driven(c, pokes[i].0)
    ensures SetNets(a, pokes) == b
  {
    hide Driven;
    pokes := PokesBelow(c, a, b, c.total);
    assert b.nets[..c.total] + a.nets[c.total..] == b.nets;
  }

  lemma NextOk(c: Circuit, s: State, s': State)
    requires WellFormed(c) && Ok(c, s) && Next(c, s, s')
    ensures Ok(c, s')
  {
    StepOk(c, s);
  }

  /** Whatever is set in between, every state of a run is valid if its first one is. */
  lemma {:induction false} TraceOk(c: Circuit, tr: seq<State>, u: nat)
    requires WellFormed(c) && u < |tr| && Ok(c, tr[0]) && Stepwise(c, tr)
    ensures Ok(c, tr[u])
  {
    hide Ok, Next;
    if u > 0 {
      TraceOk(c, tr, u - 1);
      var k := u - 1;
      assert Next(c, tr[k], tr[k + 1]);
      NextOk(c, tr[k], tr[k + 1]);
    }
  }

  lemma AllOk(c: Circuit, tr: seq<State>)
    requires WellFormed(c) && (tr != [] ==> Ok(c, tr[0])) && Stepwise(c, tr)
    ensures forall u :: 0 <= u < |tr| ==> Ok(c, tr[u])
  {
    hide Ok, Stepwise;
    forall u | 0 <= u < |tr|
      ensures Ok(c, tr[u])
    {
      TraceOk(c, tr, u);
    }
  }

  /** From the start of the simulator on, every reachable state is valid. */
  lemma ReachableOk(c: Circuit, tr: seq<State>, u: nat)
    requires WellFormed(c) && u < |tr| && Initial(c, tr[0]) && Stepwise(c, tr)
    ensures Trace(c, tr) && Ok(c, tr[u])
  {
    hide Stepwise;
    TraceOk(c, tr, u);
  }

  lemma TraceStep(c: Circuit, tr: seq<State>, u: nat)
    requires WellFormed(c) && Trace(c, tr) && 0 < u < |tr|
    ensures Ok(c, tr[u - 1]) && Ok(c, tr[u]) && Next(c, tr[u - 1], tr[u])
  {
    var k := u - 1;
    assert Next(c, tr[k], tr[k + 1]);
  }

  /** A driven net, or one left alone, after a step and possible `set` commands elsewhere. */
  lemma NextNet(c: Circuit, s: State, s': State, n: nat, t: int)
    requires WellFormed(c) && Ok(c, s) && Next(c, s, s') && n < c.total && t >= 0
    requires Driven(c, n) || n >= c.netLen || s'.nets[n] == Step(c, s).nets[n]
    ensures s'.nets[n].val == Future(Posted(c, s), n, s.nets[n].val, 1)
    ensures Future(s'.sched, n, s'.nets[n].val, t) == Future(Posted(c, s), n, s.nets[n].val, t + 1)
    ensures n < c.netLen ==> (s'.nets[n].changed <==> s'.nets[n].val != s.nets[n].val)
  {
    StepNet(c, s, n);
    StepFuture(c, s, n, t);
    assert s'.nets[n] == Step(c, s).nets[n];
  }

  /** Whatever happened, a net whose value differs from the previous state is marked changed. */
  lemma NextExplains(c: Circuit, s: State, s': State, n: nat)
    requires WellFormed(c) && Ok(c, s) && Next(c, s, s') && n < c.netLen
    ensures s'.nets[n].val != s.nets[n].val ==> s'.nets[n].changed
  {
    StepNet(c, s, n);
  }
}
