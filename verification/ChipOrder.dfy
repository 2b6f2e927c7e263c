/** The order in which the chips are stepped does not matter when no two chips drive the same net,
    although it does change the order of the update list. */
module ChipOrder {
  import opened Schedule
  import opened Chips
  import opened Simulation

  /** `b` lists the chips of `a` in the order given by `perm`. */
  ghost predicate Permuted(a: Circuit, b: Circuit, perm: seq<nat>): (r: bool)
    requires WellFormed(a)
    ensures r ==> WellFormed(b)
  {
    && b.netLen == a.netLen && b.total == a.total
    && |perm| == |a.chips| == |b.chips|
    && (forall i :: 0 <= i < |perm| ==> perm[i] < |a.chips| && b.chips[i] == a.chips[perm[i]])
    && (forall i, j :: 0 <= i < j < |perm| ==> perm[i] != perm[j])
    && (forall j :: 0 <= j < |a.chips| ==> j in perm)
  }

  /** No net is driven by two chips. */
  ghost predicate Exclusive(c: Circuit)
    requires WellFormed(c)
  {
    forall n, i, j :: 0 <= i < j < |c.chips| ==> Spares(c.chips[i], n) || Spares(c.chips[j], n)
  }

  /** Equal nets and equal pending waveforms; the schedules themselves may be ordered differently. */
  ghost predicate SameView(a: State, b: State) {
    && a.nets == b.nets
    && forall n: nat, t: nat :: n < |a.nets| ==>
         Future(a.sched, n, a.nets[n].val, t) == Future(b.sched, n, b.nets[n].val, t)
  }

  lemma PermutedWave(a: Circuit, b: Circuit, perm: seq<nat>, nets: seq<Net>, n: nat, t: int, base: bool)
    requires WellFormed(a) && Permuted(a, b, perm) && Exclusive(a) && |nets| == a.total
    ensures ChipsWave(a.chips, nets, n, 0, t, base) == ChipsWave(b.chips, nets, n, 0, t, base)
  {
    hide SlotWave, ChipsWave, Spares;
    assert forall i :: 0 <= i < |a.chips| ==> ChipFits(a, a.chips[i]);
    assert forall i :: 0 <= i < |b.chips| ==> ChipFits(b, b.chips[i]);
    if j :| 0 <= j < |a.chips| && !Spares(a.chips[j], n) {
      ChipsWaveOne(a.chips, nets, n, 0, j, t, base);
      assert j in perm;
      var j' :| 0 <= j' < |perm| && perm[j'] == j;
      forall i | 0 <= i < |b.chips| && i != j'
        ensures Spares(b.chips[i], n)
      {
        assert perm[i] != j;
      }
      ChipsWaveOne(b.chips, nets, n, 0, j', t, base);
    } else {
      ChipsWaveIdle(a.chips, nets, n, 0, t, base);
      ChipsWaveIdle(b.chips, nets, n, 0, t, base);
    }
  }

  lemma PostedSameView(a: Circuit, b: Circuit, perm: seq<nat>, s: State, s': State, n: nat, t: nat)
    requires WellFormed(a) && Permuted(a, b, perm) && Exclusive(a)
    requires Ok(a, s) && Ok(b, s') && SameView(s, s') && n < a.total
    ensures Future(Posted(a, s), n, s.nets[n].val, t) == Future(Posted(b, s'), n, s'.nets[n].val, t)
  {
    hide SlotWave, ChipsWave, Exclusive;
    DriveChipsFuture(a.chips, s.nets, s.sched, 0, n, s.nets[n].val, t);
    DriveChipsFuture(b.chips, s'.nets, s'.sched, 0, n, s'.nets[n].val, t);
    PermutedWave(a, b, perm, s.nets, n, t, Future(s.sched, n, s.nets[n].val, t));
  }

  lemma StepSameView(a: Circuit, b: Circuit, perm: seq<nat>, s: State, s': State)
    requires WellFormed(a) && Permuted(a, b, perm) && Exclusive(a)
    requires Ok(a, s) && Ok(b, s') && SameView(s, s')
    ensures Ok(a, Step(a, s)) && Ok(b, Step(b, s')) && SameView(Step(a, s), Step(b, s'))
  {
    hide Posted, Exclusive;
    StepOk(a, s);
    StepOk(b, s');
    var u, u' := Step(a, s), Step(b, s');
    forall n | 0 <= n < a.total
      ensures u.nets[n] == u'.nets[n]
    {
      StepNet(a, s, n);
      StepNet(b, s', n);
      PostedSameView(a, b, perm, s, s', n, 1);
    }
    assert u.nets == u'.nets;
    forall n: nat, t: nat | n < a.total
      ensures Future(u.sched, n, u.nets[n].val, t) == Future(u'.sched, n, u'.nets[n].val, t)
    {
      StepFuture(a, s, n, t);
      StepFuture(b, s', n, t);
      PostedSameView(a, b, perm, s, s', n, t + 1);
    }
  }

  /** Nothing is pending for nets that no chip drives. */
  ghost predicate UndrivenIdle(c: Circuit, s: State)
    requires WellFormed(c)
  {
    forall n: nat, cur, t: nat :: n < c.total && !Driven(c, n) ==> Future(s.sched, n, cur, t) == cur
  }

  lemma StepUndrivenIdle(c: Circuit, s: State)
    requires WellFormed(c) && Ok(c, s) && UndrivenIdle(c, s)
    ensures UndrivenIdle(c, Step(c, s))
  {
    hide Driven;
    PostedValid(c, s);
    var p := Posted(c, s);
    forall n: nat, cur, t: nat | n < c.total && !Driven(c, n)
      ensures Future(Age(p), n, cur, t) == cur
    {
      UndrivenPostedIdle(c, s, n, cur, 1);
      UndrivenPostedIdle(c, s, n, cur, t + 1);
      AgeFuture(p, n, cur, t);
    }
  }

  lemma UndrivenPostedIdle(c: Circuit, s: State, n: nat, cur: bool, t: nat)
    requires WellFormed(c) && Ok(c, s) && UndrivenIdle(c, s) && n < c.total && !Driven(c, n)
    ensures Future(Posted(c, s), n, cur, t) == cur
  {
    DriveChipsFuture(c.chips, s.nets, s.sched, 0, n, cur, t);
    forall j | 0 <= j < |c.chips|
      ensures Wired(c.chips[j], c.total) && Spares(c.chips[j], n)
    {
      SparesUnlessDrives(c, j, n);
    }
    ChipsWaveIdle(c.chips, s.nets, n, 0, t, cur);
  }

  ghost predicate UndrivenPokes(c: Circuit, pokes: seq<(nat, bool)>)
    requires WellFormed(c)
  {
    forall i :: 0 <= i < |pokes| ==> pokes[i].0 < c.netLen && !Driven(c, pokes[i].0)
  }

  lemma {:induction false} SetSameView(c: Circuit, a: State, b: State, pokes: seq<(nat, bool)>)
    requires WellFormed(c) && Ok(c, a) && |b.nets| == |a.nets| && SameView(a, b) && UndrivenPokes(c, pokes)
    requires UndrivenIdle(c, a) && UndrivenIdle(c, b)
    ensures SameView(SetNets(a, pokes), SetNets(b, pokes))
    decreases |pokes|
  {
    if pokes != [] {
      var n, v := pokes[0].0, pokes[0].1;
      var a', b' := SetNet(a, n, v), SetNet(b, n, v);
      forall m: nat, t: nat | m < c.total
        ensures Future(a'.sched, m, a'.nets[m].val, t) == Future(b'.sched, m, b'.nets[m].val, t)
      {
        assert m != n ==> Future(a.sched, m, a.nets[m].val, t) == Future(b.sched, m, b.nets[m].val, t);
      }
      SetSameView(c, a', b', pokes[1..]);
    }
  }

  /** One step, then the listed `set` commands. */
  ghost predicate Obeys(c: Circuit, s: State, s': State, pokes: seq<(nat, bool)>)
    requires WellFormed(c) && UndrivenPokes(c, pokes)
  {
    Ok(c, s) ==> s' == SetNets(Step(c, s), pokes)
  }

  /** A run from the start of the simulator in which `script[k]` lists the `set` commands given after step `k`. */
  ghost predicate Scripted(c: Circuit, tr: seq<State>, script: seq<seq<(nat, bool)>>)
    requires WellFormed(c)
  {
    && |tr| == |script| + 1 && Initial(c, tr[0])
    && (forall k :: 0 <= k < |script| ==> UndrivenPokes(c, script[k]))
    && (forall k :: 0 <= k < |script| ==> Obeys(c, tr[k], tr[k + 1], script[k]))
  }

  /** Such a run is a run in the sense of `Simulation`, so all its states are valid. */
  lemma ScriptedTrace(c: Circuit, tr: seq<State>, script: seq<seq<(nat, bool)>>)
    requires WellFormed(c) && Scripted(c, tr, script)
    ensures Trace(c, tr)
  {
    hide Step, Poked;
    forall k | 0 <= k < |tr| - 1
      ensures Next(c, tr[k], tr[k + 1])
    {
      assert Obeys(c, tr[k], tr[k + 1], script[k]);
      if Ok(c, tr[k]) {
        StepOk(c, tr[k]);
        NotPoked(c, Step(c, tr[k]));
        SetNetsPoked(c, Step(c, tr[k]), Step(c, tr[k]), script[k]);
      }
    }
  }

  lemma NotPoked(c: Circuit, s: State)
    requires WellFormed(c) && Ok(c, s)
    ensures Poked(c, s, s)
  {
  }

  /** Chip order is irrelevant: from the same start and under the same commands, circuits whose chip
      lists are permutations of each other have the same nets, and the same future, after every step. */
  lemma {:induction false} OrderIrrelevant(
    a: Circuit, b: Circuit, perm: seq<nat>, tr: seq<State>, tr': seq<State>, script: seq<seq<(nat, bool)>>, k: nat)
    requires WellFormed(a) && Permuted(a, b, perm) && Exclusive(a)
    requires Scripted(a, tr, script) && Scripted(b, tr', script) && tr[0] == tr'[0]
    requires k <= |script|
    ensures tr[k].nets == tr'[k].nets && SameView(tr[k], tr'[k])
    ensures UndrivenIdle(a, tr[k]) && UndrivenIdle(b, tr'[k])
  {
    hide Posted, Exclusive, Permuted, UndrivenPokes, UndrivenIdle, Step;
    if k == 0 {
      StartIdle(a, tr[0]);
      StartIdle(b, tr'[0]);
    } else {
      OrderIrrelevant(a, b, perm, tr, tr', script, k - 1);
      var s, s', pokes := tr[k - 1], tr'[k - 1], script[k - 1];
      ScriptStep(a, tr, script, k - 1);
      ScriptStep(b, tr', script, k - 1);
      StepSameView(a, b, perm, s, s');
      StepUndrivenIdle(a, s);
      StepUndrivenIdle(b, s');
      PermutedDriven(a, b, perm, Step(b, s'));
      SetSameView(a, Step(a, s), Step(b, s'), pokes);
      KeepsIdle(a, Step(a, s), tr[k]);
      KeepsIdle(b, Step(b, s'), tr'[k]);
    }
  }

  lemma ScriptStep(c: Circuit, tr: seq<State>, script: seq<seq<(nat, bool)>>, k: nat)
    requires WellFormed(c) && Scripted(c, tr, script) && k < |script|
    ensures Ok(c, tr[k]) && UndrivenPokes(c, script[k])
    ensures forall i :: 0 <= i < |script[k]| ==> script[k][i].0 < |Step(c, tr[k]).nets|
    ensures tr[k + 1] == SetNets(Step(c, tr[k]), script[k])
  {
    hide Step;
    ScriptedTrace(c, tr, script);
    StepOk(c, tr[k]);
    assert Obeys(c, tr[k], tr[k + 1], script[k]);
  }

  lemma StartIdle(c: Circuit, s: State)
    requires WellFormed(c) && Initial(c, s)
    ensures UndrivenIdle(c, s)
  {
  }

  lemma KeepsIdle(c: Circuit, s: State, s': State)
    requires WellFormed(c) && s'.sched == s.sched && UndrivenIdle(c, s)
    ensures UndrivenIdle(c, s')
  {
  }

  lemma PermutedDriven(a: Circuit, b: Circuit, perm: seq<nat>, s: State)
    requires WellFormed(a) && Permuted(a, b, perm) && UndrivenIdle(b, s)
    ensures UndrivenIdle(a, s)
  {
    forall n: nat | n < a.total && !Driven(a, n)
      ensures !Driven(b, n)
    {
      forall i: int, k: int | Drives(b, i, k, n)
        ensures false
      {
        assert Drives(a, perm[i], k, n);
      }
    }
  }
}
