/** Acyclic combinational circuits settle: whatever is pending when the inputs stop changing, every net
    has the value of its Boolean function once the longest path to it has passed. */
module Settling {
  import opened Schedule
  import opened Chips
  import opened Simulation
  import opened Transport

  /** Nets with the given values. */
  function Frozen(e: seq<bool>): (nets: seq<Net>)
    ensures |nets| == |e| && forall n :: 0 <= n < |e| ==> nets[n].val == e[n]
  {
    seq(|e|, n requires 0 <= n < |e| => Net(e[n], false))
  }

  /** The nets below `n`. */
  function UpTo(n: nat): (r: set<nat>)
    ensures forall m: nat :: m in r <==> m < n
  {
    if n == 0 then {} else UpTo(n - 1) + {n - 1}
  }

  /** What has to hold between the settling time of net `n` and those of the nets its slot reads:
      together over a cone of nets this says that the cone is acyclic and `time` bounds its paths. */
  ghost predicate TimedAfterInputs(c: Circuit, time: seq<nat>, cone: set<nat>, n: nat, i: nat, k: nat)
    requires WellFormed(c) && |time| == c.total && Follows(c, n, i, k)
  {
    forall p :: 0 <= p < |c.chips[i].inp| && ReadsPin(c.chips[i].kind, k, p) ==>
      c.chips[i].inp[p] in cone && time[c.chips[i].inp[p]] + MaxDelay(c.chips[i].kind, k) <= time[n]
  }

  /** Net `n` has one driver, a combinational slot reading nets of the cone. */
  ghost predicate Computed(c: Circuit, time: seq<nat>, cone: set<nat>, n: nat, i: nat, k: nat)
    requires WellFormed(c) && |time| == c.total
  {
    Follows(c, n, i, k) && TimedAfterInputs(c, time, cone, n, i, k)
  }

  /** Every net of the cone is either an input of it or computed from earlier nets of it. */
  ghost predicate Acyclic(c: Circuit, time: seq<nat>, cone: set<nat>, inputs: set<nat>)
    requires WellFormed(c) && |time| == c.total
  {
    forall n :: n in cone && n !in inputs ==>
      n < c.total && exists i: nat, k: nat :: Computed(c, time, cone, n, i, k)
  }

  /** `e` assigns to every computed net of the cone the function of the nets its slot reads. */
  ghost predicate Consistent(c: Circuit, time: seq<nat>, cone: set<nat>, inputs: set<nat>, e: seq<bool>)
    requires WellFormed(c) && |time| == |e| == c.total
  {
    forall n, i: nat, k: nat :: n in cone && n !in inputs && Computed(c, time, cone, n, i, k) ==>
      e[n] == SlotEval(c.chips[i], Frozen(e), k)
  }

  /** Multiplexers of the cone stay enabled. */
  ghost predicate ConeEnabled(c: Circuit, tr: seq<State>, time: seq<nat>, cone: set<nat>, inputs: set<nat>)
    requires WellFormed(c) && |time| == c.total && Trace(c, tr)
  {
    forall n, i: nat, k: nat, u :: n in cone && n !in inputs && Computed(c, time, cone, n, i, k) && 0 <= u < |tr| ==>
      Enabled(c.chips[i], tr[u].nets)
  }

  /** From state `from` of the run on, the inputs of the cone have the values `e`. */
  ghost predicate InputsHeld(c: Circuit, tr: seq<State>, from: nat, cone: set<nat>, inputs: set<nat>, e: seq<bool>)
    requires WellFormed(c) && |e| == c.total && Trace(c, tr)
  {
    forall n, u :: n in inputs && n in cone && n < c.total && from <= u < |tr| ==> tr[u].nets[n].val == e[n]
  }

  /** The inputs of the cone keep the values `e` throughout the run, multiplexers of the cone stay
      enabled, and the run starts in a state that has caught up (every reachable one has). */
  ghost predicate Held(c: Circuit, tr: seq<State>, time: seq<nat>, cone: set<nat>, inputs: set<nat>, e: seq<bool>)
    requires WellFormed(c) && |time| == |e| == c.total
  {
    && Trace(c, tr) && |tr| > 0
    && InputsHeld(c, tr, 0, cone, inputs, e) && ConeEnabled(c, tr, time, cone, inputs)
    && (forall n, i: nat, k: nat :: n in cone && n !in inputs && Computed(c, time, cone, n, i, k) ==>
          CaughtUp(c, tr[0], n, i, k))
  }

  lemma EvalSettled(c: Circuit, s: State, time: seq<nat>, cone: set<nat>, e: seq<bool>, n: nat, i: nat, k: nat)
    requires WellFormed(c) && |time| == |e| == |s.nets| == c.total && Computed(c, time, cone, n, i, k)
    requires forall p :: 0 <= p < |c.chips[i].inp| && ReadsPin(c.chips[i].kind, k, p) ==>
               s.nets[c.chips[i].inp[p]].val == e[c.chips[i].inp[p]]
    ensures SlotEval(c.chips[i], s.nets, k) == SlotEval(c.chips[i], Frozen(e), k)
  {
    EvalFromPins(c.chips[i], s.nets, Frozen(e), k);
  }

  /** While the nets a slot reads hold still from time `from` on, the waveform's wrong part shrinks. */
  lemma {:induction false} Shrinking(c: Circuit, tr: seq<State>, n: nat, i: nat, k: nat, x: bool, from: nat, j: nat)
    requires WellFormed(c) && Trace(c, tr) && Follows(c, n, i, k) && from + j < |tr|
    requires forall u :: 0 <= u < |tr| ==> Enabled(c.chips[i], tr[u].nets)
    requires forall u :: from <= u < |tr| ==> SlotEval(c.chips[i], tr[u].nets, k) == x
    requires CaughtUp(c, tr[from], n, i, k)
    ensures Settles(Posted(c, tr[from + j]), n, tr[from + j].nets[n].val,
                    if j < MaxDelay(c.chips[i].kind, k) then MaxDelay(c.chips[i].kind, k) - j else 1, x)
  {
    hide Posted, SlotEval, SlotDrive, Next, CaughtUp, Enabled;
    var d, s := MaxDelay(c.chips[i].kind, k), tr[from + j];
    if j == 0 {
      PostedCaughtUp(c, s, n, i, k);
    } else {
      Shrinking(c, tr, n, i, k, x, from, j - 1);
      TraceStep(c, tr, from + j);
      assert Driven(c, n);
      forall u: int | u >= if j < d then d - j else 1
        ensures Future(Posted(c, s), n, s.nets[n].val, u) == x
      {
        NextNet(c, tr[from + j - 1], s, n, u);
        PostedIsEval(c, s, n, i, k, x, u);
      }
    }
  }

  lemma PostedIsEval(c: Circuit, s: State, n: nat, i: nat, k: nat, x: bool, u: int)
    requires WellFormed(c) && Ok(c, s) && Follows(c, n, i, k) && Enabled(c.chips[i], s.nets)
    requires SlotEval(c.chips[i], s.nets, k) == x
    ensures Future(s.sched, n, s.nets[n].val, u) == x ==> Future(Posted(c, s), n, s.nets[n].val, u) == x
  {
    SolePosted(c, s, n, i, k, u);
    if SlotDrive(c.chips[i], s.nets, k).Drive? {
      DriveIsEval(c.chips[i], s.nets, k);
    }
  }

  /** A slot whose inputs hold still from time `from` on has its final value one delay later. */
  lemma SlotSettles(c: Circuit, tr: seq<State>, n: nat, i: nat, k: nat, x: bool, from: nat, u: nat)
    requires WellFormed(c) && Trace(c, tr) && Follows(c, n, i, k)
    requires forall j :: 0 <= j < |tr| ==> Enabled(c.chips[i], tr[j].nets)
    requires forall j :: from <= j < |tr| ==> SlotEval(c.chips[i], tr[j].nets, k) == x
    requires from < |tr| && CaughtUp(c, tr[from], n, i, k)
    requires from + MaxDelay(c.chips[i].kind, k) <= u < |tr|
    ensures tr[u].nets[n].val == x
  {
    hide Posted, SlotEval, SlotDrive, Next, CaughtUp, Enabled;
    Shrinking(c, tr, n, i, k, x, from, u - 1 - from);
    TraceStep(c, tr, u);
    assert Driven(c, n);
    NextNet(c, tr[u - 1], tr[u], n, 0);
  }

  /** The settling theorem: every net of an acyclic cone has its Boolean value from its settling time on,
      whatever was pending when its inputs stopped changing. */
  lemma {:induction false} Settle(
    c: Circuit, tr: seq<State>, time: seq<nat>, cone: set<nat>, inputs: set<nat>, e: seq<bool>, n: nat, u: nat)
    requires WellFormed(c) && |time| == |e| == c.total
    requires Acyclic(c, time, cone, inputs) && Consistent(c, time, cone, inputs, e)
    requires Held(c, tr, time, cone, inputs, e)
    requires n in cone && n < c.total && time[n] <= u < |tr|
    ensures tr[u].nets[n].val == e[n]
    decreases time[n]
  {
    hide SlotEval, CaughtUp, Enabled, Trace;
    if n !in inputs {
      var i: nat, k: nat :| Computed(c, time, cone, n, i, k);
      var chip := c.chips[i];
      var from := time[n] - MaxDelay(chip.kind, k);
      InputsEarlier(c, time, cone, n, i, k);
      forall j | from <= j < |tr|
        ensures SlotEval(chip, tr[j].nets, k) == e[n]
      {
        forall p | 0 <= p < |chip.inp| && ReadsPin(chip.kind, k, p)
          ensures tr[j].nets[chip.inp[p]].val == e[chip.inp[p]]
        {
          Settle(c, tr, time, cone, inputs, e, chip.inp[p], j);
        }
        EvalSettled(c, tr[j], time, cone, e, n, i, k);
      }
      TraceCaughtUp(c, tr, n, i, k, from);
      SlotSettles(c, tr, n, i, k, e[n], from, u);
    }
  }

  /** The same from any reachable state: the inputs hold still from time `from` of a run on. */
  lemma SettleAfter(
    c: Circuit, tr: seq<State>, from: nat, time: seq<nat>, cone: set<nat>, inputs: set<nat>, e: seq<bool>,
    n: nat, u: nat)
    requires WellFormed(c) && |time| == |e| == c.total
    requires Acyclic(c, time, cone, inputs) && Consistent(c, time, cone, inputs, e)
    requires Trace(c, tr) && from < |tr| && Initial(c, tr[0])
    requires ConeEnabled(c, tr, time, cone, inputs) && InputsHeld(c, tr, from, cone, inputs, e)
    requires n in cone && n < c.total && from + time[n] <= u < |tr|
    ensures tr[u].nets[n].val == e[n]
  {
    hide SlotEval, CaughtUp, Enabled, Next;
    var tail := tr[from..];
    TailTrace(c, tr, from);
    forall m, i: nat, k: nat | m in cone && m !in inputs && Computed(c, time, cone, m, i, k)
      ensures CaughtUp(c, tail[0], m, i, k)
    {
      assert forall j :: 0 <= j < |tr| ==> Enabled(c.chips[i], tr[j].nets);
      InitialCaughtUp(c, tr[0], m, i, k);
      TraceCaughtUp(c, tr, m, i, k, from);
    }
    Settle(c, tail, time, cone, inputs, e, n, u - from);
  }

  lemma TailTrace(c: Circuit, tr: seq<State>, from: nat)
    requires WellFormed(c) && Trace(c, tr) && from <= |tr|
    ensures Trace(c, tr[from..])
  {
    hide Next;
    var tail := tr[from..];
    forall k | 0 <= k < |tail| - 1
      ensures Next(c, tail[k], tail[k + 1])
    {
      TraceStep(c, tr, from + k + 1);
    }
  }

  lemma InputsEarlier(c: Circuit, time: seq<nat>, cone: set<nat>, n: nat, i: nat, k: nat)
    requires WellFormed(c) && |time| == c.total && Computed(c, time, cone, n, i, k)
    ensures MaxDelay(c.chips[i].kind, k) <= time[n]
  {
    ReadsSomePin(c.chips[i].kind, k);
    assert ChipFits(c, c.chips[i]);
  }

  lemma ReadsSomePin(kind: Kind, k: nat)
    requires Combinational(kind, k)
    ensures exists p :: 0 <= p < InCount(kind) && ReadsPin(kind, k, p)
  {
    var p := if kind.HC21? then 4 * k else if Quad(kind) then 2 * k else if kind.HC30? || kind.HC283? then 0 else k;
    assert ReadsPin(kind, k, p);
  }

  // ---- An acyclic cone has exactly one consistent valuation ----

  /** The value of net `n` of an acyclic cone, computed from the values of its inputs. */
  ghost function NetValue(
    c: Circuit, time: seq<nat>, cone: set<nat>, inputs: set<nat>, given: seq<bool>, n: nat): bool
    requires WellFormed(c) && |time| == |given| == c.total && Acyclic(c, time, cone, inputs)
    requires n in cone && n < c.total
    decreases time[n]
  {
    if n in inputs then given[n]
    else
      var i: nat, k: nat :| Computed(c, time, cone, n, i, k);
      var earlier := seq(c.total, m requires 0 <= m < c.total =>
        m in cone && time[m] < time[n] && NetValue(c, time, cone, inputs, given, m));
      SlotEval(c.chips[i], Frozen(earlier), k)
  }

  ghost function Valuation(
    c: Circuit, time: seq<nat>, cone: set<nat>, inputs: set<nat>, given: seq<bool>): (e: seq<bool>)
    requires WellFormed(c) && |time| == |given| == c.total && Acyclic(c, time, cone, inputs)
    ensures |e| == c.total
    ensures forall n :: 0 <= n < c.total && n in cone ==> e[n] == NetValue(c, time, cone, inputs, given, n)
  {
    seq(c.total, n requires 0 <= n < c.total => n in cone && NetValue(c, time, cone, inputs, given, n))
  }

  lemma SameDriver(c: Circuit, n: nat, i: nat, k: nat, i': nat, k': nat)
    requires WellFormed(c) && SoleDriver(c, n, i, k) && SoleDriver(c, n, i', k')
    ensures i == i' && k == k'
  {
  }

  lemma ValuationConsistent(c: Circuit, time: seq<nat>, cone: set<nat>, inputs: set<nat>, given: seq<bool>)
    requires WellFormed(c) && |time| == |given| == c.total && Acyclic(c, time, cone, inputs)
    ensures Consistent(c, time, cone, inputs, Valuation(c, time, cone, inputs, given))
    ensures forall n :: n in inputs && n in cone && n < c.total ==>
            Valuation(c, time, cone, inputs, given)[n] == given[n]
  {
    hide SlotEval;
    var e := Valuation(c, time, cone, inputs, given);
    forall n, i: nat, k: nat | n in cone && n !in inputs && Computed(c, time, cone, n, i, k)
      ensures e[n] == SlotEval(c.chips[i], Frozen(e), k)
    {
      NetValueIs(c, time, cone, inputs, given, n, i, k);
      var earlier := Earlier(c, time, cone, inputs, given, n);
      InputsStrictlyEarlier(c, time, cone, n, i, k);
      EvalFromPins(c.chips[i], Frozen(e), Frozen(earlier), k);
    }
  }

  ghost function Earlier(
    c: Circuit, time: seq<nat>, cone: set<nat>, inputs: set<nat>, given: seq<bool>, n: nat): (r: seq<bool>)
    requires WellFormed(c) && |time| == |given| == c.total && Acyclic(c, time, cone, inputs) && n < c.total
    ensures |r| == c.total
    ensures forall m :: 0 <= m < c.total ==>
              r[m] == (m in cone && time[m] < time[n] && NetValue(c, time, cone, inputs, given, m))
  {
    seq(c.total, m requires 0 <= m < c.total =>
      m in cone && time[m] < time[n] && NetValue(c, time, cone, inputs, given, m))
  }

  lemma NetValueIs(c: Circuit, time: seq<nat>, cone: set<nat>, inputs: set<nat>, given: seq<bool>, n: nat, i: nat,
                   k: nat)
    requires WellFormed(c) && |time| == |given| == c.total && Acyclic(c, time, cone, inputs)
    requires n in cone && n < c.total && n !in inputs && Computed(c, time, cone, n, i, k)
    ensures NetValue(c, time, cone, inputs, given, n)
         == SlotEval(c.chips[i], Frozen(Earlier(c, time, cone, inputs, given, n)), k)
  {
    hide SlotEval;
    var i': nat, k': nat :| Computed(c, time, cone, n, i', k')
      && NetValue(c, time, cone, inputs, given, n)
         == SlotEval(c.chips[i'], Frozen(Earlier(c, time, cone, inputs, given, n)), k');
    SameDriver(c, n, i, k, i', k');
  }

  lemma InputsStrictlyEarlier(c: Circuit, time: seq<nat>, cone: set<nat>, n: nat, i: nat, k: nat)
    requires WellFormed(c) && |time| == c.total && Computed(c, time, cone, n, i, k)
    ensures forall p :: 0 <= p < |c.chips[i].inp| && ReadsPin(c.chips[i].kind, k, p) ==>
              c.chips[i].inp[p] in cone && time[c.chips[i].inp[p]] < time[n]
  {
  }

  lemma {:induction false} ValuationUnique(
    c: Circuit, time: seq<nat>, cone: set<nat>, inputs: set<nat>, a: seq<bool>, b: seq<bool>, n: nat)
    requires WellFormed(c) && |time| == |a| == |b| == c.total && Acyclic(c, time, cone, inputs)
    requires Consistent(c, time, cone, inputs, a) && Consistent(c, time, cone, inputs, b)
    requires forall m :: m in inputs && m in cone && m < c.total ==> a[m] == b[m]
    requires n in cone && n < c.total
    ensures a[n] == b[n]
    decreases time[n]
  {
    hide SlotEval;
    if n !in inputs {
      var i: nat, k: nat :| Computed(c, time, cone, n, i, k);
      var chip := c.chips[i];
      forall p | 0 <= p < |chip.inp| && ReadsPin(chip.kind, k, p)
        ensures a[chip.inp[p]] == b[chip.inp[p]]
      {
        ValuationUnique(c, time, cone, inputs, a, b, chip.inp[p]);
      }
      EvalFromPins(chip, Frozen(a), Frozen(b), k);
    }
  }
}
