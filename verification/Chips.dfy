/** The chips of the simulator. A chip is a list of slots, in the order in which its step function
    posts updates: first its delayed local nets, then its outputs. */
module Chips {
  import opened Wrappers
  import opened Bits
  import opened Schedule

  datatype Kind =
    | CLK40M | HC00 | HC30 | HC02 | HC04 | HC08 | HC21 | HC32 | HC86
    | AC157 | AC153 | AC161 | HC283 | HC377

  /** Input pins and output pins name nets; an output may be left unconnected. Local net `i` of the
      chip is net `local + i`. */
  datatype Chip = Chip(kind: Kind, inp: seq<nat>, out: seq<Option<nat>>, local: nat)

  /** What a step does to one slot: nothing, or post a value with a delay. */
  datatype Drive = Keep | Drive(val: bool, delay: int)

  function InCount(kind: Kind): nat {
    match kind
    case CLK40M => 1
    case HC04 => 6
    case AC157 => 10
    case AC153 => 12
    case AC161 => 9
    case HC283 => 9
    case HC377 => 10
    case _ => 8
  }

  function OutCount(kind: Kind): nat {
    match kind
    case CLK40M => 2
    case HC30 => 1
    case HC04 => 6
    case HC21 => 2
    case AC153 => 2
    case AC161 => 5
    case HC283 => 5
    case HC377 => 8
    case _ => 4
  }

  function LocalCount(kind: Kind): nat {
    match kind
    case AC161 => 7
    case HC377 => 9
    case _ => 0
  }

  /** The ripple output of the counter is posted from two places, so it has two slots. */
  function SlotCount(kind: Kind): nat {
    match kind
    case CLK40M => 1
    case HC30 => 1
    case HC04 => 6
    case HC21 => 2
    case AC153 => 2
    case AC161 => 13
    case HC283 => 5
    case HC377 => 17
    case _ => 4
  }

  /** Every input is wired, and so is the output that the oscillator always reads. Other outputs may be null. */
  predicate Wired(chip: Chip, m: nat) {
    && |chip.inp| == InCount(chip.kind)
    && |chip.out| == OutCount(chip.kind)
    && (forall p :: 0 <= p < |chip.inp| ==> chip.inp[p] < m)
    && (forall j :: 0 <= j < |chip.out| && chip.out[j].Some? ==> chip.out[j].value < m)
    && chip.local + LocalCount(chip.kind) <= m
    && (chip.kind.CLK40M? ==> chip.out[0].Some?)
  }

  function SlotTarget(chip: Chip, k: nat): Option<nat>
    requires |chip.out| == OutCount(chip.kind) && k < SlotCount(chip.kind)
  {
    match chip.kind
    case AC161 =>
      if k < 7 then Some(chip.local + k) else if k < 12 then chip.out[k - 7] else chip.out[4]
    case HC377 =>
      if k < 9 then Some(chip.local + k) else chip.out[k - 9]
    case _ => chip.out[k]
  }

  function In(chip: Chip, nets: seq<Net>, p: nat): bool
    requires Wired(chip, |nets|) && p < |chip.inp|
  {
    nets[chip.inp[p]].val
  }

  function InChanged(chip: Chip, nets: seq<Net>, p: nat): bool
    requires Wired(chip, |nets|) && p < |chip.inp|
  {
    nets[chip.inp[p]].changed
  }

  /** A null output is low here; the program never gets to read one while `ReadsConnected` holds. */
  function Out(chip: Chip, nets: seq<Net>, j: nat): bool
    requires Wired(chip, |nets|) && j < |chip.out|
  {
    chip.out[j].Some? && nets[chip.out[j].value].val
  }

  function Local(chip: Chip, nets: seq<Net>, j: nat): bool
    requires Wired(chip, |nets|) && j < LocalCount(chip.kind)
  {
    nets[chip.local + j].val
  }

  predicate Quad(kind: Kind) {
    kind in {HC00, HC02, HC08, HC32, HC86}
  }

  function Gate(kind: Kind, a: bool, b: bool): bool
    requires Quad(kind)
  {
    match kind
    case HC00 => !(a && b)
    case HC02 => !(a || b)
    case HC08 => a && b
    case HC32 => a || b
    case HC86 => a != b
  }

  function AdderSum(chip: Chip, nets: seq<Net>): nat
    requires Wired(chip, |nets|) && chip.kind.HC283?
  {
    Uns([In(chip, nets, 0), In(chip, nets, 1), In(chip, nets, 2), In(chip, nets, 3)]) +
    Uns([In(chip, nets, 4), In(chip, nets, 5), In(chip, nets, 6), In(chip, nets, 7)]) +
    BitVal(In(chip, nets, 8))
  }

  function MuxPin(chip: Chip, nets: seq<Net>, k: nat): (p: nat)
    requires Wired(chip, |nets|) && (chip.kind.AC157? || chip.kind.AC153?)
    requires k < SlotCount(chip.kind)
    ensures p < 8
  {
    if chip.kind.AC157? then k + 4 * BitVal(In(chip, nets, 8))
    else k + 2 * BitVal(In(chip, nets, 8)) + 4 * BitVal(In(chip, nets, 9))
  }

  predicate AnyChanged(chip: Chip, nets: seq<Net>, lo: nat, hi: nat)
    requires Wired(chip, |nets|) && hi <= |chip.inp|
  {
    exists p :: lo <= p < hi && InChanged(chip, nets, p)
  }

  predicate AllHigh(chip: Chip, nets: seq<Net>, lo: nat, hi: nat)
    requires Wired(chip, |nets|) && hi <= |chip.inp|
  {
    forall p :: lo <= p < hi ==> In(chip, nets, p)
  }

  predicate CounterFull(chip: Chip, nets: seq<Net>)
    requires Wired(chip, |nets|) && chip.kind.AC161?
  {
    Out(chip, nets, 0) && Out(chip, nets, 1) && Out(chip, nets, 2) && Out(chip, nets, 3)
  }

  /** The counter sees a rising clock edge while not being cleared. */
  predicate CounterEdge(chip: Chip, nets: seq<Net>)
    requires Wired(chip, |nets|) && chip.kind.AC161?
  {
    In(chip, nets, 7) && InChanged(chip, nets, 8) && In(chip, nets, 8)
  }

  /** All bits below bit `i` are set, so counting toggles bit `i`. */
  predicate CarryInto(chip: Chip, nets: seq<Net>, i: nat)
    requires Wired(chip, |nets|) && chip.kind.AC161? && i <= 4
  {
    forall j :: 0 <= j < i ==> Out(chip, nets, j)
  }

  predicate Counting(chip: Chip, nets: seq<Net>)
    requires Wired(chip, |nets|) && chip.kind.AC161?
  {
    CounterEdge(chip, nets) && Local(chip, nets, 4) && Local(chip, nets, 5) && Local(chip, nets, 6)
  }

  /** The step reads no output that is null: a counter reads its bits from the lowest on, while it counts as far as
      they are set, and the upper three to foresee the ripple. */
  predicate ReadsConnected(chip: Chip, nets: seq<Net>)
    requires Wired(chip, |nets|)
  {
    chip.kind.AC161? ==>
      && (Counting(chip, nets) ==>
            && (forall i :: 0 <= i < 4 && CarryInto(chip, nets, i) ==> chip.out[i].Some?)
            && chip.out[1].Some? && (Out(chip, nets, 1) ==> chip.out[2].Some?)
            && (Out(chip, nets, 1) && Out(chip, nets, 2) ==> chip.out[3].Some?))
      && (In(chip, nets, 7) && InChanged(chip, nets, 6) && In(chip, nets, 6) ==>
            forall i :: 0 <= i < 4 && CarryInto(chip, nets, i) ==> chip.out[i].Some?)
  }

  function CounterDrive(chip: Chip, nets: seq<Net>, k: nat): Drive
    requires Wired(chip, |nets|) && chip.kind.AC161? && k < 13
  {
    if k < 7 then
      if InChanged(chip, nets, k) then Drive(In(chip, nets, k), if k < 5 then 4 else 2) else Keep
    else if k < 11 then
      var i := k - 7;
      if !In(chip, nets, 7) then
        if InChanged(chip, nets, 7) then Drive(false, 6) else Keep
      else if CounterEdge(chip, nets) && !Local(chip, nets, 4) then Drive(Local(chip, nets, i), 5)
      else if Counting(chip, nets) && CarryInto(chip, nets, i) then Drive(!Out(chip, nets, i), 5)
      else Keep
    else if k == 11 then
      if !In(chip, nets, 7) then
        if InChanged(chip, nets, 7) then Drive(false, 9) else Keep
      else if Counting(chip, nets) && Out(chip, nets, 1) && Out(chip, nets, 2) && Out(chip, nets, 3) then
        Drive(!Out(chip, nets, 0), 7)
      else Keep
    else
      if In(chip, nets, 7) && InChanged(chip, nets, 6) then
        Drive(In(chip, nets, 6) && CounterFull(chip, nets), 5)
      else Keep
  }

  function AdderDelay(carryChanged: bool, k: nat): int
    requires k < 5
  {
    if carryChanged then [19, 21, 23, 27, 23][k] else [25, 25, 25, 25, 23][k]
  }

  /** What one step of the chip posts to slot `k`. */
  function SlotDrive(chip: Chip, nets: seq<Net>, k: nat): Drive
    requires Wired(chip, |nets|) && k < SlotCount(chip.kind)
  {
    match chip.kind
    case CLK40M =>
      if In(chip, nets, 0) && (InChanged(chip, nets, 0) || nets[chip.out[0].value].changed)
      then Drive(!Out(chip, nets, 0), if Out(chip, nets, 0) then 12 else 13) else Keep
    case HC30 =>
      if AnyChanged(chip, nets, 0, 8) then Drive(!AllHigh(chip, nets, 0, 8), 10) else Keep
    case HC04 =>
      if InChanged(chip, nets, k) then Drive(!In(chip, nets, k), 9) else Keep
    case HC21 =>
      if AnyChanged(chip, nets, 4 * k, 4 * k + 4)
      then Drive(AllHigh(chip, nets, 4 * k, 4 * k + 4), 12) else Keep
    case AC157 =>
      if In(chip, nets, 9) then
        if InChanged(chip, nets, 9) then Drive(false, 6) else Keep
      else
        var v := In(chip, nets, MuxPin(chip, nets, k));
        if InChanged(chip, nets, 8) then Drive(v, 6)
        else if InChanged(chip, nets, MuxPin(chip, nets, k)) then Drive(v, 4)
        else Keep
    case AC153 =>
      if (InChanged(chip, nets, 10) && In(chip, nets, 10)) || (InChanged(chip, nets, 11) && In(chip, nets, 11))
      then Drive(false, 6)
      else if !In(chip, nets, 10) && !In(chip, nets, 11) then
        var v := In(chip, nets, MuxPin(chip, nets, k));
        if InChanged(chip, nets, 8) || InChanged(chip, nets, 9) then Drive(v, 7)
        else if InChanged(chip, nets, MuxPin(chip, nets, k)) then Drive(v, 6)
        else Keep
      else Keep
    case AC161 => CounterDrive(chip, nets, k)
    case HC283 =>
      if InChanged(chip, nets, 8) || AnyChanged(chip, nets, 0, 8)
      then Drive(ToBits(AdderSum(chip, nets), 5)[k], AdderDelay(InChanged(chip, nets, 8), k))
      else Keep
    case HC377 =>
      if k < 8 then
        if InChanged(chip, nets, k) then Drive(In(chip, nets, k), 5) else Keep
      else if k == 8 then
        if InChanged(chip, nets, 8) then Drive(In(chip, nets, 8), 2) else Keep
      else
        if InChanged(chip, nets, 9) && In(chip, nets, 9) && !Local(chip, nets, 8)
        then Drive(Local(chip, nets, k - 9), 13) else Keep
    case _ =>
      if InChanged(chip, nets, 2 * k) || InChanged(chip, nets, 2 * k + 1)
      then Drive(Gate(chip.kind, In(chip, nets, 2 * k), In(chip, nets, 2 * k + 1)),
                 if chip.kind.HC86? then 11 else 7)
      else Keep
  }

  // ---- Combinational slots ----

  /** Slots that follow a function of the input pins: gates, adders, multiplexers with their enables
      low, and the delayed local copies of the register and the counter. */
  predicate Combinational(kind: Kind, k: nat) {
    match kind
    case CLK40M => false
    case AC161 => k < 7
    case HC377 => k < 9
    case _ => k < SlotCount(kind)
  }

  predicate Enabled(chip: Chip, nets: seq<Net>)
    requires Wired(chip, |nets|)
  {
    && (chip.kind.AC157? ==> !In(chip, nets, 9))
    && (chip.kind.AC153? ==> !In(chip, nets, 10) && !In(chip, nets, 11))
  }

  /** The function that a combinational slot computes. */
  function SlotEval(chip: Chip, nets: seq<Net>, k: nat): bool
    requires Wired(chip, |nets|) && Combinational(chip.kind, k)
  {
    if Quad(chip.kind) then Gate(chip.kind, In(chip, nets, 2 * k), In(chip, nets, 2 * k + 1))
    else match chip.kind
    case HC30 => !AllHigh(chip, nets, 0, 8)
    case HC04 => !In(chip, nets, k)
    case HC21 => AllHigh(chip, nets, 4 * k, 4 * k + 4)
    case AC157 => In(chip, nets, MuxPin(chip, nets, k))
    case AC153 => In(chip, nets, MuxPin(chip, nets, k))
    case HC283 => ToBits(AdderSum(chip, nets), 5)[k]
    case AC161 => In(chip, nets, k)
    case HC377 => In(chip, nets, k)
  }

  function MaxDelay(kind: Kind, k: nat): (d: int)
    requires Combinational(kind, k)
    ensures d >= 1
  {
    match kind
    case HC30 => 10
    case HC04 => 9
    case HC21 => 12
    case HC86 => 11
    case AC157 => 6
    case AC153 => 7
    case HC283 => [25, 25, 25, 27, 23][k]
    case AC161 => if k < 5 then 4 else 2
    case HC377 => if k < 8 then 5 else 2
    case _ => 7
  }

  /** Slots whose delay does not depend on which input changed. */
  predicate Uniform(kind: Kind, k: nat) {
    Combinational(kind, k) && !kind.AC157? && !kind.AC153? && !kind.HC283?
  }

  /** Slot `k` is a function of pin `p`, among others. */
  predicate ReadsPin(kind: Kind, k: nat, p: nat) {
    match kind
    case CLK40M => false
    case HC30 => p < 8
    case HC04 => p == k
    case HC21 => 4 * k <= p < 4 * k + 4
    case AC157 => p == k || p == k + 4 || p == 8
    case AC153 => p == k || p == k + 2 || p == k + 4 || p == k + 6 || p == 8 || p == 9
    case HC283 => p < 9
    case AC161 => p == k
    case HC377 => p == k
    case _ => p == 2 * k || p == 2 * k + 1
  }

  /** A posted value is the function of the inputs, posted within the chip's delay. */
  lemma DriveIsEval(chip: Chip, nets: seq<Net>, k: nat)
    requires Wired(chip, |nets|) && Combinational(chip.kind, k) && Enabled(chip, nets)
    requires SlotDrive(chip, nets, k).Drive?
    ensures SlotDrive(chip, nets, k).val == SlotEval(chip, nets, k)
    ensures 1 <= SlotDrive(chip, nets, k).delay <= MaxDelay(chip.kind, k)
    ensures Uniform(chip.kind, k) ==> SlotDrive(chip, nets, k).delay == MaxDelay(chip.kind, k)
  {
  }

  /** Between `prev` and `nets` an input pin changed its value only if it is marked changed. */
  predicate Explains(chip: Chip, prev: seq<Net>, nets: seq<Net>)
    requires Wired(chip, |nets|) && |prev| == |nets|
  {
    forall p :: 0 <= p < |chip.inp| && !InChanged(chip, nets, p) ==> In(chip, nets, p) == In(chip, prev, p)
  }

  lemma KeepMeansUnchanged(chip: Chip, nets: seq<Net>, k: nat, p: nat)
    requires Wired(chip, |nets|) && Combinational(chip.kind, k) && !chip.kind.AC157? && !chip.kind.AC153?
    requires p < |chip.inp| && ReadsPin(chip.kind, k, p) && SlotDrive(chip, nets, k).Keep?
    ensures !InChanged(chip, nets, p)
  {
  }

  lemma MuxStable(chip: Chip, prev: seq<Net>, nets: seq<Net>, k: nat)
    requires |prev| == |nets| && Wired(chip, |nets|) && (chip.kind.AC157? || chip.kind.AC153?)
    requires k < SlotCount(chip.kind) && Enabled(chip, nets)
    requires Explains(chip, prev, nets) && SlotDrive(chip, nets, k).Keep?
    ensures In(chip, prev, MuxPin(chip, prev, k)) == In(chip, nets, MuxPin(chip, nets, k))
  {
    assert In(chip, prev, 8) == In(chip, nets, 8);
    if chip.kind.AC153? {
      assert In(chip, prev, 9) == In(chip, nets, 9);
    }
    assert !InChanged(chip, nets, MuxPin(chip, nets, k));
  }

  /** If the step posts nothing to a combinational slot, its function has not changed either. */
  lemma KeepIsStable(chip: Chip, prev: seq<Net>, nets: seq<Net>, k: nat)
    requires |prev| == |nets| && Wired(chip, |nets|) && Combinational(chip.kind, k)
    requires Enabled(chip, nets)
    requires Explains(chip, prev, nets) && SlotDrive(chip, nets, k).Keep?
    ensures SlotEval(chip, prev, k) == SlotEval(chip, nets, k)
  {
    if chip.kind.AC157? || chip.kind.AC153? {
      MuxStable(chip, prev, nets, k);
    } else {
      forall p | 0 <= p < |chip.inp| && ReadsPin(chip.kind, k, p)
        ensures In(chip, prev, p) == In(chip, nets, p)
      {
        KeepMeansUnchanged(chip, nets, k, p);
      }
      EvalFromPins(chip, prev, nets, k);
    }
  }

  lemma MuxFromPins(chip: Chip, a: seq<Net>, b: seq<Net>, k: nat)
    requires |a| == |b| && Wired(chip, |a|) && Combinational(chip.kind, k) && (chip.kind.AC157? || chip.kind.AC153?)
    requires forall p :: 0 <= p < |chip.inp| && ReadsPin(chip.kind, k, p) ==> In(chip, a, p) == In(chip, b, p)
    ensures SlotEval(chip, a, k) == SlotEval(chip, b, k)
  {
    assert In(chip, a, 8) == In(chip, b, 8);
    assert chip.kind.AC153? ==> In(chip, a, 9) == In(chip, b, 9);
    assert ReadsPin(chip.kind, k, MuxPin(chip, a, k));
  }

  lemma EvalFromPins(chip: Chip, a: seq<Net>, b: seq<Net>, k: nat)
    requires |a| == |b| && Wired(chip, |a|) && Combinational(chip.kind, k)
    requires forall p :: 0 <= p < |chip.inp| && ReadsPin(chip.kind, k, p) ==> In(chip, a, p) == In(chip, b, p)
    ensures SlotEval(chip, a, k) == SlotEval(chip, b, k)
  {
    hide Uns, ToBits, BitVal;
    if chip.kind.AC157? || chip.kind.AC153? {
      MuxFromPins(chip, a, b, k);
    }
  }

  lemma FourPins(chip: Chip, nets: seq<Net>, i: nat)
    requires Wired(chip, |nets|) && chip.kind.HC21? && i < 2
    ensures AnyChanged(chip, nets, 4 * i, 4 * i + 4) <==>
              InChanged(chip, nets, 4 * i) || InChanged(chip, nets, 4 * i + 1)
              || InChanged(chip, nets, 4 * i + 2) || InChanged(chip, nets, 4 * i + 3)
    ensures AllHigh(chip, nets, 4 * i, 4 * i + 4) <==>
              In(chip, nets, 4 * i) && In(chip, nets, 4 * i + 1)
              && In(chip, nets, 4 * i + 2) && In(chip, nets, 4 * i + 3)
  {
  }
}
