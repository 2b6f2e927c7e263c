/** The keyboard's transmitter: a timed state machine that sends scan codes bit by bit over a clock and a data line. */
module Keyboard {
  import opened Wrappers

  const CLOCK_PERIOD: nat := 59880
  const PRETRANSMIT_TIME: nat := 50000

  datatype Phase = TxInhibit | TxPretransmit | TxData | TxClockDown | TxClockUp

  /** `hostClock` and `hostData` are the computer's side of the two lines. */
  datatype State = State(phase: Phase, hostClock: bool, hostData: bool, devClock: bool, devData: bool,
                         elapsed: nat, data: seq<bv8>, idx: nat, byte: bv8, bit: nat)

  datatype Event = KeyDown(key: int) | KeyUp(key: int) | OtherEvent

  datatype KeyEntry = KeyEntry(key: int, code: bv8, extended: bool)

  function SearchKeyTable(table: seq<KeyEntry>, key: int): Option<KeyEntry> {
    if table == [] then None else if table[0].key == key then Some(table[0]) else SearchKeyTable(table[1..], key)
  }

  /** The scan codes of an event, or nothing for a key that is not in the table. */
  function Codes(table: seq<KeyEntry>, e: Event): Option<seq<bv8>> {
    match e
    case OtherEvent => Some([])
    case KeyDown(key) =>
      (match SearchKeyTable(table, key)
       case None => None
       case Some(k) => Some(if k.extended then [0xE0, k.code] else [k.code]))
    case KeyUp(key) =>
      match SearchKeyTable(table, key)
      case None => None
      case Some(k) => Some(if k.extended then [0xE0, 0xF0, k.code] else [0xF0, k.code])
  }

  /** The buffer with the codes and the zero that ends them; the bytes behind stay as they were. */
  function Filled(data: seq<bv8>, codes: seq<bv8>): (r: seq<bv8>)
    requires |codes| < |data|
    ensures |r| == |data|
  {
    codes + [0] + data[|codes| + 1..]
  }

  function Bit(b: bv8, i: nat): bool
    requires i < 8
  {
    (b >> i) & 1 == 1
  }

  function Ones(b: bv8, n: nat): nat
    requires n <= 8
  {
    if n == 0 then 0 else Ones(b, n - 1) + if Bit(b, n - 1) then 1 else 0
  }

  /** The parity bit makes the number of ones odd. */
  predicate Parity(b: bv8) {
    Ones(b, 8) % 2 == 0
  }

  /** A byte on the wire: start bit 0, eight data bits with the lowest first, odd parity, stop bit 1. */
  function Frame(b: bv8): (f: seq<bool>)
    ensures |f| == 11
  {
    [false, Bit(b, 0), Bit(b, 1), Bit(b, 2), Bit(b, 3), Bit(b, 4), Bit(b, 5), Bit(b, 6), Bit(b, 7), Parity(b), true]
  }

  // ---- One step ----

  /** The data line while bit `bit` of a frame is on it. */
  function DataBit(k: State): bool {
    if k.bit == 0 then false
    else if k.bit <= 8 then Bit(k.byte, k.bit - 1)
    else if k.bit == 9 then Parity(k.byte)
    else if k.bit == 10 then true
    else k.devData
  }

  datatype System = System(keyboard: State, queue: seq<Event>)

  function StepPretransmit(table: seq<KeyEntry>, k: State, queue: seq<Event>): System
    requires |k.data| == 4
  {
    if k.elapsed < PRETRANSMIT_TIME then System(k, queue)
    else if queue == [] then System(k.(elapsed := PRETRANSMIT_TIME), queue)
    else match Codes(table, queue[0])
         case None => System(k.(elapsed := PRETRANSMIT_TIME), queue[1..])
         case Some(codes) =>
           System(k.(phase := TxClockUp, data := Filled(k.data, codes), idx := 0, bit := 10, elapsed := 0), queue[1..])
  }

  function StepData(k: State): State {
    var k1 := k.(devData := DataBit(k));
    if k.elapsed >= CLOCK_PERIOD / 4 then k1.(phase := TxClockDown, elapsed := k.elapsed - CLOCK_PERIOD / 4) else k1
  }

  function StepClockDown(k: State): State {
    var k1 := k.(devClock := false);
    if k.elapsed >= CLOCK_PERIOD / 2 then k1.(phase := TxClockUp, elapsed := k.elapsed - CLOCK_PERIOD / 2) else k1
  }

  function StepClockUp(k: State): State
    requires k.bit == 10 ==> k.idx < |k.data|
  {
    var k1 := k.(devClock := true);
    if k.elapsed < CLOCK_PERIOD / 4 then k1
    else if k.bit != 10 then k1.(phase := TxData, bit := k.bit + 1)
    else if k.data[k.idx] == 0 then k1.(phase := TxPretransmit, elapsed := PRETRANSMIT_TIME)
    else k1.(phase := TxData, byte := k.data[k.idx], idx := k.idx + 1, bit := 0, elapsed := 0)
  }

  /** Either side can pull a line low. */
  function KeyClock(k: State): bool {
    k.hostClock && k.devClock
  }

  function KeyData(k: State): bool {
    k.hostData && k.devData
  }

  /** There is a zero in the buffer at or after `idx`. */
  predicate Ended(data: seq<bv8>, idx: nat)
    decreases |data| - idx
  {
    idx < |data| && (data[idx] == 0 || Ended(data, idx + 1))
  }

  /** The buffer is intact, and no bit count beyond the frame. */
  predicate Sane(k: State) {
    |k.data| == 4 && k.bit <= 10 &&
    (k.phase == TxData || k.phase == TxClockDown || k.phase == TxClockUp ==> Ended(k.data, k.idx))
  }

  function Step(table: seq<KeyEntry>, s: System, time: nat): System
    requires Sane(s.keyboard)
  {
    var k := s.keyboard.(elapsed := s.keyboard.elapsed + time);
    match k.phase
    case TxInhibit => System(k.(phase := if KeyClock(k) then TxPretransmit else TxInhibit, elapsed := 0), s.queue)
    case TxPretransmit => StepPretransmit(table, k, s.queue)
    case TxData => System(StepData(k), s.queue)
    case TxClockDown => System(StepClockDown(k), s.queue)
    case TxClockUp => System(StepClockUp(k), s.queue)
  }

  // ---- What is still to be sent ----

  /** The codes in the buffer from `idx` up to the zero. */
  function Remaining(data: seq<bv8>, idx: nat): seq<bv8>
    decreases |data| - idx
  {
    if idx >= |data| || data[idx] == 0 then [] else [data[idx]] + Remaining(data, idx + 1)
  }

  function Frames(codes: seq<bv8>): seq<bool> {
    if codes == [] then [] else Frame(codes[0]) + Frames(codes[1..])
  }

  /** The bits that the receiver has not seen yet. */
  function Unsent(k: State): seq<bool>
    requires k.bit <= 10
  {
    var later := Frames(Remaining(k.data, k.idx));
    match k.phase
    case TxInhibit => []
    case TxPretransmit => []
    case TxData => Frame(k.byte)[k.bit..] + later
    case TxClockDown => Frame(k.byte)[if k.devClock then k.bit else k.bit + 1..] + later
    case TxClockUp => if k.bit == 10 then later else Frame(k.byte)[k.bit + 1..] + later
  }

  /** The states of a transmission in which the computer leaves both lines alone. */
  predicate Sending(k: State) {
    Sane(k) && k.hostClock && k.hostData && k.phase != TxInhibit &&
    (k.phase == TxPretransmit || k.phase == TxData ==> k.devClock) &&
    (k.phase == TxClockDown && k.devClock ==> k.devData == Frame(k.byte)[k.bit])
  }

  /** What the receiver samples in a step: the data line at a falling edge of the clock. */
  function Sampled(before: State, after: State): seq<bool> {
    if KeyClock(before) && !KeyClock(after) then [KeyData(after)] else []
  }

  /** The codes that a step takes from the queue. */
  function Taken(table: seq<KeyEntry>, s: System, time: nat): seq<bv8> {
    var k := s.keyboard;
    if k.phase != TxPretransmit || k.elapsed + time < PRETRANSMIT_TIME || s.queue == [] then []
    else match Codes(table, s.queue[0])
         case None => []
         case Some(codes) => codes
  }

  predicate GoodTable(table: seq<KeyEntry>) {
    forall i :: 0 <= i < |table| ==> table[i].code != 0
  }

  // ---- A step sends what it should ----

  lemma CodesEnd(table: seq<KeyEntry>, e: Event)
    requires GoodTable(table) && Codes(table, e).Some?
    ensures var codes := Codes(table, e).value; |codes| <= 3 && forall i :: 0 <= i < |codes| ==> codes[i] != 0
  {
    if !e.OtherEvent? {
      FoundCode(table, e.key);
    }
  }

  lemma {:induction false} FoundCode(table: seq<KeyEntry>, key: int)
    requires GoodTable(table) && SearchKeyTable(table, key).Some?
    ensures SearchKeyTable(table, key).value.code != 0 && SearchKeyTable(table, key).value.key == key
  {
    if table[0].key != key {
      FoundCode(table[1..], key);
    }
  }

  /** The buffer holds exactly the codes put into it. */
  lemma {:induction false} FilledRemains(data: seq<bv8>, codes: seq<bv8>, i: nat)
    requires i <= |codes| < |data| && forall j :: 0 <= j < |codes| ==> codes[j] != 0
    ensures Remaining(Filled(data, codes), i) == codes[i..] && Ended(Filled(data, codes), i)
    decreases |codes| - i
  {
    if i < |codes| {
      FilledRemains(data, codes, i + 1);
      assert codes[i..] == [codes[i]] + codes[i + 1..];
    }
  }

  lemma SendsPretransmit(table: seq<KeyEntry>, s: System, time: nat)
    requires GoodTable(table) && Sending(s.keyboard) && s.keyboard.phase == TxPretransmit
    ensures var n := Step(table, s, time).keyboard;
            Sending(n) && Unsent(s.keyboard) == [] && Frames(Taken(table, s, time)) == Unsent(n) &&
            Sampled(s.keyboard, n) == [] &&
            KeyData(n) == KeyData(s.keyboard)
  {
    hide Frames, Codes, Filled, Remaining, Ended;
    var k := s.keyboard;
    if k.elapsed + time >= PRETRANSMIT_TIME && s.queue != [] && Codes(table, s.queue[0]).Some? {
      CodesEnd(table, s.queue[0]);
      var codes := Codes(table, s.queue[0]).value;
      FilledRemains(k.data, codes, 0);
      assert codes[0..] == codes;
    } else {
      FramesNone();
    }
  }

  lemma FramesNone()
    ensures Frames([]) == []
  {
  }

  lemma DataIsFrame(k: State)
    requires k.bit <= 10
    ensures DataBit(k) == Frame(k.byte)[k.bit]
  {
    hide Bit, Parity;
  }

  lemma SendsData(k: State, time: nat)
    requires Sending(k) && k.phase == TxData
    ensures var n := StepData(k.(elapsed := k.elapsed + time));
            Sending(n) && Unsent(k) == Unsent(n) && Sampled(k, n) == [] && KeyClock(k) && KeyClock(n)
  {
    hide DataBit, Frame, Remaining, Ended, Frames;
    DataIsFrame(k.(elapsed := k.elapsed + time));
  }

  lemma FrameFrom(f: seq<bool>, i: nat, later: seq<bool>)
    requires |f| == 11 && i <= 10
    ensures f[i..] + later == [f[i]] + (f[i + 1..] + later)
    ensures f[11..] + later == later
  {
    assert f[i..] == [f[i]] + f[i + 1..];
  }

  lemma SendsClockDown(k: State, time: nat)
    requires Sending(k) && k.phase == TxClockDown
    ensures var n := StepClockDown(k.(elapsed := k.elapsed + time));
            Sending(n) && Unsent(k) == Sampled(k, n) + Unsent(n) && KeyData(n) == KeyData(k)
  {
    hide Frame, Remaining, Ended, Frames;
    var later, f := Frames(Remaining(k.data, k.idx)), Frame(k.byte);
    var n := StepClockDown(k.(elapsed := k.elapsed + time));
    FrameFrom(f, k.bit, later);
    assert n.byte == k.byte && n.bit == k.bit && n.data == k.data && n.idx == k.idx && !n.devClock;
    assert Unsent(n) == f[k.bit + 1..] + later;
    if k.devClock {
      assert Sampled(k, n) == [f[k.bit]];
    } else {
      assert Sampled(k, n) == [];
    }
  }

  lemma SendsClockUp(k: State, time: nat)
    requires Sending(k) && k.phase == TxClockUp
    ensures var n := StepClockUp(k.(elapsed := k.elapsed + time));
            Sending(n) && Unsent(k) == Unsent(n) && Sampled(k, n) == [] && KeyData(n) == KeyData(k)
  {
    hide Frame;
    var f := Frame(k.byte);
    if k.bit == 10 && k.elapsed + time >= CLOCK_PERIOD / 4 {
      if k.data[k.idx] != 0 {
        var rest := Remaining(k.data, k.idx + 1);
        assert ([k.data[k.idx]] + rest)[1..] == rest;
        assert Frame(k.data[k.idx])[0..] == Frame(k.data[k.idx]);
      }
    }
  }

  /** Every step moves a bit from what is unsent to what is sampled, or none; a newly taken event is added at
      the end. The data line is still while the clock is low and when it falls. */
  lemma StepSends(table: seq<KeyEntry>, s: System, time: nat)
    requires GoodTable(table) && Sending(s.keyboard)
    ensures var n := Step(table, s, time).keyboard;
            Sending(n) && Unsent(s.keyboard) + Frames(Taken(table, s, time)) == Sampled(s.keyboard, n) + Unsent(n) &&
            (!KeyClock(s.keyboard) || !KeyClock(n) ==> KeyData(n) == KeyData(s.keyboard))
  {
    hide Unsent, Frames, Sampled, StepData, StepClockDown, StepClockUp, StepPretransmit;
    var k := s.keyboard;
    FramesNone();
    match k.phase
    case TxPretransmit => SendsPretransmit(table, s, time);
    case TxData => SendsData(k, time);
    case TxClockDown => SendsClockDown(k, time);
    case TxClockUp => SendsClockUp(k, time);
  }

  // ---- Every step, with whatever the computer does to the lines ----

  lemma {:induction false} ZeroEnds(data: seq<bv8>, idx: nat, zero: nat)
    requires idx <= zero < |data| && data[zero] == 0
    ensures Ended(data, idx)
    decreases zero - idx
  {
    if idx < zero {
      ZeroEnds(data, idx + 1, zero);
    }
  }

  lemma PretransmitSane(table: seq<KeyEntry>, k: State, queue: seq<Event>)
    requires Sane(k) && k.phase == TxPretransmit
    ensures Sane(StepPretransmit(table, k, queue).keyboard)
  {
    hide SearchKeyTable, Ended;
    if queue != [] && Codes(table, queue[0]).Some? {
      var codes := Codes(table, queue[0]).value;
      ZeroEnds(Filled(k.data, codes), 0, |codes|);
    }
  }

  lemma ClockUpSane(k: State)
    requires Sane(k) && k.phase == TxClockUp
    ensures Sane(StepClockUp(k))
  {
  }

  /** Every step keeps the buffer and the bit count right, so the index stays inside the buffer. */
  lemma StepSane(table: seq<KeyEntry>, s: System, time: nat)
    requires Sane(s.keyboard)
    ensures var n := Step(table, s, time).keyboard; Sane(n) && (n.phase == TxClockUp ==> n.idx < |n.data|)
  {
    hide StepPretransmit, StepClockUp, DataBit, Ended;
    var k := s.keyboard.(elapsed := s.keyboard.elapsed + time);
    if k.phase == TxPretransmit {
      PretransmitSane(table, k, s.queue);
    } else if k.phase == TxClockUp {
      ClockUpSane(k);
    }
    SaneIndex(Step(table, s, time).keyboard);
  }

  /** What can happen to the keyboard: events, time, and the computer's pulling and letting go of the two lines. */
  datatype Action = Arrive(event: Event) | Elapse(time: nat) | PullClock(up: bool) | PullData(up: bool)

  function Act(table: seq<KeyEntry>, s: System, action: Action): System
    requires Sane(s.keyboard)
  {
    match action
    case Arrive(e) => s.(queue := s.queue + [e])
    case Elapse(time) => Step(table, s, time)
    case PullClock(up) =>
      s.(keyboard := s.keyboard.(hostClock := up, phase := if up then s.keyboard.phase else TxInhibit))
    case PullData(up) => s.(keyboard := s.keyboard.(hostData := up))
  }

  lemma ActSane(table: seq<KeyEntry>, s: System, action: Action)
    requires Sane(s.keyboard)
    ensures Sane(Act(table, s, action).keyboard)
  {
    hide Step;
    if action.Elapse? {
      StepSane(table, s, action.time);
    }
  }

  function Session(table: seq<KeyEntry>, s: System, actions: seq<Action>): System
    requires Sane(s.keyboard)
    decreases |actions|
  {
    if actions == [] then s
    else
      ActSane(table, s, actions[0]);
      Session(table, Act(table, s, actions[0]), actions[1..])
  }

  /** In every session, with the computer holding up transmissions as it likes, the buffer is in order and whenever
      its byte is read the index is inside it. */
  lemma {:induction false} SessionSane(table: seq<KeyEntry>, s: System, actions: seq<Action>)
    requires Sane(s.keyboard)
    ensures var n := Session(table, s, actions).keyboard;
            Sane(n) && (n.phase == TxClockUp ==> n.idx < |n.data|)
    decreases |actions|
  {
    hide Act, Sane;
    if actions == [] {
      SaneIndex(s.keyboard);
    } else {
      ActSane(table, s, actions[0]);
      SessionSane(table, Act(table, s, actions[0]), actions[1..]);
    }
  }

  lemma SaneIndex(k: State)
    requires Sane(k)
    ensures |k.data| == 4 && k.bit <= 10 && (k.phase == TxClockUp ==> k.idx < |k.data|)
  {
  }

  // ---- Whole runs ----

  /** Between two steps new events may arrive. */
  datatype Input = Input(arrivals: seq<Event>, time: nat)

  function After(table: seq<KeyEntry>, s: System, input: Input): System
    requires Sane(s.keyboard)
  {
    Step(table, s.(queue := s.queue + input.arrivals), input.time)
  }

  function Run(table: seq<KeyEntry>, s: System, inputs: seq<Input>): System
    requires GoodTable(table) && Sending(s.keyboard)
    decreases |inputs|
  {
    if inputs == [] then s
    else
      StepSends(table, s.(queue := s.queue + inputs[0].arrivals), inputs[0].time);
      Run(table, After(table, s, inputs[0]), inputs[1..])
  }

  /** Everything the receiver samples in a run. */
  function Wire(table: seq<KeyEntry>, s: System, inputs: seq<Input>): seq<bool>
    requires GoodTable(table) && Sending(s.keyboard)
    decreases |inputs|
  {
    if inputs == [] then []
    else
      StepSends(table, s.(queue := s.queue + inputs[0].arrivals), inputs[0].time);
      var n := After(table, s, inputs[0]);
      Sampled(s.keyboard, n.keyboard) + Wire(table, n, inputs[1..])
  }

  /** The codes of all events taken from the queue in a run, in order. */
  function Accepted(table: seq<KeyEntry>, s: System, inputs: seq<Input>): seq<bv8>
    requires GoodTable(table) && Sending(s.keyboard)
    decreases |inputs|
  {
    if inputs == [] then []
    else
      StepSends(table, s.(queue := s.queue + inputs[0].arrivals), inputs[0].time);
      Taken(table, s.(queue := s.queue + inputs[0].arrivals), inputs[0].time) +
      Accepted(table, After(table, s, inputs[0]), inputs[1..])
  }

  lemma {:induction false} FramesConcat(a: seq<bv8>, b: seq<bv8>)
    ensures Frames(a + b) == Frames(a) + Frames(b)
  {
    hide Frame;
    if a == [] {
      assert a + b == b;
    } else {
      FramesConcat(a[1..], b);
      assert (a + b)[1..] == a[1..] + b;
    }
  }

  lemma SendingIsSane(k: State)
    requires Sending(k)
    ensures Sane(k) && k.bit <= 10
  {
  }

  lemma Regroup(u: seq<bool>, t: seq<bool>, m: seq<bool>, w: seq<bool>, v: seq<bool>, x: seq<bool>, y: seq<bool>)
    requires u + t == w + v && v + m == x + y
    ensures u + (t + m) == (w + x) + y
  {
    assert u + (t + m) == (u + t) + m == w + (v + m) == (w + x) + y;
  }

  /** Whatever was unsent, and the frames of every accepted code in order, are what the wire has shown and what
      is unsent now: nothing is lost, repeated or out of order. */
  lemma {:induction false} WireCarriesFrames(table: seq<KeyEntry>, s: System, inputs: seq<Input>)
    requires GoodTable(table) && Sending(s.keyboard)
    ensures var n := Run(table, s, inputs).keyboard;
            Sending(n) && Unsent(s.keyboard) + Frames(Accepted(table, s, inputs)) == Wire(table, s, inputs) + Unsent(n)
    decreases |inputs|
  {
    hide Unsent, Frames, Sampled, Taken, Sending, Sane, Step, GoodTable;
    if inputs == [] {
      FramesNone();
    } else {
      SendingIsSane(s.keyboard);
      var q := s.(queue := s.queue + inputs[0].arrivals);
      StepSends(table, q, inputs[0].time);
      var n := After(table, s, inputs[0]);
      WireCarriesFrames(table, n, inputs[1..]);
      SendingIsSane(n.keyboard);
      SendingIsSane(Run(table, n, inputs[1..]).keyboard);
      var taken, more := Taken(table, q, inputs[0].time), Accepted(table, n, inputs[1..]);
      FramesConcat(taken, more);
      Regroup(Unsent(s.keyboard), Frames(taken), Frames(more), Sampled(s.keyboard, n.keyboard), Unsent(n.keyboard),
              Wire(table, n, inputs[1..]), Unsent(Run(table, n, inputs[1..]).keyboard));
    }
  }

  // ---- Every transmission ends ----

  /** How long the phase lasts. */
  function Threshold(p: Phase): nat {
    if p == TxClockDown then CLOCK_PERIOD / 2 else CLOCK_PERIOD / 4
  }

  /** The phases still to come in a transmission. */
  function PhasesLeft(k: State): nat
    requires k.bit <= 10
  {
    var later := 33 * |Remaining(k.data, k.idx)|;
    match k.phase
    case TxInhibit => 0
    case TxPretransmit => 0
    case TxData => 3 * (10 - k.bit) + 3 + later
    case TxClockDown => 3 * (10 - k.bit) + 2 + later
    case TxClockUp => 3 * (10 - k.bit) + 1 + later
  }

  function TimeLeft(k: State): nat {
    if k.elapsed < Threshold(k.phase) then Threshold(k.phase) - k.elapsed else 0
  }

  /** An upper bound for the steps until the transmission is over. */
  function StepsLeft(k: State): nat
    requires k.bit <= 10
  {
    PhasesLeft(k) * CLOCK_PERIOD + if k.phase == TxPretransmit then 0 else TimeLeft(k)
  }

  lemma ShrinkData(k: State, time: nat)
    requires Sending(k) && k.phase == TxData && time > 0
    ensures var n := StepData(k.(elapsed := k.elapsed + time)); n.bit <= 10 && StepsLeft(n) < StepsLeft(k)
  {
    hide DataBit, Frame, Remaining, Ended;
  }

  lemma ShrinkClockDown(k: State, time: nat)
    requires Sending(k) && k.phase == TxClockDown && time > 0
    ensures var n := StepClockDown(k.(elapsed := k.elapsed + time)); n.bit <= 10 && StepsLeft(n) < StepsLeft(k)
  {
    hide Frame, Remaining, Ended;
  }

  lemma ShrinkClockUp(k: State, time: nat)
    requires Sending(k) && k.phase == TxClockUp && time > 0
    ensures var n := StepClockUp(k.(elapsed := k.elapsed + time)); n.bit <= 10 && StepsLeft(n) < StepsLeft(k)
  {
    hide Frame;
  }

  lemma StepsShrink(table: seq<KeyEntry>, s: System, time: nat)
    requires Sending(s.keyboard) && s.keyboard.phase != TxPretransmit && time > 0
    ensures var n := Step(table, s, time).keyboard; n.bit <= 10 && StepsLeft(n) < StepsLeft(s.keyboard)
  {
    hide StepData, StepClockDown, StepClockUp, StepsLeft;
    match s.keyboard.phase
    case TxData => ShrinkData(s.keyboard, time);
    case TxClockDown => ShrinkClockDown(s.keyboard, time);
    case TxClockUp => ShrinkClockUp(s.keyboard, time);
  }

  lemma StepsRemain(k: State)
    requires Sending(k) && k.phase != TxPretransmit
    ensures StepsLeft(k) > 0
  {
    hide Remaining, Frame, Ended;
  }

  /** With positive step times a transmission is over after at most `StepsLeft` steps, whatever arrives meanwhile;
      until then no further event is taken. */
  lemma {:induction false} TransmissionEnds(table: seq<KeyEntry>, s: System, inputs: seq<Input>) returns (j: nat)
    requires GoodTable(table) && Sending(s.keyboard) && |inputs| >= StepsLeft(s.keyboard)
    requires forall i :: 0 <= i < |inputs| ==> inputs[i].time > 0
    ensures j <= |inputs| && Run(table, s, inputs[..j]).keyboard.phase == TxPretransmit
    ensures Accepted(table, s, inputs[..j]) == [] && Wire(table, s, inputs[..j]) == Unsent(s.keyboard)
    decreases |inputs|
  {
    hide Unsent, Frames, Sampled, Sending, Sane, Step, StepsLeft, GoodTable;
    SendingIsSane(s.keyboard);
    if s.keyboard.phase == TxPretransmit {
      j := 0;
      assert inputs[..0] == [];
      assert Unsent(s.keyboard) == [] by { IdleSendsNothing(s.keyboard); }
    } else {
      StepsRemain(s.keyboard);
      var q := s.(queue := s.queue + inputs[0].arrivals);
      StepSends(table, q, inputs[0].time);
      StepsShrink(table, q, inputs[0].time);
      var n := After(table, s, inputs[0]);
      var k := TransmissionEnds(table, n, inputs[1..]);
      j := k + 1;
      assert inputs[..j][0] == inputs[0] && inputs[..j][1..] == inputs[1..][..k];
      FramesNone();
      assert Unsent(s.keyboard) == Sampled(s.keyboard, n.keyboard) + Unsent(n.keyboard);
    }
  }

  lemma IdleSendsNothing(k: State)
    requires Sending(k) && k.phase == TxPretransmit
    ensures Unsent(k) == []
  {
  }

  // ---- The receiver ----

  function Weight(set1: bool, i: nat): bv8
    requires i < 8
  {
    if set1 then 1 << i else 0
  }

  /** The byte with these bits, lowest first. */
  function ByteOf(f: seq<bool>): bv8
    requires |f| == 8
  {
    Weight(f[0], 0) | Weight(f[1], 1) | Weight(f[2], 2) | Weight(f[3], 3) |
    Weight(f[4], 4) | Weight(f[5], 5) | Weight(f[6], 6) | Weight(f[7], 7)
  }

  /** The number of lines held high. */
  function Highs(bits: seq<bool>): nat {
    if bits == [] then 0 else (if bits[0] then 1 else 0) + Highs(bits[1..])
  }

  /** Reads frames of 11 bits, and refuses one whose start bit is not low, whose stop bit is not high, or whose data and
      parity bits together do not have an odd number of ones. */
  function Receive(bits: seq<bool>): Option<seq<bv8>>
    decreases |bits|
  {
    if bits == [] then Some([])
    else if |bits| < 11 || bits[0] || !bits[10] || Highs(bits[1..10]) % 2 != 1 then None
    else match Receive(bits[11..])
         case None => None
         case Some(codes) => Some([ByteOf(bits[1..9])] + codes)
  }

  lemma ByteBack(b: bv8)
    ensures ByteOf([Bit(b, 0), Bit(b, 1), Bit(b, 2), Bit(b, 3), Bit(b, 4), Bit(b, 5), Bit(b, 6), Bit(b, 7)]) == b
  {
  }

  lemma {:induction false} HighsConcat(a: seq<bool>, b: seq<bool>)
    ensures Highs(a + b) == Highs(a) + Highs(b)
  {
    if a == [] {
      assert a + b == b;
    } else {
      assert (a + b)[1..] == a[1..] + b;
      HighsConcat(a[1..], b);
    }
  }

  lemma {:induction false} OnesAreHighs(b: bv8, f: seq<bool>, n: nat)
    requires n <= |f| <= 8 && forall i :: 0 <= i < |f| ==> f[i] == Bit(b, i)
    ensures Highs(f[..n]) == Ones(b, n)
  {
    hide Bit;
    if n > 0 {
      OnesAreHighs(b, f, n - 1);
      HighsConcat(f[..n - 1], [f[n - 1]]);
      assert f[..n] == f[..n - 1] + [f[n - 1]] && [f[n - 1]][1..] == [];
    }
  }

  /** The parity bit makes the number of ones odd. */
  lemma OddFrame(b: bv8)
    ensures Highs(Frame(b)[1..10]) % 2 == 1
  {
    hide Bit, Highs;
    var f := Frame(b)[1..9];
    OnesAreHighs(b, f, 8);
    assert f[..8] == f && Frame(b)[1..10] == f + [Parity(b)];
    HighsConcat(f, [Parity(b)]);
    OneHigh(Parity(b));
  }

  lemma OneHigh(x: bool)
    ensures Highs([x]) == if x then 1 else 0
  {
    assert [x][1..] == [];
  }

  lemma FrameParts(b: bv8)
    ensures var f := Frame(b); !f[0] && f[10] && ByteOf(f[1..9]) == b
  {
    hide Bit, Parity, ByteOf;
    ByteBack(b);
    var f := Frame(b);
    assert f[1..9] == [f[1], f[2], f[3], f[4], f[5], f[6], f[7], f[8]];
  }

  /** A frame in front of other bits is taken apart correctly. */
  lemma FirstFrame(b: bv8, rest: seq<bool>)
    ensures var bits := Frame(b) + rest;
            |bits| >= 11 && !bits[0] && bits[10] && Highs(bits[1..10]) % 2 == 1 && ByteOf(bits[1..9]) == b &&
            bits[11..] == rest
  {
    hide Frame, Parity, ByteOf, Highs;
    FrameParts(b);
    OddFrame(b);
    assert (Frame(b) + rest)[1..9] == Frame(b)[1..9] && (Frame(b) + rest)[1..10] == Frame(b)[1..10];
  }

  /** The frames of any codes are received as those codes. */
  lemma {:induction false} FramesReceived(codes: seq<bv8>)
    ensures Receive(Frames(codes)) == Some(codes)
  {
    hide Frame, Bit, Parity, ByteOf, Highs;
    if codes != [] {
      FirstFrame(codes[0], Frames(codes[1..]));
      FramesReceived(codes[1..]);
      assert [codes[0]] + codes[1..] == codes;
    }
  }

  /** From an idle keyboard back to an idle keyboard the receiver gets exactly the codes of the accepted events. */
  lemma ReceiverGetsCodes(table: seq<KeyEntry>, s: System, inputs: seq<Input>)
    requires GoodTable(table) && Sending(s.keyboard) && s.keyboard.phase == TxPretransmit
    requires Run(table, s, inputs).keyboard.phase == TxPretransmit
    ensures Receive(Wire(table, s, inputs)) == Some(Accepted(table, s, inputs))
  {
    hide Frames, Receive, Run, Sending;
    WireCarriesFrames(table, s, inputs);
    IdleSendsNothing(s.keyboard);
    IdleSendsNothing(Run(table, s, inputs).keyboard);
    SendingIsSane(s.keyboard);
    SendingIsSane(Run(table, s, inputs).keyboard);
    var wire, frames := Wire(table, s, inputs), Frames(Accepted(table, s, inputs));
    assert [] + frames == frames && wire + [] == wire;
    FramesReceived(Accepted(table, s, inputs));
  }
}
