/** How fast the keyboard's clock runs: within a byte each bit takes three quarters of the nominal period. */
module KeyTiming {
  import opened Keyboard

  /** A quarter of the nominal clock period; a bit takes three of them. */
  const QUARTER: nat := 14970
  const BIT_TIME: nat := 44910

  predicate Transmitting(k: State) {
    k.phase == TxData || k.phase == TxClockDown || k.phase == TxClockUp
  }

  /** The time since the start bit of the byte went out. */
  function Position(k: State): nat {
    k.bit * BIT_TIME + k.elapsed +
    if k.phase == TxClockDown then QUARTER else if k.phase == TxClockUp then 3 * QUARTER else 0
  }

  /** The step after which the byte is over. */
  predicate EndsByte(k: State, time: nat) {
    k.phase == TxClockUp && k.bit == 10 && k.elapsed + time >= QUARTER
  }

  function Total(inputs: seq<Input>): nat {
    if inputs == [] then 0 else inputs[0].time + Total(inputs[1..])
  }

  /** All steps are within the transmission of one byte. */
  predicate WithinByte(table: seq<KeyEntry>, s: System, inputs: seq<Input>)
    requires GoodTable(table) && Sending(s.keyboard)
    decreases |inputs|
  {
    inputs == [] ||
    (Transmitting(s.keyboard) && !EndsByte(s.keyboard, inputs[0].time) &&
     (StepSends(table, s.(queue := s.queue + inputs[0].arrivals), inputs[0].time);
      WithinByte(table, After(table, s, inputs[0]), inputs[1..])))
  }

  /** No time is lost or gained in a step within a byte. */
  lemma StepPosition(table: seq<KeyEntry>, s: System, time: nat)
    requires Sending(s.keyboard) && Transmitting(s.keyboard) && !EndsByte(s.keyboard, time)
    ensures var n := Step(table, s, time).keyboard;
            Position(n) == Position(s.keyboard) + time && Transmitting(n) && n.byte == s.keyboard.byte
  {
    hide DataBit, Frame, Ended;
  }

  lemma {:induction false} RunPosition(table: seq<KeyEntry>, s: System, inputs: seq<Input>)
    requires GoodTable(table) && Sending(s.keyboard) && WithinByte(table, s, inputs)
    ensures Position(Run(table, s, inputs).keyboard) == Position(s.keyboard) + Total(inputs)
    decreases |inputs|
  {
    hide Sending, Step, GoodTable, Position, Sane, Transmitting;
    if inputs != [] {
      SendingIsSane(s.keyboard);
      var q := s.(queue := s.queue + inputs[0].arrivals);
      StepSends(table, q, inputs[0].time);
      StepPosition(table, q, inputs[0].time);
      RunPosition(table, After(table, s, inputs[0]), inputs[1..]);
    }
  }

  // ---- With short steps ----

  /** Steps no longer than `d` leave no more than that over when a phase ends. */
  predicate Prompt(k: State, d: nat) {
    match k.phase
    case TxData => k.elapsed < QUARTER + d && (k.bit == 0 ==> k.elapsed < QUARTER)
    case TxClockDown => k.elapsed < 2 * QUARTER && (k.devClock ==> k.elapsed < 2 * d)
    case TxClockUp => k.elapsed < QUARTER
    case _ => true
  }

  lemma StepPrompt(table: seq<KeyEntry>, s: System, time: nat, d: nat)
    requires Sending(s.keyboard) && Prompt(s.keyboard, d) && time <= d <= QUARTER && d > 0
    ensures Prompt(Step(table, s, time).keyboard, d)
  {
    hide DataBit, Frame, Ended, Codes;
  }

  lemma {:induction false} RunPrompt(table: seq<KeyEntry>, s: System, inputs: seq<Input>, d: nat)
    requires GoodTable(table) && Sending(s.keyboard) && Prompt(s.keyboard, d) && 0 < d <= QUARTER
    requires forall i :: 0 <= i < |inputs| ==> inputs[i].time <= d
    ensures Prompt(Run(table, s, inputs).keyboard, d)
    decreases |inputs|
  {
    hide Sending, Step, GoodTable, Sane, Prompt;
    if inputs != [] {
      SendingIsSane(s.keyboard);
      var q := s.(queue := s.queue + inputs[0].arrivals);
      StepSends(table, q, inputs[0].time);
      StepPrompt(table, q, inputs[0].time, d);
      RunPrompt(table, After(table, s, inputs[0]), inputs[1..], d);
    }
  }

  /** The clock is about to fall. */
  predicate Falling(k: State) {
    k.phase == TxClockDown && k.devClock
  }

  /** From one falling edge to a later one of the same byte it takes 44910 ns for each bit, up to two steps' length.
      With short steps that is never the nominal period of 59880 ns. */
  lemma BitPeriod(table: seq<KeyEntry>, s: System, inputs: seq<Input>, d: nat)
    requires GoodTable(table) && Sending(s.keyboard) && Prompt(s.keyboard, d) && 0 < d <= QUARTER
    requires WithinByte(table, s, inputs) && forall i :: 0 <= i < |inputs| ==> inputs[i].time <= d
    requires Falling(s.keyboard) && Falling(Run(table, s, inputs).keyboard)
    ensures var bits := Run(table, s, inputs).keyboard.bit - s.keyboard.bit;
            44910 * bits - 2 * d < Total(inputs) < 44910 * bits + 2 * d &&
            (bits > 0 && 4 * d <= QUARTER ==> Total(inputs) < 59880 * bits - 2 * d)
  {
    hide Sending, GoodTable, Run, Total, WithinByte;
    RunPosition(table, s, inputs);
    RunPrompt(table, s, inputs, d);
  }

  // ---- After an inhibit ----

  /** When the computer lets go of the clock the transmitter starts to wait. */
  lemma LetGo(table: seq<KeyEntry>, s: System, time: nat)
    requires Sane(s.keyboard) && s.keyboard.phase == TxInhibit && KeyClock(s.keyboard)
    ensures var n := Step(table, s, time);
            n.keyboard.phase == TxPretransmit && n.keyboard.elapsed == 0 && n.queue == s.queue
  {
  }

  lemma StepWaits(table: seq<KeyEntry>, s: System, time: nat)
    requires Sending(s.keyboard) && s.keyboard.phase == TxPretransmit && s.keyboard.elapsed + time < 50000
    ensures var n := Step(table, s, time);
            n.keyboard == s.keyboard.(elapsed := s.keyboard.elapsed + time) && n.queue == s.queue
  {
    hide Codes;
  }

  /** It takes no event before 50000 ns have passed. */
  lemma {:induction false} Waits(table: seq<KeyEntry>, s: System, inputs: seq<Input>)
    requires GoodTable(table) && Sending(s.keyboard) && s.keyboard.phase == TxPretransmit
    requires s.keyboard.elapsed + Total(inputs) < 50000
    ensures var n := Run(table, s, inputs);
            n.keyboard.phase == TxPretransmit && |n.queue| >= |s.queue| && Accepted(table, s, inputs) == [] &&
            Wire(table, s, inputs) == []
    decreases |inputs|
  {
    hide Sending, Step, GoodTable, Sane, Codes;
    if inputs != [] {
      SendingIsSane(s.keyboard);
      var q := s.(queue := s.queue + inputs[0].arrivals);
      StepSends(table, q, inputs[0].time);
      StepWaits(table, q, inputs[0].time);
      Waits(table, After(table, s, inputs[0]), inputs[1..]);
    }
  }
}
