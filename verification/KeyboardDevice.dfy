/** The keyboard as an object whose state changes in place, refining `Keyboard`. */
module KeyboardDevice {
  import opened Wrappers
  import K = Keyboard

  /** The parity of the bits below `n`. */
  function XorBits(b: bv8, n: nat): bool
    requires n <= 8
  {
    if n == 0 then false else XorBits(b, n - 1) != K.Bit(b, n - 1)
  }

  lemma {:induction false} OnesXor(b: bv8, n: nat)
    requires n <= 8
    ensures (K.Ones(b, n) % 2 == 1) == XorBits(b, n)
  {
    if n > 0 {
      OnesXor(b, n - 1);
    }
  }

  lemma XorOfFour(b: bv8)
    ensures XorBits(b, 4) == (((K.Bit(b, 0) != K.Bit(b, 1)) != K.Bit(b, 2)) != K.Bit(b, 3))
  {
    assert XorBits(b, 1) == K.Bit(b, 0);
    assert XorBits(b, 2) == (K.Bit(b, 0) != K.Bit(b, 1));
  }

  lemma XorOfEight(b: bv8)
    ensures XorBits(b, 8) == ((((XorBits(b, 4) != K.Bit(b, 4)) != K.Bit(b, 5)) != K.Bit(b, 6)) != K.Bit(b, 7))
  {
    assert XorBits(b, 6) == ((XorBits(b, 4) != K.Bit(b, 4)) != K.Bit(b, 5));
  }

  /** Three shifts and exclusive ors bring the parity of all eight bits into the lowest. */
  lemma FoldXor(b: bv8)
    ensures var d4 := b ^ (b >> 4); var d2 := d4 ^ (d4 >> 2); var d1 := d2 ^ (d2 >> 1); (d1 & 1 == 1) == XorBits(b, 8)
  {
    XorOfFour(b);
    XorOfEight(b);
    hide XorBits;
  }

  method CalcOddParity(data: bv8) returns (parity: bool)
    ensures parity == K.Parity(data)
  {
    var d := data ^ (data >> 4);
    d := d ^ (d >> 2);
    d := d ^ (d >> 1);
    parity := d & 1 != 1;
    FoldXor(data);
    OnesXor(data, 8);
  }

  method SearchKeyTable(table: seq<K.KeyEntry>, key: int) returns (found: Option<K.KeyEntry>)
    ensures found == K.SearchKeyTable(table, key)
  {
    for i := 0 to |table|
      invariant K.SearchKeyTable(table, key) == K.SearchKeyTable(table[i..], key)
    {
      assert table[i..][1..] == table[i + 1..];
      if table[i].key == key {
        return Some(table[i]);
      }
    }
    return None;
  }

  class Transmitter {
    const table: seq<K.KeyEntry>
    var state: K.Phase
    var hostClock: bool
    var hostData: bool
    var devClock: bool
    var devData: bool
    var elapsedTime: nat
    const data: array<bv8>
    var idx: nat
    var byte: bv8
    var bit: nat
    var queue: seq<K.Event>

    ghost function Now(): K.State
      reads this, data
    {
      K.State(state, hostClock, hostData, devClock, devData, elapsedTime, data[..], idx, byte, bit)
    }

    constructor (table: seq<K.KeyEntry>)
      ensures this.table == table && queue == [] && fresh(data) && K.Sending(Now()) && Now().phase == K.TxPretransmit
    {
      this.table := table;
      state, hostClock, hostData, devClock, devData := K.TxPretransmit, true, true, true, true;
      elapsedTime, idx, byte, bit, queue := 0, 0, 0, 0, [];
      data := new bv8[4](_ => 0);
    }

    /** Takes the next event and puts its codes into the buffer. */
    method GetKeyCodes() returns (accepted: bool)
      requires queue != [] && data.Length == 4
      modifies `queue, data
      ensures queue == old(queue)[1..] && accepted == K.Codes(table, old(queue)[0]).Some?
      ensures data[..] ==
              if accepted then K.Filled(old(data[..]), K.Codes(table, old(queue)[0]).value) else old(data[..])
    {
      var event := queue[0];
      queue := queue[1..];
      match event
      case KeyDown(key) =>
        var found := SearchKeyTable(table, key);
        if found.None? {
          return false;
        }
        if found.value.extended {
          data[0] := 0xE0;
          data[1] := found.value.code;
          data[2] := 0;
        } else {
          data[0] := found.value.code;
          data[1] := 0;
        }
        return true;
      case KeyUp(key) =>
        var found := SearchKeyTable(table, key);
        if found.None? {
          return false;
        }
        if found.value.extended {
          data[0] := 0xE0;
          data[1] := 0xF0;
          data[2] := found.value.code;
          data[3] := 0;
        } else {
          data[0] := 0xF0;
          data[1] := found.value.code;
          data[2] := 0;
        }
        return true;
      case OtherEvent =>
        data[0] := 0;
        return true;
    }

    method StepData()
      requires bit <= 10
      modifies `state, `devData, `elapsedTime
      ensures Now() == K.StepData(old(Now()))
    {
      if bit == 0 {
        devData := false;
      } else if bit <= 8 {
        devData := (byte >> (bit - 1)) & 1 == 1;
      } else if bit == 9 {
        devData := CalcOddParity(byte);
      } else if bit == 10 {
        devData := true;
      }
      if elapsedTime >= K.CLOCK_PERIOD / 4 {
        state := K.TxClockDown;
        elapsedTime := elapsedTime - K.CLOCK_PERIOD / 4;
      }
    }

    method StepClockDown()
      modifies `state, `devClock, `elapsedTime
      ensures Now() == K.StepClockDown(old(Now()))
    {
      devClock := false;
      if elapsedTime >= K.CLOCK_PERIOD / 2 {
        state := K.TxClockUp;
        elapsedTime := elapsedTime - K.CLOCK_PERIOD / 2;
      }
    }

    method StepClockUp()
      requires bit == 10 ==> idx < data.Length
      modifies `state, `devClock, `elapsedTime, `idx, `byte, `bit
      ensures Now() == K.StepClockUp(old(Now()))
    {
      devClock := true;
      if elapsedTime >= K.CLOCK_PERIOD / 4 {
        if bit == 10 {
          if data[idx] == 0 {
            state := K.TxPretransmit;
            elapsedTime := K.PRETRANSMIT_TIME;
          } else {
            state := K.TxData;
            byte := data[idx];
            idx := idx + 1;
            bit := 0;
            elapsedTime := 0;
          }
        } else {
          state := K.TxData;
          bit := bit + 1;
        }
      }
    }

    method StepPretransmit()
      requires data.Length == 4
      modifies `state, `elapsedTime, `idx, `bit, `queue, data
      ensures K.System(Now(), queue) == K.StepPretransmit(table, old(Now()), old(queue))
    {
      if elapsedTime >= K.PRETRANSMIT_TIME {
        elapsedTime := K.PRETRANSMIT_TIME;
        if queue != [] {
          var accepted := GetKeyCodes();
          if accepted {
            state := K.TxClockUp;
            idx := 0;
            bit := 10;
            elapsedTime := 0;
          }
        }
      }
    }

    method ClockKeyboard(stepTime: nat)
      requires K.Sane(Now())
      modifies this, data
      ensures K.System(Now(), queue) == K.Step(table, K.System(old(Now()), old(queue)), stepTime)
      ensures K.Sane(Now())
    {
      hide K.Sane, K.StepPretransmit, K.StepData, K.StepClockDown, K.StepClockUp;
      K.SaneIndex(Now());
      K.StepSane(table, K.System(Now(), queue), stepTime);
      elapsedTime := elapsedTime + stepTime;
      match state
      case TxInhibit =>
        var clock := GetKeyClock();
        if clock {
          state := K.TxPretransmit;
        }
        elapsedTime := 0;
      case TxPretransmit =>
        StepPretransmit();
      case TxData =>
        StepData();
      case TxClockDown =>
        StepClockDown();
      case TxClockUp =>
        StepClockUp();
    }

    method GetKeyClock() returns (clock: bool)
      ensures clock == K.KeyClock(Now())
    {
      clock := hostClock && devClock;
    }

    method GetKeyData() returns (data: bool)
      ensures data == K.KeyData(Now())
    {
      data := hostData && devData;
    }

    /** It lets go of the line when `value` holds, like `PullKeyClockLow`. */
    method PullKeyDataLow(value: bool)
      modifies `hostData
      ensures K.Sane(old(Now())) ==> K.Sane(Now())
      ensures Now() == old(Now()).(hostData := value)
    {
      hostData := value;
    }

    /** Despite its name it lets go of the line when `value` holds; letting it low stops a transmission. */
    method PullKeyClockLow(value: bool)
      modifies `hostClock, `state
      ensures K.Sane(old(Now())) ==> K.Sane(Now())
      ensures Now() == old(Now()).(hostClock := value, phase := if value then old(state) else K.TxInhibit)
    {
      hostClock := value;
      if !value {
        state := K.TxInhibit;
      }
    }
  }
}
