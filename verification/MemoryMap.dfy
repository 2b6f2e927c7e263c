/** What the memory shows after a write, address by address, and what becomes of interrupt requests. */
module MemoryMap {
  import opened Bits
  import opened ControlBits
  import opened Wrappers
  import opened Microcode
  import opened MicrocodeText
  import opened Machine
  import RowMeaning

  /** The two memories that can be written have their full size. */
  predicate Sized(m: Memory) {
    |m.vram| == 0x8000 && |m.ram| == 0x3F00
  }

  /** Video memory and RAM read back what was written. */
  lemma WriteReadsBack(m: Memory, lines: Lines, data: Byte, address: Word)
    requires Sized(m) && address < 0xBF00
    ensures ReadMemory(WriteMemory(m, data, address), lines, address) == data
  {
  }

  /** A write to video memory also reaches the RAM cell with the same lowest 14 bits, if there is one. Nothing else but
      the port changes. */
  lemma WriteReaches(m: Memory, lines: Lines, data: Byte, address: Word, other: Word)
    requires Sized(m) && (other == address ==> address >= 0xC000) && !(0xBF00 <= other < 0xC000)
    ensures ReadMemory(WriteMemory(m, data, address), lines, other) ==
            if address < 0x8000 && other == 0x8000 + address % 0x4000 then data else ReadMemory(m, lines, other)
  {
  }

  /** The addresses that write the output register: all below the flash window whose lowest three bits are 001. */
  predicate IsOutput(address: Word) {
    address < 0xC000 && address % 8 == 1
  }

  lemma FourBits(bits: seq<bool>)
    requires |bits| == 4
    ensures Uns(bits) == BitVal(bits[0]) + 2 * BitVal(bits[1]) + 4 * BitVal(bits[2]) + 8 * BitVal(bits[3])
  {
    UnsOne(bits[3]);
    assert bits[3..] == [bits[3]];
    assert bits[2..][1..] == bits[3..] && bits[1..][1..] == bits[2..];
    assert Uns(bits[2..]) == BitVal(bits[2]) + 2 * BitVal(bits[3]);
    assert Uns(bits[1..]) == BitVal(bits[1]) + 2 * Uns(bits[2..]);
  }

  lemma EightBits(bits: seq<bool>)
    requires |bits| == 8
    ensures Uns(bits) == Uns(bits[..4]) + 16 * Uns(bits[4..]) && Uns(bits) < 256
    ensures Uns(bits[..4]) < 16 && Uns(bits[4..]) < 16
  {
    assert bits == bits[..4] + bits[4..];
    UnsConcat(bits[..4], bits[4..]);
    PowByte();
    UnsBound(bits);
    UnsBound(bits[..4]);
    UnsBound(bits[4..]);
  }

  lemma LowNibble(low: nat, high: nat)
    requires low < 16
    ensures var d := low + 16 * high; d % 2 == low % 2 && d / 2 % 2 == low / 2 % 2 && d / 4 % 2 == low / 4 % 2
  {
    EvenMore(low, 8 * high);
    assert (low + 16 * high) / 2 == low / 2 + 8 * high;
    EvenMore(low / 2, 4 * high);
    assert (low + 16 * high) / 4 == low / 4 + 4 * high;
    EvenMore(low / 4, 2 * high);
  }

  lemma EvenMore(a: nat, b: nat)
    ensures (a + 2 * b) % 2 == a % 2
  {
  }

  lemma HighNibble(low: nat, high: nat)
    requires low < 16 && high < 16
    ensures var d := low + 16 * high; d < 256 && d / 64 % 2 == high / 4 % 2 && d / 128 % 2 == high / 8 % 2
  {
    assert (low + 16 * high) / 64 == high / 4 && (low + 16 * high) / 128 == high / 8;
  }

  lemma NibbleBits(bits: seq<bool>)
    requires |bits| == 4
    ensures var d := Uns(bits);
            (d % 2 == 1) == bits[0] && (d / 2 % 2 == 1) == bits[1] && (d / 4 % 2 == 1) == bits[2] &&
            (d / 8 % 2 == 1) == bits[3]
  {
    hide Uns;
    FourBits(bits);
  }

  /** The bits of a byte that the output register uses. */
  lemma ByteBits(bits: seq<bool>)
    requires |bits| == 8
    ensures var d := Uns(bits);
            d < 256 && (d % 2 == 1) == bits[0] && (d / 2 % 2 == 1) == bits[1] && (d / 4 % 2 == 1) == bits[2] &&
            (d / 64 % 2 == 0) == !bits[6] && (d / 128 % 2 == 0) == !bits[7]
  {
    hide Uns;
    EightBits(bits);
    LowNibble(Uns(bits[..4]), Uns(bits[4..]));
    HighNibble(Uns(bits[..4]), Uns(bits[4..]));
    NibbleBits(bits[..4]);
    NibbleBits(bits[4..]);
  }

  lemma PortSum(b0: bool, b1: bool, b2: bool, b6: bool, b7: bool)
    ensures Uns([b0, b1, b2, false, false, false, b6, b7]) ==
            BitVal(b0) + 2 * BitVal(b1) + 4 * BitVal(b2) + 64 * BitVal(b6) + 128 * BitVal(b7)
  {
    hide Uns, BitVal;
    var shown := [b0, b1, b2, false, false, false, b6, b7];
    EightBits(shown);
    FourBits(shown[..4]);
    FourBits(shown[4..]);
    NoBit();
  }

  lemma NoBit()
    ensures BitVal(false) == 0
  {
  }

  /** What the port shows: in bits 0 and 1 the latched requests, in 2 the LED, in 6 and 7 the keyboard's lines. */
  lemma PortValue(m: Memory, lines: Lines, port: Word)
    requires 0xBF00 <= port < 0xC000
    ensures ReadMemory(m, lines, port) ==
            if port % 8 != 0 then 0
            else Uns([m.interrupts.out0, m.interrupts.out1, m.led, false, false, false, m.hostClock && lines.clock,
                      m.hostData && lines.data])
  {
    hide Uns;
    PortSum(m.interrupts.out0, m.interrupts.out1, m.led, m.hostClock && lines.clock, m.hostData && lines.data);
  }

  lemma WriteGoes(m: Memory, data: Byte, address: Word)
    ensures var after, out := WriteMemory(m, data, address), WriteIO(m, data, if IsOutput(address) then 1 else 0);
            after.interrupts == out.interrupts && after.led == out.led && after.hostClock == out.hostClock &&
            after.hostData == out.hostData
  {
    hide Put, SetInterruptReset;
  }

  lemma Written(m: Memory, bits: seq<bool>, address: Word)
    requires |bits| == 8 && Uns(bits) < 256
    ensures var after, now := WriteMemory(m, Uns(bits), address), IsOutput(address);
            after.interrupts.out0 == m.interrupts.out0 && after.interrupts.out1 == m.interrupts.out1 &&
            after.led == (if now then bits[2] else m.led) &&
            after.hostClock == (if now then !bits[6] else m.hostClock) &&
            after.hostData == if now then !bits[7] else m.hostData
  {
    hide Uns, WriteMemory, IsOutput;
    ByteBits(bits);
    WriteGoes(m, Uns(bits), address);
  }

  /** What it shows after a write of a byte, given by its bits: the LED, and the keyboard's lines pulled low by a 1, are
      those of the byte just written if it went to the output register. */
  lemma PortShows(m: Memory, lines: Lines, bits: seq<bool>, address: Word, port: Word)
    requires |bits| == 8 && 0xBF00 <= port < 0xC000 && Uns(bits) < 256
    ensures var after, now := WriteMemory(m, Uns(bits), address), IsOutput(address);
            ReadMemory(after, lines, port) ==
            if port % 8 != 0 then 0
            else Uns([m.interrupts.out0, m.interrupts.out1, if now then bits[2] else m.led, false, false, false,
                      (if now then !bits[6] else m.hostClock) && lines.clock,
                      (if now then !bits[7] else m.hostData) && lines.data])
  {
    hide Uns, ReadMemory, WriteMemory;
    ByteBits(bits);
    Written(m, bits, address);
    PortValue(WriteMemory(m, Uns(bits), address), lines, port);
  }

  /** Bits 0 and 1 of a byte written to the output register let requests of the two interrupts through, or withdraw
      pending ones and keep further ones out; a write to another address changes neither. */
  lemma RequestsLet(m: Memory, bits: seq<bool>, address: Word)
    requires |bits| == 8 && Uns(bits) < 256
    ensures var was, now := m.interrupts, WriteMemory(m, Uns(bits), address).interrupts;
            if IsOutput(address) then
              && now.in0 == (was.in0 && bits[0]) && GenerateInterrupt(now, false).in0 == bits[0]
              && now.in1 == (was.in1 && bits[1]) && GenerateInterrupt(now, true).in1 == bits[1]
              && now.out0 == was.out0 && now.out1 == was.out1
            else now == was
  {
    hide Uns, WriteMemory, IsOutput;
    ByteBits(bits);
    WriteGoes(m, Uns(bits), address);
  }

  lemma EffectLatches(row: TextRow, m: State, lines: Lines)
    ensures var n, i := RowMeaning.Effect(row, m, lines).memory.interrupts, m.memory.interrupts;
            n.out0 == (if row.s10 == "CI" then i.in0 else i.out0) && n.out1 == if row.s10 == "CI" then i.in1 else i.out1
  {
    hide RowMeaning.Data, RowMeaning.Address, RowMeaning.Result, RowMeaning.FlagsAfter, WriteMemory;
    WriteLatches(m.memory, RowMeaning.Data(row, m, lines), RowMeaning.Address(row, m));
    if row.s10 == "CI" { } else if row.s10 == "MI" { } else { }
  }

  lemma WriteLatches(m: Memory, data: Byte, address: Word)
    ensures var n := WriteMemory(m, data, address).interrupts;
            n.out0 == m.interrupts.out0 && n.out1 == m.interrupts.out1
  {
    hide WriteMemory;
    WriteGoes(m, data, address);
  }

  /** A request is latched by the next word that loads an opcode, and by no other: then the port shows it if it was
      pending or let through, and so does the microcode see it. */
  lemma RequestSeen(row: TextRow, w: Control, m: State, lines: Lines, second: bool, port: Word)
    requires WordOf(SymbolTokens(row), 0) == Some(w) && 0xBF00 <= port < 0xC000 && port % 8 == 0
    ensures var asked := m.(memory := m.memory.(interrupts := GenerateInterrupt(m.memory.interrupts, second)));
            var n, i := Execute(asked, Stored(w), lines).memory, m.memory.interrupts;
            var seen0 := if row.s10 == "CI" then i.in0 || (!second && i.enabled0) else i.out0;
            var seen1 := if row.s10 == "CI" then i.in1 || (second && i.enabled1) else i.out1;
            n.interrupts.out0 == seen0 && n.interrupts.out1 == seen1 &&
            ReadMemory(n, lines, port) % 4 == BitVal(seen0) + 2 * BitVal(seen1)
  {
    hide WordOf, Stored, Execute, RowMeaning.Effect, ReadMemory;
    var asked := m.(memory := m.memory.(interrupts := GenerateInterrupt(m.memory.interrupts, second)));
    RowMeaning.RowExecutes(row, w, asked, lines);
    EffectLatches(row, asked, lines);
    LowPort(Execute(asked, Stored(w), lines).memory, lines, port);
  }

  lemma LowPort(m: Memory, lines: Lines, port: Word)
    requires 0xBF00 <= port < 0xC000 && port % 8 == 0
    ensures ReadMemory(m, lines, port) % 4 == BitVal(m.interrupts.out0) + 2 * BitVal(m.interrupts.out1)
  {
  }
}
