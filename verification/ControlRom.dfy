/** How the emulator reads a control word back from the three byte planes of the ROM. */
module ControlRom {
  import opened Bits
  import opened ControlBits
  import opened Microcode
  import opened MicrocodeCompiler

  /** Outside its range the ROM reads as zero. */
  function ReadMicrocode(rom: seq<bv8>, address: nat): bv8 {
    if address < OUTPUT_SIZE && address < |rom| then rom[address] else 0
  }

  /** The fields of the address, or-ed together as they come: flags above 15 run into the opcode. */
  function ControlIn(step: nat, flags: nat, opcode: nat, int0: bool, int1: bool, reset: bool): nat {
    BitOr(BitOr(BitOr(BitOr(BitOr(step, flags * 0x10), opcode * 0x100), BitVal(int0) * 0x10000),
                BitVal(int1) * 0x20000),
          BitVal(reset) * 0x40000)
  }

  function ReadControl(
    rom: seq<bv8>, step: nat, flags: nat, opcode: nat, int0: bool, int1: bool, reset: bool): Control
  {
    var i := ControlIn(step, flags, opcode, int0, int1, reset);
    Join(ReadMicrocode(rom, i), ReadMicrocode(rom, BitOr(0x80000, i)), ReadMicrocode(rom, BitOr(0x100000, i)))
  }

  // ---- Fields that do not overlap ----

  lemma Powers()
    ensures Pow2(4) == 0x10 && Pow2(8) == 0x100 && Pow2(16) == 0x10000
    ensures Pow2(17) == 0x20000 && Pow2(18) == 0x40000 && Pow2(19) == 0x80000
  {
    PowByte();
    assert Pow2(10) == 0x400;
    assert Pow2(12) == 0x1000;
    assert Pow2(14) == 0x4000;
  }

  /** The address of the control word: flags above 15 show up as opcode bits. */
  function AddressOf(step: nat, flags: nat, opcode: nat, int0: bool, int1: bool, reset: bool): Address {
    Address(step, flags % 16, BitOr(flags / 16, opcode), BitVal(int0) + 2 * BitVal(int1), BitVal(reset))
  }

  lemma LowFields(step: nat, flags: nat, opcode: nat)
    requires step < 16 && flags < 256 && opcode < 256
    ensures var low := step + flags % 16 * 0x10 + BitOr(flags / 16, opcode) * 0x100;
            BitOr(BitOr(step, flags * 0x10), opcode * 0x100) == low && low < 0x10000 && BitOr(flags / 16, opcode) < 256
  {
    hide BitOr, Pow2;
    Powers();
    OrAbove(step, flags, 4);
    assert step + flags * 0x10 == (step + flags % 16 * 0x10) + flags / 16 * 0x100;
    OrLow(step + flags % 16 * 0x10, flags / 16, opcode, 8);
    OrBound(flags / 16, opcode, 8);
  }

  /** The or-ed address is the index of the fields side by side. */
  lemma ControlInIsIndex(step: nat, flags: nat, opcode: nat, int0: bool, int1: bool, reset: bool)
    requires step < 16 && flags < 256 && opcode < 256
    ensures var a := AddressOf(step, flags, opcode, int0, int1, reset);
            IsAddress(a) && ControlIn(step, flags, opcode, int0, int1, reset) == Index(a)
  {
    hide BitOr, Pow2;
    Powers();
    LowFields(step, flags, opcode);
    var low := step + flags % 16 * 0x10 + BitOr(flags / 16, opcode) * 0x100;
    OrAbove(low, BitVal(int0), 16);
    OrAbove(low + BitVal(int0) * 0x10000, BitVal(int1), 17);
    OrAbove(low + BitVal(int0) * 0x10000 + BitVal(int1) * 0x20000, BitVal(reset), 18);
  }

  /** The ROM holds what the rules say. */
  ghost predicate Programmed(rom: seq<bv8>, rules: seq<Rule>) {
    |rom| == OUTPUT_SIZE && forall a :: IsAddress(a) ==> RomWord(rom, a) == Selected(rules, a)
  }

  lemma PlaneAddress(i: nat)
    requires i < PLANE
    ensures BitOr(0x80000, i) == PLANE + i && BitOr(0x100000, i) == 2 * PLANE + i
  {
    hide BitOr, Pow2;
    Powers();
    OrCommutes(0x80000, i);
    OrCommutes(0x100000, i);
    OrAbove(i, 1, 19);
    OrAbove(i, 2, 19);
  }

  /** The emulator reads at every state of its inputs the word of the last rule that matches there. */
  lemma ReadsSelected(rom: seq<bv8>, rules: seq<Rule>, step: nat, flags: nat, opcode: nat, int0: bool, int1: bool,
                      reset: bool)
    requires Programmed(rom, rules) && step < 16 && flags < 256 && opcode < 256
    ensures ReadControl(rom, step, flags, opcode, int0, int1, reset) ==
            Selected(rules, AddressOf(step, flags, opcode, int0, int1, reset))
  {
    hide BitOr, ControlIn, AddressOf, Selected, Index, Join;
    ControlInIsIndex(step, flags, opcode, int0, int1, reset);
    var a := AddressOf(step, flags, opcode, int0, int1, reset);
    IndexInjective(a, a);
    PlaneAddress(Index(a));
    assert RomWord(rom, a) == Selected(rules, a);
  }

  // ---- Every set of rules has a ROM ----

  /** The address whose index this is. */
  function AddressAt(i: nat): Address {
    var flags := i / 16;
    var opcode := flags / 16;
    var interrupt := opcode / 256;
    Address(i % 16, flags % 16, opcode % 256, interrupt % 4, interrupt / 4)
  }

  lemma Low16(h: nat, l: nat)
    requires l < 16
    ensures (16 * h + l) / 16 == h && (16 * h + l) % 16 == l
  {
  }

  lemma Low256(h: nat, l: nat)
    requires l < 256
    ensures (256 * h + l) / 256 == h && (256 * h + l) % 256 == l
  {
  }

  lemma AddressBack(a: Address)
    requires IsAddress(a)
    ensures AddressAt(Index(a)) == a
  {
    var interrupt := 4 * a.reset + a.interrupt;
    var opcode := 256 * interrupt + a.opcode;
    var flags := 16 * opcode + a.flags;
    assert Index(a) == 16 * flags + a.step;
    Low16(flags, a.step);
    Low16(opcode, a.flags);
    Low256(interrupt, a.opcode);
  }

  function ByteAt(rules: seq<Rule>, i: nat): bv8 {
    var w := Selected(rules, AddressAt(i % PLANE));
    if i < PLANE then LowByte(w) else if i < 2 * PLANE then MiddleByte(w) else HighByte(w)
  }

  /** So the theorems about programmed ROMs are about something. */
  lemma RomExists(rules: seq<Rule>) returns (rom: seq<bv8>)
    ensures Programmed(rom, rules)
  {
    hide Selected, LowByte, MiddleByte, HighByte, Join, Index, AddressAt;
    rom := seq(OUTPUT_SIZE, i requires 0 <= i < OUTPUT_SIZE => ByteAt(rules, i));
    forall a | IsAddress(a)
      ensures RomWord(rom, a) == Selected(rules, a)
    {
      IndexInjective(a, a);
      AddressBack(a);
      JoinSplit(Selected(rules, a));
    }
  }
}
