/** What a row of the microcode does, said by the names of its symbols: the word that the compiler makes of them, in the
    ROM with some bits inverted, has just that effect in the processor. */
module RowMeaning {
  import opened Wrappers
  import opened Bits
  import opened ControlBits
  import opened Microcode
  import opened MicrocodeText
  import opened Machine
  import P = Program
  import ProgramText
  import Alu

  // ---- By the names of the symbols ----

  function Base(m: State, s: Pair): Word {
    if s == "PO" then m.p
    else if s == "BO" then m.b
    else if s == "SO" then m.s
    else if s == "IO" then m.i
    else m.t
  }

  /** The base with the index register added, or nothing with XZ; subtracted, and one more, with XN; XC adds one. */
  function Address(row: TextRow, m: State): Word {
    var x := if row.s1 == "XZ" then 0 else m.x;
    var offset: int := if row.s2 == "XN" then -x - 1 else x;
    (Base(m, row.s0) + offset + if row.s3 == "XC" then 1 else 0) % 65536
  }

  function Data(row: TextRow, m: State, lines: Lines): Byte {
    var s := row.s5;
    if s == "AO" then m.a
    else if s == "FO" then Alu.FlagByte(m.f) % 256
    else if s == "KO" then m.k
    else if s == "MO" then ReadMemory(m.memory, lines, Address(row, m))
    else if s == "PL" then m.p % 256
    else if s == "PH" then m.p / 256
    else if s == "BL" then m.b % 256
    else if s == "BH" then m.b / 256
    else if s == "IL" then m.i % 256
    else if s == "IH" then m.i / 256
    else if s == "HO" then 255
    else 0
  }

  /** The operands of the arithmetic unit. */
  function Left(row: TextRow, m: State): Byte {
    if row.s6 == "EZ" then 0 else m.a
  }

  function Right(row: TextRow, data: Byte): Byte {
    if row.s7 == "EN" then 255 - data else data
  }

  function Total(row: TextRow, m: State, data: Byte): nat {
    Left(row, m) + Right(row, data) + if row.s8 == "EC" then 1 else 0
  }

  /** Sum, shift to the right, and, or. */
  function Result(row: TextRow, m: State, data: Byte): Byte {
    Alu.AndOrByte(Left(row, m), Right(row, data));
    if row.s9 == "ES" then Total(row, m, data) % 256
    else if row.s9 == "ER" then Right(row, data) / 2
    else if row.s9 == "EA" then Alu.And(Left(row, m), Right(row, data))
    else BitOr(Left(row, m), Right(row, data))
  }

  function Carry(row: TextRow, m: State, data: Byte): bool {
    if row.s9 == "ES" then Total(row, m, data) >= 256
    else if row.s9 == "ER" then Right(row, data) % 2 == 1
    else m.f.c
  }

  /** FI loads the flags of the result, and with FD the byte on the data bus. */
  function FlagsAfter(row: TextRow, m: State, data: Byte): Alu.Flags {
    if row.s11 != "FI" then m.f
    else if row.s12 == "FD" then Alu.ByteFlags(data)
    else
      var out := Result(row, m, data);
      m.f.(c := Carry(row, m, data), n := out >= 128, z := out == 0)
  }

  function PointerLoaded(row: TextRow, n: State, address: Word): State {
    var s := row.s4;
    if s == "PI" then n.(p := address)
    else if s == "BI" then n.(b := address)
    else if s == "SI" then n.(s := address)
    else if s == "II" then n.(i := address)
    else n
  }

  function RegisterLoaded(row: TextRow, n: State, data: Byte, out: Byte, address: Word): State {
    var s := row.s10;
    if s == "AI" then n.(a := out)
    else if s == "XI" then n.(x := data)
    else if s == "KI" then n.(k := data, memory := n.memory.(bank := data))
    else if s == "MI" then n.(memory := WriteMemory(n.memory, data, address))
    else if s == "CI" then n.(opcode := data, reset := false, memory := ReadInterrupts(n.memory))
    else if s == "TL" then n.(t := n.t / 256 * 256 + data)
    else if s == "TH" then n.(t := data * 256 + n.t % 256)
    else n
  }

  /** One clock of the row. */
  function Effect(row: TextRow, m: State, lines: Lines): State {
    var address, data := Address(row, m), Data(row, m, lines);
    var n := PointerLoaded(row, m.(f := FlagsAfter(row, m, data)), address);
    RegisterLoaded(row, n, data, Result(row, m, data), address).
      (step := if row.s10 == "CI" || m.step == 15 then 0 else (m.step + 1) % 256)
  }

  // ---- The symbols and the bits of the word ----

  function SymbolOf(row: TextRow, k: nat): Pair
    requires k < 13
  {
    [row.s0, row.s1, row.s2, row.s3, row.s4, row.s5, row.s6, row.s7, row.s8, row.s9, row.s10, row.s11, row.s12][k]
  }

  lemma SymbolField(row: TextRow, w: Control, k: nat)
    requires WordOf(SymbolTokens(row), 0) == Some(w) && k < 13
    ensures BitsOf(k, SymbolOf(row, k)) == Some(P.Only(w, P.Mask(k)))
  {
    hide Column, FindEntry, WordOf, P.Only, P.Mask;
    ProgramText.FieldOf(SymbolTokens(row), 0, k);
  }

  /** The symbol is the name of an entry of its column, and has its bits. */
  lemma Named(row: TextRow, w: Control, k: nat) returns (i: nat)
    requires WordOf(SymbolTokens(row), 0) == Some(w) && k < 13
    ensures i < |Column(k)| && SymbolOf(row, k) == [Column(k)[i].a, Column(k)[i].b]
    ensures P.Only(w, P.Mask(k)) == Column(k)[i].control
  {
    hide Column, FindEntry, WordOf, P.Only, P.Mask;
    SymbolField(row, w, k);
    i := ProgramText.FoundEntry(Column(k), Written(SymbolOf(row, k)));
  }

  lemma BusBits(w: Control)
    ensures (Stored(w) & CTRL_TO == 0) == ((w & 0x000700) & CTRL_TO != 0)
    ensures Stored(w) & CTRL_IO == (w & 0x000700) & CTRL_IO
  {
  }

  lemma BaseMeans(row: TextRow, w: Control, m: State)
    requires WordOf(SymbolTokens(row), 0) == Some(w)
    ensures AddressBus(m, Stored(w)) == Base(m, row.s0)
  {
    hide WordOf, Stored;
    var i := Named(row, w, 0);
    BusBits(w);
  }

  /** A column of one bit. */
  lemma BitMeans(row: TextRow, w: Control, k: nat, name: Pair)
    requires WordOf(SymbolTokens(row), 0) == Some(w) && k < 13 && |Column(k)| == 2
    requires Column(k)[0] == Entry(P.Mask(k), name[0], name[1]) && Column(k)[1] == Entry(0, '-', '-') && name[0] != '-'
    ensures P.Only(w, P.Mask(k)) == if SymbolOf(row, k) == name then P.Mask(k) else 0
  {
    hide WordOf, P.Mask, Column, P.Only;
    var i := Named(row, w, k);
  }

  lemma IndexBits(w: Control)
    ensures (Stored(w) & CTRL_XZ == 0) == (P.Only(w, 0x010000) != 0)
    ensures (Stored(w) & CTRL_XN != 0) == (P.Only(w, 0x020000) != 0)
    ensures (Stored(w) & CTRL_XC != 0) == (P.Only(w, 0x040000) != 0)
  {
  }

  lemma AddressMeans(row: TextRow, w: Control, m: State)
    requires WordOf(SymbolTokens(row), 0) == Some(w)
    ensures AddressOut(m, Stored(w)) == Address(row, m)
  {
    hide WordOf, Stored, P.Only, AddressBus, Base;
    BaseMeans(row, w, m);
    BitMeans(row, w, 1, "XZ");
    BitMeans(row, w, 2, "XN");
    BitMeans(row, w, 3, "XC");
    IndexBits(w);
  }

  lemma DataBits(w: Control)
    ensures Stored(w) & CTRL_OD == P.Only(w, 0x00001F)
  {
  }

  lemma DataMeans(row: TextRow, w: Control, m: State, lines: Lines)
    requires WordOf(SymbolTokens(row), 0) == Some(w)
    ensures DataBus(m, Stored(w), lines) == Data(row, m, lines)
  {
    hide WordOf, Stored, P.Only, AddressOut, Address, ReadMemory, Alu.FlagByte;
    AddressMeans(row, w, m);
    DataBits(w);
    var i := Named(row, w, 5);
  }

  lemma OperandBits(w: Control)
    ensures (Stored(w) & CTRL_EZ == 0) == (P.Only(w, 0x080000) != 0)
    ensures (Stored(w) & CTRL_EN != 0) == (P.Only(w, 0x100000) != 0)
    ensures (Stored(w) & CTRL_EC != 0) == (P.Only(w, 0x200000) != 0)
    ensures Stored(w) & CTRL_EO == P.Only(w, 0xC00000)
  {
  }

  lemma OperandsMean(row: TextRow, w: Control, m: State, data: Byte)
    requires WordOf(SymbolTokens(row), 0) == Some(w)
    ensures Alu.OperandA(m.a, Stored(w)) == Left(row, m) && Alu.OperandB(data, Stored(w)) == Right(row, data)
    ensures Alu.CarryIn(Stored(w)) == if row.s8 == "EC" then 1 else 0
  {
    hide WordOf, Stored, P.Only;
    BitMeans(row, w, 6, "EZ");
    BitMeans(row, w, 7, "EN");
    BitMeans(row, w, 8, "EC");
    OperandBits(w);
  }

  lemma OperationMeans(row: TextRow, w: Control)
    requires WordOf(SymbolTokens(row), 0) == Some(w)
    ensures Stored(w) & CTRL_EO == if row.s9 == "ES" then CTRL_ES else if row.s9 == "ER" then CTRL_ER
                                   else if row.s9 == "EA" then CTRL_EA else CTRL_EO
  {
    hide WordOf, Stored, P.Only;
    OperandBits(w);
    var i := Named(row, w, 9);
  }

  lemma OutputByte(a: Byte, b: Byte, control: Control)
    ensures Alu.And(a, b) < 256 && BitOr(a, b) < 256
    ensures var out, op := Alu.Output(a, b, control) % 256, control & CTRL_EO;
            (op == CTRL_ES ==> out == (a + b + Alu.CarryIn(control)) % 256) && (op == CTRL_ER ==> out == b / 2) &&
            (op == CTRL_EA ==> out == Alu.And(a, b)) && (op == CTRL_EO ==> out == BitOr(a, b))
  {
    hide Alu.And, BitOr, Alu.CarryIn;
    Alu.AndOrByte(a, b);
  }

  lemma ResultMeans(row: TextRow, w: Control, m: State, data: Byte)
    requires WordOf(SymbolTokens(row), 0) == Some(w)
    ensures Alu.Output(Left(row, m), Right(row, data), Stored(w)) % 256 == Result(row, m, data)
  {
    hide WordOf, Stored, P.Only, Left, Right, Alu.And, BitOr, Alu.CarryIn, Alu.Output;
    OperandsMean(row, w, m, data);
    OperationMeans(row, w);
    OutputByte(Left(row, m), Right(row, data), Stored(w));
  }

  lemma CarryMeans(row: TextRow, w: Control, m: State, data: Byte)
    requires WordOf(SymbolTokens(row), 0) == Some(w)
    ensures Alu.CarryOut(Left(row, m), Right(row, data), m.f.c, Stored(w)) == Carry(row, m, data)
  {
    hide WordOf, Stored, P.Only, Left, Right, Alu.CarryIn;
    OperandsMean(row, w, m, data);
    OperationMeans(row, w);
  }

  lemma FlagBits(w: Control)
    ensures (Stored(w) & CTRL_FI == 0) == (P.Only(w, 0x004000) != 0)
    ensures (Stored(w) & CTRL_FD != 0) == (P.Only(w, 0x008000) != 0)
  {
  }

  lemma FlagsMean(row: TextRow, w: Control, m: State, data: Byte)
    requires WordOf(SymbolTokens(row), 0) == Some(w)
    ensures var alu, s := Alu.CalcAlu(m.a, data, m.f, Stored(w)), Stored(w);
            alu.out == Result(row, m, data) &&
            (if s & CTRL_FI == 0 && s & CTRL_FD != 0 then Alu.ByteFlags(data) else alu.flags) ==
            FlagsAfter(row, m, data)
  {
    hide WordOf, Stored, P.Only, Alu.OperandA, Alu.OperandB, Alu.Output, Alu.CarryOut, Alu.ByteFlags, Result, Carry;
    OperandsMean(row, w, m, data);
    ResultMeans(row, w, m, data);
    CarryMeans(row, w, m, data);
    BitMeans(row, w, 11, "FI");
    BitMeans(row, w, 12, "FD");
    FlagBits(w);
  }

  lemma PointerBits(w: Control)
    ensures (Stored(w) & CTRL_NA == 0) == (P.Only(w, 0x003800) & CTRL_NA != 0)
    ensures Stored(w) & CTRL_II == P.Only(w, 0x003800) & CTRL_II
  {
  }

  lemma PointerMeans(row: TextRow, w: Control, n: State, address: Word)
    requires WordOf(SymbolTokens(row), 0) == Some(w)
    ensures LoadAddress(n, Stored(w), address) == PointerLoaded(row, n, address)
  {
    hide WordOf, Stored;
    PointerBits(w);
    var i := Named(row, w, 4);
  }

  lemma RegisterBits(w: Control)
    ensures Stored(w) & CTRL_ND == P.Only(w, 0x0000E0)
  {
  }

  lemma RegisterMeans(row: TextRow, w: Control, n: State, data: Byte, out: Byte, address: Word)
    requires WordOf(SymbolTokens(row), 0) == Some(w)
    ensures LoadData(n, Stored(w), data, out, address) == RegisterLoaded(row, n, data, out, address)
    ensures (Stored(w) & CTRL_ND == CTRL_CI) == (row.s10 == "CI")
  {
    hide WordOf, Stored, P.Only, WriteMemory, ReadInterrupts;
    RegisterBits(w);
    var i := Named(row, w, 10);
  }

  /** For every row of symbols that the compiler accepts: the word it makes of them does in the processor what the
      symbols are named for. */
  lemma RowExecutes(row: TextRow, w: Control, m: State, lines: Lines)
    requires WordOf(SymbolTokens(row), 0) == Some(w)
    ensures Execute(m, Stored(w), lines) == Effect(row, m, lines)
  {
    hide WordOf, Stored, AddressOut, Address, DataBus, Data, Alu.CalcAlu, Result, Carry, LoadAddress, LoadData,
         PointerLoaded, RegisterLoaded, Alu.ByteFlags;
    AddressMeans(row, w, m);
    DataMeans(row, w, m, lines);
    var data := Data(row, m, lines);
    FlagsMean(row, w, m, data);
    var n := m.(f := FlagsAfter(row, m, data));
    PointerMeans(row, w, n, Address(row, m));
    RegisterMeans(row, w, PointerLoaded(row, n, Address(row, m)), data, Result(row, m, data), Address(row, m));
  }
}
