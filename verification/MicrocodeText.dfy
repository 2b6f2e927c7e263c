/** The text of the microcode, symbol by symbol as in `microcode.src`, and that it says what `MicrocodeSource` says.
    The text is given as literals; nothing in it depends on the table of symbols that it is read with. */
module MicrocodeText {
  import opened Wrappers
  import opened ControlBits
  import opened Microcode
  import opened Program
  import opened MicrocodeSource
  import ProgramText

  // ---- What each symbol stands for ----

  /** A symbol as it is written. */
  type Pair = s: string | |s| == 2 witness "--"

  function Written(s: Pair): Token {
    Symbol(s[0], s[1])
  }

  /** The bits of a symbol in column `k`, if it has a place there. */
  function BitsOf(k: nat, s: Pair): Option<Control>
    requires k < 13
  {
    FindEntry(Column(k), Written(s))
  }

  lemma EntrySymbol(k: nat, i: nat)
    requires k < 13 && i < |Column(k)|
    ensures FindEntry(Column(k), Symbol(Column(k)[i].a, Column(k)[i].b)) == Some(Column(k)[i].control)
  {
    hide Column, FindEntry, Distinct;
    ColumnsDistinct(k);
    FindsEntry(Column(k), i);
  }

  /** The bits of each symbol, column by column: the address bus and the pointer that loads from it, ... */
  predicate AddressBits() {
    && BitsOf(0, "PO") == Some(0x000000) && BitsOf(0, "BO") == Some(0x000100) && BitsOf(0, "SO") == Some(0x000200)
    && BitsOf(0, "IO") == Some(0x000300) && BitsOf(0, "TO") == Some(0x000400)
    && BitsOf(4, "PI") == Some(0x000000) && BitsOf(4, "BI") == Some(0x000800) && BitsOf(4, "SI") == Some(0x001000)
    && BitsOf(4, "II") == Some(0x001800) && BitsOf(4, "--") == Some(0x002000)
  }

  lemma AddressSymbols()
    ensures AddressBits()
  {
    hide FindEntry;
    assert |Column(0)| == 5;
    EntrySymbol(0, 0);
    EntrySymbol(0, 1);
    EntrySymbol(0, 2);
    EntrySymbol(0, 3);
    EntrySymbol(0, 4);
    assert |Column(4)| == 5;
    EntrySymbol(4, 0);
    EntrySymbol(4, 1);
    EntrySymbol(4, 2);
    EntrySymbol(4, 3);
    EntrySymbol(4, 4);
  }

  /** ... the data bus, ... */
  predicate DataBits() {
    && BitsOf(5, "AO") == Some(0x000010) && BitsOf(5, "FO") == Some(0x000011) && BitsOf(5, "KO") == Some(0x000012)
    && BitsOf(5, "MO") == Some(0x000013) && BitsOf(5, "PL") == Some(0x000014) && BitsOf(5, "PH") == Some(0x00000C)
    && BitsOf(5, "BL") == Some(0x000015) && BitsOf(5, "BH") == Some(0x00000D) && BitsOf(5, "IL") == Some(0x000016)
    && BitsOf(5, "IH") == Some(0x00000E) && BitsOf(5, "ZO") == Some(0x000017) && BitsOf(5, "HO") == Some(0x00000F)
  }

  lemma DataSymbols()
    ensures DataBits()
  {
    hide FindEntry;
    assert |Column(5)| == 12;
    EntrySymbol(5, 0);
    EntrySymbol(5, 1);
    EntrySymbol(5, 2);
    EntrySymbol(5, 3);
    EntrySymbol(5, 4);
    EntrySymbol(5, 5);
    EntrySymbol(5, 6);
    EntrySymbol(5, 7);
    EntrySymbol(5, 8);
    EntrySymbol(5, 9);
    EntrySymbol(5, 10);
    EntrySymbol(5, 11);
  }

  /** ... the register that loads from it, ... */
  predicate LoadBits() {
    && BitsOf(10, "AI") == Some(0x000000) && BitsOf(10, "XI") == Some(0x000020) && BitsOf(10, "KI") == Some(0x000040)
    && BitsOf(10, "MI") == Some(0x000060) && BitsOf(10, "CI") == Some(0x000080) && BitsOf(10, "TL") == Some(0x0000A0)
    && BitsOf(10, "TH") == Some(0x0000C0) && BitsOf(10, "--") == Some(0x0000E0)
  }

  lemma LoadSymbols()
    ensures LoadBits()
  {
    hide FindEntry;
    assert |Column(10)| == 8;
    EntrySymbol(10, 0);
    EntrySymbol(10, 1);
    EntrySymbol(10, 2);
    EntrySymbol(10, 3);
    EntrySymbol(10, 4);
    EntrySymbol(10, 5);
    EntrySymbol(10, 6);
    EntrySymbol(10, 7);
  }

  /** ... the operands and the operation of the arithmetic unit, ... */
  predicate OperationBits() {
    && BitsOf(6, "EZ") == Some(0x080000) && BitsOf(6, "--") == Some(0x000000)
    && BitsOf(7, "EN") == Some(0x100000) && BitsOf(7, "--") == Some(0x000000)
    && BitsOf(8, "EC") == Some(0x200000) && BitsOf(8, "--") == Some(0x000000)
    && BitsOf(9, "ES") == Some(0x000000) && BitsOf(9, "ER") == Some(0x400000) && BitsOf(9, "EA") == Some(0x800000)
    && BitsOf(9, "EO") == Some(0xC00000)
  }

  lemma OperationSymbols()
    ensures OperationBits()
  {
    hide FindEntry;
    assert |Column(6)| == 2;
    EntrySymbol(6, 0);
    EntrySymbol(6, 1);
    assert |Column(7)| == 2;
    EntrySymbol(7, 0);
    EntrySymbol(7, 1);
    assert |Column(8)| == 2;
    EntrySymbol(8, 0);
    EntrySymbol(8, 1);
    assert |Column(9)| == 4;
    EntrySymbol(9, 0);
    EntrySymbol(9, 1);
    EntrySymbol(9, 2);
    EntrySymbol(9, 3);
  }

  /** ... the index and the flags. */
  predicate IndexBits() {
    && BitsOf(1, "XZ") == Some(0x010000) && BitsOf(1, "--") == Some(0x000000)
    && BitsOf(2, "XN") == Some(0x020000) && BitsOf(2, "--") == Some(0x000000)
    && BitsOf(3, "XC") == Some(0x040000) && BitsOf(3, "--") == Some(0x000000)
    && BitsOf(11, "FI") == Some(0x004000) && BitsOf(11, "--") == Some(0x000000)
    && BitsOf(12, "FD") == Some(0x008000) && BitsOf(12, "--") == Some(0x000000)
  }

  lemma IndexSymbols()
    ensures IndexBits()
  {
    hide FindEntry;
    assert |Column(1)| == 2;
    EntrySymbol(1, 0);
    EntrySymbol(1, 1);
    assert |Column(2)| == 2;
    EntrySymbol(2, 0);
    EntrySymbol(2, 1);
    assert |Column(3)| == 2;
    EntrySymbol(3, 0);
    EntrySymbol(3, 1);
    assert |Column(11)| == 2;
    EntrySymbol(11, 0);
    EntrySymbol(11, 1);
    assert |Column(12)| == 2;
    EntrySymbol(12, 0);
    EntrySymbol(12, 1);
  }

  /** Every symbol of every column, used in the file or not, stands for the bits of its name. */
  lemma SymbolBits()
    ensures AddressBits() && DataBits() && LoadBits() && OperationBits() && IndexBits()
  {
    hide AddressBits, DataBits, LoadBits, OperationBits, IndexBits;
    AddressSymbols();
    DataSymbols();
    LoadSymbols();
    OperationSymbols();
    IndexSymbols();
  }

  // ---- The text ----

  /** A row of 13 symbols, and the modifiers behind it. */
  datatype TextRow = TextRow(s0: Pair, s1: Pair, s2: Pair, s3: Pair, s4: Pair, s5: Pair, s6: Pair, s7: Pair, s8: Pair,
                             s9: Pair, s10: Pair, s11: Pair, s12: Pair, mods: seq<Token>)

  /** The tokens that begin a sequence, and its rows. */
  datatype Passage = Passage(heading: seq<Token>, rows: seq<TextRow>)

  function SymbolTokens(row: TextRow): (ts: seq<Token>)
    ensures |ts| == 13 && forall k :: 0 <= k < 13 ==> ts[k].Symbol?
  {
    [Written(row.s0), Written(row.s1), Written(row.s2), Written(row.s3), Written(row.s4), Written(row.s5),
     Written(row.s6), Written(row.s7), Written(row.s8), Written(row.s9), Written(row.s10), Written(row.s11),
     Written(row.s12)]
  }

  function RowTokens(rows: seq<TextRow>): seq<Token> {
    if rows == [] then [] else SymbolTokens(rows[0]) + rows[0].mods + RowTokens(rows[1..])
  }

  function Tokens(text: seq<Passage>): seq<Token> {
    if text == [] then [] else text[0].heading + RowTokens(text[0].rows) + Tokens(text[1..])
  }

  function LodText(): Passage {
    Passage([Opcode(0x00), Name("lod #imm")], [
      TextRow("IO", "XZ", "--", "XC", "II", "MO", "EZ", "--", "--", "EO", "AI", "FI", "--", []),
      TextRow("IO", "XZ", "--", "XC", "II", "MO", "--", "--", "--", "EO", "CI", "--", "--", [])])
  }

  function LodBaseText(): Passage {
    Passage([Opcode(0x02), Name("lod B+#imm")], [
      TextRow("IO", "XZ", "--", "XC", "II", "MO", "--", "--", "--", "EO", "XI", "--", "--", []),
      TextRow("BO", "--", "--", "--", "--", "MO", "EZ", "--", "--", "EO", "AI", "FI", "--", []),
      TextRow("IO", "XZ", "--", "XC", "II", "MO", "--", "--", "--", "EO", "CI", "--", "--", [])])
  }

  function StoPointerText(): Passage {
    Passage([Opcode(0x1C), Name("sto P+#imm")], [
      TextRow("IO", "XZ", "--", "XC", "II", "MO", "--", "--", "--", "EO", "XI", "--", "--", []),
      TextRow("PO", "--", "--", "--", "--", "AO", "--", "--", "--", "EO", "MI", "--", "--", []),
      TextRow("IO", "XZ", "--", "XC", "II", "MO", "--", "--", "--", "EO", "CI", "--", "--", [])])
  }

  function LeaBaseText(): Passage {
    Passage([Opcode(0x12), Name("lea B+#imm")], [
      TextRow("IO", "XZ", "--", "XC", "II", "MO", "--", "--", "--", "EO", "XI", "--", "--", []),
      TextRow("BO", "--", "--", "--", "PI", "ZO", "--", "--", "--", "EO", "--", "--", "--", []),
      TextRow("IO", "XZ", "--", "XC", "II", "MO", "--", "--", "--", "EO", "CI", "--", "--", [])])
  }

  function LeaPointerText(): Passage {
    Passage([Opcode(0x14), Name("lea P+#imm")], [
      TextRow("IO", "XZ", "--", "XC", "II", "MO", "--", "--", "--", "EO", "XI", "--", "--", []),
      TextRow("PO", "--", "--", "--", "PI", "ZO", "--", "--", "--", "EO", "--", "--", "--", []),
      TextRow("IO", "XZ", "--", "XC", "II", "MO", "--", "--", "--", "EO", "CI", "--", "--", [])])
  }

  function LeaText(): Passage {
    Passage([Opcode(0x11), Name("lea adr")], [
      TextRow("IO", "XZ", "--", "XC", "II", "MO", "--", "--", "--", "EO", "TL", "--", "--", []),
      TextRow("IO", "XZ", "--", "XC", "II", "MO", "--", "--", "--", "EO", "TH", "--", "--", []),
      TextRow("TO", "XZ", "--", "--", "PI", "ZO", "--", "--", "--", "EO", "--", "--", "--", []),
      TextRow("IO", "XZ", "--", "XC", "II", "MO", "--", "--", "--", "EO", "CI", "--", "--", [])])
  }

  function StoText(): Passage {
    Passage([Opcode(0x19), Name("sto adr")], [
      TextRow("IO", "XZ", "--", "XC", "II", "MO", "--", "--", "--", "EO", "TL", "--", "--", []),
      TextRow("IO", "XZ", "--", "XC", "II", "MO", "--", "--", "--", "EO", "TH", "--", "--", []),
      TextRow("TO", "XZ", "--", "--", "--", "AO", "--", "--", "--", "EO", "MI", "--", "--", []),
      TextRow("IO", "XZ", "--", "XC", "II", "MO", "--", "--", "--", "EO", "CI", "--", "--", [])])
  }

  function MovPBText(): Passage {
    Passage([Opcode(0x22), Name("mov P B")], [
      TextRow("PO", "XZ", "--", "--", "BI", "ZO", "--", "--", "--", "EO", "--", "--", "--", []),
      TextRow("IO", "XZ", "--", "XC", "II", "MO", "--", "--", "--", "EO", "CI", "--", "--", [])])
  }

  function MovPSText(): Passage {
    Passage([Opcode(0x23), Name("mov P S")], [
      TextRow("PO", "XZ", "--", "--", "SI", "ZO", "--", "--", "--", "EO", "--", "--", "--", []),
      TextRow("IO", "XZ", "--", "XC", "II", "MO", "--", "--", "--", "EO", "CI", "--", "--", [])])
  }

  function NopText(): Passage {
    Passage([Opcode(0x50), Name("nop")], [
      TextRow("IO", "XZ", "--", "XC", "II", "MO", "--", "--", "--", "EO", "CI", "--", "--", [])])
  }

  function AdcText(): Passage {
    Passage([Opcode(0x78), Name("adc #imm")], [
      TextRow("IO", "XZ", "--", "XC", "II", "MO", "--", "--", "--", "ES", "AI", "FI", "--", [FlagIs(FlagC, false)]),
      TextRow("IO", "XZ", "--", "XC", "II", "MO", "--", "--", "EC", "ES", "AI", "FI", "--",
              [Tilde, FlagIs(FlagC, true)]),
      TextRow("IO", "XZ", "--", "XC", "II", "MO", "--", "--", "--", "EO", "CI", "--", "--", [])])
  }

  function BrzText(): Passage {
    Passage([Opcode(0xE0), Name("brz I+#imm")], [
      TextRow("IO", "XZ", "--", "XC", "II", "MO", "--", "--", "--", "EO", "XI", "--", "--", []),
      TextRow("IO", "--", "--", "XC", "II", "MO", "--", "--", "--", "EO", "CI", "--", "--", []),
      TextRow("IO", "XZ", "--", "XC", "II", "MO", "--", "--", "--", "EO", "--", "--", "--",
              [Star, FlagIs(FlagZ, false)]),
      TextRow("IO", "XZ", "--", "XC", "II", "MO", "--", "--", "--", "EO", "CI", "--", "--", [FlagIs(FlagZ, false)])])
  }

  function BrgText(): Passage {
    Passage([Opcode(0xEC), Name("brg I+#imm")], [
      TextRow("IO", "XZ", "--", "XC", "II", "MO", "--", "--", "--", "EO", "XI", "--", "--", []),
      TextRow("IO", "--", "--", "XC", "II", "MO", "--", "--", "--", "EO", "CI", "--", "--", []),
      TextRow("IO", "XZ", "--", "XC", "II", "MO", "--", "--", "--", "EO", "--", "--", "--",
              [Star, FlagIs(FlagZ, true), FlagIs(FlagN, true)]),
      TextRow("IO", "XZ", "--", "XC", "II", "MO", "--", "--", "--", "EO", "CI", "--", "--",
              [FlagIs(FlagZ, true), FlagIs(FlagN, true)])])
  }

  function BngText(): Passage {
    Passage([Opcode(0xEE), Name("bng I+#imm")], [
      TextRow("IO", "XZ", "--", "XC", "II", "MO", "--", "--", "--", "EO", "--", "--", "--", []),
      TextRow("IO", "XZ", "--", "XC", "II", "MO", "--", "--", "--", "EO", "CI", "--", "--", []),
      TextRow("IO", "XZ", "--", "XC", "II", "MO", "--", "--", "--", "EO", "XI", "--", "--",
              [Star, FlagIs(FlagZ, true), FlagIs(FlagN, true)]),
      TextRow("IO", "--", "--", "XC", "II", "MO", "--", "--", "--", "EO", "CI", "--", "--",
              [FlagIs(FlagZ, true), FlagIs(FlagN, true)])])
  }

  function BraText(): Passage {
    Passage([Opcode(0xF1), Name("bra I-#imm")], [
      TextRow("IO", "XZ", "--", "XC", "--", "MO", "--", "--", "--", "EO", "XI", "--", "--", []),
      TextRow("IO", "--", "XN", "--", "II", "MO", "--", "--", "--", "EO", "CI", "--", "--", [])])
  }

  function JmpText(): Passage {
    Passage([Opcode(0xF4), Name("jmp adr")], [
      TextRow("IO", "XZ", "--", "XC", "II", "MO", "--", "--", "--", "EO", "TL", "--", "--", []),
      TextRow("IO", "XZ", "--", "XC", "II", "MO", "--", "--", "--", "EO", "TH", "--", "--", []),
      TextRow("TO", "XZ", "--", "--", "II", "MO", "--", "--", "--", "EO", "CI", "--", "--", [])])
  }

  function JsrText(): Passage {
    Passage([Opcode(0xF8), Name("jsr adr")], [
      TextRow("IO", "XZ", "--", "XC", "II", "MO", "--", "--", "--", "EO", "TL", "--", "--", []),
      TextRow("IO", "XZ", "--", "XC", "II", "MO", "--", "--", "--", "EO", "TH", "--", "--", []),
      TextRow("SO", "XZ", "XN", "--", "SI", "IH", "--", "--", "--", "EO", "MI", "--", "--", []),
      TextRow("SO", "XZ", "XN", "--", "SI", "IL", "--", "--", "--", "EO", "MI", "--", "--", []),
      TextRow("TO", "XZ", "--", "--", "II", "MO", "--", "--", "--", "EO", "CI", "--", "--", [])])
  }

  function RtsText(): Passage {
    Passage([Opcode(0xFA), Name("rts")], [
      TextRow("SO", "XZ", "--", "--", "--", "MO", "--", "--", "--", "EO", "TL", "--", "--", []),
      TextRow("SO", "XZ", "--", "XC", "SI", "MO", "--", "--", "--", "EO", "TH", "--", "--", []),
      TextRow("SO", "XZ", "--", "XC", "SI", "ZO", "--", "--", "--", "EO", "--", "--", "--", []),
      TextRow("TO", "XZ", "--", "XC", "II", "MO", "--", "--", "--", "EO", "CI", "--", "--", [])])
  }

  function RtiText(): Passage {
    Passage([Opcode(0xFE), Name("rti")], [
      TextRow("SO", "XZ", "--", "--", "--", "MO", "--", "--", "--", "EO", "--", "FI", "FD", []),
      TextRow("SO", "XZ", "--", "XC", "SI", "MO", "--", "--", "--", "EO", "AI", "--", "--", []),
      TextRow("SO", "XZ", "--", "XC", "SI", "MO", "--", "--", "--", "EO", "TL", "--", "--", []),
      TextRow("SO", "XZ", "--", "XC", "SI", "MO", "--", "--", "--", "EO", "TH", "--", "--", []),
      TextRow("SO", "XZ", "--", "XC", "SI", "MO", "--", "--", "--", "EO", "KI", "--", "--", []),
      TextRow("SO", "XZ", "--", "XC", "SI", "ZO", "--", "--", "--", "EO", "--", "--", "--", []),
      TextRow("TO", "XZ", "--", "XC", "II", "MO", "--", "--", "--", "EO", "CI", "--", "--", [])])
  }

  function BrkText(): Passage {
    Passage([Opcode(0xFF), Name("brk")], [
      TextRow("SO", "XZ", "XN", "--", "SI", "KO", "--", "--", "--", "EO", "MI", "--", "--", []),
      TextRow("SO", "XZ", "XN", "--", "SI", "IH", "--", "--", "--", "EO", "MI", "--", "--", []),
      TextRow("SO", "XZ", "XN", "--", "SI", "IL", "--", "--", "--", "EO", "MI", "--", "--", []),
      TextRow("SO", "XZ", "XN", "--", "SI", "AO", "--", "--", "--", "EO", "MI", "--", "--", []),
      TextRow("SO", "XZ", "XN", "--", "SI", "FO", "--", "--", "--", "EO", "MI", "--", "--", []),
      TextRow("TO", "XZ", "--", "--", "--", "HO", "--", "--", "--", "EO", "TL", "--", "--", []),
      TextRow("TO", "XZ", "--", "--", "--", "HO", "--", "--", "--", "EO", "TH", "--", "--", []),
      TextRow("TO", "XZ", "XN", "--", "II", "ZO", "--", "--", "--", "EO", "KI", "--", "--", []),
      TextRow("IO", "XZ", "XN", "--", "II", "MO", "--", "--", "--", "EO", "TH", "--", "--", []),
      TextRow("IO", "XZ", "XN", "--", "--", "MO", "--", "--", "--", "EO", "TL", "--", "--", []),
      TextRow("TO", "XZ", "--", "--", "II", "MO", "--", "--", "--", "EO", "CI", "--", "--", [])])
  }

  function InterruptSequenceText(): Passage {
    Passage([Name("interrupt")], [
      TextRow("SO", "XZ", "XN", "--", "SI", "KO", "--", "--", "--", "EO", "MI", "--", "--", [FlagIs(FlagI, true)]),
      TextRow("SO", "XZ", "XN", "--", "SI", "IH", "--", "--", "--", "EO", "MI", "--", "--", [FlagIs(FlagI, true)]),
      TextRow("SO", "XZ", "XN", "--", "SI", "IL", "--", "--", "--", "EO", "MI", "--", "--", [FlagIs(FlagI, true)]),
      TextRow("SO", "XZ", "XN", "--", "SI", "AO", "--", "--", "--", "EO", "MI", "--", "--", [FlagIs(FlagI, true)]),
      TextRow("SO", "XZ", "XN", "--", "SI", "FO", "--", "--", "--", "EO", "MI", "--", "--", [FlagIs(FlagI, true)]),
      TextRow("TO", "XZ", "--", "--", "--", "ZO", "--", "--", "--", "EO", "KI", "--", "--", [FlagIs(FlagI, true)]),
      TextRow("TO", "XZ", "--", "--", "--", "ZO", "--", "--", "--", "EO", "--", "FI", "FD", [FlagIs(FlagI, true)]),
      TextRow("TO", "XZ", "--", "--", "--", "HO", "--", "--", "--", "EO", "TL", "--", "--", [FlagIs(FlagI, true)]),
      TextRow("TO", "XZ", "--", "--", "--", "HO", "--", "--", "--", "EO", "TH", "--", "--", [FlagIs(FlagI, true)]),
      TextRow("IO", "XZ", "--", "--", "II", "MO", "--", "--", "--", "EO", "TH", "--", "--", [FlagIs(FlagI, true)]),
      TextRow("IO", "XZ", "XN", "--", "--", "MO", "--", "--", "--", "EO", "TL", "--", "--", [FlagIs(FlagI, true)]),
      TextRow("TO", "XZ", "--", "--", "II", "MO", "--", "--", "--", "EO", "CI", "--", "--", [FlagIs(FlagI, true)])])
  }

  function ResetSequenceText(): Passage {
    Passage([Name("reset")], [
      TextRow("TO", "XZ", "--", "--", "--", "HO", "--", "--", "--", "EO", "TL", "--", "--", []),
      TextRow("TO", "XZ", "--", "--", "--", "HO", "--", "--", "--", "EO", "TH", "--", "--", []),
      TextRow("TO", "XZ", "XN", "--", "PI", "ZO", "EZ", "--", "--", "EO", "AI", "--", "--", []),
      TextRow("PO", "XZ", "XN", "--", "PI", "ZO", "--", "--", "--", "EO", "XI", "FI", "FD", []),
      TextRow("PO", "XZ", "XN", "--", "PI", "ZO", "--", "--", "--", "EO", "KI", "FI", "--", []),
      TextRow("PO", "XZ", "XN", "--", "PI", "MO", "--", "--", "--", "EO", "TH", "--", "--", []),
      TextRow("PO", "XZ", "XN", "--", "--", "MO", "--", "--", "--", "EO", "TL", "--", "--", []),
      TextRow("TO", "XZ", "--", "--", "II", "ZO", "--", "--", "--", "EO", "TL", "--", "--", []),
      TextRow("TO", "XZ", "--", "--", "--", "ZO", "--", "--", "--", "EO", "TH", "--", "--", []),
      TextRow("TO", "XZ", "--", "--", "PI", "ZO", "--", "--", "--", "EO", "--", "--", "--", []),
      TextRow("TO", "XZ", "--", "--", "BI", "ZO", "--", "--", "--", "EO", "--", "--", "--", []),
      TextRow("TO", "XZ", "--", "--", "SI", "ZO", "--", "--", "--", "EO", "--", "--", "--", []),
      TextRow("IO", "XZ", "--", "--", "--", "MO", "--", "--", "--", "EO", "CI", "--", "--", [])])
  }

  /** The whole file, in its order. */
  function SourceText(): seq<Passage> {
    [LodText(), LodBaseText(), StoPointerText(), LeaBaseText(), LeaPointerText(), LeaText(), StoText(), MovPBText(),
     MovPSText(), NopText(), AdcText(), BrzText(), BrgText(), BngText(), BraText(), JmpText(), JsrText(), RtsText(),
     RtiText(), BrkText(), InterruptSequenceText(), ResetSequenceText()]
  }

  // ---- What the text says ----

  lemma WordStep(ts: seq<Token>, k: nat, c: Control, w: Control) returns (v: Control)
    requires |ts| == 13 && k < 13 && ts[k].Symbol? && FindEntry(Column(k), ts[k]) == Some(c)
    requires WordOf(ts[k + 1..], k + 1) == Some(w)
    ensures v == Or(c, w) && WordOf(ts[k..], k) == Some(v)
  {
    hide Column, FindEntry, Or;
    v := Or(c, w);
    assert ts[k..][0] == ts[k] && ts[k..][1..] == ts[k + 1..];
  }

  lemma WordEnds(ts: seq<Token>)
    ensures WordOf(ts, 13) == Some(0)
  {
  }

  /** The last six columns of a row. */
  function RowEnd(row: TextRow): Control
    requires BitsOf(7, row.s7).Some? && BitsOf(8, row.s8).Some? && BitsOf(9, row.s9).Some? && BitsOf(10, row.s10).Some?
    requires BitsOf(11, row.s11).Some? && BitsOf(12, row.s12).Some?
  {
    Or(BitsOf(7, row.s7).value, Or(BitsOf(8, row.s8).value, Or(BitsOf(9, row.s9).value, Or(BitsOf(10, row.s10).value,
       Or(BitsOf(11, row.s11).value, Or(BitsOf(12, row.s12).value, 0))))))
  }

  lemma RowEnds(row: TextRow)
    requires BitsOf(7, row.s7).Some? && BitsOf(8, row.s8).Some? && BitsOf(9, row.s9).Some? && BitsOf(10, row.s10).Some?
    requires BitsOf(11, row.s11).Some? && BitsOf(12, row.s12).Some?
    ensures WordOf(SymbolTokens(row)[7..], 7) == Some(RowEnd(row))
  {
    hide WordOf, Or, FindEntry, Column, Written;
    var ts := SymbolTokens(row);
    WordEnds(ts[13..]);
    var w := WordStep(ts, 12, BitsOf(12, row.s12).value, 0);
    w := WordStep(ts, 11, BitsOf(11, row.s11).value, w);
    w := WordStep(ts, 10, BitsOf(10, row.s10).value, w);
    w := WordStep(ts, 9, BitsOf(9, row.s9).value, w);
    w := WordStep(ts, 8, BitsOf(8, row.s8).value, w);
    w := WordStep(ts, 7, BitsOf(7, row.s7).value, w);
  }

  /** A row with a symbol for each column is read as the bits of its symbols together. */
  lemma RowWord(row: TextRow)
    requires BitsOf(0, row.s0).Some? && BitsOf(1, row.s1).Some? && BitsOf(2, row.s2).Some? && BitsOf(3, row.s3).Some?
    requires BitsOf(4, row.s4).Some? && BitsOf(5, row.s5).Some? && BitsOf(6, row.s6).Some? && BitsOf(7, row.s7).Some?
    requires BitsOf(8, row.s8).Some? && BitsOf(9, row.s9).Some? && BitsOf(10, row.s10).Some?
    requires BitsOf(11, row.s11).Some? && BitsOf(12, row.s12).Some?
    ensures WordOf(SymbolTokens(row), 0) ==
            Some(Or(BitsOf(0, row.s0).value, Or(BitsOf(1, row.s1).value, Or(BitsOf(2, row.s2).value,
                 Or(BitsOf(3, row.s3).value, Or(BitsOf(4, row.s4).value, Or(BitsOf(5, row.s5).value,
                 Or(BitsOf(6, row.s6).value, RowEnd(row)))))))))
  {
    hide WordOf, Or, FindEntry, Column, Written, RowEnd;
    RowEnds(row);
    var ts := SymbolTokens(row);
    var w := WordStep(ts, 6, BitsOf(6, row.s6).value, RowEnd(row));
    w := WordStep(ts, 5, BitsOf(5, row.s5).value, w);
    w := WordStep(ts, 4, BitsOf(4, row.s4).value, w);
    w := WordStep(ts, 3, BitsOf(3, row.s3).value, w);
    w := WordStep(ts, 2, BitsOf(2, row.s2).value, w);
    w := WordStep(ts, 1, BitsOf(1, row.s1).value, w);
    w := WordStep(ts, 0, BitsOf(0, row.s0).value, w);
    assert ts[0..] == ts;
  }

  /** The row says what the line says. */
  predicate RowSays(row: TextRow, line: Line) {
    WordOf(SymbolTokens(row), 0) == Some(line.control) && row.mods == line.mods && AllMods(line.mods)
  }

  predicate Says(passage: Passage, b: Block) {
    passage.heading == Header(b) && |passage.rows| == |b.lines| > 0 &&
    forall i :: 0 <= i < |b.lines| ==> RowSays(passage.rows[i], b.lines[i])
  }

  lemma LodSays()
    ensures Says(LodText(), Lod())
  {
    hide BitsOf, WordOf, SymbolTokens;
    SymbolBits();
    var rows := LodText().rows;
    RowWord(rows[0]);
    RowWord(rows[1]);
  }

  lemma LodBaseSays()
    ensures Says(LodBaseText(), LodBase())
  {
    hide BitsOf, WordOf, SymbolTokens;
    SymbolBits();
    var rows := LodBaseText().rows;
    RowWord(rows[0]);
    RowWord(rows[1]);
    RowWord(rows[2]);
  }

  lemma StoPointerSays()
    ensures Says(StoPointerText(), StoPointer())
  {
    hide BitsOf, WordOf, SymbolTokens;
    SymbolBits();
    var rows := StoPointerText().rows;
    RowWord(rows[0]);
    RowWord(rows[1]);
    RowWord(rows[2]);
  }

  lemma LeaBaseSays()
    ensures Says(LeaBaseText(), LeaBase())
  {
    hide BitsOf, WordOf, SymbolTokens;
    SymbolBits();
    var rows := LeaBaseText().rows;
    RowWord(rows[0]);
    RowWord(rows[1]);
    RowWord(rows[2]);
  }

  lemma LeaPointerSays()
    ensures Says(LeaPointerText(), LeaPointer())
  {
    hide BitsOf, WordOf, SymbolTokens;
    SymbolBits();
    var rows := LeaPointerText().rows;
    RowWord(rows[0]);
    RowWord(rows[1]);
    RowWord(rows[2]);
  }

  lemma LeaSays()
    ensures Says(LeaText(), Lea())
  {
    hide BitsOf, WordOf, SymbolTokens;
    SymbolBits();
    var rows := LeaText().rows;
    RowWord(rows[0]);
    RowWord(rows[1]);
    RowWord(rows[2]);
    RowWord(rows[3]);
  }

  lemma StoSays()
    ensures Says(StoText(), Sto())
  {
    hide BitsOf, WordOf, SymbolTokens;
    SymbolBits();
    var rows := StoText().rows;
    RowWord(rows[0]);
    RowWord(rows[1]);
    RowWord(rows[2]);
    RowWord(rows[3]);
  }

  lemma MovPBSays()
    ensures Says(MovPBText(), MovPB())
  {
    hide BitsOf, WordOf, SymbolTokens;
    SymbolBits();
    var rows := MovPBText().rows;
    RowWord(rows[0]);
    RowWord(rows[1]);
  }

  lemma MovPSSays()
    ensures Says(MovPSText(), MovPS())
  {
    hide BitsOf, WordOf, SymbolTokens;
    SymbolBits();
    var rows := MovPSText().rows;
    RowWord(rows[0]);
    RowWord(rows[1]);
  }

  lemma NopSays()
    ensures Says(NopText(), Nop())
  {
    hide BitsOf, WordOf, SymbolTokens;
    SymbolBits();
    var rows := NopText().rows;
    RowWord(rows[0]);
  }

  lemma AdcSays()
    ensures Says(AdcText(), Adc())
  {
    hide BitsOf, WordOf, SymbolTokens;
    SymbolBits();
    var rows := AdcText().rows;
    RowWord(rows[0]);
    RowWord(rows[1]);
    RowWord(rows[2]);
  }

  lemma BrzSays()
    ensures Says(BrzText(), Brz())
  {
    hide BitsOf, WordOf, SymbolTokens;
    SymbolBits();
    var rows := BrzText().rows;
    RowWord(rows[0]);
    RowWord(rows[1]);
    RowWord(rows[2]);
    RowWord(rows[3]);
  }

  lemma BrgSays()
    ensures Says(BrgText(), Brg())
  {
    hide BitsOf, WordOf, SymbolTokens;
    SymbolBits();
    var rows := BrgText().rows;
    RowWord(rows[0]);
    RowWord(rows[1]);
    RowWord(rows[2]);
    RowWord(rows[3]);
  }

  lemma BngSays()
    ensures Says(BngText(), Bng())
  {
    hide BitsOf, WordOf, SymbolTokens;
    SymbolBits();
    var rows := BngText().rows;
    RowWord(rows[0]);
    RowWord(rows[1]);
    RowWord(rows[2]);
    RowWord(rows[3]);
  }

  lemma BraSays()
    ensures Says(BraText(), Bra())
  {
    hide BitsOf, WordOf, SymbolTokens;
    SymbolBits();
    var rows := BraText().rows;
    RowWord(rows[0]);
    RowWord(rows[1]);
  }

  lemma JmpSays()
    ensures Says(JmpText(), Jmp())
  {
    hide BitsOf, WordOf, SymbolTokens;
    SymbolBits();
    var rows := JmpText().rows;
    RowWord(rows[0]);
    RowWord(rows[1]);
    RowWord(rows[2]);
  }

  lemma JsrSays()
    ensures Says(JsrText(), Jsr())
  {
    hide BitsOf, WordOf, SymbolTokens;
    SymbolBits();
    var rows := JsrText().rows;
    RowWord(rows[0]);
    RowWord(rows[1]);
    RowWord(rows[2]);
    RowWord(rows[3]);
    RowWord(rows[4]);
  }

  lemma RtsSays()
    ensures Says(RtsText(), Rts())
  {
    hide BitsOf, WordOf, SymbolTokens;
    SymbolBits();
    var rows := RtsText().rows;
    RowWord(rows[0]);
    RowWord(rows[1]);
    RowWord(rows[2]);
    RowWord(rows[3]);
  }

  lemma RtiSays()
    ensures Says(RtiText(), Rti())
  {
    hide BitsOf, WordOf, SymbolTokens;
    SymbolBits();
    var rows := RtiText().rows;
    RowWord(rows[0]);
    RowWord(rows[1]);
    RowWord(rows[2]);
    RowWord(rows[3]);
    RowWord(rows[4]);
    RowWord(rows[5]);
    RowWord(rows[6]);
  }

  lemma BrkRows1()
    ensures |BrkText().rows| == 11 && |Brk().lines| == 11
    ensures RowSays(BrkText().rows[0], Brk().lines[0])
    ensures RowSays(BrkText().rows[1], Brk().lines[1])
    ensures RowSays(BrkText().rows[2], Brk().lines[2])
    ensures RowSays(BrkText().rows[3], Brk().lines[3])
    ensures RowSays(BrkText().rows[4], Brk().lines[4])
    ensures RowSays(BrkText().rows[5], Brk().lines[5])
    ensures RowSays(BrkText().rows[6], Brk().lines[6])
  {
    hide BitsOf, WordOf, SymbolTokens;
    SymbolBits();
    var rows := BrkText().rows;
    RowWord(rows[0]);
    RowWord(rows[1]);
    RowWord(rows[2]);
    RowWord(rows[3]);
    RowWord(rows[4]);
    RowWord(rows[5]);
    RowWord(rows[6]);
  }

  lemma BrkRows2()
    ensures |BrkText().rows| == 11 && |Brk().lines| == 11
    ensures RowSays(BrkText().rows[7], Brk().lines[7])
    ensures RowSays(BrkText().rows[8], Brk().lines[8])
    ensures RowSays(BrkText().rows[9], Brk().lines[9])
    ensures RowSays(BrkText().rows[10], Brk().lines[10])
  {
    hide BitsOf, WordOf, SymbolTokens;
    SymbolBits();
    var rows := BrkText().rows;
    RowWord(rows[7]);
    RowWord(rows[8]);
    RowWord(rows[9]);
    RowWord(rows[10]);
  }

  lemma BrkHeading()
    ensures BrkText().heading == Header(Brk())
  {
  }

  lemma BrkSays()
    ensures Says(BrkText(), Brk())
  {
    hide RowSays, BrkText, Brk;
    BrkHeading();
    BrkRows1();
    BrkRows2();
  }

  lemma InterruptSequenceRows1()
    ensures |InterruptSequenceText().rows| == 12 && |InterruptSequence().lines| == 12
    ensures RowSays(InterruptSequenceText().rows[0], InterruptSequence().lines[0])
    ensures RowSays(InterruptSequenceText().rows[1], InterruptSequence().lines[1])
    ensures RowSays(InterruptSequenceText().rows[2], InterruptSequence().lines[2])
    ensures RowSays(InterruptSequenceText().rows[3], InterruptSequence().lines[3])
    ensures RowSays(InterruptSequenceText().rows[4], InterruptSequence().lines[4])
    ensures RowSays(InterruptSequenceText().rows[5], InterruptSequence().lines[5])
    ensures RowSays(InterruptSequenceText().rows[6], InterruptSequence().lines[6])
  {
    hide BitsOf, WordOf, SymbolTokens;
    SymbolBits();
    var rows := InterruptSequenceText().rows;
    RowWord(rows[0]);
    RowWord(rows[1]);
    RowWord(rows[2]);
    RowWord(rows[3]);
    RowWord(rows[4]);
    RowWord(rows[5]);
    RowWord(rows[6]);
  }

  lemma InterruptSequenceRows2()
    ensures |InterruptSequenceText().rows| == 12 && |InterruptSequence().lines| == 12
    ensures RowSays(InterruptSequenceText().rows[7], InterruptSequence().lines[7])
    ensures RowSays(InterruptSequenceText().rows[8], InterruptSequence().lines[8])
    ensures RowSays(InterruptSequenceText().rows[9], InterruptSequence().lines[9])
    ensures RowSays(InterruptSequenceText().rows[10], InterruptSequence().lines[10])
    ensures RowSays(InterruptSequenceText().rows[11], InterruptSequence().lines[11])
  {
    hide BitsOf, WordOf, SymbolTokens;
    SymbolBits();
    var rows := InterruptSequenceText().rows;
    RowWord(rows[7]);
    RowWord(rows[8]);
    RowWord(rows[9]);
    RowWord(rows[10]);
    RowWord(rows[11]);
  }

  lemma InterruptSequenceHeading()
    ensures InterruptSequenceText().heading == Header(InterruptSequence())
  {
  }

  lemma InterruptSequenceSays()
    ensures Says(InterruptSequenceText(), InterruptSequence())
  {
    hide RowSays, InterruptSequenceText, InterruptSequence;
    InterruptSequenceHeading();
    InterruptSequenceRows1();
    InterruptSequenceRows2();
  }

  lemma ResetSequenceRows1()
    ensures |ResetSequenceText().rows| == 13 && |ResetSequence().lines| == 13
    ensures RowSays(ResetSequenceText().rows[0], ResetSequence().lines[0])
    ensures RowSays(ResetSequenceText().rows[1], ResetSequence().lines[1])
    ensures RowSays(ResetSequenceText().rows[2], ResetSequence().lines[2])
    ensures RowSays(ResetSequenceText().rows[3], ResetSequence().lines[3])
    ensures RowSays(ResetSequenceText().rows[4], ResetSequence().lines[4])
    ensures RowSays(ResetSequenceText().rows[5], ResetSequence().lines[5])
    ensures RowSays(ResetSequenceText().rows[6], ResetSequence().lines[6])
  {
    hide BitsOf, WordOf, SymbolTokens;
    SymbolBits();
    var rows := ResetSequenceText().rows;
    RowWord(rows[0]);
    RowWord(rows[1]);
    RowWord(rows[2]);
    RowWord(rows[3]);
    RowWord(rows[4]);
    RowWord(rows[5]);
    RowWord(rows[6]);
  }

  lemma ResetSequenceRows2()
    ensures |ResetSequenceText().rows| == 13 && |ResetSequence().lines| == 13
    ensures RowSays(ResetSequenceText().rows[7], ResetSequence().lines[7])
    ensures RowSays(ResetSequenceText().rows[8], ResetSequence().lines[8])
    ensures RowSays(ResetSequenceText().rows[9], ResetSequence().lines[9])
    ensures RowSays(ResetSequenceText().rows[10], ResetSequence().lines[10])
    ensures RowSays(ResetSequenceText().rows[11], ResetSequence().lines[11])
    ensures RowSays(ResetSequenceText().rows[12], ResetSequence().lines[12])
  {
    hide BitsOf, WordOf, SymbolTokens;
    SymbolBits();
    var rows := ResetSequenceText().rows;
    RowWord(rows[7]);
    RowWord(rows[8]);
    RowWord(rows[9]);
    RowWord(rows[10]);
    RowWord(rows[11]);
    RowWord(rows[12]);
  }

  lemma ResetSequenceHeading()
    ensures ResetSequenceText().heading == Header(ResetSequence())
  {
  }

  lemma ResetSequenceSays()
    ensures Says(ResetSequenceText(), ResetSequence())
  {
    hide RowSays, ResetSequenceText, ResetSequence;
    ResetSequenceHeading();
    ResetSequenceRows1();
    ResetSequenceRows2();
  }

  // ---- The whole text ----

  /** The words were read from these symbols, so these are how they are written. */
  lemma RowRendered(row: TextRow, line: Line)
    requires RowSays(row, line)
    ensures Expressible(line.control) && AllMods(line.mods) && Symbols(line.control, 0) == SymbolTokens(row)
  {
    hide WordOf, Symbols, Expressible, AllMods, SymbolTokens;
    ProgramText.WordHasSymbols(SymbolTokens(row));
    assert SymbolTokens(row)[..13] == SymbolTokens(row);
  }

  lemma {:induction false} RowsRendered(rows: seq<TextRow>, lines: seq<Line>)
    requires |rows| == |lines| && forall i :: 0 <= i < |lines| ==> RowSays(rows[i], lines[i])
    ensures GoodLines(lines) && RenderLines(lines) == RowTokens(rows)
  {
    hide RowSays, Expressible, Symbols, AllMods, SymbolTokens;
    if lines != [] {
      RowRendered(rows[0], lines[0]);
      assert rows[0].mods == lines[0].mods by { SameMods(rows[0], lines[0]); }
      RowsRendered(rows[1..], lines[1..]);
      assert lines == [lines[0]] + lines[1..];
    }
  }

  lemma SameMods(row: TextRow, line: Line)
    requires RowSays(row, line)
    ensures row.mods == line.mods
  {
  }

  lemma {:induction false} TextRendered(text: seq<Passage>, p: seq<Block>)
    requires |text| == |p| && forall i :: 0 <= i < |p| ==> Says(text[i], p[i])
    ensures GoodProgram(p) && Render(p) == Tokens(text)
  {
    hide RowSays, GoodLines, RenderLines, RowTokens, Header;
    if p != [] {
      RowsRendered(text[0].rows, p[0].lines);
      TextRendered(text[1..], p[1..]);
      assert p == [p[0]] + p[1..];
    }
  }

  /** The file as the compiler reads it. */
  function SourceTokens(): seq<Token> {
    Tokens(SourceText())
  }

  /** The text is a well-formed program, with the control words of `Source`. */
  lemma SourceSays()
    ensures GoodProgram(Source()) && Render(Source()) == SourceTokens()
  {
    hide GoodProgram, Render, Tokens, Says;
    hide LodText, LodBaseText, StoPointerText, LeaBaseText, LeaPointerText, LeaText, StoText, MovPBText, MovPSText,
         NopText, AdcText, BrzText, BrgText, BngText, BraText, JmpText, JsrText, RtsText, RtiText, BrkText,
         InterruptSequenceText, ResetSequenceText;
    hide Lod, LodBase, StoPointer, LeaBase, LeaPointer, Lea, Sto, MovPB, MovPS, Nop, Adc, Brz, Brg, Bng, Bra, Jmp,
         Jsr, Rts, Rti, Brk, InterruptSequence, ResetSequence;
    LodSays();
    LodBaseSays();
    StoPointerSays();
    LeaBaseSays();
    LeaPointerSays();
    LeaSays();
    StoSays();
    MovPBSays();
    MovPSSays();
    NopSays();
    AdcSays();
    BrzSays();
    BrgSays();
    BngSays();
    BraSays();
    JmpSays();
    JsrSays();
    RtsSays();
    RtiSays();
    BrkSays();
    InterruptSequenceSays();
    ResetSequenceSays();
    TextRendered(SourceText(), Source());
  }

  /** It has no errors, and compiles to the rules of its lines. */
  lemma SourceCompiles()
    ensures RulesOf(SourceTokens()) == Some(Rules(Source()))
  {
    hide Source, SourceTokens;
    SourceSays();
    TextHasRules(Source());
  }
}
