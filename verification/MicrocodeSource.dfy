/** The microcode of the machine as control words, line by line as in `microcode.src`. A dash in the columns for the
    pointer load and the register load stands for NA and ND; elsewhere it sets no bit. That these are the words of the
    file's symbols is shown in `MicrocodeText`. */
module MicrocodeSource {
  import opened ControlBits
  import opened Microcode
  import opened Program

  function Lod(): Block {
    Block(OnOpcode(0x00), "lod #imm", [
      Line(CTRL_IO | CTRL_XZ | CTRL_XC | CTRL_II | CTRL_MO | CTRL_EZ | CTRL_EO | CTRL_AI | CTRL_FI, []),
      Line(CTRL_IO | CTRL_XZ | CTRL_XC | CTRL_II | CTRL_MO | CTRL_EO | CTRL_CI, [])])
  }

  function LodBase(): Block {
    Block(OnOpcode(0x02), "lod B+#imm", [
      Line(CTRL_IO | CTRL_XZ | CTRL_XC | CTRL_II | CTRL_MO | CTRL_EO | CTRL_XI, []),
      Line(CTRL_BO | CTRL_NA | CTRL_MO | CTRL_EZ | CTRL_EO | CTRL_AI | CTRL_FI, []),
      Line(CTRL_IO | CTRL_XZ | CTRL_XC | CTRL_II | CTRL_MO | CTRL_EO | CTRL_CI, [])])
  }

  function StoPointer(): Block {
    Block(OnOpcode(0x1C), "sto P+#imm", [
      Line(CTRL_IO | CTRL_XZ | CTRL_XC | CTRL_II | CTRL_MO | CTRL_EO | CTRL_XI, []),
      Line(CTRL_PO | CTRL_NA | CTRL_AO | CTRL_EO | CTRL_MI, []),
      Line(CTRL_IO | CTRL_XZ | CTRL_XC | CTRL_II | CTRL_MO | CTRL_EO | CTRL_CI, [])])
  }

  function LeaBase(): Block {
    Block(OnOpcode(0x12), "lea B+#imm", [
      Line(CTRL_IO | CTRL_XZ | CTRL_XC | CTRL_II | CTRL_MO | CTRL_EO | CTRL_XI, []),
      Line(CTRL_BO | CTRL_PI | CTRL_ZO | CTRL_EO | CTRL_ND, []),
      Line(CTRL_IO | CTRL_XZ | CTRL_XC | CTRL_II | CTRL_MO | CTRL_EO | CTRL_CI, [])])
  }

  function LeaPointer(): Block {
    Block(OnOpcode(0x14), "lea P+#imm", [
      Line(CTRL_IO | CTRL_XZ | CTRL_XC | CTRL_II | CTRL_MO | CTRL_EO | CTRL_XI, []),
      Line(CTRL_PO | CTRL_PI | CTRL_ZO | CTRL_EO | CTRL_ND, []),
      Line(CTRL_IO | CTRL_XZ | CTRL_XC | CTRL_II | CTRL_MO | CTRL_EO | CTRL_CI, [])])
  }

  function Lea(): Block {
    Block(OnOpcode(0x11), "lea adr", [
      Line(CTRL_IO | CTRL_XZ | CTRL_XC | CTRL_II | CTRL_MO | CTRL_EO | CTRL_TL, []),
      Line(CTRL_IO | CTRL_XZ | CTRL_XC | CTRL_II | CTRL_MO | CTRL_EO | CTRL_TH, []),
      Line(CTRL_TO | CTRL_XZ | CTRL_PI | CTRL_ZO | CTRL_EO | CTRL_ND, []),
      Line(CTRL_IO | CTRL_XZ | CTRL_XC | CTRL_II | CTRL_MO | CTRL_EO | CTRL_CI, [])])
  }

  function Sto(): Block {
    Block(OnOpcode(0x19), "sto adr", [
      Line(CTRL_IO | CTRL_XZ | CTRL_XC | CTRL_II | CTRL_MO | CTRL_EO | CTRL_TL, []),
      Line(CTRL_IO | CTRL_XZ | CTRL_XC | CTRL_II | CTRL_MO | CTRL_EO | CTRL_TH, []),
      Line(CTRL_TO | CTRL_XZ | CTRL_NA | CTRL_AO | CTRL_EO | CTRL_MI, []),
      Line(CTRL_IO | CTRL_XZ | CTRL_XC | CTRL_II | CTRL_MO | CTRL_EO | CTRL_CI, [])])
  }

  function MovPB(): Block {
    Block(OnOpcode(0x22), "mov P B", [
      Line(CTRL_PO | CTRL_XZ | CTRL_BI | CTRL_ZO | CTRL_EO | CTRL_ND, []),
      Line(CTRL_IO | CTRL_XZ | CTRL_XC | CTRL_II | CTRL_MO | CTRL_EO | CTRL_CI, [])])
  }

  function MovPS(): Block {
    Block(OnOpcode(0x23), "mov P S", [
      Line(CTRL_PO | CTRL_XZ | CTRL_SI | CTRL_ZO | CTRL_EO | CTRL_ND, []),
      Line(CTRL_IO | CTRL_XZ | CTRL_XC | CTRL_II | CTRL_MO | CTRL_EO | CTRL_CI, [])])
  }

  function Nop(): Block {
    Block(OnOpcode(0x50), "nop", [
      Line(CTRL_IO | CTRL_XZ | CTRL_XC | CTRL_II | CTRL_MO | CTRL_EO | CTRL_CI, [])])
  }

  function Adc(): Block {
    Block(OnOpcode(0x78), "adc #imm", [
      Line(CTRL_IO | CTRL_XZ | CTRL_XC | CTRL_II | CTRL_MO | CTRL_ES | CTRL_AI | CTRL_FI, [FlagIs(FlagC, false)]),
      Line(CTRL_IO | CTRL_XZ | CTRL_XC | CTRL_II | CTRL_MO | CTRL_EC | CTRL_ES | CTRL_AI | CTRL_FI,
           [Tilde, FlagIs(FlagC, true)]),
      Line(CTRL_IO | CTRL_XZ | CTRL_XC | CTRL_II | CTRL_MO | CTRL_EO | CTRL_CI, [])])
  }

  function Brz(): Block {
    Block(OnOpcode(0xE0), "brz I+#imm", [
      Line(CTRL_IO | CTRL_XZ | CTRL_XC | CTRL_II | CTRL_MO | CTRL_EO | CTRL_XI, []),
      Line(CTRL_IO | CTRL_XC | CTRL_II | CTRL_MO | CTRL_EO | CTRL_CI, []),
      Line(CTRL_IO | CTRL_XZ | CTRL_XC | CTRL_II | CTRL_MO | CTRL_EO | CTRL_ND, [Star, FlagIs(FlagZ, false)]),
      Line(CTRL_IO | CTRL_XZ | CTRL_XC | CTRL_II | CTRL_MO | CTRL_EO | CTRL_CI, [FlagIs(FlagZ, false)])])
  }

  function Brg(): Block {
    Block(OnOpcode(0xEC), "brg I+#imm", [
      Line(CTRL_IO | CTRL_XZ | CTRL_XC | CTRL_II | CTRL_MO | CTRL_EO | CTRL_XI, []),
      Line(CTRL_IO | CTRL_XC | CTRL_II | CTRL_MO | CTRL_EO | CTRL_CI, []),
      Line(CTRL_IO | CTRL_XZ | CTRL_XC | CTRL_II | CTRL_MO | CTRL_EO | CTRL_ND,
           [Star, FlagIs(FlagZ, true), FlagIs(FlagN, true)]),
      Line(CTRL_IO | CTRL_XZ | CTRL_XC | CTRL_II | CTRL_MO | CTRL_EO | CTRL_CI,
           [FlagIs(FlagZ, true), FlagIs(FlagN, true)])])
  }

  function Bng(): Block {
    Block(OnOpcode(0xEE), "bng I+#imm", [
      Line(CTRL_IO | CTRL_XZ | CTRL_XC | CTRL_II | CTRL_MO | CTRL_EO | CTRL_ND, []),
      Line(CTRL_IO | CTRL_XZ | CTRL_XC | CTRL_II | CTRL_MO | CTRL_EO | CTRL_CI, []),
      Line(CTRL_IO | CTRL_XZ | CTRL_XC | CTRL_II | CTRL_MO | CTRL_EO | CTRL_XI,
           [Star, FlagIs(FlagZ, true), FlagIs(FlagN, true)]),
      Line(CTRL_IO | CTRL_XC | CTRL_II | CTRL_MO | CTRL_EO | CTRL_CI, [FlagIs(FlagZ, true), FlagIs(FlagN, true)])])
  }

  function Bra(): Block {
    Block(OnOpcode(0xF1), "bra I-#imm", [
      Line(CTRL_IO | CTRL_XZ | CTRL_XC | CTRL_NA | CTRL_MO | CTRL_EO | CTRL_XI, []),
      Line(CTRL_IO | CTRL_XN | CTRL_II | CTRL_MO | CTRL_EO | CTRL_CI, [])])
  }

  function Jmp(): Block {
    Block(OnOpcode(0xF4), "jmp adr", [
      Line(CTRL_IO | CTRL_XZ | CTRL_XC | CTRL_II | CTRL_MO | CTRL_EO | CTRL_TL, []),
      Line(CTRL_IO | CTRL_XZ | CTRL_XC | CTRL_II | CTRL_MO | CTRL_EO | CTRL_TH, []),
      Line(CTRL_TO | CTRL_XZ | CTRL_II | CTRL_MO | CTRL_EO | CTRL_CI, [])])
  }

  function Jsr(): Block {
    Block(OnOpcode(0xF8), "jsr adr", [
      Line(CTRL_IO | CTRL_XZ | CTRL_XC | CTRL_II | CTRL_MO | CTRL_EO | CTRL_TL, []),
      Line(CTRL_IO | CTRL_XZ | CTRL_XC | CTRL_II | CTRL_MO | CTRL_EO | CTRL_TH, []),
      Line(CTRL_SO | CTRL_XZ | CTRL_XN | CTRL_SI | CTRL_IH | CTRL_EO | CTRL_MI, []),
      Line(CTRL_SO | CTRL_XZ | CTRL_XN | CTRL_SI | CTRL_IL | CTRL_EO | CTRL_MI, []),
      Line(CTRL_TO | CTRL_XZ | CTRL_II | CTRL_MO | CTRL_EO | CTRL_CI, [])])
  }

  function Rts(): Block {
    Block(OnOpcode(0xFA), "rts", [
      Line(CTRL_SO | CTRL_XZ | CTRL_NA | CTRL_MO | CTRL_EO | CTRL_TL, []),
      Line(CTRL_SO | CTRL_XZ | CTRL_XC | CTRL_SI | CTRL_MO | CTRL_EO | CTRL_TH, []),
      Line(CTRL_SO | CTRL_XZ | CTRL_XC | CTRL_SI | CTRL_ZO | CTRL_EO | CTRL_ND, []),
      Line(CTRL_TO | CTRL_XZ | CTRL_XC | CTRL_II | CTRL_MO | CTRL_EO | CTRL_CI, [])])
  }

  function Rti(): Block {
    Block(OnOpcode(0xFE), "rti", [
      Line(CTRL_SO | CTRL_XZ | CTRL_NA | CTRL_MO | CTRL_EO | CTRL_ND | CTRL_FI | CTRL_FD, []),
      Line(CTRL_SO | CTRL_XZ | CTRL_XC | CTRL_SI | CTRL_MO | CTRL_EO | CTRL_AI, []),
      Line(CTRL_SO | CTRL_XZ | CTRL_XC | CTRL_SI | CTRL_MO | CTRL_EO | CTRL_TL, []),
      Line(CTRL_SO | CTRL_XZ | CTRL_XC | CTRL_SI | CTRL_MO | CTRL_EO | CTRL_TH, []),
      Line(CTRL_SO | CTRL_XZ | CTRL_XC | CTRL_SI | CTRL_MO | CTRL_EO | CTRL_KI, []),
      Line(CTRL_SO | CTRL_XZ | CTRL_XC | CTRL_SI | CTRL_ZO | CTRL_EO | CTRL_ND, []),
      Line(CTRL_TO | CTRL_XZ | CTRL_XC | CTRL_II | CTRL_MO | CTRL_EO | CTRL_CI, [])])
  }

  function Brk(): Block {
    Block(OnOpcode(0xFF), "brk", [
      Line(CTRL_SO | CTRL_XZ | CTRL_XN | CTRL_SI | CTRL_KO | CTRL_EO | CTRL_MI, []),
      Line(CTRL_SO | CTRL_XZ | CTRL_XN | CTRL_SI | CTRL_IH | CTRL_EO | CTRL_MI, []),
      Line(CTRL_SO | CTRL_XZ | CTRL_XN | CTRL_SI | CTRL_IL | CTRL_EO | CTRL_MI, []),
      Line(CTRL_SO | CTRL_XZ | CTRL_XN | CTRL_SI | CTRL_AO | CTRL_EO | CTRL_MI, []),
      Line(CTRL_SO | CTRL_XZ | CTRL_XN | CTRL_SI | CTRL_FO | CTRL_EO | CTRL_MI, []),
      Line(CTRL_TO | CTRL_XZ | CTRL_NA | CTRL_HO | CTRL_EO | CTRL_TL, []),
      Line(CTRL_TO | CTRL_XZ | CTRL_NA | CTRL_HO | CTRL_EO | CTRL_TH, []),
      Line(CTRL_TO | CTRL_XZ | CTRL_XN | CTRL_II | CTRL_ZO | CTRL_EO | CTRL_KI, []),
      Line(CTRL_IO | CTRL_XZ | CTRL_XN | CTRL_II | CTRL_MO | CTRL_EO | CTRL_TH, []),
      Line(CTRL_IO | CTRL_XZ | CTRL_XN | CTRL_NA | CTRL_MO | CTRL_EO | CTRL_TL, []),
      Line(CTRL_TO | CTRL_XZ | CTRL_II | CTRL_MO | CTRL_EO | CTRL_CI, [])])
  }

  function InterruptSequence(): Block {
    Block(OnInterrupt, "interrupt", [
      Line(CTRL_SO | CTRL_XZ | CTRL_XN | CTRL_SI | CTRL_KO | CTRL_EO | CTRL_MI, [FlagIs(FlagI, true)]),
      Line(CTRL_SO | CTRL_XZ | CTRL_XN | CTRL_SI | CTRL_IH | CTRL_EO | CTRL_MI, [FlagIs(FlagI, true)]),
      Line(CTRL_SO | CTRL_XZ | CTRL_XN | CTRL_SI | CTRL_IL | CTRL_EO | CTRL_MI, [FlagIs(FlagI, true)]),
      Line(CTRL_SO | CTRL_XZ | CTRL_XN | CTRL_SI | CTRL_AO | CTRL_EO | CTRL_MI, [FlagIs(FlagI, true)]),
      Line(CTRL_SO | CTRL_XZ | CTRL_XN | CTRL_SI | CTRL_FO | CTRL_EO | CTRL_MI, [FlagIs(FlagI, true)]),
      Line(CTRL_TO | CTRL_XZ | CTRL_NA | CTRL_ZO | CTRL_EO | CTRL_KI, [FlagIs(FlagI, true)]),
      Line(CTRL_TO | CTRL_XZ | CTRL_NA | CTRL_ZO | CTRL_EO | CTRL_ND | CTRL_FI | CTRL_FD, [FlagIs(FlagI, true)]),
      Line(CTRL_TO | CTRL_XZ | CTRL_NA | CTRL_HO | CTRL_EO | CTRL_TL, [FlagIs(FlagI, true)]),
      Line(CTRL_TO | CTRL_XZ | CTRL_NA | CTRL_HO | CTRL_EO | CTRL_TH, [FlagIs(FlagI, true)]),
      Line(CTRL_IO | CTRL_XZ | CTRL_II | CTRL_MO | CTRL_EO | CTRL_TH, [FlagIs(FlagI, true)]),
      Line(CTRL_IO | CTRL_XZ | CTRL_XN | CTRL_NA | CTRL_MO | CTRL_EO | CTRL_TL, [FlagIs(FlagI, true)]),
      Line(CTRL_TO | CTRL_XZ | CTRL_II | CTRL_MO | CTRL_EO | CTRL_CI, [FlagIs(FlagI, true)])])
  }

  function ResetSequence(): Block {
    Block(OnReset, "reset", [
      Line(CTRL_TO | CTRL_XZ | CTRL_NA | CTRL_HO | CTRL_EO | CTRL_TL, []),
      Line(CTRL_TO | CTRL_XZ | CTRL_NA | CTRL_HO | CTRL_EO | CTRL_TH, []),
      Line(CTRL_TO | CTRL_XZ | CTRL_XN | CTRL_PI | CTRL_ZO | CTRL_EZ | CTRL_EO | CTRL_AI, []),
      Line(CTRL_PO | CTRL_XZ | CTRL_XN | CTRL_PI | CTRL_ZO | CTRL_EO | CTRL_XI | CTRL_FI | CTRL_FD, []),
      Line(CTRL_PO | CTRL_XZ | CTRL_XN | CTRL_PI | CTRL_ZO | CTRL_EO | CTRL_KI | CTRL_FI, []),
      Line(CTRL_PO | CTRL_XZ | CTRL_XN | CTRL_PI | CTRL_MO | CTRL_EO | CTRL_TH, []),
      Line(CTRL_PO | CTRL_XZ | CTRL_XN | CTRL_NA | CTRL_MO | CTRL_EO | CTRL_TL, []),
      Line(CTRL_TO | CTRL_XZ | CTRL_II | CTRL_ZO | CTRL_EO | CTRL_TL, []),
      Line(CTRL_TO | CTRL_XZ | CTRL_NA | CTRL_ZO | CTRL_EO | CTRL_TH, []),
      Line(CTRL_TO | CTRL_XZ | CTRL_PI | CTRL_ZO | CTRL_EO | CTRL_ND, []),
      Line(CTRL_TO | CTRL_XZ | CTRL_BI | CTRL_ZO | CTRL_EO | CTRL_ND, []),
      Line(CTRL_TO | CTRL_XZ | CTRL_SI | CTRL_ZO | CTRL_EO | CTRL_ND, []),
      Line(CTRL_IO | CTRL_XZ | CTRL_NA | CTRL_MO | CTRL_EO | CTRL_CI, [])])
  }

  /** The whole file, in its order. */
  function Source(): seq<Block> {
    [Lod(), LodBase(), StoPointer(), LeaBase(), LeaPointer(), Lea(), Sto(), MovPB(), MovPS(), Nop(), Adc(),
     Brz(), Brg(), Bng(), Bra(), Jmp(), Jsr(), Rts(), Rti(), Brk(), InterruptSequence(), ResetSequence()]
  }

  function SelectorAt(i: nat): Selector {
    if i == 0 then OnOpcode(0x00)
    else if i == 1 then OnOpcode(0x02)
    else if i == 2 then OnOpcode(0x1C)
    else if i == 3 then OnOpcode(0x12)
    else if i == 4 then OnOpcode(0x14)
    else if i == 5 then OnOpcode(0x11)
    else if i == 6 then OnOpcode(0x19)
    else if i == 7 then OnOpcode(0x22)
    else if i == 8 then OnOpcode(0x23)
    else if i == 9 then OnOpcode(0x50)
    else if i == 10 then OnOpcode(0x78)
    else if i == 11 then OnOpcode(0xE0)
    else if i == 12 then OnOpcode(0xEC)
    else if i == 13 then OnOpcode(0xEE)
    else if i == 14 then OnOpcode(0xF1)
    else if i == 15 then OnOpcode(0xF4)
    else if i == 16 then OnOpcode(0xF8)
    else if i == 17 then OnOpcode(0xFA)
    else if i == 18 then OnOpcode(0xFE)
    else if i == 19 then OnOpcode(0xFF)
    else if i == 20 then OnInterrupt
    else OnReset
  }

  lemma SourceSelectors()
    ensures |Source()| == 22
    ensures forall i :: 0 <= i < |Source()| ==> Source()[i].sel == SelectorAt(i)
  {
  }
}
