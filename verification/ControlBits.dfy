/** The 24-bit control word: one constant for each choice, as the microcode compiler and the emulator use them. */
module ControlBits {
  type Control = bv24

  // Register out to the data bus
  const CTRL_AO: Control := 0x000010
  const CTRL_FO: Control := 0x000011
  const CTRL_KO: Control := 0x000012
  const CTRL_MO: Control := 0x000013
  const CTRL_PL: Control := 0x000014
  const CTRL_PH: Control := 0x00000C
  const CTRL_BL: Control := 0x000015
  const CTRL_BH: Control := 0x00000D
  const CTRL_IL: Control := 0x000016
  const CTRL_IH: Control := 0x00000E
  const CTRL_ZO: Control := 0x000017
  const CTRL_HO: Control := 0x00000F
  const CTRL_OD: Control := 0x00001F // the whole data bus field
  // Register in from the data bus or the arithmetic unit
  const CTRL_AI: Control := 0x000000
  const CTRL_XI: Control := 0x000020
  const CTRL_KI: Control := 0x000040
  const CTRL_MI: Control := 0x000060
  const CTRL_CI: Control := 0x000080
  const CTRL_TL: Control := 0x0000A0
  const CTRL_TH: Control := 0x0000C0
  const CTRL_ND: Control := 0x0000E0
  // Register out to the address bus
  const CTRL_PO: Control := 0x000000
  const CTRL_BO: Control := 0x000100
  const CTRL_SO: Control := 0x000200
  const CTRL_IO: Control := 0x000300
  const CTRL_TO: Control := 0x000400 // inverted
  // Register in from the indexed address bus
  const CTRL_PI: Control := 0x000000
  const CTRL_BI: Control := 0x000800
  const CTRL_SI: Control := 0x001000
  const CTRL_II: Control := 0x001800
  const CTRL_NA: Control := 0x002000 // inverted
  // Flags, index and arithmetic unit
  const CTRL_FI: Control := 0x004000 // inverted
  const CTRL_FD: Control := 0x008000
  const CTRL_XZ: Control := 0x010000 // inverted
  const CTRL_XN: Control := 0x020000
  const CTRL_XC: Control := 0x040000
  const CTRL_EZ: Control := 0x080000 // inverted
  const CTRL_EN: Control := 0x100000
  const CTRL_EC: Control := 0x200000
  const CTRL_ES: Control := 0x000000
  const CTRL_ER: Control := 0x400000
  const CTRL_EA: Control := 0x800000
  const CTRL_EO: Control := 0xC00000

  /** The bits that are active low in the control ROM. */
  const INVERTED: Control := CTRL_FI | CTRL_TO | CTRL_NA | CTRL_XZ | CTRL_EZ
}
