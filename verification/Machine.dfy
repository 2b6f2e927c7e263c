/** The emulated computer as a value: the processor's registers, the memories, and one clock of it. */
module Machine {
  import opened Wrappers
  import opened Bits
  import opened ControlBits
  import opened Alu
  import ControlRom

  type Word = x: nat | x < 65536

  /** Interrupt lines: requests, what the processor has latched, and which ones the program lets through. */
  datatype Interrupts = Interrupts(in0: bool, in1: bool, out0: bool, out1: bool, enabled0: bool, enabled1: bool)

  const VRAM_SIZE: nat := 32768
  const RAM_SIZE: nat := 16128
  const FLASH_SIZE: nat := 262144
  const BANK_SIZE: nat := 16384
  const RAM_START: nat := 0x8000
  const IO_START: nat := 0xBF00
  const BANK_START: nat := 0xC000

  /** Everything behind the processor's address bus. `hostClock` and `hostData` are what the program lets
      the keyboard lines do. */
  datatype Memory = Memory(vram: seq<Byte>, ram: seq<Byte>, flash: seq<Byte>, bank: Byte,
                           interrupts: Interrupts, led: bool, hostClock: bool, hostData: bool)

  /** The keyboard's side of its two lines. */
  datatype Lines = Lines(clock: bool, data: bool)

  datatype State = State(step: nat, reset: bool, a: Byte, x: Byte, k: Byte, opcode: Byte,
                         p: Word, b: Word, s: Word, i: Word, t: Word, f: Flags, memory: Memory)

  // ---- Memory ----

  function ReadIO(m: Memory, lines: Lines, select: nat): Byte {
    if select == 0 then
      BitVal(m.interrupts.out0) + 2 * BitVal(m.interrupts.out1) + 4 * BitVal(m.led) +
      64 * BitVal(m.hostClock && lines.clock) + 128 * BitVal(m.hostData && lines.data)
    else 0
  }

  function At(bytes: seq<Byte>, i: nat): Byte {
    if i < |bytes| then bytes[i] else 0
  }

  function ReadMemory(m: Memory, lines: Lines, address: Word): Byte {
    if address < RAM_START then At(m.vram, address)
    else if address < IO_START then At(m.ram, address % 16384)
    else if address < BANK_START then ReadIO(m, lines, address % 8)
    else At(m.flash, BANK_SIZE * m.bank + address % 16384)
  }

  function SetInterruptReset(i: Interrupts, enable0: bool, enable1: bool): Interrupts {
    i.(enabled0 := enable0, in0 := i.in0 && enable0, enabled1 := enable1, in1 := i.in1 && enable1)
  }

  function WriteIO(m: Memory, data: Byte, select: nat): Memory {
    if select == 1 then
      m.(interrupts := SetInterruptReset(m.interrupts, data % 2 == 1, data / 2 % 2 == 1),
         led := data / 4 % 2 == 1, hostClock := data / 64 % 2 == 0, hostData := data / 128 % 2 == 0)
    else m
  }

  function Put(bytes: seq<Byte>, i: nat, data: Byte): (r: seq<Byte>)
    ensures |r| == |bytes|
  {
    if i < |bytes| then bytes[i := data] else bytes
  }

  /** The address ranges are tested one after the other, each without a lower end: a write below the end of
      one also goes to the ones after it. */
  function WriteMemory(m: Memory, data: Byte, address: Word): Memory {
    var m1 := if address < RAM_START then m.(vram := Put(m.vram, address, data)) else m;
    var m2 := if address < IO_START then m1.(ram := Put(m1.ram, address % 16384, data)) else m1;
    if address < BANK_START then WriteIO(m2, data, address % 8) else m2
  }

  function GenerateInterrupt(i: Interrupts, second: bool): Interrupts {
    if second then i.(in1 := i.in1 || i.enabled1) else i.(in0 := i.in0 || i.enabled0)
  }

  function ReadInterrupts(m: Memory): Memory {
    m.(interrupts := m.interrupts.(out0 := m.interrupts.in0, out1 := m.interrupts.in1))
  }

  // ---- One clock ----

  function AddressBus(m: State, w: Control): Word {
    if w & CTRL_TO == 0 then m.t
    else if w & CTRL_IO == CTRL_PO then m.p
    else if w & CTRL_IO == CTRL_BO then m.b
    else if w & CTRL_IO == CTRL_SO then m.s
    else m.i
  }

  function IndexOut(m: State, w: Control): Word {
    var x: Word := if w & CTRL_XZ == 0 then 0 else m.x;
    if w & CTRL_XN != 0 then 65535 - x else x
  }

  function AddressOut(m: State, w: Control): Word {
    (AddressBus(m, w) + IndexOut(m, w) + if w & CTRL_XC != 0 then 1 else 0) % 65536
  }

  function DataBus(m: State, w: Control, lines: Lines): Byte {
    var out := w & CTRL_OD;
    if out == CTRL_AO then m.a
    else if out == CTRL_FO then FlagByte(m.f) % 256
    else if out == CTRL_KO then m.k
    else if out == CTRL_MO then ReadMemory(m.memory, lines, AddressOut(m, w))
    else if out == CTRL_PL then m.p % 256
    else if out == CTRL_PH then m.p / 256
    else if out == CTRL_BL then m.b % 256
    else if out == CTRL_BH then m.b / 256
    else if out == CTRL_IL then m.i % 256
    else if out == CTRL_IH then m.i / 256
    else if out == CTRL_HO then 255
    else 0
  }

  /** Loads the address output into a pointer register. */
  function LoadAddress(m: State, w: Control, address: Word): State {
    if w & CTRL_NA == 0 then m
    else if w & CTRL_II == CTRL_PI then m.(p := address)
    else if w & CTRL_II == CTRL_BI then m.(b := address)
    else if w & CTRL_II == CTRL_SI then m.(s := address)
    else m.(i := address)
  }

  function LoadData(m: State, w: Control, data: Byte, alu: Byte, address: Word): State {
    var into := w & CTRL_ND;
    if into == CTRL_AI then m.(a := alu)
    else if into == CTRL_XI then m.(x := data)
    else if into == CTRL_KI then m.(k := data, memory := m.memory.(bank := data))
    else if into == CTRL_MI then m.(memory := WriteMemory(m.memory, data, address))
    else if into == CTRL_CI then m.(opcode := data, reset := false, memory := ReadInterrupts(m.memory))
    else if into == CTRL_TL then m.(t := m.t / 256 * 256 + data)
    else if into == CTRL_TH then m.(t := data * 256 + m.t % 256)
    else m
  }

  /** What a control word, as the ROM holds it, does in one clock. */
  function Execute(m: State, w: Control, lines: Lines): State {
    var address, data := AddressOut(m, w), DataBus(m, w, lines);
    var alu := CalcAlu(m.a, data, m.f, w);
    var flags := if w & CTRL_FI == 0 && w & CTRL_FD != 0 then ByteFlags(data) else alu.flags;
    var loaded := LoadData(LoadAddress(m.(f := flags), w, address), w, data, alu.out, address);
    loaded.(step := if w & CTRL_ND == CTRL_CI || m.step + 1 == 16 then 0 else (m.step + 1) % 256)
  }

  function ControlWord(rom: seq<bv8>, m: State): Control {
    ControlRom.ReadControl(rom, m.step, FlagByte(m.f) % 256, m.opcode, m.memory.interrupts.out0,
                           m.memory.interrupts.out1, m.reset)
  }

  function Clock(rom: seq<bv8>, m: State, lines: Lines): State {
    Execute(m, ControlWord(rom, m), lines)
  }

  function Reset(m: State): State {
    m.(step := 0, reset := true)
  }

  /** `n` clocks from time `time` on. */
  function Run(rom: seq<bv8>, m: State, n: nat, time: nat, env: nat -> Lines): State
    decreases n
  {
    if n == 0 then m else Run(rom, Clock(rom, m, env(time)), n - 1, time + 1, env)
  }

  /** After a clock the display may request the first interrupt. */
  function Asked(m: State, ask: bool): State {
    if ask then m.(memory := m.memory.(interrupts := GenerateInterrupt(m.memory.interrupts, false))) else m
  }

  /** A run in which the display requests the interrupt after the clocks that `asks` says. */
  function RunAsked(rom: seq<bv8>, m: State, n: nat, time: nat, env: nat -> Lines, asks: nat -> bool): State
    decreases n
  {
    if n == 0 then m else RunAsked(rom, Asked(Clock(rom, m, env(time)), asks(time)), n - 1, time + 1, env, asks)
  }

  lemma {:induction false} RunUnasked(rom: seq<bv8>, m: State, n: nat, time: nat, env: nat -> Lines, asks: nat -> bool)
    requires forall t :: time <= t < time + n ==> !asks(t)
    ensures RunAsked(rom, m, n, time, env, asks) == Run(rom, m, n, time, env)
    decreases n
  {
    hide Clock;
    if n > 0 {
      RunUnasked(rom, Clock(rom, m, env(time)), n - 1, time + 1, env, asks);
    }
  }

  lemma {:induction false} RunSplit(rom: seq<bv8>, m: State, j: nat, k: nat, time: nat, env: nat -> Lines)
    ensures Run(rom, m, j + k, time, env) == Run(rom, Run(rom, m, j, time, env), k, time + j, env)
    decreases j
  {
    hide Clock;
    if j > 0 {
      RunSplit(rom, Clock(rom, m, env(time)), j - 1, k, time + 1, env);
    }
  }

  // ---- Runs in which the interrupt lines play no part ----

  /** The addresses of the input port, which shows the interrupt lines. */
  predicate IsPort(a: nat) {
    IO_START <= a < BANK_START
  }

  predicate ReadsPort(m: State, w: Control) {
    w & CTRL_OD == CTRL_MO && IsPort(AddressOut(m, w))
  }

  /** In this clock the interrupt lines may choose the word, or be read. */
  predicate Hears(rom: seq<bv8>, m: State) {
    (!m.reset && m.f.i) || ReadsPort(m, ControlWord(rom, m))
  }

  /** `n` clocks as in `Run`; with `masked`, only if the interrupt lines play no part in any of them. */
  function RunMasked(rom: seq<bv8>, m: State, n: nat, time: nat, env: nat -> Lines, masked: bool): Option<State>
    decreases n
  {
    if n == 0 then Some(m)
    else if masked && Hears(rom, m) then None
    else RunMasked(rom, Clock(rom, m, env(time)), n - 1, time + 1, env, masked)
  }

  lemma {:induction false} MaskedSplit(rom: seq<bv8>, m: State, j: nat, k: nat, time: nat, env: nat -> Lines,
                                       masked: bool)
    ensures RunMasked(rom, m, j + k, time, env, masked) ==
            match RunMasked(rom, m, j, time, env, masked)
            case None => None
            case Some(n) => RunMasked(rom, n, k, time + j, env, masked)
    decreases j
  {
    hide Clock, Hears;
    if j > 0 && !(masked && Hears(rom, m)) {
      MaskedSplit(rom, Clock(rom, m, env(time)), j - 1, k, time + 1, env, masked);
    }
  }

  /** A masked run is a run. */
  lemma {:induction false} MaskedIsRun(rom: seq<bv8>, m: State, n: nat, time: nat, env: nat -> Lines, masked: bool)
    ensures RunMasked(rom, m, n, time, env, masked).Some? ==>
              RunMasked(rom, m, n, time, env, masked).value == Run(rom, m, n, time, env)
    ensures !masked ==> RunMasked(rom, m, n, time, env, masked).Some?
    decreases n
  {
    hide Clock, Hears;
    if n > 0 {
      MaskedIsRun(rom, Clock(rom, m, env(time)), n - 1, time + 1, env, masked);
    }
  }
}
