/** The emulator's processor and memory as objects that are updated in place, refining `Machine`. */
module Emulator {
  import opened Bits
  import opened ControlBits
  import opened Alu
  import ControlRom
  import M = Machine

  /** The two bits that the flags are taken from, by comparison. */
  lemma Bits7And8(x: nat)
    ensures (x / 128 % 2 == 1) == (x % 256 >= 128) && (x < 512 ==> (x / 256 % 2 == 1) == (x >= 256))
  {
  }

  class Computer {
    const vram: array<Byte>
    const ram: array<Byte>
    const flash: seq<Byte>      // loaded once, then only read
    const microcode: seq<bv8>
    var bankStart: nat
    var statusLed: bool
    var hostClock: bool
    var hostData: bool
    const interruptIn: array<bool>
    const interruptOut: array<bool>
    const interruptReset: array<bool>

    var step: Byte
    var reset: bool
    var accumulator: Byte
    var index: Byte
    var bank: Byte
    var opcode: Byte
    var pointer: M.Word
    var basePointer: M.Word
    var stackPointer: M.Word
    var instructionPointer: M.Word
    var transferPointer: M.Word
    var flags: Flags
    var control: Control

    ghost predicate Valid()
      reads this
    {
      vram.Length == M.VRAM_SIZE && ram.Length == M.RAM_SIZE && |flash| == M.FLASH_SIZE && vram != ram &&
      interruptIn.Length == interruptOut.Length == interruptReset.Length == 2 &&
      interruptIn != interruptOut && interruptIn != interruptReset && interruptOut != interruptReset &&
      bankStart == M.BANK_SIZE * bank && step < 16
    }

    ghost function Interrupts(): M.Interrupts
      requires Valid()
      reads this, interruptIn, interruptOut, interruptReset
    {
      M.Interrupts(interruptIn[0], interruptIn[1], interruptOut[0], interruptOut[1], interruptReset[0],
                   interruptReset[1])
    }

    ghost function Memory(): M.Memory
      requires Valid()
      reads this, vram, ram, interruptIn, interruptOut, interruptReset
    {
      M.Memory(vram[..], ram[..], flash, bank, Interrupts(), statusLed, hostClock, hostData)
    }

    ghost function Now(): M.State
      requires Valid()
      reads this, vram, ram, interruptIn, interruptOut, interruptReset
    {
      M.State(step, reset, accumulator, index, bank, opcode, pointer, basePointer, stackPointer, instructionPointer,
              transferPointer, flags, Memory())
    }

    constructor (flashImage: seq<Byte>, rom: seq<bv8>)
      requires |flashImage| == M.FLASH_SIZE
      ensures Valid() && fresh(vram) && fresh(ram) && fresh(interruptIn) && fresh(interruptOut) && fresh(interruptReset)
      ensures microcode == rom
      ensures Now() == M.State(0, false, 0, 0, 0, 0, 0, 0, 0, 0, 0, ByteFlags(0),
                               M.Memory(vram[..], ram[..], flashImage, 0,
                                        M.Interrupts(false, false, false, false, false, false),
                                        false, true, true))
    {
      vram, ram := new Byte[M.VRAM_SIZE], new Byte[M.RAM_SIZE];
      flash, microcode := flashImage, rom;
      interruptIn, interruptOut := new bool[2](_ => false), new bool[2](_ => false);
      interruptReset := new bool[2](_ => false);
      bankStart, statusLed, hostClock, hostData := 0, false, true, true;
      step, reset, accumulator, index, bank, opcode := 0, false, 0, 0, 0, 0;
      pointer, basePointer, stackPointer, instructionPointer, transferPointer := 0, 0, 0, 0, 0;
      flags, control := ByteFlags(0), 0;
    }

    // ---- Interrupts ----

    method GenerateInterrupt(second: bool)
      requires Valid()
      modifies interruptIn
      ensures Interrupts() == M.GenerateInterrupt(old(Interrupts()), second)
    {
      var i := if second then 1 else 0;
      if interruptReset[i] {
        interruptIn[i] := true;
      }
    }

    method SetInterruptReset(second: bool, value: bool)
      requires Valid()
      modifies interruptIn, interruptReset
      ensures Interrupts() ==
              if second then old(M.SetInterruptReset(Interrupts(), interruptReset[0], value).(in0 := interruptIn[0]))
              else old(M.SetInterruptReset(Interrupts(), value, interruptReset[1]).(in1 := interruptIn[1]))
    {
      var i := if second then 1 else 0;
      interruptReset[i] := value;
      if !value {
        interruptIn[i] := false;
      }
    }

    method ReadInterrupts()
      requires Valid()
      modifies interruptOut
      ensures Memory() == M.ReadInterrupts(old(Memory()))
    {
      for i := 0 to 2
        invariant forall j :: 0 <= j < i ==> interruptOut[j] == interruptIn[j]
        invariant forall j :: i <= j < 2 ==> interruptOut[j] == old(interruptOut[j])
        invariant interruptIn[..] == old(interruptIn[..])
      {
        interruptOut[i] := interruptIn[i];
      }
    }

    // ---- Memory ----

    method ReadIO(select: nat, lines: M.Lines) returns (data: Byte)
      requires Valid()
      ensures data == M.ReadIO(Memory(), lines, select)
    {
      if select == 0 {
        data := BitVal(interruptOut[0]) + 2 * BitVal(interruptOut[1]) + 4 * BitVal(statusLed) +
                64 * BitVal(hostClock && lines.clock) + 128 * BitVal(hostData && lines.data);
      } else {
        data := 0;
      }
    }

    method ReadMemory(address: M.Word, lines: M.Lines) returns (data: Byte)
      requires Valid()
      ensures data == M.ReadMemory(Memory(), lines, address)
    {
      if address < M.RAM_START {
        return vram[address];
      }
      if address < M.IO_START {
        return ram[address % 16384];
      }
      if address < M.BANK_START {
        data := ReadIO(address % 8, lines);
        return;
      }
      var i := bankStart + address % 16384;
      return if i < |flash| then flash[i] else 0;
    }

    method WriteIO(data: Byte, select: nat)
      requires Valid()
      modifies `statusLed, `hostClock, `hostData, interruptIn, interruptReset
      ensures Valid() && Memory() == M.WriteIO(old(Memory()), data, select)
    {
      if select == 1 {
        SetInterruptReset(false, data % 2 == 1);
        SetInterruptReset(true, data / 2 % 2 == 1);
        statusLed := data / 4 % 2 == 1;
        hostClock := data / 64 % 2 == 0;
        hostData := data / 128 % 2 == 0;
      }
    }

    method WriteMemory(data: Byte, address: M.Word)
      requires Valid()
      modifies vram, ram, `statusLed, `hostClock, `hostData, interruptIn, interruptReset
      ensures Valid() && Memory() == M.WriteMemory(old(Memory()), data, address)
    {
      if address < M.RAM_START {
        vram[address] := data;
      }
      if address < M.IO_START && address % 16384 < ram.Length {
        ram[address % 16384] := data;
      }
      if address < M.BANK_START {
        WriteIO(data, address % 8);
      }
    }

    // ---- Arithmetic ----

    method CalcALU(a: Byte, b: Byte, control: Control) returns (out: Byte)
      modifies `flags
      ensures out == CalcAlu(a, b, old(flags), control).out && flags == CalcAlu(a, b, old(flags), control).flags
    {
      hide And, BitOr;
      var inA: nat, inB: nat, outFlags := a, b, flags;
      if control & CTRL_EZ == 0 {
        inA := 0;
      }
      if control & CTRL_EN != 0 {
        inB := 255 - inB;
      }
      var output: nat;
      var op := control & CTRL_EO;
      if op == CTRL_ES {
        output := inA + inB + if control & CTRL_EC != 0 then 1 else 0;
        outFlags := outFlags.(c := false);
        Bits7And8(output);
        outFlags := outFlags.(c := output / 256 % 2 == 1);
      } else if op == CTRL_ER {
        outFlags := outFlags.(c := inB % 2 == 1);
        output := inB / 2;
      } else if op == CTRL_EA {
        output := And(inA, inB);
      } else {
        output := BitOr(inA, inB);
      }
      Bits7And8(output);
      outFlags := outFlags.(n := output / 128 % 2 == 1, z := output % 256 == 0);
      if control & CTRL_FI == 0 && control & CTRL_FD == 0 {
        flags := outFlags;
      }
      out := output % 256;
    }

    // ---- The processor ----

    method ResetCPU()
      requires Valid()
      modifies `step, `reset
      ensures Valid() && Now() == M.Reset(old(Now()))
    {
      step := 0;
      reset := true;
    }

    method OutputAddress() returns (address: M.Word)
      requires Valid()
      ensures address == M.AddressOut(Now(), control)
    {
      var bus: M.Word;
      if control & CTRL_TO == 0 {
        bus := transferPointer;
      } else if control & CTRL_IO == CTRL_PO {
        bus := pointer;
      } else if control & CTRL_IO == CTRL_BO {
        bus := basePointer;
      } else if control & CTRL_IO == CTRL_SO {
        bus := stackPointer;
      } else {
        bus := instructionPointer;
      }
      var indexOut: M.Word := index;
      if control & CTRL_XZ == 0 {
        indexOut := 0;
      }
      if control & CTRL_XN != 0 {
        indexOut := 65535 - indexOut;
      }
      address := (bus + indexOut + if control & CTRL_XC != 0 then 1 else 0) % 65536;
    }

    method OutputData(address: M.Word, lines: M.Lines) returns (data: Byte)
      requires Valid() && address == M.AddressOut(Now(), control)
      ensures data == M.DataBus(Now(), control, lines)
    {
      data := 0;
      var out := control & CTRL_OD;
      if out == CTRL_AO {
        data := accumulator;
      } else if out == CTRL_FO {
        data := FlagByte(flags) % 256;
      } else if out == CTRL_KO {
        data := bank;
      } else if out == CTRL_MO {
        data := ReadMemory(address, lines);
      } else if out == CTRL_PL {
        data := pointer % 256;
      } else if out == CTRL_PH {
        data := pointer / 256;
      } else if out == CTRL_BL {
        data := basePointer % 256;
      } else if out == CTRL_BH {
        data := basePointer / 256;
      } else if out == CTRL_IL {
        data := instructionPointer % 256;
      } else if out == CTRL_IH {
        data := instructionPointer / 256;
      } else if out == CTRL_HO {
        data := 255;
      }
    }

    method LoadAddress(address: M.Word)
      requires Valid()
      modifies `pointer, `basePointer, `stackPointer, `instructionPointer
      ensures Valid() && Now() == M.LoadAddress(old(Now()), control, address)
    {
      if control & CTRL_NA != 0 {
        var into := control & CTRL_II;
        if into == CTRL_PI {
          pointer := address;
        } else if into == CTRL_BI {
          basePointer := address;
        } else if into == CTRL_SI {
          stackPointer := address;
        } else {
          instructionPointer := address;
        }
      }
    }

    method SetBank(b: Byte)
      modifies `bankStart
      ensures bankStart == M.BANK_SIZE * b
    {
      bankStart := M.BANK_SIZE * b;
    }

    method LoadData(data: Byte, alu: Byte, address: M.Word)
      requires Valid()
      modifies `accumulator, `index, `bank, `bankStart, `opcode, `transferPointer, `reset, vram, ram,
               `statusLed, `hostClock, `hostData, interruptIn, interruptOut, interruptReset
      ensures Valid() && Now() == M.LoadData(old(Now()), control, data, alu, address)
    {
      hide M.WriteMemory, M.ReadInterrupts;
      var into := control & CTRL_ND;
      if into == CTRL_AI {
        accumulator := alu;
      } else if into == CTRL_XI {
        index := data;
      } else if into == CTRL_KI {
        bank := data;
        SetBank(bank);
      } else if into == CTRL_MI {
        WriteMemory(data, address);
      } else if into == CTRL_CI {
        opcode := data;
        reset := false;
        ReadInterrupts();
      } else if into == CTRL_TL {
        transferPointer := transferPointer / 256 * 256 + data;
      } else if into == CTRL_TH {
        transferPointer := data * 256 + transferPointer % 256;
      }
    }

    /** Counts the step; it restarts after the next opcode has been loaded. */
    method CountStep()
      requires Valid()
      modifies `step
      ensures Valid()
      ensures Now() == old(Now()).(step := if control & CTRL_ND == CTRL_CI || old(step) + 1 == 16 then 0
                                           else (old(step) + 1) % 256)
    {
      step := (step + 1) % 256;
      if control & CTRL_ND == CTRL_CI || step == 16 {
        step := 0;
      }
    }

    /** The arithmetic unit, and the flags it or the data bus loads. */
    method Calculate(data: Byte) returns (alu: Byte)
      requires Valid()
      modifies `flags
      ensures Valid() && alu == CalcAlu(accumulator, data, old(flags), control).out
      ensures Now() == old(Now()).(f := if control & CTRL_FI == 0 && control & CTRL_FD != 0 then ByteFlags(data)
                                        else CalcAlu(accumulator, data, old(flags), control).flags)
    {
      hide CalcAlu, ByteFlags;
      alu := CalcALU(accumulator, data, control);
      if control & CTRL_FI == 0 && control & CTRL_FD != 0 {
        flags := ByteFlags(data);
      }
    }

    /** Everything a control word does: a register on each bus, the computation, the loads, and the step. */
    method ExecuteControl(lines: M.Lines)
      requires Valid()
      modifies `flags, `step, `pointer, `basePointer, `stackPointer, `instructionPointer,
               `accumulator, `index, `bank, `bankStart, `opcode, `transferPointer, `reset, vram, ram,
               `statusLed, `hostClock, `hostData, interruptIn, interruptOut, interruptReset
      ensures Valid() && Now() == M.Execute(old(Now()), control, lines)
    {
      hide M.AddressOut, M.DataBus, M.LoadAddress, M.LoadData, CalcAlu, ByteFlags, FlagByte;
      var addressOut := OutputAddress();
      var dataBus := OutputData(addressOut, lines);
      var aluOut := Calculate(dataBus);
      LoadAddress(addressOut);
      LoadData(dataBus, aluOut, addressOut);
      CountStep();
    }

    /** `clockCPU`: read a control word and execute it. */
    method ClockCPU(lines: M.Lines)
      requires Valid()
      modifies `control, `flags, `step, `pointer, `basePointer, `stackPointer, `instructionPointer,
               `accumulator, `index, `bank, `bankStart, `opcode, `transferPointer, `reset, vram, ram,
               `statusLed, `hostClock, `hostData, interruptIn, interruptOut, interruptReset
      ensures Valid() && control == M.ControlWord(microcode, old(Now())) &&
              Now() == M.Clock(microcode, old(Now()), lines)
    {
      hide M.Execute, ControlRom.ReadControl, FlagByte;
      ghost var m := Now();
      control := ControlRom.ReadControl(microcode, step, FlagByte(flags) % 256, opcode, interruptOut[0],
                                        interruptOut[1], reset);
      assert Now() == m;
      ExecuteControl(lines);
    }

    /** The interface's loop, for `n` clocks; the keyboard's lines may be different in each, and after each the display
        may request its interrupt. */
    method Clocks(n: nat, time: nat, env: nat -> M.Lines, asks: nat -> bool)
      requires Valid()
      modifies `control, `flags, `step, `pointer, `basePointer, `stackPointer, `instructionPointer,
               `accumulator, `index, `bank, `bankStart, `opcode, `transferPointer, `reset, vram, ram,
               `statusLed, `hostClock, `hostData, interruptIn, interruptOut, interruptReset
      ensures Valid() && Now() == M.RunAsked(microcode, old(Now()), n, time, env, asks)
    {
      hide M.Clock, M.ControlWord, M.GenerateInterrupt;
      for j := 0 to n
        invariant Valid()
        invariant M.RunAsked(microcode, old(Now()), n, time, env, asks) ==
                  M.RunAsked(microcode, Now(), n - j, time + j, env, asks)
      {
        ClockCPU(env(time + j));
        if asks(time + j) {
          GenerateInterrupt(false);
        }
      }
    }
  }
}
