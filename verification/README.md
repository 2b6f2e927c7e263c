# The 8602 computer, modelled and proved in Dafny

The repository builds an 8-bit computer in software: a gate-level logic simulator, a compiler for the
computer's microcode, an emulator of the processor that runs this microcode, a keyboard transmitter, and an
assembler with a linker. This project models the parts of it that compute something and proves what they are for.

## How it is laid out

**The logic simulator** (`simulator/src`). `Schedule` is the list of pending net updates as a value, with the
waveform that it promises each net (`Future`) and the value it is heading for (`Final`). `Chips` says for every
output and every internal delayed copy ("slot") of the 14 chips what it posts in a step. `Simulation` puts them
together into the step of a circuit and into runs (`Trace`) with outside writes between the steps. `CircuitHeap`
is the program itself: linked nodes in an update list and an empty list that share one pool, nets and lists changed
in place; each method is tied to the value-level step. On top of it stand the whole-run theorems: `Transport` (transport
delay; nothing is lost by evaluating only what changed), `Landing` (of several posts the last one that has landed
decides), `DataSheets` and `CounterLaw` (each chip over any run, by the nets at its pins now and earlier), `Settling`
(acyclic circuits settle to their Boolean values), `ChipOrder` (the order of the chips does not matter), `AdderChain`,
`Clocked` (register and oscillator),
`CounterChain`, `CounterRun` and `CounterStart` (cascaded counters with their ripple glitches, from the start of the simulator on), and `AluCircuit`, `GateLevelAlu` and
`Accumulator`, in which the gate-level ALU of `simulator/circuit/alu.src` is shown to settle to what the
emulator's `calcALU` computes.

**Microcode and processor** (`microcode/src`, `emulator/src`). `Microcode` says what a token list means: a list of rules,
each with a selector, a step, a flag condition and a control word, of which the last one that matches an address
decides. `MicrocodeCompiler` is the compiler, with its one pass over the tokens and its step back by one token, writing three
byte planes. `Program` and `ProgramText` relate token lists to program trees in both directions. `ControlRom` is
the emulator's way back from the planes to the word. `Machine` is the processor and its memory as a value, `Emulator` the
same as an object with fields. `RowMeaning` says what a row of symbols does by the names of the symbols, and proves that the
compiled word does just that; `MemoryMap` says what is read where after a write. `MicrocodeText` is
`microcode/microcode.src` symbol by symbol, as literals, and `MicrocodeSource` the control words that it is shown to stand for;
`MicrocodeWords`, `Instructions` and `Pointers` run it, clock by clock, from every state of the machine. `Addition`, `Calls`, `Breaks` and `ResetRun` are theorems about
programs: sums of any length, balanced calls of any depth, a software interrupt and back, and reset. `Masking` shows that with the I flag clear
the interrupt lines do not matter, and `Uninterrupted` states the theorems about programs with interrupts requested at any time. `Branches` says where branches
to names come out, `HardwareInterrupts` what a request does when it is let through. `SumProgram` and `WholeSystem` put the parts together: a program assembled, linked into flash and started by a reset, on the compiled microcode, in the emulator's object.

**Keyboard** (`emulator/src/keyboard.c`). `Keyboard` has the timed state machine and what a receiver gets from its
two lines, `KeyEvents` what it makes of the codes, `KeyTiming` how fast they come, `KeyboardDevice` the object.

**Assembler and linker** (`assembler/src`). `Assembler` defines the program's one pass with references patched
afterwards and, independently, an assembler in two passes. `Backpatching` proves them equal, `LateNames` says exactly when they are not,
`AssemblerObject` is the object that grows and is patched in place, and `Linker` has the overlap check, the image
and the way a flash address is found again through the bank register.

`Bits`, `Wrappers`, `ControlBits` and `Alu` are shared: numbers and their bits, `Option`, the control word's constants, and the
arithmetic unit.

## Reading the model

- A net's value is a `bool`; nets are numbers, the circuit's own first and the chips' internal ones after them. A well-formed circuit has
  every input wired and every output a net or nothing. A counter's code reads its own outputs; where one is null it must not come
  to that (`NoNullRead`, which holds always when the four digits are wired), and the value-level step takes it for low.
- A run (`Trace`) starts in a valid state, and each state follows from the one before by a step and `set` commands on undriven nets. That all
  its states are valid is proved (`Simulation.TraceOk`, `Simulation.ReachableOk`).
- The keyboard's two lines are low when either side pulls them low. The theorems about frames are about runs in which the computer
  leaves both alone.
- Bytes and addresses are numbers below 256 and 65536, with every wrap-around written out. Control words and ROM bytes are bit vectors.
- The C code walks its lists with a pointer to the link that led to a node; in the model that is the node before it, or none at the head.
- `exit(1)` and an error count above zero are results: the microcode compiler's `ParseTokens` returns whether it succeeded,
  `OnePass` is an `Option`.
- What the code does not decide itself is a parameter: the keyboard's lines at each clock, the events that arrive and the time that passes
  between two keyboard steps, the values written to undriven nets.
- The theorems about instructions are about `RunMasked`: the run of the machine (`Machine.MaskedIsRun`) or, with `masked`, the same with no clock in
  which the interrupt lines could choose the word or be read. `Masking.MaskedHolds` carries what is shown of masked runs over to runs with any requests.
- The theorems about instructions speak of any ROM that holds the compiled microcode (`HasMicrocode`); `RomExists` and `CompiledMicrocode` say there is
  one and that the compiler makes one.
- Where a comment and the code differ the code is followed. The reset sequence's third line is annotated `F=$0`
  (`microcode/microcode.src:132`), but F is loaded by the line after it. `pullKeyClockLow` (`emulator/src/keyboard.c:192`) lets the line go when its
  argument is true.

Six things the code does not do, each with the condition under which it does and where it does not:

- The gate-level right shift agrees with `calcALU` if and only if it shifts in a zero (`GateLevelAlu.AluWord`); with the shift-in line high
  and both operands zero the gates give 128, the emulator 0 (`GateLevelAlu.ShiftInDiffers`).
- `rti` gives A back if and only if the handler left no bit in it that was not saved (`Breaks.RtiRestoresA`); a handler that leaves 1 where 0
  was saved comes back with 1 (`Breaks.RtiKeepsABit`).
- One pass and two passes of the assembler agree if and only if no data directive names a later label (`LateNames.ExactlyWithoutLateNames`);
  one byte that names the label behind it already differs (`LateNames.LateNameDiffers`).
- A branch to a name comes out at its label if and only if its operand is one more (forwards) or one less (backwards) than the assembler's; with
  the assembler's operand it comes out one byte before the label, for every near label of the same bank (`Branches.ForwardComesOut`,
  `Branches.BackwardComesOut`).
- A hardware interrupt does not enter its handler: the seventh word of its sequence clears the flag that the others are selected by
  (`microcode/microcode.src:122`). At the start of any instruction but `brk` the machine comes back to that instruction after 16 clocks
  without having fetched another, with bank and flags cleared (`HardwareInterrupts.RequestFallsThrough`); at a `brk` it goes on by the word
  that T points behind, which is the one at $FFFE if and only if T is 1 (`HardwareInterrupts.RequestAtBrk`).
- The keyboard's clock does not have the nominal period of 59880 ns (`emulator/src/keyboard.c:7`): within a byte each bit takes 44910 ns, up to
  two steps' length, as the time spent with the clock high is not taken off (`KeyTiming.BitPeriod`).

## Model

| member | source | states |
|---|---|---|
| `Schedule.PostFuture` | simulator/src/circuit.c:284-310 | posting a value for net n at delay d replaces the waveform of n from d on and leaves everything earlier, and every other net, as it was |
| `Schedule.PostFinal` | simulator/src/circuit.c:284-310 | after a post the last value a net is heading for is the posted one; other nets keep theirs |
| `Schedule.PostValid` | simulator/src/circuit.c:284-310 | a post with a delay of at least 1 keeps all delays positive and the delays of each net strictly decreasing from the list head |
| `Schedule.AgeValid` | simulator/src/net.c:26-47 | so does one step of aging and firing |
| `Schedule.AgeFuture` | simulator/src/circuit.c:270-275 | one step shifts the waveform of every net by one |
| `Schedule.AgeFinal` | simulator/src/circuit.c:270-275 | aging does not change where a net is heading |
| `Schedule.FireValue` | simulator/src/net.c:26-47 | one step gives each net the value its waveform has one step ahead (at most one update per net fires), and marks it changed exactly when the value differs or it was marked before |
| `Schedule.FutureFinal` | simulator/src/circuit.c:284-310 | past the largest pending delay the waveform is the final value |
| `CircuitHeap.Simulator.constructor` | simulator/src/circuit.c:255-256 | an empty update list and one block of 512 cleared nodes; the nets as declared, all marked changed |
| `CircuitHeap.NewBlock` | simulator/src/net.c:7-24 | a chain of exactly the given number of fresh, distinct, cleared nodes |
| `CircuitHeap.Simulator.AllocBlock` | simulator/src/circuit.c:302 | when the empty list has run dry a further block becomes the empty list; no node is lost |
| `CircuitHeap.Simulator.NodesConserved` | simulator/src/circuit.c:255-310 | in every state of the two lists each node ever allocated is in exactly one of them, once, and the lengths add up to 512 times the number of blocks |
| `CircuitHeap.Simulator.Unlink` | simulator/src/circuit.c:291-300 | relinking takes just that node out and keeps the order of the others |
| `CircuitHeap.Simulator.CancelPending` | simulator/src/circuit.c:289-301 | the loop that unlinks while walking ends, and leaves the pending updates that are for other nets or due earlier, in their order |
| `CircuitHeap.Simulator.AddNetUpdate` | simulator/src/circuit.c:284-310 | the schedule afterwards is the cancelled old one with the new update in front; a null target changes nothing; a block is allocated exactly when cancelling left no empty node |
| `CircuitHeap.Simulator.StepNetUpdate` | simulator/src/net.c:26-47 | one node is aged: either it stays with one less to go, or its net is written (marked changed if the value differs) and the node is recycled |
| `CircuitHeap.Simulator.AgeUpdates` | simulator/src/circuit.c:270-275 | the aging loop ends and leaves exactly the aged schedule and the fired nets |
| `CircuitHeap.Simulator.StepCLK40M` | simulator/src/chip.c:109-114 | refines the oscillator slot: posts what SlotDrive says, nothing else |
| `CircuitHeap.Simulator.StepQuad` | simulator/src/chip.c:116-124 | the four two-input gates of 74HC00, 02, 08, 32 and 86 (also lines 140-148, 158-166, 187-205): each output is posted exactly when one of its inputs is marked |
| `CircuitHeap.Simulator.Step74HC30` | simulator/src/chip.c:126-138 | the two nested loops with early return post the negated conjunction of all eight inputs when any is marked |
| `CircuitHeap.Simulator.Step74HC04` | simulator/src/chip.c:150-156 | six inverters |
| `CircuitHeap.Simulator.Step74HC21` | simulator/src/chip.c:168-185 | two four-input conjunctions |
| `CircuitHeap.Simulator.Step74AC157` | simulator/src/chip.c:207-226 | quad selector with its three branches on enable and select |
| `CircuitHeap.Simulator.Step74AC153` | simulator/src/chip.c:228-250 | dual four-way selector with two enables |
| `CircuitHeap.Simulator.AddNibbles` | simulator/src/chip.c:314-321 | the two shift-in loops compute the sum of the two unsigned nibbles and the carry |
| `CircuitHeap.Simulator.Step74HC283Add` | simulator/src/chip.c:313-326 | posts the five binary digits of the sum with their delays |
| `CircuitHeap.Simulator.Step74HC283` | simulator/src/chip.c:328-340 | the delays depend on whether the carry input or only another input is marked |
| `CircuitHeap.Simulator.Step74HC377` | simulator/src/chip.c:342-356 | delayed copies of the inputs, and on a rising clock with the load line low the outputs from the copies |
| `CircuitHeap.Simulator.Step74AC161Count` | simulator/src/chip.c:252-266 | the ripple loop with its early exit toggles exactly the bits whose lower bits are all set, and posts the ripple output; required is only that no null output is read on the way |
| `CircuitHeap.Simulator.Step74AC161` | simulator/src/chip.c:268-311 | delayed copies, clear, load, count and the ripple input, in the order of the code; clear and load pass null outputs by, count and ripple must not read one |
| `CircuitHeap.Simulator.StepChip` | simulator/src/chip.c:90-107 | the schedule afterwards is that of the chip's slots one after the other |
| `CircuitHeap.Simulator.ClearChanged` | simulator/src/circuit.c:265-268 | all circuit nets are unmarked, nothing else changes |
| `CircuitHeap.Simulator.StepCircuit` | simulator/src/circuit.c:259-278 | the linked structure after a step says what the value-level step says, the invariants hold again, and the clock wraps at 64 bits |
| `CircuitHeap.Simulator.Set` | simulator/src/interface.c:232-240 | an outside write marks the net when its value differs and keeps the state valid |
| `CircuitHeap.Simulator.LenSchedule` | simulator/src/circuit.c:320-328 | the number of pending updates |
| `CircuitHeap.Simulator.FindNetUpdate` | simulator/src/net.c:125-133 | null exactly when nothing is pending for the net, otherwise a pending update of it with the least delay |
| `CircuitHeap.Simulator.BusToUns` | simulator/src/net.c:141-148 | the unsigned number whose bits are the nets of the bus, on 32 bits: exact for buses up to that width, its lowest 32 bits for wider ones |
| `Simulation.PostedValid` | simulator/src/circuit.c:259-263 | stepping all chips keeps the schedule valid: positive delays, each net's strictly decreasing |
| `Simulation.StepOk` | simulator/src/circuit.c:259-278 | every step of every well-formed circuit keeps that invariant, so every reachable state has it |
| `Simulation.StepNet` | simulator/src/circuit.c:259-278 | after a step the value of a net is its posted waveform one step ahead, and a circuit net is marked exactly when its value changed in that step |
| `Simulation.StepFuture` | simulator/src/circuit.c:259-278 | the waveform after a step is the posted waveform shifted by one |
| `Simulation.SolePosted` | simulator/src/circuit.c:261-263 | with a single driver the posted waveform depends on that driver alone, whatever the chip order |
| `Simulation.UndrivenPosted` | simulator/src/circuit.c:261-263 | a net without driver is not touched by any chip |
| `Simulation.SoleFinal` | simulator/src/circuit.c:259-310 | the value a net is heading for changes in a step only to what its one driver posts |
| `Simulation.WiredReads` | simulator/src/chip.c:252-311 | with the digits of every counter wired no step ever reads a null output |
| `Simulation.SetNetsPoked` | simulator/src/interface.c:204-245 | lists of `set` commands on undriven nets are among the pokes that runs allow between steps |
| `Simulation.PokedAreSets` | simulator/src/interface.c:204-245 | and every such poke is what some list of `set` commands does, so runs allow exactly those |
| `Simulation.NextNet` | simulator/src/circuit.c:259-278 | the same one-step law for runs with outside writes |
| `Simulation.TraceOk` | simulator/src/circuit.c:259-278 | every state of a run is valid if the first one is: the schedule invariant over any number of steps and outside writes |
| `Simulation.ReachableOk` | simulator/src/circuit.c:255-278 | so every state that the simulator reaches from its start is |
| `Chips.DriveIsEval` | simulator/src/chip.c:116-340 | whatever a combinational slot posts is its Boolean function of the current inputs, between 1 and its maximum delay, and exactly its delay for uniform gates |
| `Chips.KeepIsStable` | simulator/src/chip.c:116-340 | when a slot posts nothing although values may have changed, its function has not changed: no marked input it reads was missed |
| `Chips.EvalFromPins` | simulator/src/chip.c:116-340 | the function depends only on the pins it is said to read (for the selectors: the selected ones) |
| `Transport.NothingLost` | simulator/src/chip.c:116-340 | in every reachable state a combinational output has a marked input, or the value it is heading for is its function of the current inputs |
| `Transport.NextCaughtUp` | simulator/src/circuit.c:259-310 | the invariant behind it, kept by every step with any outside writes |
| `Transport.QuietIsFixpoint` | simulator/src/circuit.c:284-310 | with nothing pending and nothing marked a step changes nothing |
| `Transport.QuietIsConsistent` | simulator/src/circuit.c:284-310 | and every combinational output then equals its function of the current inputs |
| `Transport.DriveNeedsChange` | simulator/src/chip.c:109-356 | no chip posts anything unless one of its inputs, or the oscillator's own output, is marked |
| `Transport.TransportDelay` | simulator/src/chip.c:116-205 | over whole runs every uniform gate, and every delayed copy inside 74HC377 and 74AC161, has at time u+d the function of the inputs at time u, although chips are only evaluated when an input is marked |
| `Transport.TransportStart` | simulator/src/chip.c:116-205 | before its delay has passed a uniform output keeps its start value |
| `Settling.SettleAfter` | simulator/src/circuit.c:259-278 | for every acyclic single-driver circuit of combinational chips (selectors with enables low): if the inputs do not change from some time on, every net has its Boolean value from that time plus its longest path delay onward, whatever was pending |
| `Settling.Settle` | simulator/src/circuit.c:259-278 | the same for inputs that only hold as long as each net needs them |
| `Settling.ValuationConsistent` | simulator/src/chip.c:116-340 | such a valuation exists for every choice of inputs |
| `Settling.ValuationUnique` | simulator/src/chip.c:116-340 | and there is only one |
| `AdderChain.ChainAcyclic` | simulator/src/chip.c:313-340 | a chain of any number of 74HC283 chips is such a circuit |
| `AdderChain.LowSum` | simulator/src/chip.c:313-326 | in a settled chain the sum nets and the carry after j chips are the digits of the sum of the low 4j bits |
| `AdderChain.AdderSettles` | simulator/src/chip.c:313-340 | n chips add 4n-bit numbers with carry in and out, from 23n+4 steps after the inputs stop changing |
| `ChipOrder.StepSameView` | simulator/src/circuit.c:259-278 | a step from states that look alike gives states that look alike when the chips are permuted |
| `ChipOrder.ScriptedTrace` | simulator/src/circuit.c:259-278 | the scripted runs compared below are runs, so their states are valid |
| `ChipOrder.OrderIrrelevant` | simulator/src/circuit.c:259-278 | with a single driver for each net, any permutation of the chips gives the same value and the same mark on every net after any number of steps and outside writes |
| `Clocked.DelayedBy` | simulator/src/chip.c:342-350 | a net whose only driver always posts with one delay repeats what was posted that long ago, or keeps its value |
| `Landing.Landed` | simulator/src/circuit.c:259-310 | a value posted in time is on its net at a later time if nothing posted since has landed with another, for any number of slots of one chip |
| `Landing.TwoDelays` | simulator/src/circuit.c:284-310 | a slot with two delays: the post of the shorter one that lands now, else that of the longer one if not overtaken, else no change |
| `DataSheets.GateLaw` | simulator/src/chip.c:116-205 | the outputs of 74HC00, 02, 04, 08, 21, 30, 32 and 86 are what they say of the inputs 7, 9, 10, 11 or 12 steps earlier |
| `DataSheets.Selector2Law` | simulator/src/chip.c:207-226 | the 74AC157 over any run: 4 steps after the chosen input, 6 after the select, low 6 after ~Enable has risen, otherwise unchanged |
| `DataSheets.Selector2Off` | simulator/src/chip.c:207-226 | it stays low, and also after ~Enable has fallen, until the select or the chosen input changes |
| `DataSheets.Selector4Law` | simulator/src/chip.c:228-250 | the 74AC153 over any run |
| `DataSheets.Selector4Off` | simulator/src/chip.c:228-250 | low from 6 steps after one ~Enable has risen until both are low and a select or the chosen input changes |
| `DataSheets.AdderLaw` | simulator/src/chip.c:313-340 | the 74HC283 over any run: which of its delays applies, and what overtakes what |
| `DataSheets.OscillatorLaw` | simulator/src/chip.c:109-114 | CLK40M over any run, with its enable as it likes |
| `DataSheets.OscillatorHolds` | simulator/src/chip.c:109-114 | with its enable low it comes to rest within 12 steps and holds its value |
| `CounterLaw.DigitLaw` | simulator/src/chip.c:252-311 | a digit of the 74AC161 over any run: data of 4 steps before an edge with ~Load low 5 steps after it, toggled 5 steps after an edge that counts through the lower digits, low 6 steps after ~Clear has fallen, otherwise unchanged |
| `CounterLaw.ClearHolds` | simulator/src/chip.c:279-285 | from 6 steps after ~Clear has fallen the digits are low until an edge acts, even if ~Clear rises at once |
| `CounterLaw.RippleLaw` | simulator/src/chip.c:252-311 | the ripple output over any run, with its two places of posting and three delays; a load does not touch it |
| `CounterLaw.RippleClears` | simulator/src/chip.c:279-285 | with ~Clear low for six steps it is low from 9 steps after the fall until 7 steps after an edge |
| `Clocked.RegisterLaw` | simulator/src/chip.c:342-356 | a 74HC377 output at u+13 is the data at u-5 exactly when there was a rising edge at u with the load line low at u-2, otherwise it is what it was a step before |
| `Clocked.OscillatorPeriod` | simulator/src/chip.c:109-114 | with enable high from a fresh start the output at time u is high exactly when u mod 25 is at least 13 |
| `AluCircuit.AluAcyclic` | simulator/circuit/alu.src:31-150 | the ALU circuit is acyclic with the longest path times used below |
| `GateLevelAlu.AluWord` | simulator/circuit/alu.src:31-143 | the settled gates compute what calcALU computes for the complemented operation select: output, carry and zero, except that a right shift brings EC in at the top; the outputs are equal if and only if it does not |
| `GateLevelAlu.ShiftInDiffers` | simulator/circuit/alu.src:31-143 | settled gates whose output is not that of calcALU: a right shift of zero with the shift-in line high |
| `Accumulator.AluSettles` | simulator/circuit/alu.src:31-143 | from every reachable schedule, with inputs held, C, OUT and Z have those values after 64, 68 and 87 steps |
| `Accumulator.AccNext` | simulator/circuit/alu.src:144-149 | the accumulator register takes OUT on a rising clock |
| `Accumulator.AccCycle` | simulator/circuit/alu.src:31-150 | from one clock edge to the next, spaced past settling, the accumulator goes to calcALU of itself and the data |
| `Accumulator.AccFollows` | simulator/circuit/alu.src:31-150 | over any number of edges it follows the fold of calcALU over the operations |
| `Alu.AndOrByte` | emulator/src/alu.c:22-23 | the bitwise operations are bitwise on all eight bits and stay within a byte |
| `Alu.OrAbsorbed` | emulator/src/alu.c:23 | or-ing leaves the second operand as it is exactly when the first has no further bit |
| `Alu.UnsNot` | emulator/src/alu.c:8 | complementing the bits is subtracting from all ones |
| `CounterChain.IncrementValue` | simulator/src/chip.c:252-266 | counting a digit when all lower ones are 15 adds one modulo 16^n |
| `CounterChain.CountBit` | simulator/src/chip.c:252-258 | toggling each bit whose lower bits are set adds one to a digit |
| `CounterRun.EdgeSlots` | simulator/src/chip.c:252-311 | what a clock edge makes each chip of a settled chain post |
| `CounterRun.BitValue` | simulator/src/chip.c:252-258 | each output bit shows the new digit from five steps after the edge |
| `CounterRun.RippleTracks` | simulator/src/chip.c:298-309 | a ripple output follows the one below it five steps behind, transient glitches included |
| `CounterRun.RippleShrinks` | simulator/src/chip.c:298-309 | the glitches travel up and die out |
| `CounterRun.RippleValue` | simulator/src/chip.c:252-311 | from 7+5i steps after the edge ripple i has its final value |
| `CounterRun.OneEdge` | simulator/src/chip.c:252-311 | a settled chain is settled again 5n+4 steps after an edge, one further |
| `CounterRun.CountsEdges` | simulator/src/chip.c:252-311 | so after any number of edges at least that far apart |
| `CounterRun.CounterCounts` | simulator/src/chip.c:252-311 | n 74AC161 chips, each ripple output on the next count input, with clear and load inactive, show (start+k) mod 16^n after k edges, from five steps after each to the next or the end of the run, and each ripple net is high exactly when its digit and all lower ones are 15 |
| `CounterStart.StartReady` | simulator/src/chip.c:268-311 | from the start of the simulator, without a clock edge, such a chain has settled at its declared digits after 5n+1 steps |
| `CounterStart.CountsFromStart` | simulator/src/chip.c:252-311 | so from the start of the simulator it counts on from the declared number over any number of edges |
| `Microcode.WordIsNotError` | microcode/src/parser.c:154-174 | no control word built from valid symbols is the value that marks an error |
| `MicrocodeCompiler.IndexInjective` | microcode/src/parser.c:269-274 | different addresses have different places in a plane |
| `MicrocodeCompiler.Compiler.WriteOutput` | microcode/src/parser.c:280-285 | the three bytes put the word, with its inverted bits, at that address and nowhere else |
| `MicrocodeCompiler.Compiler.PutOpcode` | microcode/src/parser.c:259-278 | exactly the flag values that meet the condition are written |
| `MicrocodeCompiler.Compiler.PutControl` | microcode/src/parser.c:229-257 | one more rule: afterwards every address holds the last matching rule again |
| `MicrocodeCompiler.Compiler.AssertNextTokenType` | microcode/src/parser.c:126-138 | succeeds exactly when the next token has the type; otherwise an error is counted or the program left, and the position has advanced |
| `MicrocodeCompiler.Compiler.BuildControlWord` | microcode/src/parser.c:154-174 | reads thirteen symbols or fails having advanced |
| `MicrocodeCompiler.Compiler.PutModifiers` | microcode/src/parser.c:197-221 | stars, tildes and flags put the word at the step reached so far, on an 8-bit step counter |
| `MicrocodeCompiler.Compiler.PutRow` | microcode/src/parser.c:190-226 | one row, with the step back by one token when another row follows |
| `MicrocodeCompiler.Compiler.PutSequence` | microcode/src/parser.c:180-227 | ends despite the step back, and puts the rules of all rows or leaves an error |
| `MicrocodeCompiler.Compiler.ParseOpcode` | microcode/src/parser.c:140-145 | an opcode needs a name after it |
| `MicrocodeCompiler.Compiler.ParseAlternate` | microcode/src/parser.c:147-152 | only "reset" and "interrupt" may stand without an opcode |
| `MicrocodeCompiler.Compiler.ParseTokens` | microcode/src/parser.c:69-93 | ends on every token list; succeeds if and only if the list has rules; then every address of the ROM holds the last rule in file order that matches there, or all ones |
| `Program.WordExpressible` | microcode/hdr/control.h:57-135 | exactly the words whose three partial columns are in range can be written with the symbol table |
| `Program.WordOfSymbols` | microcode/src/parser.c:154-174 | the symbols written for a word are read back as that word |
| `Program.TextHasRules` | microcode/src/parser.c:69-227 | reading the text of a program tree gives the rules of the tree: round trip |
| `ProgramText.WordHasSymbols` | microcode/src/parser.c:154-174 | a word that was read is written with the very symbols it was read from |
| `ProgramText.AcceptedIsText` | microcode/src/parser.c:69-227 | and every token list without errors is the text of a program tree, so the two agree on all accepted input |
| `Program.SelectedConcat` | microcode/src/parser.c:280-285 | later rules override earlier ones, and only where they match |
| `Program.OneBlockDecides` | microcode/src/parser.c:229-257 | where only one block is selected it alone decides |
| `Program.LostLine` | microcode/src/parser.c:198-221 | a last line with a star or tilde but no flag behind it is lost if the file ends there, and only then |
| `Program.PlainLines` | microcode/src/parser.c:194-226 | lines without modifiers take one step each |
| `ControlRom.ControlInIsIndex` | emulator/src/control.c:12-18 | the or-ed address fields are the fields side by side; flags above 15 run into the opcode |
| `ControlRom.ReadsSelected` | emulator/src/control.c:4-26 | the emulator reads at every step, flags, opcode, interrupts and reset the word of the last rule that matches |
| `ControlRom.RomExists` | microcode/src/parser.c:69-93 | every list of rules has a ROM |
| `MicrocodeText.SymbolBits` | microcode/hdr/control.h:4-134 | every symbol of every column, used in the file or not, is found and stands for the bits that the enumeration gives its name |
| `MicrocodeText.RowWord` | microcode/src/parser.c:154-174 | a row with one symbol for each column is read as the bits of its symbols together |
| `MicrocodeText.SourceSays` | microcode/microcode.src:1-142 | the text of the file, as literal symbols, flags, stars and tildes, is a well-formed program with the control words of `MicrocodeSource` |
| `MicrocodeText.SourceCompiles` | microcode/microcode.src:1-142 | that text compiles without error to the rules of its lines |
| `RowMeaning.RowExecutes` | emulator/src/cpu.c:22-87 | for every row of symbols that the compiler accepts, the word it makes of them does in the processor what the symbols are named for: registers, buses, index, arithmetic, flags and memory |
| `MicrocodeWords.CompiledMicrocode` | microcode/src/parser.c:69-93 | a ROM made by the compiler from that file is one the theorems about instructions apply to |
| `Emulator.Computer.constructor` | emulator/src/memory.c:27-56 | all registers zero, the reset line low, no interrupt requested or let through, the keyboard lines let go, flash and microcode as loaded; video memory and RAM hold anything |
| `Emulator.Computer.GenerateInterrupt` | emulator/src/interrupt.c:12-14 | a request counts only when it is let through |
| `Emulator.Computer.SetInterruptReset` | emulator/src/interrupt.c:16-21 | shutting a line off also withdraws its request |
| `Emulator.Computer.ReadInterrupts` | emulator/src/interrupt.c:23-27 | the requests are latched |
| `Emulator.Computer.ReadMemory` | emulator/src/memory.c:89-95 | the byte of the address in its range, through the selected bank |
| `Emulator.Computer.WriteIO` | emulator/src/memory.c:120-131 | the output register and nothing else |
| `Emulator.Computer.WriteMemory` | emulator/src/memory.c:97-102 | the range tests fall through as written: a write to video memory also reaches RAM, and any write below the bank window may reach the output register |
| `MemoryMap.WriteReadsBack` | emulator/src/memory.c:89-102 | a byte written to video memory or RAM is read back at its address |
| `MemoryMap.WriteReaches` | emulator/src/memory.c:97-102 | every other address outside the port keeps what it shows, but for the RAM cell that a write to video memory also reaches |
| `MemoryMap.PortShows` | emulator/src/memory.c:104-131 | bit by bit what the port shows after any write: latched requests, LED, and the two keyboard lines, which a written 1 pulls low |
| `MemoryMap.RequestsLet` | emulator/src/interrupt.c:12-21 | which requests are let through or withdrawn after any write |
| `MemoryMap.RequestSeen` | emulator/src/cpu.c:79-83 | a request is latched by the next word that loads an opcode and by no other; then port and microcode see it if it was pending or let through |
| `Emulator.Computer.CalcALU` | emulator/src/alu.c:4-30 | in place, the result and flags that the value-level CalcAlu gives |
| `Emulator.Computer.LoadData` | emulator/src/cpu.c:66-83 | the load selected by the register field, with the bank switch and the opcode side effects |
| `Emulator.Computer.ResetCPU` | emulator/src/cpu.c:9-12 | step 0 and the reset line, nothing else |
| `Emulator.Computer.ExecuteControl` | emulator/src/cpu.c:22-87 | the registers updated one after the other come to the value-level Execute |
| `Emulator.Computer.ClockCPU` | emulator/src/cpu.c:14-88 | one clock of the object is one clock of the machine |
| `Emulator.Computer.Clocks` | emulator/src/interface.c:48-52 | any number of clocks is a run of the machine, with any keyboard lines, and with the interrupt requests that the display makes after clocks |
| `Machine.RunUnasked` | emulator/src/display.c:62-70 | without such requests it is the run that the theorems about instructions speak of |
| `Machine.MaskedIsRun` | emulator/src/cpu.c:14-88 | a masked run is a run, and without masking every run is one |
| `Masking.SameWord` | microcode/src/parser.c:229-257 | with the I flag clear, or during reset, the same word is read whatever the interrupt lines say: every rule for interrupts asks for the flag |
| `Masking.SameExecute` | emulator/src/cpu.c:14-88 | a word that does not read the input port does the same whatever the interrupt lines say |
| `Masking.MaskedHolds` | emulator/src/interrupt.c:12-27 | what a masked run reaches is reached with interrupts requested at any time, but for the record of the requests |
| `MicrocodeWords.OpcodeWord` | emulator/src/control.c:4-26 | the word at each step of an opcode whose lines have no modifiers |
| `Instructions.AdcSelected` | microcode/microcode.src:48-51 | the two conditional words of adc share step 0: the carry flag picks one |
| `Instructions.LodRuns` | microcode/microcode.src:1-3 | lod takes two clocks and loads A and the flags Z and N |
| `Instructions.AdcRuns` | microcode/microcode.src:48-51 | adc takes two clocks and adds the operand and the carry |
| `Instructions.StoRuns` | microcode/microcode.src:31-35 | sto takes four clocks and writes A |
| `Instructions.NopRuns` | microcode/microcode.src:45-46 | nop takes one clock |
| `Pointers.LodBaseRuns` | microcode/microcode.src:5-8 | three clocks load A from B + imm and set Z and N for it; X is left at imm |
| `Pointers.StoPointerRuns` | microcode/microcode.src:10-13 | three clocks write A at P + imm |
| `Pointers.LeaBaseRuns` | microcode/microcode.src:15-18 | P becomes B + imm |
| `Pointers.LeaPointerRuns` | microcode/microcode.src:20-23 | P moves on by imm |
| `Pointers.LeaRuns` | microcode/microcode.src:25-29 | P and T become the operand |
| `Pointers.MovPBRuns` | microcode/microcode.src:37-39 | B becomes P |
| `Pointers.MovPSRuns` | microcode/microcode.src:41-43 | S becomes P |
| `Pointers.JmpRuns` | microcode/microcode.src:75-78 | the machine goes on at the operand |
| `Pointers.StoreComesBack` | microcode/microcode.src:5-39 | what is stored relative to P is loaded again relative to B after P has been copied there, wherever P points in video memory or RAM |
| `Instructions.JsrRuns` | microcode/microcode.src:80-85 | jsr pushes the address of its last byte, high byte first, and jumps |
| `Instructions.RtsRuns` | microcode/microcode.src:87-91 | rts goes on behind the address on top of the stack |
| `Addition.TripleRuns` | microcode/microcode.src:1-51 | lod, adc, sto add one pair of bytes and the carry in eight clocks |
| `Addition.AdditionRuns` | microcode/microcode.src:1-51 | for every number of triples with distinct RAM targets the targets hold the base-256 digits of A+B+C0 and the carry flag its top; other RAM is unchanged |
| `SumProgram.SumFileAssembles` | assembler/src/parser.c:38-67 | the source of such a program, any number of triples and the reset word, assembles without error to its bytes |
| `SumProgram.LinkedProgram` | assembler/src/linker.c:64-69 | with the linked image in flash the processor sees the program in the bank window, and a reset starts it |
| `SumProgram.AssembledSumRuns` | emulator/src/cpu.c:9-88 | assembled, linked and started by a reset on the compiled microcode, it leaves the digits of A+B in RAM and the top in the carry flag after 13+8n clocks, in none of which the interrupt lines could be heard |
| `Uninterrupted.SumUninterrupted` | emulator/src/cpu.c:9-88 | so it does with interrupts requested at any time |
| `Calls.RoutineRuns` | microcode/microcode.src:80-91 | every tree of nested calls with loads and sums in it leaves A and F as its denotation says and returns, using no more stack than its depth |
| `Calls.BalancedCall` | microcode/microcode.src:80-91 | a call resumes behind its three bytes with S, P, B, X and K restored, and RAM outside the stack window unchanged |
| `Calls.PushedAddress` | microcode/microcode.src:83-84 | a pushed address is on top of the stack, and only the two bytes below are written |
| `Breaks.BrkRuns` | microcode/microcode.src:102-113 | brk pushes K, I, A and F and enters the handler at the word at $FFFC of bank 0 |
| `Breaks.RtiRuns` | microcode/microcode.src:93-100 | rti takes F, A (or-ed), the address and K from the stack |
| `Breaks.RtiRestoresA` | microcode/microcode.src:95 | rti gives A back if and only if the handler has left no bit in A that was not saved |
| `Breaks.RtiKeepsABit` | microcode/microcode.src:93-100 | a state from which the seven clocks of rti end with a 1 in A where a 0 was saved |
| `Breaks.BreakComesBack` | microcode/microcode.src:93-113 | brk into a handler that is one rti restores A, F, K, S and the other registers but T and goes on behind the brk after 18 clocks |
| `Uninterrupted.AdditionUninterrupted` | microcode/microcode.src:1-51 | the sum of any length, with the I flag clear and interrupts requested at any time |
| `Uninterrupted.CallUninterrupted` | microcode/microcode.src:80-91 | balanced calls of any depth, likewise |
| `Uninterrupted.BreakUninterrupted` | microcode/microcode.src:93-113 | a software interrupt and back, likewise |
| `HardwareInterrupts.SequenceWord` | microcode/microcode.src:115-127 | with an interrupt latched and the I flag set the sequence overrides every instruction |
| `HardwareInterrupts.LateWord` | microcode/src/parser.c:76 | from the seventh step on, with the flag clear, the ROM holds no word for any instruction but brk |
| `HardwareInterrupts.RequestFallsThrough` | microcode/microcode.src:115-127 | at any other instruction: K, address, A and F pushed, K and F cleared, then nothing fetched, and after 16 clocks the same instruction again, with I lower by nine times X |
| `HardwareInterrupts.RequestAtBrk` | microcode/microcode.src:102-127 | at brk: the handler is the word that T points behind, the one at $FFFE exactly if T is 1 |
| `Branches.TwoWaysDecide` | microcode/src/parser.c:190-226 | in a block whose last two lines go back to its first step for some flags, those flags choose between the two ways |
| `Branches.ForwardRuns` | microcode/microcode.src:53-69 | brz, brg and bng go on by their operand behind themselves exactly for their flags, and at the next instruction otherwise |
| `Branches.BraRuns` | microcode/microcode.src:71-73 | bra goes back by its operand and one more |
| `Branches.ForwardOperand` | assembler/src/object.c:221-234 | the operand of a branch to a later label, and exactly which labels are near enough |
| `Branches.BackwardOperand` | assembler/src/instruction.c:266-275 | the operand of a branch to an earlier label, and exactly which labels are near enough |
| `Branches.ForwardComesOut` | assembler/src/object.c:221-234 | with that operand a taken branch comes out one byte before its label; at the label exactly if the operand is one more |
| `Branches.BackwardComesOut` | assembler/src/instruction.c:266-275 | backwards one byte before the label as well; at the label exactly if the operand is one less |
| `ResetRun.ResetWord` | microcode/microcode.src:129-142 | during reset the word depends on the step alone, whatever flags, opcode and interrupts |
| `ResetRun.ResetRuns` | microcode/microcode.src:129-142 | from every state, 13 clocks after resetCPU: A, X, K, P, B, S and T are 0, only Z is set, I is the word at $FFFA of bank 0 and its opcode is fetched |
| `Uninterrupted.ResetUninterrupted` | microcode/microcode.src:129-142 | the same with any interrupts before and meanwhile, unless the first opcode is fetched from the port that shows them |
| `WholeSystem.Restart` | emulator/src/cpu.c:9-88 | on the object: resetCPU and 13 clocks leave its registers zero, only Z set, at the address in the reset word, whatever it did before and whatever interrupts are requested |
| `WholeSystem.CompileMicrocode` | microcode/src/parser.c:69-93 | the compiler, run on the shipped microcode, makes a ROM that the theorems about instructions apply to |
| `WholeSystem.LinkSum` | assembler/src/linker.c:17-69 | the assembler and the linker put the program that adds n pairs of digits into the image |
| `WholeSystem.BuildAndRun` | emulator/src/emulator.c:10-24 | microcode compiled, program assembled and linked, a new computer reset and clocked, with any keyboard lines and display requests: its RAM then holds the sum of any two n-byte numbers |
| `KeyboardDevice.CalcOddParity` | emulator/src/keyboard.c:177-182 | the folded exclusive or is true exactly when the byte has an even number of ones |
| `KeyboardDevice.SearchKeyTable` | emulator/src/keyboard.c:166-175 | the first entry of that key |
| `KeyboardDevice.Transmitter.GetKeyCodes` | emulator/src/keyboard.c:125-164 | the codes of the event and the ending zero are in the buffer, or the event is refused and the buffer unchanged |
| `KeyboardDevice.Transmitter.ClockKeyboard` | emulator/src/keyboard.c:51-123 | the static variables after a call are those of the value-level step, and in order for the next call |
| `KeyboardDevice.Transmitter.PullKeyClockLow` | emulator/src/keyboard.c:192-195 | holding the clock low stops a transmission |
| `KeyboardDevice.Transmitter.GetKeyData` | emulator/src/keyboard.c:188-190 | the data line is high when neither side pulls it low |
| `KeyboardDevice.Transmitter.PullKeyDataLow` | emulator/src/keyboard.c:197-199 | the computer's side of the data line, nothing else |
| `Keyboard.StepSends` | emulator/src/keyboard.c:51-123 | a step moves one bit from what is unsent to what is sampled, or none; the data line is still while the clock is low and when it falls; the index stays inside the buffer |
| `Keyboard.WireCarriesFrames` | emulator/src/keyboard.c:51-123 | over every run with both lines left alone by the computer, the falling edges sample from the data line exactly the frames of the accepted codes, in order: start 0, eight bits lowest first, odd parity, stop 1 |
| `Keyboard.FramesReceived` | emulator/src/keyboard.c:81-90 | a receiver that checks start, parity and stop gets the codes back |
| `Keyboard.ReceiverGetsCodes` | emulator/src/keyboard.c:51-164 | from idle to idle it gets exactly the codes of the accepted events |
| `KeyEvents.ReceiverGetsKeys` | emulator/src/keyboard.c:51-175 | from idle to idle, a receiver that reads 0xE0 and 0xF0 as marks finds in the bits on the wire, in order, each key of the table that went down or up, with its code and set: the events waiting at first or arriving, up to those still waiting |
| `KeyEvents.CodesMean` | emulator/src/keyboard.c:125-164 | the codes of an event say which key of the table it is about and whether it went up; no codes means no key |
| `KeyTiming.RunPosition` | emulator/src/keyboard.c:81-121 | within a byte no time is lost or gained: position in the byte and time passed agree, at three quarters of the nominal period for each bit |
| `KeyTiming.BitPeriod` | emulator/src/keyboard.c:6-8 | so from one falling edge to another it takes 44910 ns for each bit, up to two steps' length, and with short steps never the nominal period |
| `KeyTiming.Waits` | emulator/src/keyboard.c:59-79 | after an inhibit no event is taken before 50000 ns have passed |
| `Keyboard.TransmissionEnds` | emulator/src/keyboard.c:51-123 | with positive step times every accepted event is over after a bounded number of steps, and no other event is taken before |
| `Keyboard.StepSane` | emulator/src/keyboard.c:51-123 | every step, whatever the computer does to the lines, keeps a zero in the buffer at or behind the index, so the index stays inside |
| `Keyboard.SessionSane` | emulator/src/keyboard.c:51-199 | so in every sequence of events, steps, and pulls at either line |
| `AssemblerObject.ObjectFile.AddData` | assembler/src/object.c:161-174 | the low bytes of the value, lowest first, at the end of the segment |
| `AssemblerObject.ObjectFile.LookupSymbol` | assembler/src/symbol.c:51-61 | the first symbol of that name |
| `AssemblerObject.ObjectFile.ParseData` | assembler/src/parser.c:144-158 | the items of a data directive |
| `AssemblerObject.ObjectFile.AddName` | assembler/src/instruction.c:310-325 | an operand that is a name: its normalized value, or zeros and a reference |
| `AssemblerObject.ObjectFile.AddBranch` | assembler/src/instruction.c:259-279 | the distance of a backward branch, an error if it is too far, or a reference |
| `AssemblerObject.ObjectFile.ParsePatterns` | assembler/src/parser.c:38-61 | the object after all lines is that of the value-level pass |
| `AssemblerObject.ObjectFile.FillReference` | assembler/src/object.c:200-243 | the field of the reference is overwritten with the value its kind asks for, or an error is counted |
| `AssemblerObject.ObjectFile.ResolveReferences` | assembler/src/object.c:183-198 | all references patched; no error and nothing unresolved if and only if every name is known and every branch near enough |
| `Backpatching.TidyPass` | assembler/src/object.c:112-174 | after every file the current address is the end of the segment and every reference field lies inside emitted data |
| `Backpatching.PatchThenAppend` | assembler/src/object.c:200-243 | patching a field commutes with emitting more data |
| `Backpatching.PassesAgree` | assembler/src/parser.c:38-67 | line by line, the second pass has written what the first will have after patching |
| `Backpatching.OnePassIsTwoPass` | assembler/src/parser.c:38-67 | one pass with patching gives the same bytes as two passes with all labels known, and fails for the same files, when the names in data directives are declared before them |
| `LateNames.ExactlyWithoutLateNames` | assembler/src/parser.c:244-253 | of the files that assemble either way, exactly those come out the same both ways: a later-declared name in a data directive is emitted twice |
| `LateNames.LateNameDiffers` | assembler/src/parser.c:244-253 | a file of three lines that comes out differently |
| `Linker.IntersectingIsOverlap` | assembler/src/linker.c:81-90 | for segments with data the check is exactly about a common address |
| `Linker.CheckSegments` | assembler/src/linker.c:20-37 | no error is counted if and only if all pairs of segments of the object are disjoint |
| `Linker.Assemble` | assembler/src/linker.c:17-63 | parsing, patching, and then the checks for overlaps and unresolved names come to the value-level OnePass |
| `Linker.BuildImage` | assembler/src/linker.c:64-69 | the copies in the order of the list, over whatever the buffer held |
| `Linker.ImageInside` | assembler/src/linker.c:64-69 | every byte of every segment is in the image at its address |
| `Linker.ImageAnyOrder` | assembler/src/linker.c:64-69 | the image does not depend on the order of copying |
| `Linker.LongParts` | assembler/src/symbol.c:63-69 | the normalized addresses are the bank window offset and the bank number |
| `Linker.ReadsBack` | emulator/src/memory.c:89-95 | selecting the bank of a normalized flash address and reading its word gives the flash byte, for every flash address |
| `Linker.OperandReadsBack` | assembler/src/instruction.c:310-325 | the two or three bytes emitted for a name select, as word and bank, the flash byte at the name's address |
| `Linker.ImageReadsBack` | assembler/src/linker.c:64-68 | every byte of an assembled file in flash is found by the machine at its normalized address |

## Left out

- Reading circuit, microcode and assembly text from files, the token and pattern matchers, argument parsing, number literals, terminal, display and line editor: plumbing around what is modelled.
- Growing arrays with `malloc` and `realloc`, their failure, and raw pointers into them: sequences and indices stand for them; only the update nodes are modelled as linked objects.
- `busToInt`, `numNetsUpdated` and the printing of nets: easy.
- Circuits with null inputs. Null outputs are allowed, but not that a 74AC161 reads one of its own, where the program would stop; that the third counter of `simulator/circuit/8602.src:106-116` never comes to that, being cleared in time, is not proved.
- Circuits of selectors and counters in which enables fall or counters are loaded: the code posts nothing to a selector when its enable falls, nor to the ripple output after a load (`DataSheets.Selector2Off`, `CounterLaw.RippleLaw`), so the settling theorem needs the enables low and the theorems about chains keep load inactive.
- The video part of `simulator/circuit/8602.src`, the video timing ROM and the opcode table of `assembler/src/instruction.c:98-242` with its search, as data: an instruction comes with its opcode.
- The microcode compiler's 32-bit error count does not wrap around in the model.
- Out-of-range memory: a write to video memory whose RAM index is 16128 or more, and banks from 16 on, reach outside the buffers in C; the model ignores such writes and reads zero, and the instruction theorems keep to bank numbers below 16.
- Programs that let interrupts through: the theorems about instructions are for the I flag clear, whatever is requested, or for no requests; `HardwareInterrupts` follows a request up to the instruction that runs after it.
- Flash contents and the microcode ROM are loaded once and then only read, so they are sequences and not arrays in the emulator object.
- Keyboard transmissions that the computer interrupts by holding the clock low, or spoils by holding the data line low: the theorems about frames assume that neither happens; beyond that only the state's good order is shown. The 64-bit elapsed time does not wrap around. The key table of `emulator/hdr/key-table.h` as data: its codes are all plain, as `KeyEvents.ReceiverGetsKeys` asks.
- Scopes, exported symbols, defines, immediate operands that are names, address offsets, string literals and several objects in one link: not in the assembler's model. `fillReference` ignores offsets, and the overlap check of several objects skips pairs (`assembler/src/linker.c:20-24`).
- A source file without any origin: the linker's loop bound wraps around (`assembler/src/linker.c:21`).
- Linker.Assemble: leaves out a patch that would run past the end of the segment found for it, which only overlapping segments allow; the file is refused either way.
- Emulator.Computer.constructor: does not model the loading of the two files and its errors.
- CounterRun.CounterCounts: does not cover a chain that is cleared while it counts, as the one of `simulator/circuit/8602.src:86-116` is through its clear line; for each chip alone `CounterLaw.ClearHolds` does.
