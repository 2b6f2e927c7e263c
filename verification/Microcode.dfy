/** Microcode source: tokens, programs, and what a program says about every address of the control ROM. */
module Microcode {
  import opened Wrappers
  import opened Bits
  import opened ControlBits

  datatype Flag = FlagZ | FlagN | FlagC | FlagI

  datatype Token =
    | Opcode(opcode: Byte)
    | Name(name: string)
    | Symbol(a: char, b: char)
    | FlagIs(flag: Flag, value: bool)
    | Star
    | Tilde

  datatype Entry = Entry(control: Control, a: char, b: char)

  /** The symbols allowed in each of the 13 columns of a control word. */
  function Column(i: nat): seq<Entry>
    requires i < 13
  {
    if i == 0 then
      [Entry(CTRL_PO, 'P', 'O'), Entry(CTRL_BO, 'B', 'O'), Entry(CTRL_SO, 'S', 'O'), Entry(CTRL_IO, 'I', 'O'),
       Entry(CTRL_TO, 'T', 'O')]
    else if i == 1 then [Entry(CTRL_XZ, 'X', 'Z'), Entry(0, '-', '-')]
    else if i == 2 then [Entry(CTRL_XN, 'X', 'N'), Entry(0, '-', '-')]
    else if i == 3 then [Entry(CTRL_XC, 'X', 'C'), Entry(0, '-', '-')]
    else if i == 4 then
      [Entry(CTRL_PI, 'P', 'I'), Entry(CTRL_BI, 'B', 'I'), Entry(CTRL_SI, 'S', 'I'), Entry(CTRL_II, 'I', 'I'),
       Entry(CTRL_NA, '-', '-')]
    else if i == 5 then
      [Entry(CTRL_AO, 'A', 'O'), Entry(CTRL_FO, 'F', 'O'), Entry(CTRL_KO, 'K', 'O'), Entry(CTRL_MO, 'M', 'O'),
       Entry(CTRL_PL, 'P', 'L'), Entry(CTRL_PH, 'P', 'H'), Entry(CTRL_BL, 'B', 'L'), Entry(CTRL_BH, 'B', 'H'),
       Entry(CTRL_IL, 'I', 'L'), Entry(CTRL_IH, 'I', 'H'),
       Entry(CTRL_ZO, 'Z', 'O'), Entry(CTRL_HO, 'H', 'O')]
    else if i == 6 then [Entry(CTRL_EZ, 'E', 'Z'), Entry(0, '-', '-')]
    else if i == 7 then [Entry(CTRL_EN, 'E', 'N'), Entry(0, '-', '-')]
    else if i == 8 then [Entry(CTRL_EC, 'E', 'C'), Entry(0, '-', '-')]
    else if i == 9 then [Entry(CTRL_ES, 'E', 'S'), Entry(CTRL_ER, 'E', 'R'), Entry(CTRL_EA, 'E', 'A'),
                         Entry(CTRL_EO, 'E', 'O')]
    else if i == 10 then
      [Entry(CTRL_AI, 'A', 'I'), Entry(CTRL_XI, 'X', 'I'), Entry(CTRL_KI, 'K', 'I'), Entry(CTRL_MI, 'M', 'I'),
       Entry(CTRL_CI, 'C', 'I'),
       Entry(CTRL_TL, 'T', 'L'), Entry(CTRL_TH, 'T', 'H'), Entry(CTRL_ND, '-', '-')]
    else if i == 11 then [Entry(CTRL_FI, 'F', 'I'), Entry(0, '-', '-')]
    else [Entry(CTRL_FD, 'F', 'D'), Entry(0, '-', '-')]
  }

  function FindEntry(es: seq<Entry>, t: Token): Option<Control>
    requires t.Symbol?
  {
    if es == [] then None
    else if es[0].a == t.a && es[0].b == t.b then Some(es[0].control)
    else FindEntry(es[1..], t)
  }

  function Or(a: Control, b: Control): Control {
    a | b
  }

  /** The control word that starts in column `k` of the tokens `ts`. */
  function WordOf(ts: seq<Token>, k: nat): (w: Option<Control>)
    requires k <= 13
    ensures w.Some? ==> |ts| >= 13 - k
    decreases 13 - k
  {
    if k == 13 then Some(0)
    else if ts == [] || !ts[0].Symbol? then None
    else
      match (FindEntry(Column(k), ts[0]), WordOf(ts[1..], k + 1))
      case (Some(c), Some(w)) => Some(Or(c, w))
      case (_, _) => None
  }

  // ---- Rules: who gets which control word, in file order ----

  datatype Selector = OnOpcode(opcode: Byte) | OnInterrupt | OnReset

  datatype Condition = Always | When(flag: Flag, value: bool)

  datatype Rule = Rule(sel: Selector, step: nat, cond: Condition, control: Control)

  predicate IsMod(t: Token) {
    t.FlagIs? || t.Star? || t.Tilde?
  }

  /** How many tokens at the front of `ts` modify the control word before them. */
  function ModCount(ts: seq<Token>): (m: nat)
    ensures m <= |ts| && (m < |ts| ==> !IsMod(ts[m]))
    ensures forall i :: 0 <= i < m ==> IsMod(ts[i])
  {
    if ts == [] || !IsMod(ts[0]) then 0 else 1 + ModCount(ts[1..])
  }

  /** The step counter has 8 bits. */
  function NextStep(step: nat): (s: nat)
    ensures s < 256
  {
    (step + 1) % 256
  }

  function PreviousStep(step: nat): (s: nat)
    ensures s < 256
  {
    (step + 255) % 256
  }

  /** The step after the modifiers: `*` restarts at 0, `~` goes back one. */
  function EndStep(step: nat, mods: seq<Token>): nat
    decreases |mods|
  {
    if mods == [] then step
    else match mods[0]
         case Star => EndStep(0, mods[1..])
         case Tilde => EndStep(PreviousStep(step), mods[1..])
         case _ => EndStep(step, mods[1..])
  }

  /** One rule for each flag modifier, at the step reached when it is read. */
  function FlagRules(sel: Selector, c: Control, step: nat, mods: seq<Token>): seq<Rule>
    decreases |mods|
  {
    if mods == [] then []
    else match mods[0]
         case Star => FlagRules(sel, c, 0, mods[1..])
         case Tilde => FlagRules(sel, c, PreviousStep(step), mods[1..])
         case FlagIs(f, v) => [Rule(sel, step, When(f, v), c)] + FlagRules(sel, c, step, mods[1..])
         case _ => FlagRules(sel, c, step, mods[1..])
  }

  predicate HasFlag(mods: seq<Token>) {
    exists i :: 0 <= i < |mods| && mods[i].FlagIs?
  }

  /** A row without flag modifiers holds for all flags, except that the parser drops the row when the
      file ends in its `*` or `~`. */
  function RowRules(sel: Selector, c: Control, step: nat, mods: seq<Token>, atEnd: bool): seq<Rule> {
    FlagRules(sel, c, step, mods) +
    if HasFlag(mods) || (atEnd && mods != []) then [] else [Rule(sel, EndStep(step, mods), Always, c)]
  }

  datatype Row = Row(rules: seq<Rule>, rest: seq<Token>, step: nat)

  /** The row with control word `c`, which `ts` follows: its rules, the tokens after it and the step of the next row. */
  function RowWith(c: Control, ts: seq<Token>, sel: Selector, step: nat): (row: Row)
    ensures |row.rest| <= |ts|
  {
    var m := ModCount(ts);
    Row(RowRules(sel, c, step, ts[..m], ts[m..] == []), ts[m..], NextStep(EndStep(step, ts[..m])))
  }

  function RowOf(ts: seq<Token>, sel: Selector, step: nat): (r: Option<Row>)
    ensures r.Some? ==> |r.value.rest| < |ts|
  {
    match WordOf(ts, 0)
    case None => None
    case Some(c) => Some(RowWith(c, ts[13..], sel, step))
  }

  datatype Rows = Rows(rules: seq<Rule>, rest: seq<Token>)

  /** The rules of the rows at the front of `ts`, and the tokens after them. */
  function RowsOf(ts: seq<Token>, sel: Selector, step: nat): (r: Option<Rows>)
    ensures r.Some? ==> |r.value.rest| < |ts|
    decreases |ts|
  {
    match RowOf(ts, sel, step)
    case None => None
    case Some(row) =>
      if row.rest == [] || !row.rest[0].Symbol? then Some(Rows(row.rules, row.rest))
      else match RowsOf(row.rest, sel, row.step)
           case None => None
           case Some(more) => Some(Rows(row.rules + more.rules, more.rest))
  }

  /** The rules of a whole token list, or nothing if it is in error. */
  function RulesOf(ts: seq<Token>): Option<seq<Rule>>
    decreases |ts|
  {
    if ts == [] then Some([])
    else match Sequence(ts)
         case None => None
         case Some(rows) =>
           match RulesOf(rows.rest)
           case None => None
           case Some(more) => Some(rows.rules + more)
  }

  /** The rules of the sequence at the front of `ts`: an opcode with its name, "reset" or "interrupt". */
  function Sequence(ts: seq<Token>): (r: Option<Rows>)
    requires ts != []
    ensures r.Some? ==> |r.value.rest| < |ts|
  {
    match ts[0]
    case Opcode(o) => if |ts| >= 2 && ts[1].Name? then RowsOf(ts[2..], OnOpcode(o), 0) else None
    case Name(name) =>
      if name == "reset" then RowsOf(ts[1..], OnReset, 0)
      else if name == "interrupt" then RowsOf(ts[1..], OnInterrupt, 0)
      else None
    case _ => None
  }

  // ---- The control ROM ----

  datatype Address = Address(step: nat, flags: nat, opcode: nat, interrupt: nat, reset: nat)

  predicate IsAddress(a: Address) {
    a.step < 16 && a.flags < 16 && a.opcode < 256 && a.interrupt < 4 && a.reset < 2
  }

  function FlagBit(flag: Flag, flags: nat): bool {
    match flag
    case FlagZ => flags % 2 == 1
    case FlagN => flags / 2 % 2 == 1
    case FlagC => flags / 4 % 2 == 1
    case FlagI => flags / 8 % 2 == 1
  }

  /** "reset" covers all addresses with the reset line high, "interrupt" those with an interrupt line
      high, an opcode its own ones; the latter two only without reset. */
  predicate Selects(sel: Selector, a: Address) {
    match sel
    case OnReset => a.reset == 1
    case OnInterrupt => a.reset == 0 && a.interrupt != 0
    case OnOpcode(o) => a.reset == 0 && a.opcode == o
  }

  predicate Holds(cond: Condition, flags: nat) {
    match cond
    case Always => true
    case When(f, v) => FlagBit(f, flags) == v
  }

  predicate Matches(r: Rule, a: Address) {
    Selects(r.sel, a) && Holds(r.cond, a.flags) && r.step % 16 == a.step
  }

  const UNUSED: Control := 0xFFFFFF

  /** What the ROM holds for a control word: some bits are active low. */
  function Stored(control: Control): Control {
    control ^ INVERTED
  }

  /** The last rule in file order that matches decides; unmatched addresses keep all bits set. */
  function Selected(rules: seq<Rule>, a: Address): Control {
    if rules == [] then UNUSED
    else if Matches(rules[|rules| - 1], a) then Stored(rules[|rules| - 1].control)
    else Selected(rules[..|rules| - 1], a)
  }

  // ---- A control word is never the error mark ----

  lemma {:induction false} FoundIn(es: seq<Entry>, t: Token)
    requires t.Symbol? && FindEntry(es, t).Some?
    ensures exists i :: 0 <= i < |es| && es[i].control == FindEntry(es, t).value
  {
    if es[0].a == t.a && es[0].b == t.b {
      assert es[0].control == FindEntry(es, t).value;
    } else {
      FoundIn(es[1..], t);
      var i :| 0 <= i < |es| - 1 && es[1..][i].control == FindEntry(es, t).value;
      assert es[i + 1].control == FindEntry(es, t).value;
    }
  }

  /** Only the first column has bits in the address bus field, and never all of them. */
  lemma ColumnBits(k: nat, t: Token)
    requires k < 13 && t.Symbol? && FindEntry(Column(k), t).Some?
    ensures FindEntry(Column(k), t).value & 0x000700 in
            if k == 0 then {0x000, 0x100, 0x200, 0x300, 0x400} else {0x000}
  {
    FoundIn(Column(k), t);
    var i :| 0 <= i < |Column(k)| && Column(k)[i].control == FindEntry(Column(k), t).value;
    if k == 0 {
      FirstColumn(i);
    } else {
      OtherColumns(k, i);
    }
  }

  lemma FirstColumn(i: nat)
    requires i < |Column(0)|
    ensures Column(0)[i].control & 0x000700 in {0x000, 0x100, 0x200, 0x300, 0x400}
  {
  }

  lemma AddressColumn(k: nat, i: nat)
    requires k == 4 && i < |Column(k)|
    ensures Column(k)[i].control & 0x000700 == 0
  {
  }

  lemma DataColumn(k: nat, i: nat)
    requires k == 5 && i < |Column(k)|
    ensures Column(k)[i].control & 0x000700 == 0
  {
  }

  lemma OperationColumn(k: nat, i: nat)
    requires k == 9 && i < |Column(k)|
    ensures Column(k)[i].control & 0x000700 == 0
  {
  }

  lemma LoadColumn(k: nat, i: nat)
    requires k == 10 && i < |Column(k)|
    ensures Column(k)[i].control & 0x000700 == 0
  {
  }

  lemma SmallColumn(k: nat, i: nat)
    requires (0 < k < 4 || 5 < k < 9 || 10 < k < 13) && i < |Column(k)|
    ensures Column(k)[i].control & 0x000700 == 0
  {
  }

  lemma OtherColumns(k: nat, i: nat)
    requires 0 < k < 13 && i < |Column(k)|
    ensures Column(k)[i].control & 0x000700 == 0
  {
    hide Column;
    if k == 4 {
      AddressColumn(k, i);
    } else if k == 5 {
      DataColumn(k, i);
    } else if k == 9 {
      OperationColumn(k, i);
    } else if k == 10 {
      LoadColumn(k, i);
    } else {
      SmallColumn(k, i);
    }
  }

  lemma {:induction false} TailBits(ts: seq<Token>, k: nat)
    requires 0 < k <= 13 && WordOf(ts, k).Some?
    ensures WordOf(ts, k).value & 0x000700 == 0
    decreases 13 - k
  {
    hide Or, Column;
    if k < 13 {
      ColumnBits(k, ts[0]);
      TailBits(ts[1..], k + 1);
      OrField(FindEntry(Column(k), ts[0]).value, WordOf(ts[1..], k + 1).value);
    }
  }

  lemma OrField(a: Control, b: Control)
    requires b & 0x000700 == 0
    ensures Or(a, b) & 0x000700 == a & 0x000700
  {
  }

  /** No control word built from valid symbols is the value that marks an error (or an unused address). */
  lemma WordIsNotError(ts: seq<Token>)
    requires WordOf(ts, 0).Some?
    ensures WordOf(ts, 0).value != UNUSED
  {
    ColumnBits(0, ts[0]);
    TailBits(ts[1..], 1);
    OrField(FindEntry(Column(0), ts[0]).value, WordOf(ts[1..], 1).value);
    assert UNUSED & 0x000700 == 0x700;
  }
}
