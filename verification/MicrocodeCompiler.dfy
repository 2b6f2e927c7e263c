/** The microcode compiler: one pass over the tokens, writing the three byte planes of the control ROM. */
module MicrocodeCompiler {
  import opened Wrappers
  import opened Bits
  import opened ControlBits
  import opened Microcode

  const PLANE: nat := 0x80000
  const OUTPUT_SIZE: nat := 3 * 0x80000

  /** The index of an address in a plane: its fields side by side. */
  function Index(a: Address): nat {
    a.reset * 0x40000 + a.interrupt * 0x10000 + a.opcode * 0x100 + a.flags * 0x10 + a.step
  }

  lemma DigitsEqual(h: nat, l: nat, i: nat, m: nat)
    requires l < 16 && m < 16 && 16 * h + l == 16 * i + m
    ensures h == i && l == m
  {
  }

  lemma IndexInjective(a: Address, b: Address)
    requires IsAddress(a) && IsAddress(b)
    ensures Index(a) < PLANE && (Index(a) == Index(b) <==> a == b)
  {
    if Index(a) == Index(b) {
      var h, i := a.reset * 0x400 + a.interrupt * 0x100 + a.opcode, b.reset * 0x400 + b.interrupt * 0x100 + b.opcode;
      DigitsEqual(16 * h + a.flags, a.step, 16 * i + b.flags, b.step);
      DigitsEqual(h, a.flags, i, b.flags);
    }
  }

  function LowByte(w: Control): bv8 { (w & 0x0000FF) as bv8 }

  function MiddleByte(w: Control): bv8 { ((w & 0x00FF00) >> 8) as bv8 }

  function HighByte(w: Control): bv8 { ((w & 0xFF0000) >> 16) as bv8 }

  function Join(lo: bv8, mid: bv8, hi: bv8): Control {
    (lo as Control) | ((mid as Control) << 8) | ((hi as Control) << 16)
  }

  lemma JoinSplit(w: Control)
    ensures Join(LowByte(w), MiddleByte(w), HighByte(w)) == w
  {
  }

  /** The control word that the three planes hold at an address. */
  function RomWord(rom: seq<bv8>, a: Address): Control
    requires |rom| == OUTPUT_SIZE && IsAddress(a)
  {
    IndexInjective(a, a);
    Join(rom[Index(a)], rom[PLANE + Index(a)], rom[2 * PLANE + Index(a)])
  }

  datatype TokenType = TokOpcode | TokName | TokSymbol | TokFlag | TokStar | TokTilde

  function TypeOf(t: Token): TokenType {
    match t
    case Opcode(_) => TokOpcode
    case Name(_) => TokName
    case Symbol(_, _) => TokSymbol
    case FlagIs(_, _) => TokFlag
    case Star => TokStar
    case Tilde => TokTilde
  }

  lemma OrAssoc(a: Control, b: Control, c: Control)
    ensures Or(a, Or(b, c)) == Or(Or(a, b), c)
    ensures Or(0, a) == a && Or(a, 0) == a
  {
  }

  /** The parsed columns `done` and the rest of the word make up the whole word. */
  ghost predicate Partial(ts: seq<Token>, i: nat, done: Control)
    requires i <= 13
  {
    i <= |ts| && WordOf(ts, 0) == match WordOf(ts[i..], i) { case Some(w) => Some(Or(done, w)) case None => None }
  }

  lemma ZeroOr(ts: seq<Token>)
    ensures Partial(ts, 0, 0)
  {
    hide WordOf, Or;
    assert ts[0..] == ts;
    match WordOf(ts, 0)
    case None =>
    case Some(w) => OrAssoc(w, 0, 0);
  }

  lemma PartialNext(ts: seq<Token>, i: nat, done: Control, c: Control)
    requires i < 13 && Partial(ts, i, done) && i < |ts| && ts[i].Symbol? && FindEntry(Column(i), ts[i]) == Some(c)
    ensures Partial(ts, i + 1, Or(done, c))
  {
    hide Column, FindEntry, Or;
    assert ts[i..][1..] == ts[i + 1..];
    match WordOf(ts[i + 1..], i + 1)
    case None =>
    case Some(w) => OrAssoc(done, c, w);
  }

  lemma HasFlagNext(mods: seq<Token>, i: nat)
    requires i < |mods|
    ensures HasFlag(mods[..i + 1]) == (HasFlag(mods[..i]) || mods[i].FlagIs?)
  {
    assert mods[..i + 1][i] == mods[i];
    assert forall j :: 0 <= j < i ==> mods[..i + 1][j] == mods[..i][j];
  }

  /** All rules of the sequence, after those put `before` it, are those put so far and those of the remaining rows. */
  ghost predicate Continues(all: Option<Rows>, before: seq<Rule>, put: seq<Rule>, more: Option<Rows>) {
    match all
    case None => more.None?
    case Some(rows) => more.Some? && before + rows.rules == put + more.value.rules && rows.rest == more.value.rest
  }

  lemma StartsWith(all: Option<Rows>, before: seq<Rule>)
    ensures Continues(all, before, before, all)
  {
  }

  lemma ContinuesNext(all: Option<Rows>, before: seq<Rule>, put: seq<Rule>, ts: seq<Token>, sel: Selector, step: nat)
    requires Continues(all, before, put, RowsOf(ts, sel, step))
    ensures match RowOf(ts, sel, step)
            case None => all.None?
            case Some(row) =>
              if row.rest != [] && row.rest[0].Symbol?
              then Continues(all, before, put + row.rules, RowsOf(row.rest, sel, row.step))
              else all.Some? && before + all.value.rules == put + row.rules && all.value.rest == row.rest
  {
    hide RowOf;
    match RowOf(ts, sel, step)
    case None =>
    case Some(row) =>
      if row.rest != [] && row.rest[0].Symbol? {
        match RowsOf(row.rest, sel, row.step)
        case None =>
        case Some(more) => assert put + (row.rules + more.rules) == put + row.rules + more.rules;
      }
  }

  lemma RuleOfRow(sel: Selector, c: Control, step: nat, mods: seq<Token>, atEnd: bool)
    ensures RowRules(sel, c, step, mods, atEnd) ==
            if HasFlag(mods) || (atEnd && mods != []) then FlagRules(sel, c, step, mods)
            else FlagRules(sel, c, step, mods) + [Rule(sel, EndStep(step, mods), Always, c)]
  {
    hide FlagRules, HasFlag, EndStep;
  }

  /** A row with the control word `c`, the modifiers `mods` and what follows, which is no modifier. */
  lemma PartsOfRow(c: Control, sel: Selector, step: nat, ts: seq<Token>)
    ensures var row, mods, rest := RowWith(c, ts, sel, step), ts[..ModCount(ts)], ts[ModCount(ts)..];
            row.rest == rest && row.step == NextStep(EndStep(step, mods)) && (rest != [] ==> !IsMod(rest[0])) &&
            row.rules ==
            if HasFlag(mods) || (rest == [] && mods != []) then FlagRules(sel, c, step, mods)
            else FlagRules(sel, c, step, mods) + [Rule(sel, EndStep(step, mods), Always, c)]
  {
    hide FlagRules, HasFlag, EndStep, NextStep, RowRules, ModCount;
    RuleOfRow(sel, c, step, ts[..ModCount(ts)], ts[ModCount(ts)..] == []);
  }

  lemma NoModifiers(sel: Selector, c: Control, step: nat)
    ensures ModCount([]) == 0 && !HasFlag([]) && FlagRules(sel, c, step, []) == [] && EndStep(step, []) == step
  {
  }

  /** The file ends with the control word itself. */
  lemma LastRow(c: Control, sel: Selector, step: nat)
    ensures RowWith(c, [], sel, step).rules == [Rule(sel, step, Always, c)] && RowWith(c, [], sel, step).rest == []
  {
    hide FlagRules, HasFlag, EndStep, ModCount, RowRules, NextStep;
    NoModifiers(sel, c, step);
    RuleOfRow(sel, c, step, [], true);
    var none: seq<Token> := [];
    assert none[..0] == [] && none[0..] == [];
  }

  /** The whole list has the rules put so far and those of the tokens `ts`, or both are in error. */
  ghost predicate Remains(all: Option<seq<Rule>>, put: seq<Rule>, ts: seq<Token>) {
    match all
    case None => RulesOf(ts).None?
    case Some(rules) => RulesOf(ts).Some? && rules == put + RulesOf(ts).value
  }

  lemma NotASequence(ts: seq<Token>)
    requires ts != [] && !ts[0].Opcode? && !ts[0].Name?
    ensures Sequence(ts).None?
  {
  }

  lemma RemainsNext(all: Option<seq<Rule>>, put: seq<Rule>, ts: seq<Token>)
    requires ts != [] && Remains(all, put, ts)
    ensures match Sequence(ts)
            case None => all.None?
            case Some(rows) => Remains(all, put + rows.rules, rows.rest)
  {
    hide Sequence;
    match Sequence(ts)
    case None =>
    case Some(rows) =>
      match RulesOf(rows.rest)
      case None =>
      case Some(more) => assert put + (rows.rules + more) == put + rows.rules + more;
  }

  function SelectorOf(reset: bool, interrupt: bool, opcode: Byte): Selector {
    if reset then OnReset else if interrupt then OnInterrupt else OnOpcode(opcode)
  }

  class Compiler {
    const token: seq<Token>
    const output: array<bv8>
    var tokenIdx: nat
    var errorCount: nat
    var exited: bool            // the program has been left through `exit(1)`
    ghost var rules: seq<Rule>  // everything put so far, in order

    ghost function At(a: Address): Control
      requires output.Length == OUTPUT_SIZE && IsAddress(a)
      reads output
    {
      RomWord(output[..], a)
    }

    /** The output buffer says what the rules put so far say. */
    ghost predicate Valid()
      reads `rules, output
    {
      output.Length == OUTPUT_SIZE && forall a :: IsAddress(a) ==> At(a) == Selected(rules, a)
    }

    constructor (token: seq<Token>)
      ensures Valid() && this.token == token && rules == [] && tokenIdx == 0 && errorCount == 0 && !exited &&
              fresh(output)
    {
      this.token := token;
      output := new bv8[OUTPUT_SIZE](_ => 0xFF);
      tokenIdx, errorCount, exited, rules := 0, 0, false, [];
    }

    // ---- Writing ----

    method WriteOutput(control: Control, a: Address)
      requires output.Length == OUTPUT_SIZE && IsAddress(a)
      modifies output
      ensures forall b :: IsAddress(b) ==> At(b) == if b == a then Stored(control) else old(At(b))
    {
      hide Index, Join, LowByte, MiddleByte, HighByte, Stored;
      var inverted := Stored(control);
      IndexInjective(a, a);
      output[Index(a)] := LowByte(inverted);
      output[PLANE + Index(a)] := MiddleByte(inverted);
      output[2 * PLANE + Index(a)] := HighByte(inverted);
      JoinSplit(inverted);
      forall b | IsAddress(b)
        ensures At(b) == if b == a then inverted else old(At(b))
      {
        IndexInjective(a, b);
        IndexInjective(b, b);
      }
    }

    /** All flag values of one line of addresses. */
    method PutOpcode(control: Control, reset: nat, interrupt: nat, opcode: Byte, step: nat, cond: Condition)
      requires output.Length == OUTPUT_SIZE && reset < 2 && interrupt < 4
      modifies output
      ensures forall b :: IsAddress(b) ==>
                At(b) == if b.reset == reset && b.interrupt == interrupt && b.opcode == opcode &&
                Holds(cond, b.flags) && step % 16 == b.step
                         then Stored(control) else old(At(b))
    {
      hide Holds, Index, Join, Stored;
      for i := 0 to 16
        invariant forall b :: IsAddress(b) ==>
                    At(b) == if b.reset == reset && b.interrupt == interrupt && b.opcode == opcode && b.flags < i &&
                    Holds(cond, b.flags) && step % 16 == b.step
                             then Stored(control) else old(At(b))
      {
        if Holds(cond, i) {
          WriteOutput(control, Address(step % 16, i, opcode, interrupt, reset));
        }
      }
    }

    /** All opcodes from the interrupt lines `first` on. */
    method PutAllOpcodes(control: Control, reset: nat, first: nat, step: nat, cond: Condition)
      requires output.Length == OUTPUT_SIZE && reset < 2 && first <= 4
      modifies output
      ensures forall b :: IsAddress(b) ==>
                At(b) == if b.reset == reset && first <= b.interrupt && Holds(cond, b.flags) && step % 16 == b.step
                         then Stored(control) else old(At(b))
    {
      hide Holds, Index, Join, Stored;
      for i := first to 4
        invariant forall b :: IsAddress(b) ==>
                    At(b) == if b.reset == reset && first <= b.interrupt < i && Holds(cond, b.flags) &&
                    step % 16 == b.step
                             then Stored(control) else old(At(b))
      {
        for j := 0 to 256
          invariant forall b :: IsAddress(b) ==>
                      At(b) == if b.reset == reset &&
                      (first <= b.interrupt < i || (b.interrupt == i && b.opcode < j)) &&
                                  Holds(cond, b.flags) && step % 16 == b.step
                               then Stored(control) else old(At(b))
        {
          PutOpcode(control, reset, i, j, step, cond);
        }
      }
    }

    /** One more rule: it overrides the earlier ones where it matches. */
    method PutControl(control: Control, reset: bool, interrupt: bool, opcode: Byte, step: nat, cond: Condition)
      requires Valid()
      modifies output, `rules
      ensures Valid() && rules == old(rules) + [Rule(SelectorOf(reset, interrupt, opcode), step, cond, control)]
    {
      hide Holds, Index, Join, Stored;
      if reset {
        PutAllOpcodes(control, 1, 0, step, cond);
      } else if interrupt {
        PutAllOpcodes(control, 0, 1, step, cond);
      } else {
        for i := 0 to 4
          modifies output
          invariant forall b :: IsAddress(b) ==>
                      At(b) == if b.reset == 0 && b.interrupt < i && b.opcode == opcode && Holds(cond, b.flags) &&
                      step % 16 == b.step
                               then Stored(control) else old(At(b))
        {
          PutOpcode(control, 0, i, opcode, step, cond);
        }
      }
      rules := rules + [Rule(SelectorOf(reset, interrupt, opcode), step, cond, control)];
      assert rules[..|rules| - 1] == old(rules);
    }

    // ---- Reading ----

    /** The tokens after the current one. */
    ghost function After(): seq<Token>
      reads this
    {
      if tokenIdx < |token| then token[tokenIdx + 1..] else []
    }

    /** What every failing call leaves behind: an error counted or the program left, and progress made. */
    twostate predicate Failed()
      reads this
    {
      tokenIdx > old(tokenIdx) && errorCount >= old(errorCount) &&
      (exited || (!old(exited) && errorCount > old(errorCount)))
    }

    /** What parsing a sequence achieves: its rules are put and the rest is left, or an error is on record. */
    ghost predicate Reached(result: Option<Rows>, start: nat, before: seq<Rule>, errors: nat)
      reads this
    {
      start < tokenIdx <= |token| &&
      match result
      case Some(rows) => rules == before + rows.rules && token[tokenIdx..] == rows.rest && errorCount == errors &&
        !exited
      case None => errorCount >= errors && (exited || errorCount > errors)
    }

    /** What parsing one row achieves; when another row follows, the current token is the one before it. */
    ghost predicate RowReached(result: Option<Row>, again: bool, step: nat, start: int, before: seq<Rule>, errors: nat)
      reads this
    {
      start < tokenIdx <= |token| &&
      match result
      case Some(row) => rules == before + row.rules && errorCount == errors && !exited &&
                        again == (row.rest != [] && row.rest[0].Symbol?) &&
                        if again then tokenIdx < |token| && After() == row.rest && step == row.step
                        else token[tokenIdx..] == row.rest
      case None => errorCount >= errors && (exited || errorCount > errors) && !again
    }

    method DiscardSequence()
      requires tokenIdx <= |token|
      modifies `tokenIdx
      ensures old(tokenIdx) <= tokenIdx <= |token|
      ensures tokenIdx == old(tokenIdx) ==> tokenIdx == |token| || token[tokenIdx].Opcode?
    {
      while tokenIdx < |token| && !token[tokenIdx].Opcode?
        invariant old(tokenIdx) <= tokenIdx <= |token|
      {
        tokenIdx := tokenIdx + 1;
      }
    }

    method UnexpectedToken()
      requires tokenIdx < |token|
      modifies `tokenIdx, `errorCount
      ensures old(tokenIdx) <= tokenIdx <= |token| && errorCount == old(errorCount) + 1
      ensures tokenIdx == old(tokenIdx) ==> token[tokenIdx].Opcode?
    {
      errorCount := errorCount + 1;
      DiscardSequence();
    }

    method AdvanceTokenIdx() returns (more: bool)
      modifies `tokenIdx
      ensures tokenIdx == old(tokenIdx) + 1 && more == (tokenIdx < |token|)
    {
      tokenIdx := tokenIdx + 1;
      more := tokenIdx < |token|;
    }

    method AssertNextTokenType(kind: TokenType) returns (ok: bool)
      requires tokenIdx < |token| && !exited
      modifies `tokenIdx, `errorCount, `exited
      ensures ok == old(After() != [] && TypeOf(After()[0]) == kind)
      ensures ok ==> tokenIdx == old(tokenIdx) + 1 < |token| && errorCount == old(errorCount) && !exited
      ensures !ok ==> Failed() && tokenIdx <= |token|
    {
      var more := AdvanceTokenIdx();
      if !more {
        exited := true;
        return false;
      }
      if TypeOf(token[tokenIdx]) != kind {
        UnexpectedToken();
        return false;
      }
      return true;
    }

    /** Looks the current token up in a column of the symbol table. */
    method FindControl(column: seq<Entry>) returns (found: Option<Control>)
      requires tokenIdx < |token| && token[tokenIdx].Symbol?
      ensures found == FindEntry(column, token[tokenIdx])
    {
      var j := 0;
      while j < |column|
        invariant j <= |column| && FindEntry(column, token[tokenIdx]) == FindEntry(column[j..], token[tokenIdx])
      {
        if token[tokenIdx].a == column[j].a && token[tokenIdx].b == column[j].b {
          return Some(column[j].control);
        }
        assert column[j..][1..] == column[j + 1..];
        j := j + 1;
      }
      return None;
    }

    /** Column `i` of a control word. */
    method AddSymbol(i: nat, control: Control) returns (ok: bool, next: Control)
      requires i < 13 && tokenIdx < |token| && !exited
      modifies `tokenIdx, `errorCount, `exited
      ensures ok == (old(After()) != [] && old(After())[0].Symbol? && FindEntry(Column(i), old(After())[0]).Some?)
      ensures ok ==> tokenIdx == old(tokenIdx) + 1 < |token| && errorCount == old(errorCount) && !exited
      ensures ok ==> next == Or(control, FindEntry(Column(i), old(After())[0]).value)
      ensures !ok ==> Failed() && tokenIdx <= |token|
    {
      hide Column, FindEntry, Or;
      next := control;
      ok := AssertNextTokenType(TokSymbol);
      if ok {
        var found := FindControl(Column(i));
        match found
        case None =>
          errorCount := errorCount + 1;
          DiscardSequence();
          ok := false;
        case Some(c) =>
          next := Or(control, c);
      }
    }

    method BuildControlWord() returns (control: Control)
      requires tokenIdx < |token| && !exited
      modifies `tokenIdx, `errorCount, `exited
      ensures match WordOf(old(After()), 0)
              case Some(w) => control == w && tokenIdx == old(tokenIdx) + 13 < |token| &&
                errorCount == old(errorCount) && !exited
              case None => control == UNUSED && Failed() && tokenIdx <= |token|
    {
      hide Column, FindEntry, Or;
      control := 0;
      ghost var ts := After();
      ZeroOr(ts);
      for i := 0 to 13
        invariant tokenIdx == old(tokenIdx) + i < |token| && errorCount == old(errorCount) && !exited
        invariant Partial(ts, i, control)
      {
        assert After() == ts[i..];
        var ok, next := AddSymbol(i, control);
        if !ok {
          return UNUSED;
        }
        PartialNext(ts, i, control, FindEntry(Column(i), ts[i]).value);
        control := next;
      }
      OrAssoc(control, 0, 0);
    }

    /** The modifiers after a control word: a flag puts the word at the step reached so far. `more` tells
        whether there is a token after them. */
    method PutModifiers(control: Control, reset: bool, interrupt: bool, opcode: Byte, start: nat)
      returns (step: nat, putControl: bool, more: bool)
      requires Valid() && tokenIdx < |token|
      modifies output, `rules, `tokenIdx
      ensures Valid() && old(tokenIdx) <= tokenIdx <= |token|
      ensures var ts := old(token[tokenIdx..]);
              var mods := ts[..ModCount(ts)];
              step == EndStep(start, mods) && putControl == HasFlag(mods) && more == (ModCount(ts) < |ts|) &&
              token[tokenIdx..] == ts[ModCount(ts)..] &&
              rules == old(rules) + FlagRules(SelectorOf(reset, interrupt, opcode), control, start, mods)
    {
      hide SelectorOf, Valid, PreviousStep, HasFlag;
      assert !HasFlag([]) by { NoModifiers(OnReset, 0, 0); }
      ghost var ts := token[tokenIdx..];
      ghost var mods := ts[..ModCount(ts)];
      ghost var sel := SelectorOf(reset, interrupt, opcode);
      ghost var i := 0;
      step, putControl := start, false;
      assert mods[0..] == mods;
      while !token[tokenIdx].Symbol? && !token[tokenIdx].Opcode? && !token[tokenIdx].Name?
        invariant Valid() && tokenIdx == old(tokenIdx) + i < |token| && i <= |mods|
        invariant step >= 0 && EndStep(start, mods) == EndStep(step, mods[i..])
        invariant putControl == HasFlag(mods[..i])
        invariant rules + FlagRules(sel, control, step, mods[i..]) == old(rules) + FlagRules(sel, control, start, mods)
        decreases |token| - tokenIdx
      {
        assert ts[i] == token[tokenIdx] && i < |mods|;
        assert mods[i..][0] == ts[i] && mods[i..][1..] == mods[i + 1..];
        HasFlagNext(mods, i);
        match token[tokenIdx] {
          case Star => step := 0;
          case Tilde => step := PreviousStep(step);
          case FlagIs(flag, value) =>
            PutControl(control, reset, interrupt, opcode, step, When(flag, value));
            putControl := true;
        }
        i := i + 1;
        more := AdvanceTokenIdx();
        if !more {
          assert mods[..i] == mods && mods[i..] == [];
          return;
        }
      }
      more := true;
      assert ts[i] == token[tokenIdx];
      assert mods[..i] == mods && mods[i..] == [];
    }

    /** Tells the control words from the value that marks an error. */
    method TryControlWord() returns (ok: bool, control: Control)
      requires tokenIdx < |token| && !exited
      modifies `tokenIdx, `errorCount, `exited
      ensures match WordOf(old(After()), 0)
              case Some(w) => ok && control == w && tokenIdx == old(tokenIdx) + 13 < |token| &&
                errorCount == old(errorCount) && !exited
              case None => !ok && Failed() && tokenIdx <= |token|
    {
      hide WordOf;
      ghost var ts := After();
      control := BuildControlWord();
      ok := !exited && control != UNUSED;
      if WordOf(ts, 0).Some? {
        WordIsNotError(ts);
      }
    }

    /** What follows the control word of a row, when anything follows it. */
    method FinishRow(control: Control, reset: bool, interrupt: bool, opcode: Byte, start: nat)
      returns (step: nat, again: bool)
      requires Valid() && 0 < tokenIdx < |token| && !exited
      modifies output, `rules, `tokenIdx
      ensures Valid()
      ensures RowReached(Some(RowWith(control, old(token[tokenIdx..]), SelectorOf(reset, interrupt, opcode), start)),
                         again, step, old(tokenIdx) - 2, old(rules), errorCount)
    {
      hide SelectorOf, ModCount, EndStep, NextStep, FlagRules, HasFlag, RowWith, Valid;
      PartsOfRow(control, SelectorOf(reset, interrupt, opcode), start, token[tokenIdx..]);
      again := false;
      var putControl, more;
      step, putControl, more := PutModifiers(control, reset, interrupt, opcode, start);
      if !more {
        return;
      }
      if !putControl {
        PutControl(control, reset, interrupt, opcode, step, Always);
      }
      if token[tokenIdx].Opcode? || token[tokenIdx].Name? {
        return;
      }
      tokenIdx := tokenIdx - 1;
      step, again := NextStep(step), true;
    }

    /** One row; `again` if another one follows. The current token is the one before the row. */
    method PutRow(reset: bool, interrupt: bool, opcode: Byte, start: nat) returns (step: nat, again: bool)
      requires Valid() && tokenIdx < |token| && !exited
      modifies output, `rules, `tokenIdx, `errorCount, `exited
      ensures Valid()
      ensures RowReached(RowOf(old(After()), SelectorOf(reset, interrupt, opcode), start), again, step,
                         old(tokenIdx), old(rules), old(errorCount))
    {
      hide WordOf, SelectorOf, RowWith, Valid;
      ghost var ts, sel := After(), SelectorOf(reset, interrupt, opcode);
      step, again := start, false;
      var ok, control := TryControlWord();
      if !ok {
        return;
      }
      var more := AdvanceTokenIdx();
      if !more {
        PutControl(control, reset, interrupt, opcode, step, Always);
        LastRow(control, sel, step);
        assert ts[13..] == [];
        return;
      }
      assert token[tokenIdx..] == ts[13..];
      step, again := FinishRow(control, reset, interrupt, opcode, start);
    }

    /** The rows of one opcode, "reset" or "interrupt"; the current token is the one before the first row. */
    method PutSequence(reset: bool, interrupt: bool, opcode: Byte)
      requires Valid() && tokenIdx < |token| && !exited
      modifies output, `rules, `tokenIdx, `errorCount, `exited
      ensures Valid()
      ensures Reached(RowsOf(old(After()), SelectorOf(reset, interrupt, opcode), 0), old(tokenIdx), old(rules),
                      old(errorCount))
    {
      hide SelectorOf, RowOf, RowsOf, Continues, Valid;
      ghost var sel := SelectorOf(reset, interrupt, opcode);
      ghost var all := RowsOf(After(), sel, 0);
      var step: nat, again := 0, true;
      StartsWith(all, rules);
      while again
        invariant Valid() && old(tokenIdx) <= tokenIdx <= |token|
        invariant again ==> tokenIdx < |token| && errorCount == old(errorCount) && !exited
        invariant again ==> Continues(all, old(rules), rules, RowsOf(After(), sel, step))
        invariant !again ==> Reached(all, old(tokenIdx), old(rules), old(errorCount))
        decreases |token| - tokenIdx, again
      {
        ContinuesNext(all, old(rules), rules, After(), sel, step);
        step, again := PutRow(reset, interrupt, opcode, step);
      }
    }

    method ParseOpcode()
      requires Valid() && tokenIdx < |token| && token[tokenIdx].Opcode? && !exited
      modifies output, `rules, `tokenIdx, `errorCount, `exited
      ensures Valid() && Reached(Sequence(old(token[tokenIdx..])), old(tokenIdx), old(rules), old(errorCount))
    {
      hide RowsOf, Valid;
      ghost var ts := token[tokenIdx..];
      var opcode := token[tokenIdx].opcode;
      assert ts[1..] == After();
      var ok := AssertNextTokenType(TokName);
      if !ok {
        return;
      }
      assert ts[2..] == After();
      PutSequence(false, false, opcode);
    }

    method ParseAlternate()
      requires Valid() && tokenIdx < |token| && token[tokenIdx].Name? && !exited
      modifies output, `rules, `tokenIdx, `errorCount, `exited
      ensures Valid() && Reached(Sequence(old(token[tokenIdx..])), old(tokenIdx), old(rules), old(errorCount))
    {
      hide RowsOf, Valid;
      ghost var ts := token[tokenIdx..];
      var name := token[tokenIdx].name;
      assert ts[1..] == After();
      if name == "reset" {
        PutSequence(true, false, 0);
      } else if name == "interrupt" {
        PutSequence(false, true, 0);
      } else {
        UnexpectedToken();
      }
    }

    /** Whether the whole token list is free of errors so far, and what is still to be put. */
    ghost predicate Pending()
      reads this
    {
      if errorCount > 0 || exited then RulesOf(token).None?
      else tokenIdx <= |token| &&
           Remains(RulesOf(token), rules, token[tokenIdx..])
    }

    /** Compiles the whole list. It fails exactly when the list has no rules, and otherwise the ROM holds at
        every address the last rule that matches there. */
    method ParseTokens() returns (ok: bool)
      requires Valid() && tokenIdx == 0 && errorCount == 0 && !exited && rules == []
      modifies output, `rules, `tokenIdx, `errorCount, `exited
      ensures ok == RulesOf(token).Some?
      ensures output.Length == OUTPUT_SIZE
      ensures ok ==> forall a :: IsAddress(a) ==> RomWord(output[..], a) == Selected(RulesOf(token).value, a)
    {
      hide Sequence, Selected, Index;
      assert token[0..] == token;
      while tokenIdx < |token| && !exited
        invariant Valid() && Pending()
        decreases |token| - tokenIdx
      {
        ghost var ts := token[tokenIdx..];
        if errorCount == 0 {
          RemainsNext(RulesOf(token), rules, ts);
        }
        match token[tokenIdx] {
          case Opcode(_) => ParseOpcode();
          case Name(_) => ParseAlternate();
          case _ =>
            UnexpectedToken();
            assert Sequence(ts).None? by { NotASequence(ts); }
        }
      }
      ok := errorCount == 0 && !exited;
      if ok {
        assert token[tokenIdx..] == [];
        assert rules + [] == rules;
      }
    }
  }
}
