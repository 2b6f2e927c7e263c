/** Microcode programs as trees: their text, their rules, and that the one says the other. */
module Program {
  import opened Wrappers
  import opened ControlBits
  import opened Microcode

  /** A control word and the modifiers behind it. */
  datatype Line = Line(control: Control, mods: seq<Token>)

  datatype Block = Block(sel: Selector, name: string, lines: seq<Line>)

  // ---- A control word as 13 symbols ----

  /** The bits that a column decides. */
  function Mask(k: nat): Control
    requires k < 13
  {
    if k == 0 then 0x000700 else if k == 1 then 0x010000 else if k == 2 then 0x020000 else if k == 3 then 0x040000
    else if k == 4 then 0x003800 else if k == 5 then 0x00001F else if k == 6 then 0x080000 else if k == 7 then 0x100000
    else if k == 8 then 0x200000 else if k == 9 then 0xC00000
    else if k == 10 then 0x0000E0 else if k == 11 then 0x004000
    else 0x008000
  }

  function Only(c: Control, mask: Control): Control {
    c & mask
  }

  predicate InColumn(k: nat, i: nat, c: Control)
    requires k < 13
  {
    i < |Column(k)| && Column(k)[i].control == Only(c, Mask(k))
  }

  ghost predicate HasSymbol(k: nat, c: Control)
    requires k < 13
  {
    exists i: nat :: InColumn(k, i, c)
  }

  /** Every column has a symbol for its bits of the word. */
  ghost predicate Expressible(c: Control) {
    forall k :: 0 <= k < 13 ==> HasSymbol(k, c)
  }

  ghost function SymbolAt(c: Control, k: nat): (t: Token)
    requires k < 13 && Expressible(c)
    ensures t.Symbol?
  {
    assert HasSymbol(k, c);
    var i: nat :| InColumn(k, i, c);
    Symbol(Column(k)[i].a, Column(k)[i].b)
  }

  ghost function Symbols(c: Control, k: nat): (ts: seq<Token>)
    requires k <= 13 && Expressible(c)
    ensures |ts| == 13 - k && forall i :: 0 <= i < |ts| ==> ts[i].Symbol?
    decreases 13 - k
  {
    if k == 13 then [] else [SymbolAt(c, k)] + Symbols(c, k + 1)
  }

  /** The three columns that have no symbol for some of their values: address bus, pointer load and data bus. */
  predicate InRange(c: Control) {
    c & 0x000700 <= 0x000400 && c & 0x003800 <= 0x002000 && 0x00000C <= c & 0x00001F <= 0x000017
  }

  lemma AddressSymbol(c: Control)
    ensures HasSymbol(0, c) <==> c & 0x000700 <= 0x000400
  {
    assert |Column(0)| == 5;
    var v := c & 0x000700;
    assert v == 0x000 || v == 0x100 || v == 0x200 || v == 0x300 || v == 0x400 || v > 0x400;
    if v == 0x000 { assert InColumn(0, 0, c); }
    if v == 0x100 { assert InColumn(0, 1, c); }
    if v == 0x200 { assert InColumn(0, 2, c); }
    if v == 0x300 { assert InColumn(0, 3, c); }
    if v == 0x400 { assert InColumn(0, 4, c); }
  }

  lemma PointerSymbol(c: Control)
    ensures HasSymbol(4, c) <==> c & 0x003800 <= 0x002000
  {
    assert |Column(4)| == 5;
    var v := c & 0x003800;
    assert v == 0x0000 || v == 0x0800 || v == 0x1000 || v == 0x1800 || v == 0x2000 || v > 0x2000;
    if v == 0x0000 { assert InColumn(4, 0, c); }
    if v == 0x0800 { assert InColumn(4, 1, c); }
    if v == 0x1000 { assert InColumn(4, 2, c); }
    if v == 0x1800 { assert InColumn(4, 3, c); }
    if v == 0x2000 { assert InColumn(4, 4, c); }
  }

  lemma DataSymbol(c: Control)
    ensures HasSymbol(5, c) <==> 0x00000C <= c & 0x00001F <= 0x000017
  {
    assert |Column(5)| == 12;
    var v := c & 0x00001F;
    assert v == 0x10 || v == 0x11 || v == 0x12 || v == 0x13 || v == 0x14 || v == 0x0C ||
            v == 0x15 || v == 0x0D || v == 0x16 || v == 0x0E || v == 0x17 || v == 0x0F || v < 0x0C || v > 0x17;
    if v == 0x10 { assert InColumn(5, 0, c); }
    if v == 0x11 { assert InColumn(5, 1, c); }
    if v == 0x12 { assert InColumn(5, 2, c); }
    if v == 0x13 { assert InColumn(5, 3, c); }
    if v == 0x14 { assert InColumn(5, 4, c); }
    if v == 0x0C { assert InColumn(5, 5, c); }
    if v == 0x15 { assert InColumn(5, 6, c); }
    if v == 0x0D { assert InColumn(5, 7, c); }
    if v == 0x16 { assert InColumn(5, 8, c); }
    if v == 0x0E { assert InColumn(5, 9, c); }
    if v == 0x17 { assert InColumn(5, 10, c); }
    if v == 0x0F { assert InColumn(5, 11, c); }
  }

  lemma OperationSymbol(c: Control)
    ensures HasSymbol(9, c)
  {
    assert |Column(9)| == 4;
    var v := c & 0xC00000;
    assert v == 0x000000 || v == 0x400000 || v == 0x800000 || v == 0xC00000;
    if v == 0x000000 { assert InColumn(9, 0, c); }
    if v == 0x400000 { assert InColumn(9, 1, c); }
    if v == 0x800000 { assert InColumn(9, 2, c); }
    if v == 0xC00000 { assert InColumn(9, 3, c); }
  }

  lemma LoadSymbol(c: Control)
    ensures HasSymbol(10, c)
  {
    assert |Column(10)| == 8;
    var v := c & 0x0000E0;
    assert v == 0x00 || v == 0x20 || v == 0x40 || v == 0x60 || v == 0x80 || v == 0xA0 || v == 0xC0 || v == 0xE0;
    if v == 0x00 { assert InColumn(10, 0, c); }
    if v == 0x20 { assert InColumn(10, 1, c); }
    if v == 0x40 { assert InColumn(10, 2, c); }
    if v == 0x60 { assert InColumn(10, 3, c); }
    if v == 0x80 { assert InColumn(10, 4, c); }
    if v == 0xA0 { assert InColumn(10, 5, c); }
    if v == 0xC0 { assert InColumn(10, 6, c); }
    if v == 0xE0 { assert InColumn(10, 7, c); }
  }

  /** Every other column is one bit, which is there or not. */
  lemma BitSymbol(k: nat, c: Control)
    requires 0 < k < 4 || 5 < k < 9 || 10 < k < 13
    ensures HasSymbol(k, c)
  {
    OneBit(k, c);
    if Only(c, Mask(k)) == 0 {
      assert InColumn(k, 1, c);
    } else {
      assert InColumn(k, 0, c);
    }
  }

  lemma OneBit(k: nat, c: Control)
    requires 0 < k < 4 || 5 < k < 9 || 10 < k < 13
    ensures |Column(k)| == 2 && Column(k)[0].control == Mask(k) && Column(k)[1].control == 0
    ensures Only(c, Mask(k)) == 0 || Only(c, Mask(k)) == Mask(k)
  {
    if k == 1 { } else if k == 2 { } else if k == 3 { } else if k == 6 { } else if k == 7 { } else if k == 8 { }
    else if k == 11 { } else { }
  }

  /** Exactly the words in range can be written down. */
  lemma WordExpressible(c: Control)
    ensures Expressible(c) <==> InRange(c)
  {
    hide HasSymbol;
    AddressSymbol(c);
    PointerSymbol(c);
    DataSymbol(c);
    OperationSymbol(c);
    LoadSymbol(c);
    if InRange(c) {
      forall k | 0 <= k < 13
        ensures HasSymbol(k, c)
      {
        if k != 0 && k != 4 && k != 5 && k != 9 && k != 10 {
          BitSymbol(k, c);
        }
      }
    } else {
      assert !HasSymbol(0, c) || !HasSymbol(4, c) || !HasSymbol(5, c);
    }
  }

  /** No two entries of a column have the same symbol. */
  predicate Distinct(es: seq<Entry>) {
    forall i, j :: 0 <= i < j < |es| ==> es[i].a != es[j].a || es[i].b != es[j].b
  }

  lemma {:induction false} FindsEntry(es: seq<Entry>, i: nat)
    requires i < |es| && Distinct(es)
    ensures FindEntry(es, Symbol(es[i].a, es[i].b)) == Some(es[i].control)
  {
    if i > 0 {
      assert es[0].a != es[i].a || es[0].b != es[i].b;
      FindsEntry(es[1..], i - 1);
    }
  }

  lemma DataColumnDistinct()
    ensures Distinct(Column(5))
  {
    var es := Column(5);
    forall i, j | 0 <= i < j < |es|
      ensures es[i].a != es[j].a || es[i].b != es[j].b
    {
      if es[i].a == es[j].a {
        if i < 2 { } else if i < 4 { } else if i < 6 { } else if i < 8 { } else { }
      }
    }
  }

  lemma LoadColumnDistinct()
    ensures Distinct(Column(10))
  {
    var es := Column(10);
    forall i, j | 0 <= i < j < |es|
      ensures es[i].a != es[j].a || es[i].b != es[j].b
    {
      if es[i].a == es[j].a {
        if i < 2 { } else if i < 4 { } else if i < 6 { } else { }
      }
    }
  }

  lemma FirstColumnsDistinct(k: nat)
    requires k == 0 || k == 4 || k == 9
    ensures Distinct(Column(k))
  {
    if k == 0 { } else if k == 4 { } else { }
  }

  lemma SmallColumnDistinct(k: nat)
    requires 0 < k < 4 || 5 < k < 9 || 10 < k < 13
    ensures Distinct(Column(k))
  {
  }

  lemma ColumnsDistinct(k: nat)
    requires k < 13
    ensures Distinct(Column(k))
  {
    hide Distinct, Column;
    if k == 5 {
      DataColumnDistinct();
    } else if k == 10 {
      LoadColumnDistinct();
    } else if k == 0 || k == 4 || k == 9 {
      FirstColumnsDistinct(k);
    } else {
      SmallColumnDistinct(k);
    }
  }

  lemma SymbolFound(c: Control, k: nat)
    requires k < 13 && Expressible(c)
    ensures FindEntry(Column(k), SymbolAt(c, k)) == Some(Only(c, Mask(k)))
  {
    hide Column, FindEntry, Mask, Only, Distinct;
    assert HasSymbol(k, c);
    var i: nat :| InColumn(k, i, c) && SymbolAt(c, k) == Symbol(Column(k)[i].a, Column(k)[i].b);
    ColumnsDistinct(k);
    FindsEntry(Column(k), i);
  }

  /** The bits decided from column `k` on. */
  function Tail(c: Control, k: nat): Control
    requires k <= 13
    decreases 13 - k
  {
    if k == 13 then 0 else Or(Only(c, Mask(k)), Tail(c, k + 1))
  }

  lemma Spread(c: Control, m: Control, t: Control)
    ensures (c & m) | (c & t) == c & (m | t)
  {
  }

  lemma TailStep(c: Control, k: nat, m: Control, t: Control, u: Control)
    requires k < 13 && Mask(k) == m && Tail(c, k + 1) == Only(c, t) && m | t == u
    ensures Tail(c, k) == Only(c, u)
  {
    hide Mask;
    Spread(c, m, t);
  }

  lemma TailLast(c: Control)
    ensures Tail(c, 13) == Only(c, 0)
  {
  }

  /** The columns cover the word. */
  lemma TailAll(c: Control)
    ensures Tail(c, 0) == c
  {
    hide Tail, Only, Or;
    TailLast(c);
    TailStep(c, 12, 0x008000, 0, 0x008000);
    TailStep(c, 11, 0x004000, 0x008000, 0x00C000);
    TailStep(c, 10, 0x0000E0, 0x00C000, 0x00C0E0);
    TailStep(c, 9, 0xC00000, 0x00C0E0, 0xC0C0E0);
    TailStep(c, 8, 0x200000, 0xC0C0E0, 0xE0C0E0);
    TailStep(c, 7, 0x100000, 0xE0C0E0, 0xF0C0E0);
    TailStep(c, 6, 0x080000, 0xF0C0E0, 0xF8C0E0);
    TailStep(c, 5, 0x00001F, 0xF8C0E0, 0xF8C0FF);
    TailStep(c, 4, 0x003800, 0xF8C0FF, 0xF8F8FF);
    TailStep(c, 3, 0x040000, 0xF8F8FF, 0xFCF8FF);
    TailStep(c, 2, 0x020000, 0xFCF8FF, 0xFEF8FF);
    TailStep(c, 1, 0x010000, 0xFEF8FF, 0xFFF8FF);
    TailStep(c, 0, 0x000700, 0xFFF8FF, 0xFFFFFF);
    OnlyAll(c);
  }

  lemma OnlyAll(c: Control)
    ensures Only(c, 0xFFFFFF) == c
  {
  }

  /** The symbols of a control word are read back as that word. */
  lemma {:induction false} WordOfSymbols(c: Control, k: nat, rest: seq<Token>)
    requires k <= 13 && Expressible(c)
    ensures WordOf(Symbols(c, k) + rest, k) == Some(Tail(c, k))
    decreases 13 - k
  {
    hide Column, FindEntry, Mask, Only, Or, SymbolAt, Expressible;
    if k < 13 {
      var ts := Symbols(c, k) + rest;
      SymbolFound(c, k);
      WordOfSymbols(c, k + 1, rest);
      assert ts[0] == SymbolAt(c, k) && ts[1..] == Symbols(c, k + 1) + rest;
    }
  }

  // ---- Text and rules of programs ----

  ghost predicate GoodLines(lines: seq<Line>) {
    forall i :: 0 <= i < |lines| ==> Expressible(lines[i].control) && AllMods(lines[i].mods)
  }

  predicate AllMods(mods: seq<Token>) {
    forall j :: 0 <= j < |mods| ==> IsMod(mods[j])
  }

  ghost predicate GoodProgram(p: seq<Block>) {
    forall i :: 0 <= i < |p| ==> p[i].lines != [] && GoodLines(p[i].lines)
  }

  ghost function RenderLines(lines: seq<Line>): seq<Token>
    requires GoodLines(lines)
  {
    if lines == [] then [] else Symbols(lines[0].control, 0) + lines[0].mods + RenderLines(lines[1..])
  }

  function Header(b: Block): seq<Token> {
    match b.sel
    case OnOpcode(o) => [Opcode(o), Name(b.name)]
    case OnReset => [Name("reset")]
    case OnInterrupt => [Name("interrupt")]
  }

  ghost function Render(p: seq<Block>): seq<Token>
    requires GoodProgram(p)
  {
    if p == [] then [] else Header(p[0]) + RenderLines(p[0].lines) + Render(p[1..])
  }

  /** The rules of the lines from step `step` on; `last` if nothing follows them. */
  function LineRules(lines: seq<Line>, sel: Selector, step: nat, last: bool): seq<Rule> {
    if lines == [] then []
    else RowRules(sel, lines[0].control, step, lines[0].mods, last && |lines| == 1) +
         LineRules(lines[1..], sel, NextStep(EndStep(step, lines[0].mods)), last)
  }

  function Rules(p: seq<Block>): seq<Rule> {
    if p == [] then [] else LineRules(p[0].lines, p[0].sel, 0, |p| == 1) + Rules(p[1..])
  }

  lemma {:induction false} ModsCounted(mods: seq<Token>, rest: seq<Token>)
    requires AllMods(mods) && (rest == [] || !IsMod(rest[0]))
    ensures ModCount(mods + rest) == |mods|
  {
    hide IsMod;
    if mods == [] {
      assert mods + rest == rest;
    } else {
      assert (mods + rest)[0] == mods[0] && (mods + rest)[1..] == mods[1..] + rest;
      ModsCounted(mods[1..], rest);
    }
  }

  lemma LineParses(line: Line, rest: seq<Token>, sel: Selector, step: nat)
    requires Expressible(line.control) && AllMods(line.mods) && (rest == [] || !IsMod(rest[0]))
    ensures RowOf(Symbols(line.control, 0) + (line.mods + rest), sel, step) ==
            Some(Row(RowRules(sel, line.control, step, line.mods, rest == []), rest,
                     NextStep(EndStep(step, line.mods))))
  {
    hide RowRules, NextStep, EndStep, ModCount, WordOf, Symbols, IsMod;
    var tail := line.mods + rest;
    WordOfSymbols(line.control, 0, tail);
    TailAll(line.control);
    ModsCounted(line.mods, rest);
    assert (Symbols(line.control, 0) + tail)[13..] == tail;
    assert tail[..|line.mods|] == line.mods && tail[|line.mods|..] == rest;
  }

  lemma {:induction false} LinesParse(lines: seq<Line>, rest: seq<Token>, sel: Selector, step: nat)
    requires lines != [] && GoodLines(lines) && (rest == [] || (!IsMod(rest[0]) && !rest[0].Symbol?))
    ensures RowsOf(RenderLines(lines) + rest, sel, step) == Some(Rows(LineRules(lines, sel, step, rest == []), rest))
  {
    hide RowRules, NextStep, EndStep, RowOf, Symbols, Expressible, AllMods;
    var line, more := lines[0], RenderLines(lines[1..]) + rest;
    assert RenderLines(lines) + rest == Symbols(line.control, 0) + (line.mods + more);
    if |lines| == 1 {
      assert more == rest;
      LineParses(line, rest, sel, step);
      assert LineRules(lines[1..], sel, NextStep(EndStep(step, line.mods)), rest == []) == [];
      var rules := RowRules(sel, line.control, step, line.mods, rest == []);
      assert rules + [] == rules;
    } else {
      FirstToken(lines[1..], rest);
      LineParses(line, more, sel, step);
      LinesParse(lines[1..], rest, sel, NextStep(EndStep(step, line.mods)));
    }
  }

  lemma FirstToken(lines: seq<Line>, rest: seq<Token>)
    requires lines != [] && GoodLines(lines)
    ensures RenderLines(lines) + rest != [] && (RenderLines(lines) + rest)[0].Symbol?
  {
    hide Symbols, GoodLines;
    assert GoodLines(lines[1..]) && Expressible(lines[0].control) by {
      GoodParts(lines);
    }
    assert (RenderLines(lines) + rest)[0] == Symbols(lines[0].control, 0)[0];
  }

  lemma GoodParts(lines: seq<Line>)
    requires lines != [] && GoodLines(lines)
    ensures GoodLines(lines[1..]) && Expressible(lines[0].control) && AllMods(lines[0].mods)
  {
    hide Expressible, AllMods;
  }

  lemma HeaderParses(b: Block, rest: seq<Token>)
    ensures Header(b) != [] && !IsMod(Header(b)[0]) && !Header(b)[0].Symbol?
    ensures Sequence(Header(b) + rest) == RowsOf(rest, b.sel, 0)
  {
    hide RowsOf;
    var ts := Header(b) + rest;
    match b.sel
    case OnOpcode(o) => assert ts[2..] == rest && ts[1] == Name(b.name);
    case OnReset => assert ts[1..] == rest;
    case OnInterrupt => assert ts[1..] == rest;
  }

  /** Reading the text of a program gives the rules of the program. */
  lemma {:induction false} TextHasRules(p: seq<Block>)
    requires GoodProgram(p)
    ensures RulesOf(Render(p)) == Some(Rules(p))
  {
    hide Sequence, RowsOf, LineRules, RenderLines, GoodLines, Header, IsMod;
    if p != [] {
      var b, rest := p[0], Render(p[1..]);
      TextHasRules(p[1..]);
      HeaderParses(b, RenderLines(b.lines) + rest);
      assert Render(p) == Header(b) + (RenderLines(b.lines) + rest);
      assert (rest == []) == (|p| == 1) && (rest != [] ==> !IsMod(rest[0]) && !rest[0].Symbol?) by {
        if |p| > 1 {
          HeaderParses(p[1], []);
        }
      }
      LinesParse(b.lines, rest, b.sel, 0);
    }
  }

  // ---- What a program says at an address ----

  predicate Hit(rules: seq<Rule>, a: Address) {
    exists i :: 0 <= i < |rules| && Matches(rules[i], a)
  }

  lemma {:induction false} NoHit(rules: seq<Rule>, a: Address)
    requires !Hit(rules, a)
    ensures Selected(rules, a) == UNUSED
  {
    hide Matches;
    if rules != [] {
      var n := |rules| - 1;
      assert !Matches(rules[n], a);
      assert !Hit(rules[..n], a) by {
        assert forall i :: 0 <= i < n ==> rules[..n][i] == rules[i];
      }
      NoHit(rules[..n], a);
    }
  }

  /** Later rules override earlier ones. */
  lemma {:induction false} SelectedConcat(r: seq<Rule>, q: seq<Rule>, a: Address)
    ensures Selected(r + q, a) == if Hit(q, a) then Selected(q, a) else Selected(r, a)
    ensures Hit(r + q, a) == (Hit(r, a) || Hit(q, a))
  {
    hide Matches, Stored;
    HitConcat(r, q, a);
    if q == [] {
      assert r + q == r;
    } else {
      var n := |q| - 1;
      assert (r + q)[|r| + n] == q[n] && (r + q)[..|r| + n] == r + q[..n];
      if Matches(q[n], a) {
        assert Hit(q, a);
      } else {
        SelectedConcat(r, q[..n], a);
        HitConcat(q[..n], [q[n]], a);
        assert q[..n] + [q[n]] == q && [q[n]][0] == q[n];
      }
    }
  }

  lemma HitConcat(r: seq<Rule>, q: seq<Rule>, a: Address)
    ensures Hit(r + q, a) == (Hit(r, a) || Hit(q, a))
  {
    hide Matches;
    var c := r + q;
    if Hit(r, a) {
      var i :| 0 <= i < |r| && Matches(r[i], a);
      assert c[i] == r[i];
    }
    if Hit(q, a) {
      var i :| 0 <= i < |q| && Matches(q[i], a);
      assert c[|r| + i] == q[i];
    }
    if Hit(c, a) {
      var i :| 0 <= i < |c| && Matches(c[i], a);
      if i < |r| {
        assert r[i] == c[i];
      } else {
        assert q[i - |r|] == c[i];
      }
    }
  }

  predicate AllFor(rules: seq<Rule>, sel: Selector) {
    forall i :: 0 <= i < |rules| ==> rules[i].sel == sel
  }

  lemma {:induction false} RowsAreFor(sel: Selector, c: Control, step: nat, mods: seq<Token>)
    ensures AllFor(FlagRules(sel, c, step, mods), sel)
    decreases |mods|
  {
    if mods != [] {
      match mods[0]
      case Star => RowsAreFor(sel, c, 0, mods[1..]);
      case Tilde => RowsAreFor(sel, c, PreviousStep(step), mods[1..]);
      case _ => RowsAreFor(sel, c, step, mods[1..]);
    }
  }

  lemma {:induction false} LinesAreFor(lines: seq<Line>, sel: Selector, step: nat, last: bool)
    ensures AllFor(LineRules(lines, sel, step, last), sel)
  {
    hide FlagRules, HasFlag, EndStep, NextStep;
    if lines != [] {
      RowsAreFor(sel, lines[0].control, step, lines[0].mods);
      LinesAreFor(lines[1..], sel, NextStep(EndStep(step, lines[0].mods)), last);
    }
  }

  /** A block that is not selected has no say. */
  lemma BlockSilent(b: Block, last: bool, a: Address)
    requires !Selects(b.sel, a)
    ensures !Hit(LineRules(b.lines, b.sel, 0, last), a)
  {
    hide LineRules, Selects, Holds;
    LinesAreFor(b.lines, b.sel, 0, last);
  }

  lemma {:induction false} ProgramSilent(p: seq<Block>, a: Address)
    requires forall i :: 0 <= i < |p| ==> !Selects(p[i].sel, a)
    ensures !Hit(Rules(p), a)
  {
    hide LineRules, Selects;
    if p != [] {
      BlockSilent(p[0], |p| == 1, a);
      ProgramSilent(p[1..], a);
      HitConcat(LineRules(p[0].lines, p[0].sel, 0, |p| == 1), Rules(p[1..]), a);
    }
  }

  /** When only one block is selected, it alone decides. */
  lemma {:induction false} OneBlockDecides(p: seq<Block>, k: nat, a: Address)
    requires k < |p| && forall i :: 0 <= i < |p| && i != k ==> !Selects(p[i].sel, a)
    ensures Selected(Rules(p), a) == Selected(LineRules(p[k].lines, p[k].sel, 0, k == |p| - 1), a)
  {
    hide LineRules, Selects, Selected, Hit;
    var r, q := LineRules(p[0].lines, p[0].sel, 0, |p| == 1), Rules(p[1..]);
    SelectedConcat(r, q, a);
    if k == 0 {
      ProgramSilent(p[1..], a);
    } else {
      BlockSilent(p[0], |p| == 1, a);
      OneBlockDecides(p[1..], k - 1, a);
      if !Hit(q, a) {
        NoHit(q, a);
        NoHit(r, a);
      }
    }
  }

  /** A last line with `*` or `~` but no flag behind it is lost if the file ends there, and only then. */
  lemma {:induction false} LostLine(lines: seq<Line>, line: Line, sel: Selector, step: nat)
    requires line.mods != [] && !HasFlag(line.mods) && AllMods(line.mods)
    ensures LineRules(lines + [line], sel, step, true) == LineRules(lines, sel, step, false)
    ensures exists end: nat :: LineRules(lines + [line], sel, step, false) ==
                               LineRules(lines, sel, step, false) + [Rule(sel, end, Always, line.control)]
    decreases |lines|
  {
    hide EndStep, NextStep, HasFlag, IsMod;
    var all := lines + [line];
    if lines == [] {
      assert all == [line] && all[1..] == [];
      NoFlagRules(sel, line.control, step, line.mods);
      assert LineRules(all, sel, step, false) == [] + [Rule(sel, EndStep(step, line.mods), Always, line.control)];
    } else {
      assert all[0] == lines[0] && all[1..] == lines[1..] + [line];
      var next := NextStep(EndStep(step, lines[0].mods));
      LostLine(lines[1..], line, sel, next);
      var end: nat :| LineRules(lines[1..] + [line], sel, next, false) ==
                      LineRules(lines[1..], sel, next, false) + [Rule(sel, end, Always, line.control)];
      var first := RowRules(sel, lines[0].control, step, lines[0].mods, false);
      assert LineRules(all, sel, step, false) ==
             (first + LineRules(lines[1..], sel, next, false)) + [Rule(sel, end, Always, line.control)];
    }
  }

  lemma {:induction false} NoFlagRules(sel: Selector, c: Control, step: nat, mods: seq<Token>)
    requires !HasFlag(mods)
    ensures FlagRules(sel, c, step, mods) == []
    decreases |mods|
  {
    if mods != [] {
      assert !mods[0].FlagIs?;
      assert !HasFlag(mods[1..]) by {
        assert forall i :: 0 <= i < |mods| - 1 ==> mods[1..][i] == mods[i + 1];
      }
      if mods[0].Star? {
        NoFlagRules(sel, c, 0, mods[1..]);
      } else if mods[0].Tilde? {
        NoFlagRules(sel, c, PreviousStep(step), mods[1..]);
      } else {
        NoFlagRules(sel, c, step, mods[1..]);
      }
    }
  }

  predicate Plain(lines: seq<Line>) {
    forall i :: 0 <= i < |lines| ==> lines[i].mods == []
  }

  lemma PlainRow(sel: Selector, c: Control, step: nat, last: bool)
    ensures RowRules(sel, c, step, [], last) == [Rule(sel, step, Always, c)] && EndStep(step, []) == step
  {
  }

  lemma NothingSelected(a: Address)
    ensures !Hit([], a) && Selected([], a) == UNUSED
  {
  }

  lemma OneRule(sel: Selector, c: Control, step: nat, a: Address)
    requires Selects(sel, a) && step < 16
    ensures var r := [Rule(sel, step, Always, c)];
            Hit(r, a) == (a.step == step) && Selected(r, a) == if a.step == step then Stored(c) else UNUSED
  {
    hide Selects, Stored;
    var r := [Rule(sel, step, Always, c)];
    assert Matches(r[0], a) == (a.step == step);
    assert r[..0] == [];
  }

  /** Lines without modifiers take one step each. */
  lemma {:induction false} PlainLines(lines: seq<Line>, sel: Selector, start: nat, last: bool, a: Address)
    requires Plain(lines) && Selects(sel, a) && start + |lines| <= 16 && IsAddress(a)
    ensures var rules := LineRules(lines, sel, start, last);
            Selected(rules, a) == (if start <= a.step < start + |lines| then Stored(lines[a.step - start].control)
                                   else UNUSED) &&
            Hit(rules, a) == (start <= a.step < start + |lines|)
    decreases |lines|
  {
    hide RowRules, EndStep, Stored, Selects, Selected, Hit;
    if lines != [] {
      PlainRow(sel, lines[0].control, start, last && |lines| == 1);
      PlainLines(lines[1..], sel, start + 1, last, a);
      var r := [Rule(sel, start, Always, lines[0].control)];
      SelectedConcat(r, LineRules(lines[1..], sel, start + 1, last), a);
      OneRule(sel, lines[0].control, start, a);
    } else {
      NothingSelected(a);
    }
  }
}
