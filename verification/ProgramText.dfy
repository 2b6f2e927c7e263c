/** Every token list without errors is the text of a program. */
module ProgramText {
  import opened Wrappers
  import opened ControlBits
  import opened Microcode
  import opened Program

  // ---- Columns keep to their bits ----

  predicate WithinMask(es: seq<Entry>, m: Control) {
    forall i :: 0 <= i < |es| ==> Only(es[i].control, m) == es[i].control
  }

  /** No two entries of a column stand for the same bits. */
  predicate Different(es: seq<Entry>) {
    forall i, j :: 0 <= i < j < |es| ==> es[i].control != es[j].control
  }

  lemma FirstWithin(k: nat)
    requires k == 0 || k == 4 || k == 9
    ensures WithinMask(Column(k), Mask(k)) && Different(Column(k))
  {
    if k == 0 { } else if k == 4 { } else { }
  }

  lemma DataWithin()
    ensures WithinMask(Column(5), Mask(5))
  {
  }

  lemma DataDifferent()
    ensures Different(Column(5))
  {
    var es := Column(5);
    forall i, j | 0 <= i < j < |es|
      ensures es[i].control != es[j].control
    {
      if i < 2 { } else if i < 4 { } else if i < 6 { } else if i < 8 { } else { }
    }
  }

  lemma LoadWithin()
    ensures WithinMask(Column(10), Mask(10)) && Different(Column(10))
  {
  }

  lemma SmallWithin(k: nat)
    requires 0 < k < 4 || 5 < k < 9 || 10 < k < 13
    ensures WithinMask(Column(k), Mask(k)) && Different(Column(k))
  {
  }

  lemma ColumnWithin(k: nat)
    requires k < 13
    ensures WithinMask(Column(k), Mask(k)) && Different(Column(k))
  {
    hide WithinMask, Different, Column, Mask;
    if k == 5 {
      DataWithin();
      DataDifferent();
    } else if k == 10 {
      LoadWithin();
    } else if k == 0 || k == 4 || k == 9 {
      FirstWithin(k);
    } else {
      SmallWithin(k);
    }
  }

  lemma MasksApart(j: nat, k: nat)
    requires j < k < 13
    ensures Mask(j) & Mask(k) == 0
  {
    if j == 0 { } else if j == 1 { } else if j == 2 { } else if j == 3 { } else if j == 4 { } else if j == 5 { }
    else if j == 6 { } else if j == 7 { } else if j == 8 { } else if j == 9 { } else if j == 10 { } else { }
  }

  lemma AndApart(c: Control, m: Control, n: Control)
    requires c & m == c && m & n == 0
    ensures c & n == 0
  {
    assert c & n == (c & m) & n == c & (m & n);
  }

  lemma OnlyApart(c: Control, m: Control, n: Control)
    requires Only(c, m) == c && Only(m, n) == 0
    ensures Only(c, n) == 0
  {
    AndApart(c, m, n);
  }

  lemma AndCommutes(a: Control, b: Control)
    ensures a & b == b & a
  {
  }

  lemma OnlyMasks(j: nat, k: nat)
    requires j < 13 && k < 13 && j != k
    ensures Only(Mask(j), Mask(k)) == 0
  {
    hide Mask;
    if j < k {
      MasksApart(j, k);
    } else {
      MasksApart(k, j);
      AndCommutes(Mask(j), Mask(k));
    }
  }

  lemma OrAnd(a: Control, b: Control, m: Control)
    ensures (a | b) & m == (a & m) | (b & m)
  {
  }

  lemma OnlyOr(a: Control, b: Control, m: Control)
    ensures Only(Or(a, b), m) == Or(Only(a, m), Only(b, m))
  {
    OrAnd(a, b, m);
  }

  lemma OrNone(a: Control)
    ensures Or(a, 0) == a && Or(0, a) == a
  {
  }

  lemma OnlyNothing(m: Control)
    ensures Only(0, m) == 0
  {
  }

  // ---- A word comes from its symbols ----

  /** The entry that a symbol is found as. */
  lemma {:induction false} FoundEntry(es: seq<Entry>, t: Token) returns (i: nat)
    requires t.Symbol? && FindEntry(es, t).Some?
    ensures i < |es| && es[i].a == t.a && es[i].b == t.b && FindEntry(es, t) == Some(es[i].control)
  {
    if es[0].a == t.a && es[0].b == t.b {
      i := 0;
    } else {
      var j := FoundEntry(es[1..], t);
      i := j + 1;
    }
  }

  /** In its own column's bits an entry is itself, in another column's bits it is nothing. */
  lemma EntryBits(k: nat, i: nat, j: nat)
    requires k < 13 && j < 13 && i < |Column(k)|
    ensures Only(Column(k)[i].control, Mask(j)) == if j == k then Column(k)[i].control else 0
  {
    hide Column, Mask, Only;
    ColumnWithin(k);
    var c := Column(k)[i].control;
    assert Only(c, Mask(k)) == c;
    if j != k {
      OnlyMasks(k, j);
      OnlyApart(c, Mask(k), Mask(j));
    }
  }

  /** The bits of column `j` in a word read from column `k` on. */
  lemma {:induction false} FieldOf(ts: seq<Token>, k: nat, j: nat)
    requires k <= 13 && j < 13 && WordOf(ts, k).Some?
    ensures j < k ==> Only(WordOf(ts, k).value, Mask(j)) == 0
    ensures j >= k ==> ts[j - k].Symbol? && FindEntry(Column(j), ts[j - k]) == Some(Only(WordOf(ts, k).value, Mask(j)))
    decreases 13 - k
  {
    hide Column, Mask, Only, Or, FindEntry;
    if k == 13 {
      OnlyNothing(Mask(j));
    } else {
      var c, w := FindEntry(Column(k), ts[0]).value, WordOf(ts[1..], k + 1).value;
      FieldOf(ts[1..], k + 1, j);
      var i := FoundEntry(Column(k), ts[0]);
      EntryBits(k, i, j);
      OnlyOr(c, w, Mask(j));
      OrNone(c);
      OrNone(Only(w, Mask(j)));
      assert j > k ==> ts[1..][j - k - 1] == ts[j - k];
    }
  }

  /** A word that was read can be written, and is written as it was read. */
  lemma WordHasSymbols(ts: seq<Token>)
    requires WordOf(ts, 0).Some?
    ensures Expressible(WordOf(ts, 0).value) && Symbols(WordOf(ts, 0).value, 0) == ts[..13]
  {
    hide Column, Mask, Only, Or, FindEntry, WordOf;
    var w := WordOf(ts, 0).value;
    forall j | 0 <= j < 13
      ensures HasSymbol(j, w)
    {
      FieldOf(ts, 0, j);
      var i := FoundEntry(Column(j), ts[j]);
      assert InColumn(j, i, w);
    }
    forall j | 0 <= j < 13
      ensures SymbolAt(w, j) == ts[j]
    {
      FieldOf(ts, 0, j);
      SameSymbol(w, j, ts[j]);
    }
    SymbolsAre(w, 0, ts[..13]);
  }

  lemma SameSymbol(w: Control, j: nat, t: Token)
    requires j < 13 && Expressible(w) && t.Symbol? && FindEntry(Column(j), t) == Some(Only(w, Mask(j)))
    ensures SymbolAt(w, j) == t
  {
    hide Column, Mask, Only, FindEntry;
    assert HasSymbol(j, w);
    var i := FoundEntry(Column(j), t);
    var n: nat :| InColumn(j, n, w) && SymbolAt(w, j) == Symbol(Column(j)[n].a, Column(j)[n].b);
    ColumnWithin(j);
    assert n == i;
  }

  lemma {:induction false} SymbolsAre(w: Control, k: nat, ts: seq<Token>)
    requires k <= 13 && Expressible(w) && |ts| == 13 - k && forall j :: 0 <= j < |ts| ==> SymbolAt(w, k + j) == ts[j]
    ensures Symbols(w, k) == ts
    decreases 13 - k
  {
    hide SymbolAt, Expressible;
    if k < 13 {
      assert ts == [ts[0]] + ts[1..] && SymbolAt(w, k + 0) == ts[0];
      forall j | 0 <= j < |ts| - 1
        ensures SymbolAt(w, k + 1 + j) == ts[1..][j]
      {
        assert SymbolAt(w, k + (1 + j)) == ts[1 + j];
      }
      SymbolsAre(w, k + 1, ts[1..]);
    }
  }

  // ---- Rows and sequences come from lines and blocks ----

  lemma Pieces(ts: seq<Token>, m: nat)
    requires |ts| >= 13 + m
    ensures ts[..13] + ts[13..][..m] + ts[13..][m..] == ts
  {
  }

  lemma CountedMods(ts: seq<Token>)
    ensures AllMods(ts[..ModCount(ts)]) && (ModCount(ts) < |ts| ==> !IsMod(ts[ModCount(ts)..][0]))
  {
  }

  lemma RowHasLine(ts: seq<Token>, sel: Selector, step: nat) returns (line: Line)
    requires RowOf(ts, sel, step).Some?
    ensures Expressible(line.control) && AllMods(line.mods)
    ensures Symbols(line.control, 0) + line.mods + RowOf(ts, sel, step).value.rest == ts
    ensures var rest := RowOf(ts, sel, step).value.rest; rest == [] || !IsMod(rest[0])
  {
    hide WordOf, Symbols, Expressible, AllMods, IsMod, ModCount, RowRules, EndStep, NextStep;
    WordHasSymbols(ts);
    var m := ModCount(ts[13..]);
    line := Line(WordOf(ts, 0).value, ts[13..][..m]);
    CountedMods(ts[13..]);
    Pieces(ts, m);
  }

  lemma {:induction false} RowsHaveLines(ts: seq<Token>, sel: Selector, step: nat) returns (lines: seq<Line>)
    requires RowsOf(ts, sel, step).Some?
    ensures lines != [] && GoodLines(lines) && RenderLines(lines) + RowsOf(ts, sel, step).value.rest == ts
    ensures var rest := RowsOf(ts, sel, step).value.rest; rest == [] || (!IsMod(rest[0]) && !rest[0].Symbol?)
    decreases |ts|
  {
    hide RowOf, Symbols, Expressible, AllMods;
    var line := RowHasLine(ts, sel, step);
    var row := RowOf(ts, sel, step).value;
    if row.rest == [] || !row.rest[0].Symbol? {
      lines := [line];
      assert RenderLines(lines[1..]) == [];
    } else {
      var more := RowsHaveLines(row.rest, sel, row.step);
      lines := [line] + more;
      assert lines[1..] == more;
    }
    assert RenderLines(lines) == Symbols(line.control, 0) + line.mods + RenderLines(lines[1..]);
  }

  lemma SequenceHasBlock(ts: seq<Token>) returns (b: Block)
    requires ts != [] && Sequence(ts).Some?
    ensures b.lines != [] && GoodLines(b.lines) && Header(b) + RenderLines(b.lines) + Sequence(ts).value.rest == ts
  {
    hide RowsOf, RenderLines, GoodLines;
    match ts[0] {
      case Opcode(o) =>
        var lines := RowsHaveLines(ts[2..], OnOpcode(o), 0);
        b := Block(OnOpcode(o), ts[1].name, lines);
        assert ts == Header(b) + ts[2..];
      case Name(name) =>
        var sel := if name == "reset" then OnReset else OnInterrupt;
        var lines := RowsHaveLines(ts[1..], sel, 0);
        b := Block(sel, name, lines);
        assert ts == Header(b) + ts[1..];
    }
  }

  /** Every token list without errors is the text of a program, whose rules it has. */
  lemma {:induction false} AcceptedIsText(ts: seq<Token>) returns (p: seq<Block>)
    requires RulesOf(ts).Some?
    ensures GoodProgram(p) && Render(p) == ts && RulesOf(ts) == Some(Rules(p))
    decreases |ts|
  {
    hide Sequence, RenderLines, GoodLines, Header, Rules;
    if ts == [] {
      p := [];
    } else {
      var b := SequenceHasBlock(ts);
      var more := AcceptedIsText(Sequence(ts).value.rest);
      p := [b] + more;
      assert p[1..] == more && p[0] == b;
    }
    TextHasRules(p);
  }
}
