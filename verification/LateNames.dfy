/** A name that a data directive uses before its declaration is emitted twice, and that is the only difference. */
module LateNames {
  import opened Bits
  import opened Assembler
  import opened Backpatching

  function Total(segments: seq<Segment>): nat {
    if segments == [] then 0 else Total(segments[..|segments| - 1]) + |segments[|segments| - 1].data|
  }

  lemma TotalAppend(segments: seq<Segment>, bytes: seq<Byte>)
    requires segments != []
    ensures Total(Append(segments, bytes)) == Total(segments) + |bytes|
  {
    assert Append(segments, bytes)[..|segments| - 1] == segments[..|segments| - 1];
  }

  lemma TotalNew(segments: seq<Segment>, a: nat)
    ensures Total(segments + [Segment(a, [])]) == Total(segments)
  {
    assert (segments + [Segment(a, [])])[..|segments|] == segments;
  }

  lemma {:induction false} TotalShape(a: seq<Segment>, b: seq<Segment>)
    requires SameShape(a, b)
    ensures Total(a) == Total(b)
  {
    if a != [] {
      TotalShape(a[..|a| - 1], b[..|b| - 1]);
    }
  }

  /** The bytes that all lines have by their sizes. */
  function Sizes(p: seq<Pattern>): nat {
    if p == [] then 0 else Size(p[0]) + Sizes(p[1..])
  }

  /** The names are those of the labels so far, no more and no fewer. */
  ghost predicate Exactly(symbols: seq<Symbol>, names: set<string>) {
    forall n :: n in names <==> Lookup(symbols, n).Some?
  }

  // ---- The second pass writes what the sizes say ----

  lemma WriteGrows(t: Second, bytes: seq<Byte>)
    requires t.segments != []
    ensures Total(Write(t, bytes).segments) == Total(t.segments) + |bytes|
  {
    TotalAppend(t.segments, bytes);
  }

  lemma {:induction false} WriteItemsGrows(t: Second, items: seq<Item>, size: nat, table: seq<Symbol>)
    requires t.segments != []
    ensures Total(WriteItems(t, items, size, table).segments) == Total(t.segments) + size * |items|
    decreases |items|
  {
    hide Total, Append, Lookup, LittleEndian;
    if items != [] {
      match items[0] {
        case Number(v) => WriteGrows(t, LittleEndian(v, size));
        case NameItem(name) =>
          match Lookup(table, name) {
            case Some(v) => WriteGrows(t, LittleEndian(v, size));
            case None => WriteGrows(t, LittleEndian(0, size));
          }
      }
      WriteItemsGrows(WriteItem(t, items[0], size, table), items[1..], size, table);
      TimesLess(size, |items|);
    }
  }

  lemma SecondStepGrows(t: Second, p: Pattern, table: seq<Symbol>)
    requires t.segments != [] || p.Origin?
    ensures Total(SecondStep(t, p, table).segments) == Total(t.segments) + Size(p)
  {
    hide Total, Append, Lookup, LittleEndian, WriteItems, Normalize;
    match p
    case Origin(a) => TotalNew(t.segments, a);
    case Label(_) =>
    case Data(size, items) => WriteItemsGrows(t, items, size, table);
    case Instruction(opcode, v, size) =>
      WriteGrows(t, [opcode]);
      WriteGrows(Write(t, [opcode]), LittleEndian(v, size));
    case WithName(opcode, name, far) =>
      var t1 := Write(t, [opcode]);
      WriteGrows(t, [opcode]);
      match Lookup(table, name) {
        case Some(v) => WriteGrows(t1, LittleEndian(Normalize(v, far), FarSize(far)));
        case None => WriteGrows(t1, LittleEndian(0, FarSize(far)));
      }
    case Branch(forward, backward, name) =>
      var opcode := if Lookup(t.seen, name).None? then forward else backward;
      WriteGrows(t, [opcode]);
      BranchGrows(Write(t, [opcode]), name, table);
  }

  lemma BranchGrows(t: Second, name: string, table: seq<Symbol>)
    requires t.segments != []
    ensures Total(WriteBranch(t, name, table).segments) == Total(t.segments) + 1
  {
    hide Total, Append, Lookup, LittleEndian, Wrap;
    forall b: seq<Byte>
      ensures Total(Write(t, b).segments) == Total(t.segments) + |b|
    {
      WriteGrows(t, b);
    }
  }

  lemma {:induction false} SecondPassGrows(t: Second, p: seq<Pattern>, table: seq<Symbol>)
    requires t.segments != [] || Opens(p)
    ensures Total(SecondPass(t, p, table).segments) == Total(t.segments) + Sizes(p)
    decreases |p|
  {
    hide SecondStep, Size, Total;
    if p != [] {
      SecondStepGrows(t, p[0], table);
      SecondPassGrows(SecondStep(t, p[0], table), p[1..], table);
    }
  }

  // ---- The first pass writes at least that, and more for every late name ----

  lemma EmitGrows(s: Assembly, v: nat, size: nat)
    requires s.segments != []
    ensures Total(Emit(s, v, size).segments) == Total(s.segments) + size
  {
    TotalAppend(s.segments, LittleEndian(v, size));
  }

  lemma PutItemGrows(s: Assembly, item: Item, size: nat)
    requires s.segments != []
    ensures var s1 := PutItem(s, item, size);
            s1.symbols == s.symbols && s1.segments != [] &&
            Total(s1.segments) == Total(s.segments) +
              if item.NameItem? && Lookup(s.symbols, item.name).None? then size + size else size
  {
    hide Total, Append, Lookup, LittleEndian;
    match item
    case Number(v) => EmitGrows(s, v, size);
    case NameItem(name) =>
      match Lookup(s.symbols, name)
      case Some(v) => EmitGrows(s, v, size);
      case None =>
        EmitGrows(s.(references := s.references + [Reference(RefData, s.at, name, size)]), 0, size);
        EmitGrows(Ask(s, RefData, name, size), 0, size);
  }

  lemma {:induction false} PutItemsGrows(s: Assembly, items: seq<Item>, size: nat, names: set<string>)
    requires s.segments != [] && size > 0 && Exactly(s.symbols, names)
    ensures var s1 := PutItems(s, items, size);
            s1.symbols == s.symbols && Total(s1.segments) >= Total(s.segments) + size * |items| &&
            (!KnownItems(items, names) ==> Total(s1.segments) > Total(s.segments) + size * |items|)
    decreases |items|
  {
    hide Total, Append, Lookup, LittleEndian, PutItem;
    if items != [] {
      PutItemGrows(s, items[0], size);
      PutItemsGrows(PutItem(s, items[0], size), items[1..], size, names);
      TimesLess(size, |items|);
      KnownFirst(items, names);
    }
  }

  lemma KnownFirst(items: seq<Item>, names: set<string>)
    requires items != []
    ensures KnownItems(items, names) <==>
            (items[0].NameItem? ==> items[0].name in names) && KnownItems(items[1..], names)
  {
    if (items[0].NameItem? ==> items[0].name in names) && KnownItems(items[1..], names) {
      forall i | 0 <= i < |items| && items[i].NameItem?
        ensures items[i].name in names
      {
        if i > 0 {
          assert items[1..][i - 1] == items[i];
        }
      }
    }
  }

  lemma StepGrows(s: Assembly, p: Pattern, names: set<string>)
    requires (s.segments != [] || p.Origin?) && Exactly(s.symbols, names) && (p.Data? ==> p.size > 0)
    ensures var s1 := Step(s, p);
            s1.errors >= s.errors && s1.symbols == NextSymbols(p, s.symbols, s.at) &&
            (s1.errors == s.errors ==>
               Total(s1.segments) >= Total(s.segments) + Size(p) &&
               (p.Data? && !KnownItems(p.items, names) ==> Total(s1.segments) > Total(s.segments) + Size(p)))
  {
    hide Total, Append, Lookup, LittleEndian, PutItems, Normalize, Wrap, Exactly, KnownItems;
    match p
    case Origin(a) => TotalNew(s.segments, a);
    case Label(_) =>
    case Data(size, items) =>
      PutItemsGrows(s, items, size, names);
      ItemsKeepErrors(s, items, size);
    case Instruction(opcode, v, size) =>
      EmitGrows(s, opcode, 1);
      EmitGrows(Emit(s, opcode, 1), v, size);
    case WithName(opcode, name, far) =>
      EmitGrows(s, opcode, 1);
      NameGrows(Emit(s, opcode, 1), name, far);
    case Branch(forward, backward, name) =>
      var opcode := if Lookup(s.symbols, name).None? then forward else backward;
      EmitGrows(s, opcode, 1);
      PutBranchGrows(Emit(s, opcode, 1), name);
  }

  lemma {:induction false} ItemsKeepErrors(s: Assembly, items: seq<Item>, size: nat)
    requires s.segments != []
    ensures PutItems(s, items, size).errors == s.errors
    decreases |items|
  {
    hide Append, Lookup, LittleEndian;
    if items != [] {
      ItemsKeepErrors(PutItem(s, items[0], size), items[1..], size);
    }
  }

  lemma NameGrows(s: Assembly, name: string, far: bool)
    requires s.segments != []
    ensures var s1 := PutName(s, name, far);
            s1.errors == s.errors && s1.symbols == s.symbols && Total(s1.segments) == Total(s.segments) + FarSize(far)
  {
    hide Total, Append, Lookup, LittleEndian, Normalize;
    match Lookup(s.symbols, name)
    case Some(v) => EmitGrows(s, Normalize(v, far), FarSize(far));
    case None => EmitGrows(s.(references := s.references + [Reference(RefAbsolute, s.at, name, FarSize(far))]), 0,
                           FarSize(far));
  }

  lemma PutBranchGrows(s: Assembly, name: string)
    requires s.segments != []
    ensures var s1 := PutBranch(s, name);
            s1.errors >= s.errors && s1.symbols == s.symbols &&
            (s1.errors == s.errors ==> Total(s1.segments) == Total(s.segments) + 1)
  {
    hide Total, Append, Lookup, LittleEndian, Wrap;
    match Lookup(s.symbols, name)
    case Some(v) => EmitGrows(s, Wrap(s.at - v - 1), 1);
    case None => EmitGrows(s.(references := s.references + [Reference(RefRelative, s.at, name, 1)]), 0, 1);
  }

  lemma ExactlyStep(symbols: seq<Symbol>, names: set<string>, name: string, v: nat)
    requires Exactly(symbols, names)
    ensures Exactly(symbols + [Symbol(name, v)], names + {name})
  {
    forall n
      ensures n in names + {name} <==> Lookup(symbols + [Symbol(name, v)], n).Some?
    {
      LookupSnoc(symbols, name, v, n);
    }
  }

  lemma {:induction false} LookupSnoc(symbols: seq<Symbol>, name: string, v: nat, n: string)
    ensures Lookup(symbols + [Symbol(name, v)], n).Some? == (Lookup(symbols, n).Some? || n == name)
  {
    if symbols != [] {
      assert (symbols + [Symbol(name, v)])[1..] == symbols[1..] + [Symbol(name, v)];
      LookupSnoc(symbols[1..], name, v, n);
    }
  }

  lemma {:induction false} PassGrows(s: Assembly, p: seq<Pattern>, names: set<string>)
    requires (s.segments != [] || Opens(p)) && Exactly(s.symbols, names) && RealData(p)
    ensures var s1 := Pass(s, p);
            s1.errors >= s.errors &&
            (s1.errors == s.errors ==>
               Total(s1.segments) >= Total(s.segments) + Sizes(p) &&
               (!KnownNames(p, names) ==> Total(s1.segments) > Total(s.segments) + Sizes(p)))
    decreases |p|
  {
    hide Step, Size, Total, KnownItems, Exactly;
    if p != [] {
      assert p[0].Data? ==> p[0].size > 0;
      StepGrows(s, p[0], names);
      if p[0].Label? {
        ExactlyStep(s.symbols, names, p[0].name, s.at);
      }
      assert RealData(p[1..]);
      PassGrows(Step(s, p[0]), p[1..], NamesAfter(p[0], names));
    }
  }

  /** Of the files that assemble one way or the other, exactly those come out the same both ways that declare
      every name of a data directive before it is used there. */
  lemma ExactlyWithoutLateNames(p: seq<Pattern>)
    requires Opens(p) && RealData(p) && (OnePass(p).Some? || TwoPass(p).Some?)
    ensures OnePass(p) == TwoPass(p) <==> KnownNames(p, {})
  {
    hide Pass, SecondPass, Table, Patch, Resolved, Disjoint, KnownNames, Total, Sizes, RealData;
    if KnownNames(p, {}) {
      OnePassIsTwoPass(p);
    } else if OnePass(p).Some? {
      var s, t := Pass(EMPTY, p), SecondPass(Second([], [], 0, true), p, Table(p, 0));
      assert Exactly([], {});
      PassGrows(EMPTY, p, {});
      SecondPassGrows(Second([], [], 0, true), p, Table(p, 0));
      PatchShape(s.segments, s.references, s.symbols);
      TotalShape(s.segments, Patch(s.segments, s.references, s.symbols));
    }
  }

  /** One byte that names the label behind it: two passes give one byte, the program emits two. */
  lemma LateNameDiffers(p: seq<Pattern>)
    requires p == [Origin(0), Data(1, [NameItem("x")]), Label("x")]
    ensures Opens(p) && RealData(p) && TwoPass(p).Some? && OnePass(p) != TwoPass(p)
  {
    hide OnePass, TwoPass;
    assert !KnownNames(p, {}) by {
      assert p[1..][0] == p[1] && p[1].items[0].NameItem?;
      assert !KnownNames(p[1..], {});
    }
    LateNameTwoPass(p);
    ExactlyWithoutLateNames(p);
  }

  lemma LateNameTable(p: seq<Pattern>)
    requires p == [Origin(0), Data(1, [NameItem("x")]), Label("x")]
    ensures Table(p, 0) == [Symbol("x", 1)]
  {
    assert p[1..] == [p[1], p[2]] && p[1..][1..] == [p[2]];
    assert Table([p[2]], 1) == [Symbol("x", 1)];
  }

  lemma LateNameTwoPass(p: seq<Pattern>)
    requires p == [Origin(0), Data(1, [NameItem("x")]), Label("x")]
    ensures TwoPass(p).Some?
  {
    hide LittleEndian, SecondStep;
    var table := Table(p, 0);
    LateNameTable(p);
    var t := SecondStep(Second([], [], 0, true), p[0], table);
    var t1 := SecondStep(t, p[1], table);
    var t2 := SecondStep(t1, p[2], table);
    assert p[1..][0] == p[1] && p[1..][1..] == [p[2]];
    assert SecondPass(t1, [p[2]], table) == SecondPass(t2, [], table);
    assert SecondPass(t, p[1..], table) == SecondPass(t1, [p[2]], table);
    LateNameSteps(table);
  }

  lemma LateNameSteps(table: seq<Symbol>)
    requires table == [Symbol("x", 1)]
    ensures var t := SecondStep(Second([], [], 0, true), Origin(0), table);
            var t2 := SecondStep(SecondStep(t, Data(1, [NameItem("x")]), table), Label("x"), table);
            t2.ok && |t2.segments| == 1
  {
    hide LittleEndian, Append;
    var t := SecondStep(Second([], [], 0, true), Origin(0), table);
    assert WriteItems(t, [NameItem("x")], 1, table) == WriteItems(WriteItem(t, NameItem("x"), 1, table), [], 1, table);
  }
}
