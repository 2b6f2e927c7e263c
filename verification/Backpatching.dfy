/** Patching references afterwards gives the bytes that were known all along. */
module Backpatching {
  import opened Wrappers
  import opened Bits
  import opened Assembler

  // ---- Inserting and appending ----

  /** Same addresses and lengths. */
  predicate SameShape(a: seq<Segment>, b: seq<Segment>) {
    |a| == |b| && forall i :: 0 <= i < |a| ==> a[i].address == b[i].address && |a[i].data| == |b[i].data|
  }

  /** A field of `n` bytes at address `a` lies in segment `i`. */
  predicate Has(segments: seq<Segment>, i: nat, a: nat, n: nat) {
    i < |segments| && 0 < n && segments[i].address <= a && a + n <= segments[i].address + |segments[i].data|
  }

  lemma DisjointShape(a: seq<Segment>, b: seq<Segment>)
    requires SameShape(a, b) && Disjoint(a)
    ensures Disjoint(b)
  {
    forall i, j | 0 <= i < j < |b|
      ensures !Intersecting(b[i], b[j])
    {
      assert !Intersecting(a[i], a[j]);
    }
  }

  lemma DisjointBefore(segments: seq<Segment>, bytes: seq<Byte>)
    requires segments != [] && Disjoint(Append(segments, bytes))
    ensures Disjoint(segments)
  {
    forall i, j | 0 <= i < j < |segments|
      ensures !Intersecting(segments[i], segments[j])
    {
      assert !Intersecting(Append(segments, bytes)[i], Append(segments, bytes)[j]);
    }
  }

  /** In disjoint segments an address is in at most one. */
  lemma {:induction false} FoundSegment(segments: seq<Segment>, i: nat, a: nat)
    requires Disjoint(segments) && i < |segments| && Inside(segments[i], a)
    ensures SegmentOf(segments, a) == Some(i)
  {
    var n := |segments| - 1;
    if i < n {
      assert !Intersecting(segments[i], segments[n]);
      assert Disjoint(segments[..n]) by {
        forall j, k | 0 <= j < k < n
          ensures !Intersecting(segments[..n][j], segments[..n][k])
        {
          assert !Intersecting(segments[j], segments[k]);
        }
      }
      FoundSegment(segments[..n], i, a);
    }
  }

  lemma InsertedAt(segments: seq<Segment>, i: nat, a: nat, bytes: seq<Byte>)
    requires Disjoint(segments) && Has(segments, i, a, |bytes|)
    ensures Insert(segments, a, bytes) ==
            segments[i := Segment(segments[i].address, Overwrite(segments[i].data, a - segments[i].address, bytes))]
  {
    FoundSegment(segments, i, a);
  }

  lemma InsertShape(segments: seq<Segment>, a: nat, bytes: seq<Byte>)
    ensures SameShape(segments, Insert(segments, a, bytes))
  {
  }

  lemma OverwriteGrown(data: seq<Byte>, at: nat, bytes: seq<Byte>, more: seq<Byte>)
    requires at + |bytes| <= |data|
    ensures Overwrite(data + more, at, bytes) == Overwrite(data, at, bytes) + more
  {
  }

  /** A field that is there already is not touched by what is appended later. */
  lemma InsertThenAppend(segments: seq<Segment>, i: nat, a: nat, bytes: seq<Byte>, more: seq<Byte>)
    requires Has(segments, i, a, |bytes|) && Disjoint(Append(segments, more))
    ensures Insert(Append(segments, more), a, bytes) == Append(Insert(segments, a, bytes), more)
  {
    hide Overwrite, Insert, Disjoint;
    DisjointBefore(segments, more);
    InsertedAt(segments, i, a, bytes);
    InsertedAt(Append(segments, more), i, a, bytes);
    OverwriteGrown(segments[i].data, a - segments[i].address, bytes, more);
  }

  lemma OverwriteTail(data: seq<Byte>, tail: seq<Byte>, bytes: seq<Byte>)
    requires |tail| == |bytes|
    ensures Overwrite(data + tail, |data|, bytes) == data + bytes
  {
  }

  /** Zeros at the end, filled in at once, are the bytes. */
  lemma FillZeros(segments: seq<Segment>, a: nat, bytes: seq<Byte>)
    requires segments != [] && bytes != [] && Disjoint(Append(segments, LittleEndian(0, |bytes|)))
    requires var last := segments[|segments| - 1]; a == last.address + |last.data|
    ensures Insert(Append(segments, LittleEndian(0, |bytes|)), a, bytes) == Append(segments, bytes)
  {
    hide Disjoint, LittleEndian, Overwrite, Insert;
    var n := |segments| - 1;
    var zeros := Append(segments, LittleEndian(0, |bytes|));
    InsertedAt(zeros, n, a, bytes);
    OverwriteTail(segments[n].data, LittleEndian(0, |bytes|), bytes);
  }

  // ---- References ----

  ghost predicate FieldInside(segments: seq<Segment>, r: Reference) {
    (r.kind.RefRelative? ==> r.size == 1) && exists i: nat :: Has(segments, i, r.address, r.size)
  }

  ghost predicate FieldsInside(segments: seq<Segment>, references: seq<Reference>) {
    forall k :: 0 <= k < |references| ==> FieldInside(segments, references[k])
  }

  lemma FieldShape(a: seq<Segment>, b: seq<Segment>, r: Reference)
    requires FieldInside(a, r) && |a| <= |b|
    requires forall i :: 0 <= i < |a| ==> a[i].address == b[i].address && |a[i].data| <= |b[i].data|
    ensures FieldInside(b, r)
  {
    var i: nat :| Has(a, i, r.address, r.size);
    assert Has(b, i, r.address, r.size);
  }

  lemma FieldsShape(a: seq<Segment>, b: seq<Segment>, references: seq<Reference>)
    requires FieldsInside(a, references) && |a| <= |b|
    requires forall i :: 0 <= i < |a| ==> a[i].address == b[i].address && |a[i].data| <= |b[i].data|
    ensures FieldsInside(b, references)
  {
    hide FieldInside;
    forall k | 0 <= k < |references|
      ensures FieldInside(b, references[k])
    {
      FieldShape(a, b, references[k]);
    }
  }

  lemma {:induction false} PatchShape(segments: seq<Segment>, references: seq<Reference>, symbols: seq<Symbol>)
    ensures SameShape(segments, Patch(segments, references, symbols))
    decreases |references|
  {
    hide Filling, Insert;
    if references != [] && Filling(references[0], symbols).Some? {
      var b := Filling(references[0], symbols).value;
      InsertShape(segments, references[0].address, b);
      PatchShape(Insert(segments, references[0].address, b), references[1..], symbols);
    } else if references != [] {
      PatchShape(segments, references[1..], symbols);
    }
  }

  /** Patching does not care what is appended. */
  lemma {:induction false} PatchThenAppend(segments: seq<Segment>, references: seq<Reference>, symbols: seq<Symbol>,
                                           more: seq<Byte>)
    requires segments != [] && FieldsInside(segments, references) && Disjoint(Append(segments, more))
    ensures Patch(Append(segments, more), references, symbols) == Append(Patch(segments, references, symbols), more)
    decreases |references|
  {
    hide Filling, Insert, Disjoint, FieldInside;
    if references != [] {
      var r, rest := references[0], references[1..];
      match Filling(r, symbols)
      case None =>
        PatchThenAppend(segments, rest, symbols, more);
      case Some(b) =>
        var next := Insert(segments, r.address, b);
        InsertShape(segments, r.address, b);
        FieldsShape(segments, next, rest);
        DisjointShape(Append(segments, more), Append(next, more));
        InsertThenAppendField(segments, r, symbols, b, more);
        PatchThenAppend(next, rest, symbols, more);
    }
  }

  lemma InsertThenAppendField(segments: seq<Segment>, r: Reference, symbols: seq<Symbol>, b: seq<Byte>, more: seq<Byte>)
    requires FieldInside(segments, r) && Filling(r, symbols) == Some(b) && Disjoint(Append(segments, more))
    ensures Insert(Append(segments, more), r.address, b) == Append(Insert(segments, r.address, b), more)
  {
    hide Insert, Disjoint, Append;
    var i: nat :| Has(segments, i, r.address, r.size);
    InsertThenAppend(segments, i, r.address, b, more);
  }

  lemma {:induction false} PatchSnoc(segments: seq<Segment>, references: seq<Reference>, r: Reference,
                                     symbols: seq<Symbol>)
    ensures var patched := Patch(segments, references, symbols);
            Patch(segments, references + [r], symbols) ==
            match Filling(r, symbols) { case Some(b) => Insert(patched, r.address, b) case None => patched }
    decreases |references|
  {
    hide Filling, Insert;
    var all := references + [r];
    if references == [] {
      assert all[0] == r && all[1..] == [];
    } else {
      assert all[0] == references[0] && all[1..] == references[1..] + [r];
      match Filling(references[0], symbols)
      case None => PatchSnoc(segments, references[1..], r, symbols);
      case Some(b) => PatchSnoc(Insert(segments, references[0].address, b), references[1..], r, symbols);
    }
  }

  lemma {:induction false} PatchNewSegment(segments: seq<Segment>, references: seq<Reference>, symbols: seq<Symbol>,
                                           a: nat)
    ensures Patch(segments + [Segment(a, [])], references, symbols) ==
            Patch(segments, references, symbols) + [Segment(a, [])]
    decreases |references|
  {
    hide Filling, Insert;
    if references != [] {
      match Filling(references[0], symbols)
      case None => PatchNewSegment(segments, references[1..], symbols, a);
      case Some(b) =>
        InsertNewSegment(segments, references[0].address, b, a);
        PatchNewSegment(Insert(segments, references[0].address, b), references[1..], symbols, a);
    }
  }

  lemma InsertNewSegment(segments: seq<Segment>, at: nat, b: seq<Byte>, a: nat)
    ensures Insert(segments + [Segment(a, [])], at, b) == Insert(segments, at, b) + [Segment(a, [])]
  {
    hide Overwrite;
    var more := segments + [Segment(a, [])];
    assert more[..|segments|] == segments;
    assert SegmentOf(more, at) == SegmentOf(segments, at);
  }

  // ---- The two ways step by step ----

  /** The current address is the end of the last segment. */
  predicate AtEnd(segments: seq<Segment>, at: nat) {
    segments != [] ==> var last := segments[|segments| - 1]; at == last.address + |last.data|
  }

  /** What holds between the two after the same lines: without an error the second pass has written what the
      first one will have after patching. */
  ghost predicate Agree(s: Assembly, t: Second, table: seq<Symbol>) {
    |s.segments| == |t.segments| &&
    if s.errors > 0 then !t.ok
    else t.at == s.at && t.seen == s.symbols && SameShape(s.segments, t.segments) && AtEnd(s.segments, s.at) &&
         FieldsInside(s.segments, s.references) && t.ok == Resolved(s.references, table) &&
         (t.ok && Disjoint(s.segments) ==> t.segments == Patch(s.segments, s.references, table))
  }

  /** Both write the same bytes. */
  lemma AgreeWrite(s: Assembly, t: Second, table: seq<Symbol>, bytes: seq<Byte>)
    requires Agree(s, t, table) && s.segments != []
    ensures Agree(s.(segments := Append(s.segments, bytes), at := s.at + |bytes|), Write(t, bytes), table)
  {
    hide Disjoint, Patch, Resolved, FieldInside;
    if s.errors == 0 {
      var next := Append(s.segments, bytes);
      FieldsShape(s.segments, next, s.references);
      if t.ok && Disjoint(next) {
        DisjointBefore(s.segments, bytes);
        PatchThenAppend(s.segments, s.references, table, bytes);
      }
    }
  }

  lemma ResolvedSnoc(references: seq<Reference>, r: Reference, symbols: seq<Symbol>)
    ensures Resolved(references + [r], symbols) == (Resolved(references, symbols) && Filling(r, symbols).Some?)
  {
    hide Filling;
    var all := references + [r];
    assert all[|references|] == r;
    assert forall i :: 0 <= i < |references| ==> all[i] == references[i];
  }

  lemma NewField(segments: seq<Segment>, references: seq<Reference>, at: nat, r: Reference)
    requires segments != [] && FieldsInside(segments, references) && AtEnd(segments, at)
    requires r.address == at && r.size > 0 && (r.kind.RefRelative? ==> r.size == 1)
    ensures FieldsInside(Append(segments, LittleEndian(0, r.size)), references + [r])
  {
    hide FieldInside, LittleEndian;
    var next := Append(segments, LittleEndian(0, r.size));
    FieldsShape(segments, next, references);
    assert FieldInside(next, r) by { FieldAtEnd(segments, at, r); }
  }

  lemma FieldAtEnd(segments: seq<Segment>, at: nat, r: Reference)
    requires segments != [] && AtEnd(segments, at) && r.address == at && r.size > 0 &&
             (r.kind.RefRelative? ==> r.size == 1)
    ensures FieldInside(Append(segments, LittleEndian(0, r.size)), r)
  {
    assert Has(Append(segments, LittleEndian(0, r.size)), |segments| - 1, at, r.size);
  }

  lemma PatchNewField(segments: seq<Segment>, references: seq<Reference>, at: nat, r: Reference, symbols: seq<Symbol>,
                      b: seq<Byte>)
    requires segments != [] && FieldsInside(segments, references) && AtEnd(segments, at)
    requires r.address == at && r.size > 0 && (r.kind.RefRelative? ==> r.size == 1) && Filling(r, symbols) == Some(b)
    requires Disjoint(Append(segments, LittleEndian(0, r.size)))
    ensures Patch(Append(segments, LittleEndian(0, r.size)), references + [r], symbols) ==
            Append(Patch(segments, references, symbols), b)
  {
    hide Patch, Filling, Insert, Disjoint, FieldInside, LittleEndian;
    var zeros := LittleEndian(0, r.size);
    var patched := Patch(segments, references, symbols);
    PatchSnoc(Append(segments, zeros), references, r, symbols);
    PatchThenAppend(segments, references, symbols, zeros);
    PatchShape(segments, references, symbols);
    DisjointShape(Append(segments, zeros), Append(patched, zeros));
    FillZeros(patched, at, b);
  }

  function AskWrites(t: Second, r: Reference, table: seq<Symbol>, otherwise: seq<Byte>): Second
    requires t.segments != []
  {
    match Filling(r, table)
    case Some(b) => Write(t, b)
    case None => Write(t, otherwise).(ok := false)
  }

  /** The first leaves a field open where the second writes the bytes, if it can. */
  lemma AgreeAsk(s: Assembly, t: Second, table: seq<Symbol>, kind: Kind, name: string, size: nat, otherwise: seq<Byte>)
    requires Agree(s, t, table) && s.segments != [] && size > 0 && (kind.RefRelative? ==> size == 1) &&
             |otherwise| == size
    ensures Agree(Ask(s, kind, name, size), AskWrites(t, Reference(kind, s.at, name, size), table, otherwise), table)
  {
    hide Disjoint, Patch, Resolved, Filling, FieldsInside, LittleEndian;
    if s.errors == 0 {
      var r := Reference(kind, s.at, name, size);
      var next := Append(s.segments, LittleEndian(0, size));
      NewField(s.segments, s.references, s.at, r);
      ResolvedSnoc(s.references, r, table);
      if t.ok && Filling(r, table).Some? && Disjoint(next) {
        DisjointBefore(s.segments, LittleEndian(0, size));
        PatchNewField(s.segments, s.references, s.at, r, table, Filling(r, table).value);
      }
    }
  }

  lemma AgreeOrigin(s: Assembly, t: Second, table: seq<Symbol>, a: nat)
    requires Agree(s, t, table)
    ensures Agree(s.(segments := s.segments + [Segment(a, [])], at := a),
                  t.(segments := t.segments + [Segment(a, [])], at := a), table)
  {
    hide Disjoint, Patch, Resolved, FieldInside;
    if s.errors == 0 {
      var next := s.segments + [Segment(a, [])];
      FieldsShape(s.segments, next, s.references);
      if t.ok && Disjoint(next) {
        assert Disjoint(s.segments) by { DisjointFront(s.segments, a); }
        PatchNewSegment(s.segments, s.references, table, a);
      }
    }
  }

  lemma DisjointFront(segments: seq<Segment>, a: nat)
    requires Disjoint(segments + [Segment(a, [])])
    ensures Disjoint(segments)
  {
    var all := segments + [Segment(a, [])];
    forall i, j | 0 <= i < j < |segments|
      ensures !Intersecting(segments[i], segments[j])
    {
      assert !Intersecting(all[i], all[j]);
    }
  }

  // ---- Lines ----

  lemma {:induction false} LookupEarlier(earlier: seq<Symbol>, later: seq<Symbol>, name: string)
    requires Lookup(earlier, name).Some?
    ensures Lookup(earlier + later, name) == Lookup(earlier, name)
  {
    assert (earlier + later)[0] == earlier[0] && (earlier + later)[1..] == earlier[1..] + later;
    if earlier[0].name != name {
      LookupEarlier(earlier[1..], later, name);
    }
  }

  /** Without an error so far, the symbols are the front of the table. */
  predicate InTable(s: Assembly, table: seq<Symbol>) {
    s.errors == 0 ==> s.symbols <= table
  }

  lemma SameValue(s: Assembly, table: seq<Symbol>, name: string)
    requires InTable(s, table) && s.errors == 0 && Lookup(s.symbols, name).Some?
    ensures Lookup(table, name) == Lookup(s.symbols, name)
  {
    hide Lookup;
    LookupEarlier(s.symbols, table[|s.symbols|..], name);
    assert s.symbols + table[|s.symbols|..] == table;
  }

  predicate KnownItems(items: seq<Item>, names: set<string>) {
    forall i :: 0 <= i < |items| && items[i].NameItem? ==> items[i].name in names
  }

  /** The names in data directives are declared before them. */
  predicate KnownNames(p: seq<Pattern>, names: set<string>) {
    p == [] ||
    match p[0]
    case Label(name) => KnownNames(p[1..], names + {name})
    case Data(_, items) => KnownItems(items, names) && KnownNames(p[1..], names)
    case _ => KnownNames(p[1..], names)
  }

  predicate Declared(symbols: seq<Symbol>, names: set<string>) {
    forall n :: n in names ==> Lookup(symbols, n).Some?
  }

  lemma SameCount(s: Assembly, t: Second, table: seq<Symbol>)
    requires Agree(s, t, table)
    ensures |s.segments| == |t.segments| && (s.errors > 0 ==> !t.ok) &&
            (s.errors == 0 ==> t.seen == s.symbols && t.at == s.at)
  {
  }

  /** After an error only the failure matters. */
  lemma AgreeBroken(s: Assembly, t: Second, table: seq<Symbol>)
    requires |s.segments| == |t.segments| && s.errors > 0 && !t.ok
    ensures Agree(s, t, table)
  {
  }

  lemma AgreeItem(s: Assembly, t: Second, table: seq<Symbol>, item: Item, size: nat)
    requires Agree(s, t, table) && s.segments != [] && InTable(s, table) &&
             (item.NameItem? ==> Lookup(s.symbols, item.name).Some?)
    ensures t.segments != []
    ensures var s1 := PutItem(s, item, size);
            s1.segments != [] &&
            Agree(s1, WriteItem(t, item, size, table), table) && s1.symbols == s.symbols && s1.at == s.at + size &&
            s1.errors == s.errors
  {
    hide Agree, Lookup, LittleEndian, InTable;
    SameCount(s, t, table);
    match item
    case Number(v) =>
      AgreeWrite(s, t, table, LittleEndian(v, size));
    case NameItem(name) =>
      var v := Lookup(s.symbols, name).value;
      if s.errors == 0 {
        SameValue(s, table, name);
        AgreeWrite(s, t, table, LittleEndian(v, size));
      } else {
        AgreeBroken(Emit(s, v, size), WriteItem(t, item, size, table), table);
      }
  }

  lemma {:induction false} AgreeItems(s: Assembly, t: Second, table: seq<Symbol>, items: seq<Item>, size: nat,
                                      names: set<string>)
    requires Agree(s, t, table) && s.segments != [] && InTable(s, table) && KnownItems(items, names) &&
             Declared(s.symbols, names)
    ensures t.segments != []
    ensures var s1 := PutItems(s, items, size);
            Agree(s1, WriteItems(t, items, size, table), table) && s1.symbols == s.symbols &&
            s1.at == s.at + size * |items| && s1.errors == s.errors
    decreases |items|
  {
    hide Agree, Lookup, PutItem, WriteItem, InTable;
    SameCount(s, t, table);
    if items != [] {
      assert KnownItems(items[1..], names);
      assert items[0].NameItem? ==> items[0].name in names;
      AgreeItem(s, t, table, items[0], size);
      InTableStill(s, PutItem(s, items[0], size), table);
      AgreeItems(PutItem(s, items[0], size), WriteItem(t, items[0], size, table), table, items[1..], size, names);
      TimesLess(size, |items|);
    }
  }

  lemma TimesLess(size: nat, n: nat)
    requires n > 0
    ensures size + size * (n - 1) == size * n
  {
  }

  lemma InTableStill(s: Assembly, r: Assembly, table: seq<Symbol>)
    requires InTable(s, table) && r.symbols == s.symbols && r.errors >= s.errors
    ensures InTable(r, table)
  {
  }

  lemma AgreeName(s: Assembly, t: Second, table: seq<Symbol>, name: string, far: bool)
    requires Agree(s, t, table) && s.segments != [] && InTable(s, table)
    ensures t.segments != []
    ensures var s1 := PutName(s, name, far);
            Agree(s1, WriteName(t, name, far, table), table) && s1.symbols == s.symbols &&
            s1.at == s.at + FarSize(far) && s1.errors == s.errors
  {
    hide Agree, Lookup, LittleEndian, NormalizeWord, NormalizeLong, InTable, Append;
    SameCount(s, t, table);
    if s.errors > 0 {
      AgreeBroken(PutName(s, name, far), WriteName(t, name, far, table), table);
    } else {
      match Lookup(s.symbols, name)
      case Some(v) =>
        SameValue(s, table, name);
        AgreeWrite(s, t, table, LittleEndian(Normalize(v, far), FarSize(far)));
      case None =>
        AgreeAsk(s, t, table, RefAbsolute, name, FarSize(far), LittleEndian(0, FarSize(far)));
    }
  }

  lemma AgreeBranch(s: Assembly, t: Second, table: seq<Symbol>, name: string)
    requires Agree(s, t, table) && s.segments != [] && InTable(s, table)
    ensures t.segments != []
    ensures var s1 := PutBranch(s, name);
            Agree(s1, WriteBranch(t, name, table), table) && s1.symbols == s.symbols && s1.errors >= s.errors &&
            (s1.errors == 0 ==> s1.at == s.at + 1)
  {
    hide Agree, Lookup, LittleEndian, InTable, Append, Wrap;
    SameCount(s, t, table);
    if s.errors > 0 {
      AgreeBroken(PutBranch(s, name), WriteBranch(t, name, table), table);
    } else {
      match Lookup(s.symbols, name)
      case Some(v) =>
        SameValue(s, table, name);
        var distance := Wrap(s.at - v - 1);
        if distance > 255 {
          AgreeBroken(PutBranch(s, name), WriteBranch(t, name, table), table);
        } else {
          AgreeWrite(s, t, table, LittleEndian(distance, 1));
        }
      case None =>
        AgreeAsk(s, t, table, RefRelative, name, 1, [0]);
    }
  }

  /** The address after a line, from its size alone. */
  function NextAddress(p: Pattern, at: nat): nat {
    if p.Origin? then p.address else at + Size(p)
  }

  function NextSymbols(p: Pattern, symbols: seq<Symbol>, at: nat): seq<Symbol> {
    if p.Label? then symbols + [Symbol(p.name, at)] else symbols
  }

  /** Both passes over one line. */
  lemma StepAgrees(s: Assembly, t: Second, table: seq<Symbol>, p: Pattern, names: set<string>)
    requires Agree(s, t, table) && (s.segments != [] || p.Origin?) && InTable(s, table)
    requires Declared(s.symbols, names) && (p.Data? ==> KnownItems(p.items, names))
    ensures t.segments != [] || p.Origin?
    ensures var s1 := Step(s, p);
            Agree(s1, SecondStep(t, p, table), table) && s1.errors >= s.errors &&
            s1.symbols == NextSymbols(p, s.symbols, s.at) &&
            (s1.errors == 0 ==> s1.at == NextAddress(p, s.at))
  {
    hide Agree, Lookup, PutItems, PutName, PutBranch, WriteItems, WriteName, WriteBranch, InTable, KnownItems,
         Declared, LittleEndian, Append;
    SameCount(s, t, table);
    match p
    case Origin(a) => AgreeOrigin(s, t, table, a);
    case Label(name) => AgreeLabel(s, t, table, name);
    case Data(size, items) => AgreeItems(s, t, table, items, size, names);
    case Instruction(opcode, v, size) =>
      OpcodeByte(opcode);
      AgreeWrite(s, t, table, [opcode]);
      AgreeWrite(Emit(s, opcode, 1), Write(t, [opcode]), table, LittleEndian(v, size));
    case WithName(opcode, name, far) =>
      OpcodeByte(opcode);
      AgreeWrite(s, t, table, [opcode]);
      InTableStill(s, Emit(s, opcode, 1), table);
      AgreeName(Emit(s, opcode, 1), Write(t, [opcode]), table, name, far);
    case Branch(forward, backward, name) =>
      BranchAgrees(s, t, table, forward, backward, name);
  }

  lemma OpcodeByte(opcode: Byte)
    ensures LittleEndian(opcode, 1) == [opcode]
  {
  }

  lemma BranchAgrees(s: Assembly, t: Second, table: seq<Symbol>, forward: Byte, backward: Byte, name: string)
    requires Agree(s, t, table) && s.segments != [] && InTable(s, table)
    ensures t.segments != []
    ensures var p := Branch(forward, backward, name);
            var s1 := Step(s, p);
            Agree(s1, SecondStep(t, p, table), table) && s1.errors >= s.errors && s1.symbols == s.symbols &&
            (s1.errors == 0 ==> s1.at == s.at + 2)
  {
    hide Agree, Lookup, PutBranch, WriteBranch, InTable, LittleEndian, Append;
    SameCount(s, t, table);
    var opcode := if Lookup(s.symbols, name).None? then forward else backward;
    var emitted := Emit(s, opcode, 1);
    OpcodeByte(opcode);
    InTableStill(s, emitted, table);
    if s.errors > 0 {
      var other := if Lookup(t.seen, name).None? then forward else backward;
      AgreeBroken(emitted, Write(t, [other]), table);
      AgreeBranch(emitted, Write(t, [other]), table, name);
    } else {
      AgreeWrite(s, t, table, [opcode]);
      AgreeBranch(emitted, Write(t, [opcode]), table, name);
    }
  }

  lemma AgreeLabel(s: Assembly, t: Second, table: seq<Symbol>, name: string)
    requires Agree(s, t, table)
    ensures Agree(s.(symbols := s.symbols + [Symbol(name, s.at)]), t.(seen := t.seen + [Symbol(name, t.at)]), table)
  {
    hide Disjoint, Patch, Resolved, FieldsInside;
  }

  lemma {:induction false} DeclaredStep(symbols: seq<Symbol>, names: set<string>, name: string, v: nat)
    requires Declared(symbols, names)
    ensures Declared(symbols + [Symbol(name, v)], names + {name})
  {
    forall n | n in names + {name}
      ensures Lookup(symbols + [Symbol(name, v)], n).Some?
    {
      if n in names {
        LookupEarlier(symbols, [Symbol(name, v)], n);
      } else {
        LookupLast(symbols, name, v);
      }
    }
  }

  lemma {:induction false} LookupLast(symbols: seq<Symbol>, name: string, v: nat)
    ensures Lookup(symbols + [Symbol(name, v)], name).Some?
  {
    if symbols != [] {
      assert (symbols + [Symbol(name, v)])[1..] == symbols[1..] + [Symbol(name, v)];
      LookupLast(symbols[1..], name, v);
    }
  }

  function NamesAfter(p: Pattern, names: set<string>): set<string> {
    if p.Label? then names + {p.name} else names
  }

  lemma KnownRest(p: seq<Pattern>, names: set<string>)
    requires p != [] && KnownNames(p, names)
    ensures KnownNames(p[1..], NamesAfter(p[0], names)) && (p[0].Data? ==> KnownItems(p[0].items, names))
  {
  }

  lemma TableRest(p: seq<Pattern>, symbols: seq<Symbol>, at: nat)
    requires p != []
    ensures symbols + Table(p, at) == NextSymbols(p[0], symbols, at) + Table(p[1..], NextAddress(p[0], at))
  {
  }

  /** The two passes agree after any lines, from any states that do. */
  lemma {:induction false} PassesAgree(s: Assembly, t: Second, table: seq<Symbol>, p: seq<Pattern>, names: set<string>)
    requires Agree(s, t, table) && (s.segments != [] || Opens(p)) && KnownNames(p, names) && Declared(s.symbols, names)
    requires s.errors == 0 ==> table == s.symbols + Table(p, s.at)
    ensures t.segments != [] || Opens(p)
    ensures var s1 := Pass(s, p);
            Agree(s1, SecondPass(t, p, table), table) && (s1.errors == 0 ==> s1.symbols == table)
    decreases |p|
  {
    hide Agree, Table, Step, SecondStep, KnownNames, KnownItems, Declared, Size;
    SameCount(s, t, table);
    if p != [] {
      KnownRest(p, names);
      TableRest(p, s.symbols, s.at);
      StepAgrees(s, t, table, p[0], names);
      var s1 := Step(s, p[0]);
      if p[0].Label? {
        DeclaredStep(s.symbols, names, p[0].name, s.at);
      }
      PassesAgree(s1, SecondStep(t, p[0], table), table, p[1..], NamesAfter(p[0], names));
    } else {
      assert Table(p, s.at) == [] by { NoTable(s.at); }
    }
  }

  lemma NoTable(at: nat)
    ensures Table([], at) == []
  {
  }

  /** One pass with patching is two passes: the same bytes, and a failure for the same files. Every file that opens
      with an origin and declares the names of its data directives before their use. */
  lemma OnePassIsTwoPass(p: seq<Pattern>)
    requires Opens(p) && KnownNames(p, {})
    ensures OnePass(p) == TwoPass(p)
  {
    hide Table, Patch, Resolved, FieldsInside, Disjoint, KnownNames;
    var table := Table(p, 0);
    var t0 := Second([], [], 0, true);
    assert Agree(EMPTY, t0, table) by { StartAgrees(table); }
    assert [] + table == table;
    PassesAgree(EMPTY, t0, table, p, {});
    var s, t := Pass(EMPTY, p), SecondPass(t0, p, table);
    if s.errors == 0 && SameShape(s.segments, t.segments) {
      if Disjoint(s.segments) {
        DisjointShape(s.segments, t.segments);
      }
      if Disjoint(t.segments) {
        DisjointShape(t.segments, s.segments);
      }
    }
  }

  lemma StartAgrees(table: seq<Symbol>)
    ensures Agree(EMPTY, Second([], [], 0, true), table)
  {
  }

  // ---- The addresses and fields of one pass ----

  /** The current address is the end of the last segment, and every reference waits inside emitted data. */
  ghost predicate Tidy(s: Assembly) {
    AtEnd(s.segments, s.at) && FieldsInside(s.segments, s.references)
  }

  lemma TidyEmit(s: Assembly, v: nat, size: nat)
    requires Tidy(s) && s.segments != []
    ensures Tidy(Emit(s, v, size))
  {
    hide FieldInside;
    FieldsShape(s.segments, Append(s.segments, LittleEndian(v, size)), s.references);
  }

  lemma TidyAsk(s: Assembly, kind: Kind, name: string, size: nat)
    requires Tidy(s) && s.segments != [] && size > 0 && (kind.RefRelative? ==> size == 1)
    ensures Tidy(Ask(s, kind, name, size))
  {
    hide FieldInside, FieldsInside;
    NewField(s.segments, s.references, s.at, Reference(kind, s.at, name, size));
  }

  lemma {:induction false} TidyItems(s: Assembly, items: seq<Item>, size: nat)
    requires Tidy(s) && s.segments != [] && size > 0
    ensures Tidy(PutItems(s, items, size))
    decreases |items|
  {
    hide Tidy, Append, LittleEndian, Lookup;
    if items != [] {
      match items[0] {
        case Number(v) => TidyEmit(s, v, size);
        case NameItem(name) =>
          match Lookup(s.symbols, name) {
            case Some(v) => TidyEmit(s, v, size);
            case None =>
              TidyAsk(s, RefData, name, size);
              TidyEmit(Ask(s, RefData, name, size), 0, size);
          }
      }
      TidyItems(PutItem(s, items[0], size), items[1..], size);
    }
  }

  lemma TidyName(s: Assembly, name: string, far: bool)
    requires Tidy(s) && s.segments != []
    ensures Tidy(PutName(s, name, far))
  {
    hide Tidy, Append, LittleEndian, Lookup, Normalize;
    match Lookup(s.symbols, name)
    case Some(v) => TidyEmit(s, Normalize(v, far), FarSize(far));
    case None => TidyAsk(s, RefAbsolute, name, FarSize(far));
  }

  lemma TidyBranch(s: Assembly, name: string)
    requires Tidy(s) && s.segments != []
    ensures Tidy(PutBranch(s, name))
  {
    hide FieldsInside, Append, LittleEndian, Lookup, Wrap;
    match Lookup(s.symbols, name)
    case Some(v) => TidyEmit(s, Wrap(s.at - v - 1), 1);
    case None => TidyAsk(s, RefRelative, name, 1);
  }

  lemma TidyStep(s: Assembly, p: Pattern)
    requires Tidy(s) && (s.segments != [] || p.Origin?) && (p.Data? ==> p.size > 0)
    ensures Tidy(Step(s, p))
  {
    hide FieldInside, Append, LittleEndian, Lookup, PutItems, PutName, PutBranch;
    match p
    case Origin(a) => FieldsShape(s.segments, s.segments + [Segment(a, [])], s.references);
    case Label(_) =>
    case Data(size, items) => TidyItems(s, items, size);
    case Instruction(opcode, v, size) =>
      TidyEmit(s, opcode, 1);
      TidyEmit(Emit(s, opcode, 1), v, size);
    case WithName(opcode, name, far) =>
      TidyEmit(s, opcode, 1);
      TidyName(Emit(s, opcode, 1), name, far);
    case Branch(forward, backward, name) =>
      var opcode := if Lookup(s.symbols, name).None? then forward else backward;
      TidyEmit(s, opcode, 1);
      TidyBranch(Emit(s, opcode, 1), name);
  }

  predicate RealData(p: seq<Pattern>) {
    forall i :: 0 <= i < |p| && p[i].Data? ==> p[i].size > 0
  }

  /** After every file, with or without errors, addresses and fields are right. */
  lemma {:induction false} TidyPass(s: Assembly, p: seq<Pattern>)
    requires Tidy(s) && (s.segments != [] || Opens(p)) && RealData(p)
    ensures Tidy(Pass(s, p))
    decreases |p|
  {
    hide Tidy, Step;
    if p != [] {
      assert p[0].Data? ==> p[0].size > 0;
      TidyStep(s, p[0]);
      assert RealData(p[1..]);
      TidyPass(Step(s, p[0]), p[1..]);
    }
  }
}
