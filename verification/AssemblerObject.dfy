/** The assembler's object as it is written: segments and references grow line by line and are patched in place. */
module AssemblerObject {
  import opened Wrappers
  import opened Bits
  import opened Assembler
  import opened Backpatching

  lemma {:induction false} LittleEndianSnoc(v: nat, rest: nat, done: nat)
    requires rest == Shifted(v, done)
    ensures LittleEndian(v, done + 1) == LittleEndian(v, done) + [rest % 256] && Shifted(v, done + 1) == rest / 256
    decreases done
  {
    if done > 0 {
      LittleEndianSnoc(v / 256, rest, done - 1);
    }
  }

  /** `v` shifted right by `n` bytes. */
  function Shifted(v: nat, n: nat): nat {
    if n == 0 then v else Shifted(v / 256, n - 1)
  }

  lemma AppendMore(segments: seq<Segment>, a: seq<Byte>, b: seq<Byte>)
    requires segments != []
    ensures Append(Append(segments, a), b) == Append(segments, a + b) && Append(segments, []) == segments
  {
    var n := |segments| - 1;
    assert segments[n].data + (a + b) == segments[n].data + a + b;
    assert segments[n].data + [] == segments[n].data;
    assert Append(segments, [])[n] == segments[n];
  }

  lemma OverwriteNext(data: seq<Byte>, at: nat, bytes: seq<Byte>, b: Byte)
    requires at + |bytes| < |data|
    ensures Overwrite(data, at, bytes)[at + |bytes| := b] == Overwrite(data, at, bytes + [b])
  {
  }

  lemma UnknownName(r: Reference, symbols: seq<Symbol>)
    ensures Lookup(symbols, r.name).None? ==> Filling(r, symbols).None?
  {
  }

  /** The last segment among the first `i` that an address lies in. */
  lemma SegmentAmong(segments: seq<Segment>, i: nat, a: nat)
    requires i < |segments|
    ensures SegmentOf(segments[..i + 1], a) == if Inside(segments[i], a) then Some(i) else SegmentOf(segments[..i], a)
  {
    assert segments[..i + 1][..i] == segments[..i];
  }

  /** Some segment is found for an address that lies in one. */
  lemma {:induction false} SomeSegment(segments: seq<Segment>, i: nat, a: nat)
    requires i < |segments| && Inside(segments[i], a)
    ensures SegmentOf(segments, a).Some?
  {
    var n := |segments| - 1;
    if i < n {
      SomeSegment(segments[..n], i, a);
    }
  }

  lemma FieldFound(segments: seq<Segment>, r: Reference)
    requires FieldInside(segments, r)
    ensures SegmentOf(segments, r.address).Some? && (r.kind.RefRelative? ==> r.size == 1)
  {
    hide SegmentOf;
    var i: nat :| Has(segments, i, r.address, r.size);
    SomeSegment(segments, i, r.address);
  }

  class ObjectFile {
    var segments: seq<Segment>
    var references: seq<Reference>
    var symbols: seq<Symbol>
    var currAddress: nat
    var errorCount: nat

    ghost function Now(): Assembly
      reads this
    {
      Assembly(segments, references, symbols, currAddress, errorCount)
    }

    constructor ()
      ensures Now() == EMPTY
    {
      segments, references, symbols, currAddress, errorCount := [], [], [], 0, 0;
    }

    // ---- Emitting ----

    method NewSegment(address: nat)
      modifies `segments
      ensures segments == old(segments) + [Segment(address, [])]
    {
      segments := segments + [Segment(address, [])];
    }

    /** The low byte first, into the last segment. */
    method AddData(data: nat, size: nat)
      requires segments != []
      modifies `segments
      ensures segments == Append(old(segments), LittleEndian(data, size))
    {
      var rest := data;
      var n := |segments| - 1;
      AppendMore(segments, [], []);
      for i := 0 to size
        invariant |segments| == n + 1 && rest == Shifted(data, i)
        invariant segments == Append(old(segments), LittleEndian(data, i))
      {
        LittleEndianSnoc(data, rest, i);
        AppendMore(old(segments), LittleEndian(data, i), [rest % 256]);
        segments := segments[n := Segment(segments[n].address, segments[n].data + [rest % 256])];
        rest := rest / 256;
      }
    }

    method AddReference(kind: Kind, name: string, size: nat)
      modifies `references
      ensures references == old(references) + [Reference(kind, currAddress, name, size)]
    {
      references := references + [Reference(kind, currAddress, name, size)];
    }

    method AddSymbol(name: string)
      modifies `symbols
      ensures symbols == old(symbols) + [Symbol(name, currAddress)]
    {
      symbols := symbols + [Symbol(name, currAddress)];
    }

    method LookupSymbol(name: string) returns (found: Option<nat>)
      ensures found == Lookup(symbols, name)
    {
      for i := 0 to |symbols|
        invariant Lookup(symbols, name) == Lookup(symbols[i..], name)
      {
        assert symbols[i..][1..] == symbols[i + 1..];
        if symbols[i].name == name {
          return Some(symbols[i].value);
        }
      }
      return None;
    }

    // ---- Lines ----

    method ParseName(name: string, size: nat) returns (value: nat)
      requires segments != []
      modifies `segments, `references, `currAddress
      ensures match Lookup(symbols, name)
              case Some(v) => value == v && Now() == old(Now())
              case None => value == 0 && Now() == Ask(old(Now()), RefData, name, size)
    {
      var symbol := LookupSymbol(name);
      if symbol.None? {
        AddReference(RefData, name, size);
        AddData(0, size);
        currAddress := currAddress + size;
        return 0;
      }
      return symbol.value;
    }

    method ParseData(size: nat, items: seq<Item>)
      requires segments != []
      modifies `segments, `references, `currAddress
      ensures Now() == PutItems(old(Now()), items, size)
    {
      hide Lookup, LittleEndian, Append;
      for i := 0 to |items|
        invariant segments != [] && symbols == old(symbols) && errorCount == old(errorCount)
        invariant PutItems(old(Now()), items, size) == PutItems(Now(), items[i..], size)
      {
        assert items[i..][0] == items[i] && items[i..][1..] == items[i + 1..];
        var data: nat;
        match items[i] {
          case Number(v) => data := v;
          case NameItem(name) => data := ParseName(name, size);
        }
        AddData(data, size);
        currAddress := currAddress + size;
      }
    }

    /** An operand that is a name. */
    method AddName(name: string, far: bool)
      requires segments != []
      modifies `segments, `references, `currAddress
      ensures Now() == PutName(old(Now()), name, far)
    {
      var size := FarSize(far);
      var symbol := LookupSymbol(name);
      if symbol.None? {
        AddReference(RefAbsolute, name, size);
        AddData(0, size);
      } else {
        var data := if far then NormalizeLong(symbol.value) else NormalizeWord(symbol.value);
        AddData(data, size);
      }
      currAddress := currAddress + size;
    }

    /** The distance of a branch. */
    method AddBranch(name: string)
      requires segments != []
      modifies `segments, `references, `currAddress, `errorCount
      ensures Now() == PutBranch(old(Now()), name)
    {
      var symbol := LookupSymbol(name);
      if symbol.None? {
        AddReference(RefRelative, name, 1);
        AddData(0, 1);
        currAddress := currAddress + 1;
      } else {
        var data := Wrap(currAddress - symbol.value - 1);
        if data > 255 {
          errorCount := errorCount + 1;
        } else {
          AddData(data, 1);
          currAddress := currAddress + 1;
        }
      }
    }

    method ParseIns(p: Pattern)
      requires segments != [] && (p.Instruction? || p.WithName? || p.Branch?)
      modifies this
      ensures Now() == Step(old(Now()), p)
    {
      var opcode: Byte;
      if p.Branch? {
        var symbol := LookupSymbol(p.name);
        opcode := if symbol.None? then p.forward else p.backward;
      } else {
        opcode := p.opcode;
      }
      AddData(opcode, 1);
      currAddress := currAddress + 1;
      if p.Instruction? {
        AddData(p.value, p.size);
        currAddress := currAddress + p.size;
      } else if p.WithName? {
        AddName(p.name, p.far);
      } else {
        AddBranch(p.name);
      }
    }

    method ParsePatterns(p: seq<Pattern>)
      requires segments != [] || Opens(p)
      modifies this
      ensures Now() == Pass(old(Now()), p)
    {
      hide Step;
      for i := 0 to |p|
        invariant segments != [] || Opens(p[i..])
        invariant Pass(old(Now()), p) == Pass(Now(), p[i..])
      {
        assert p[i..][0] == p[i] && p[i..][1..] == p[i + 1..];
        ParsePattern(p[i]);
      }
    }

    method ParsePattern(p: Pattern)
      requires segments != [] || p.Origin?
      modifies this
      ensures segments != [] && Now() == Step(old(Now()), p)
    {
      match p
      case Origin(address) =>
        currAddress := address;
        NewSegment(address);
      case Label(name) => AddSymbol(name);
      case Data(size, items) => ParseData(size, items);
      case _ => ParseIns(p);
    }

    // ---- Patching ----

    /** Bytes over what segment `i` holds, from offset `at` on. */
    method InsertData(i: nat, at: nat, data: nat, size: nat)
      requires i < |segments| && at + size <= |segments[i].data|
      modifies `segments
      ensures var s := old(segments)[i];
              segments == old(segments)[i := Segment(s.address, Overwrite(s.data, at, LittleEndian(data, size)))]
    {
      var rest := data;
      ghost var before := segments[i].data;
      assert Overwrite(before, at, []) == before;
      for k := 0 to size
        invariant |segments| == |old(segments)| && rest == Shifted(data, k)
        invariant segments ==
                  old(segments)[i := Segment(old(segments)[i].address, Overwrite(before, at, LittleEndian(data, k)))]
      {
        LittleEndianSnoc(data, rest, k);
        OverwriteNext(before, at, LittleEndian(data, k), rest % 256);
        segments := segments[i := Segment(segments[i].address, segments[i].data[at + k := rest % 256])];
        rest := rest / 256;
      }
    }

    /** The segment of an address; the last one found wins. */
    method FindTarget(address: nat) returns (target: Option<nat>)
      ensures target == SegmentOf(segments, address)
    {
      target := None;
      for i := 0 to |segments|
        invariant target == SegmentOf(segments[..i], address)
      {
        SegmentAmong(segments, i, address);
        if address >= segments[i].address && address < segments[i].address + |segments[i].data| {
          target := Some(i);
        }
      }
      assert segments[..|segments|] == segments;
    }

    /** One reference, with the value of its name. */
    method FillReference(r: Reference, value: nat)
      requires FieldInside(segments, r) && Lookup(symbols, r.name) == Some(value)
      modifies `segments, `errorCount
      ensures match Filling(r, symbols)
              case Some(b) => segments == Insert(old(segments), r.address, b) && errorCount == old(errorCount)
              case None => segments == old(segments) && errorCount == old(errorCount) + 1
    {
      hide Insert, SegmentOf, FieldInside, LittleEndian, NormalizeWord, NormalizeLong, Wrap, Lookup;
      var target := FindTarget(r.address);
      assert target.Some? && (r.kind.RefRelative? ==> r.size == 1) by { FieldFound(segments, r); }
      match r.kind
      case RefData =>
        FillField(target.value, r, value);
      case RefRelative =>
        var data := Wrap(value - r.address - 2);
        if data > 255 {
          errorCount := errorCount + 1;
        } else {
          FillField(target.value, r, data);
        }
      case RefAbsolute =>
        var data := if r.size == 2 then NormalizeWord(value) else NormalizeLong(value);
        FillField(target.value, r, data);
    }

    /** `data` into the field of a reference, where the field ends inside the segment found for it. (It may not only
        when segments overlap, and then the linker refuses the file.) */
    method FillField(target: nat, r: Reference, data: nat)
      requires SegmentOf(segments, r.address) == Some(target)
      modifies `segments
      ensures segments == Insert(old(segments), r.address, LittleEndian(data, r.size))
    {
      hide Overwrite, LittleEndian, SegmentOf;
      var at := r.address - segments[target].address;
      if at + r.size <= |segments[target].data| {
        InsertData(target, at, data, r.size);
      }
    }

    /** All references; those whose name nobody declares stay unresolved. */
    method ResolveReferences() returns (unresolved: nat)
      requires FieldsInside(segments, references)
      modifies `segments, `errorCount
      ensures segments == Patch(old(segments), references, symbols)
      ensures errorCount >= old(errorCount)
      ensures (errorCount == old(errorCount) && unresolved == 0) <==> Resolved(references, symbols)
    {
      hide Filling, Insert, Lookup, FieldInside;
      unresolved := 0;
      for i := 0 to |references|
        invariant Patch(old(segments), references, symbols) == Patch(segments, references[i..], symbols)
        invariant FieldsInside(segments, references) && errorCount >= old(errorCount)
        invariant (errorCount == old(errorCount) && unresolved == 0) <==> Resolved(references[..i], symbols)
      {
        var r := references[i];
        assert references[i..][0] == r && references[i..][1..] == references[i + 1..];
        assert references[..i + 1] == references[..i] + [r];
        ResolvedSnoc(references[..i], r, symbols);
        var value := LookupSymbol(r.name);
        UnknownName(r, symbols);
        if value.None? {
          unresolved := unresolved + 1;
        } else {
          ghost var before := segments;
          FillReference(r, value.value);
          if Filling(r, symbols).Some? {
            InsertShape(before, r.address, Filling(r, symbols).value);
            FieldsShape(before, segments, references);
          }
        }
      }
      assert references[..|references|] == references;
    }
  }
}
